# A model of the coordination, recovery and evidence protocols of DingTalk DSH Assistant

This project models the parts of the assistant whose correctness is a matter of protocol or of an
exact algorithm, and proves what they are meant to guarantee. `dafny verify dfyconfig.toml` checks it.

| files | what they model |
|---|---|
| `Calendar.dfy`, `CalendarRules.dfy` | local date and time arithmetic of recurring rules in a zone, and what their slots are on the wall clock |
| `Schedules.dfy`, `ScheduleStore.dfy`, `ScheduleSafety.dfy`, `BlockedReclaim.dfy`, `ScanConservation.dfy`, `ScheduleDelivery.dfy`, `SlotOwnership.dfy`, `ScheduleControl.dfy`, `ScheduleChanges.dfy` | schedules, occurrences, slots and jobs; the object that keeps them; safety over every run and the run that breaks it; conservation of calendar slots; deliveries; who can be claimed; pausing and ending; changes, due instants and the backlog |
| `Graphs.dfy`, `Ordinals.dfy`, `Ledger.dfy`, `LedgerStore.dfy`, `LedgerGraph.dfy`, `RevivalLoop.dfy`, `LedgerRuns.dfy`, `LedgerCommitments.dfy`, `LedgerControl.dfy`, `LedgerLifecycles.dfy`, `LedgerSources.dfy`, `LedgerOrdinals.dfy`, `OrdinalMeaning.dfy` | the coordination ledger: depth-first graph check, frozen source order, every command, the object that keeps it, and what holds over every run |
| `Bridge.dfy`, `BridgeStore.dfy`, `BridgeSafety.dfy`, `BridgeDebts.dfy`, `BridgeCoverage.dfy`, `BridgePauses.dfy`, `BridgeWishes.dfy` | listeners, backfills, recovery bounds, and pausing of the message ingress |
| `CanonicalJson.dfy`, `JsonGuard.dfy` | canonical JSON and its guards against cyclic and foreign values |
| `Sessions.dfy`, `SessionTurns.dfy` | the slot of a group and its bounded priority for routing |
| `Replay.dfy`, `ReplayMeaning.dfy`, `Batches.dfy`, `Readers.dfy`, `ReaderFormats.dfy` | replay of managed edits, batched search of a frozen tree, framed readers |
| `Coverage.dfy`, `Pagination.dfy` | who has read everything: visible pages, manifests, paged queries |
| `ExecutionLog.dfy`, `ExecutionHistory.dfy` | the append-only execution log, its tool calls, and which histories are accepted |
| `Wrappers.dfy` | options, results and a fact on sequences |

The repository keeps the independent coordination feature for contract review only (`README.md:7`); its
schedules, ledger and source order are modelled as the code stands.

## How to read it

State that the program updates in place is a class (`ScheduleStore.Store`, `LedgerStore.Store`,
`BridgeStore.Listening`, `Sessions.GroupSlot`, `Graphs.Search`, `Replay.Replayer`, the readers,
`ExecutionLog.Session`). A command that can fail is a method whose `ensures` gives the whole new state
or the thrown code with the old state, as a function of the old state; the theorems over whole runs
are lemmas about those functions. Rows of tables are values in maps, as `get` returns a fresh copy of a
stored row and `put` replaces it.

What belongs to other components is a parameter of every step and may be anything, so the theorems
hold for all of it: the clock, zone data, task versions and completions, whether a trigger fact still
holds, notices, the reply of Git, whether a request is still current. Where several checks could fail
at once the model reports one of the codes.

Hypotheses, each visible in the statement that needs it:

- digests are injective: slot, occurrence and source ids are the data they are computed from, and a
  blob is named by its bytes;
- a zone has whole-minute offsets of at most 30 h in force for at least 6 h (exactness of the local
  time search), or never lets the local date decrease (conservation of slots);
- a finite number is the text ECMAScript prints for it, which only 0 and -0 share;
- only routing requests have updates of a turn in flight (`topic-runtime.js:862-873` in the same package);
- the permission request and the result of one tool call are each handled one at a time.

## Where the code does less than it means to

Each point is proved with a run or an input that shows it, and with the exact condition under which
it does not happen.

- A blocked job can be claimed again beside a running occurrence of its schedule, because the overlap
  is looked for only when a job is waiting (`BlockedReclaim.BlockedReclaimBreaksSerial`, exactly then:
  `ScheduleSafety.SerialExactly`).
- Resuming, and also pausing, a revoked member that was already applied brings its dependencies back
  into the task graph unchecked (`RevivalLoop.ResumingCanCloseALoop`, exactly when: `LedgerGraph.StepIsAcyclic`).
- The ingress bound is dropped when its save returns, not when recovery was found complete; a
  listener lost in between is remembered only in memory (`BridgeDebts.LossDuringSaveIsForgotten`,
  exactly when: `BridgeDebts.DropIsExact`).
- A pause that cuts a backfill short keeps the bound of the pause and not the start of that backfill
  (`BridgePauses.PauseForgetsBackfill`, exactly when: `BridgePauses.PauseForgetsExactly`).
- A backfill that fails leaves no bound, so the next one begins at the default start of its own time
  (`BridgePauses.FailureLeavesNoBound`, exactly where a backfill begins: `BridgeCoverage.BackfillReaches`).
- Nothing in the repository ends a queued delivery but a cancellation, so a reported reminder keeps
  every other occurrence of its schedule from starting until it is cancelled
  (`ScheduleDelivery.ReportedReminderBlocks`, exactly when a claim succeeds: `SlotOwnership.ClaimIsExact`).
- A reply header of more than 1024 bytes is accepted or refused depending on how it is cut
  (`Readers.LongHeadersDependOnChunks`, exactly when: `Readers.HeaderLimitIsExact` and, cut by cut,
  `Readers.ChunksYieldContent`).
- A section page whose end lies beyond the text makes the measured length exceed the text
  (`Coverage.LengthCanExceedText`, exactly when: `Coverage.LengthExceedsText`). The page builders of
  `topic-runtime.js:221-245` in the same package never give such an end, so only the result of another
  tool can be that page; the router's check rules it out (`Coverage.LengthStaysWithin`).
- A section page with a negative offset counts from the end of the text, and an empty one can make
  unseen text count as read (`Coverage.UnseenCanCount`, exactly when: `Coverage.SectionCounts`). The
  page builders never give such an offset either, and the router refuses it.
- An execution that is no longer current when it starts records only that it drained, and no later
  execution accepts the log (`ExecutionLog.StaleStartSpoilsTheLog`, exactly then:
  `ExecutionLog.LogIsAcceptedExactly`).

## Model

| member | source | states |
|---|---|---|
| `Calendar.FirstLocalInstantIsExact` | packages/dingtalk-dsh-assistant/coordination-time.js:60-72 | For offsets of whole minutes, at most 30 h, each in force for at least 6 h: the probe search answers the least instant showing the local date and time, and nothing exactly when no instant shows it |
| `Calendar.ShorterRegimeCanBeMissed` | packages/dingtalk-dsh-assistant/coordination-time.js:63-66 | The 6 h bound is tight: with an offset in force for 5 h 59 min the search answers that an existing local time does not exist |
| `Calendar.FindFirstLocalInstant` | packages/dingtalk-dsh-assistant/coordination-time.js:60-72 | The loop over the thirteen probes and the filter compute that search |
| `Calendar.FindNextTimeSlot` | packages/dingtalk-dsh-assistant/coordination-time.js:40-54 | The day loop computes the next slot, its errors included |
| `Calendar.CountTimeSlots` | packages/dingtalk-dsh-assistant/coordination-time.js:75-93 | The sweep computes the summary, its errors included |
| `Calendar.DaysAreOrdered` | packages/dingtalk-dsh-assistant/coordination-time.js:40-93 | When local dates never decrease, the slots of successive days are in order, in every zone and for every recurring rule |
| `Calendar.Days.NextIsLeast` | packages/dingtalk-dsh-assistant/coordination-time.js:40-54 | The next slot is the least slot after the given instant outside the skipped date; the search fails only when there is none within 16 days |
| `Calendar.Days.SummaryIsExact` | packages/dingtalk-dsh-assistant/coordination-time.js:75-93 | The summary is the exact number of slots of the closed interval and the last of them |
| `Calendar.Days.SummaryAgreesWithIteration` | packages/dingtalk-dsh-assistant/coordination-time.js:40-93 | Summarising an interval at once gives the same count and latest slot as stepping from slot to slot |
| `CalendarRules.SlotsAreRuleInstants` | packages/dingtalk-dsh-assistant/coordination-time.js:40-54 | A slot is exactly an instant at which the wall clock first shows the minute of the rule on a day that lies whole weeks plus the weekday of the rule after Sunday 4 January 1970 |
| `CalendarRules.NextIsLeastRuleInstant` | packages/dingtalk-dsh-assistant/coordination-time.js:40-54 | The next slot is the least of those instants after the given one and off the skipped date, of which none is answered |
| `CalendarRules.SummaryCountsRuleInstants` | packages/dingtalk-dsh-assistant/coordination-time.js:75-93 | The summary counts exactly those instants of the closed interval and names the last of them |
| `ScheduleStore.Store.CancelOccurrence` | packages/dingtalk-dsh-assistant/coordination-schedules.js:215-230 | Cancelling updates revisions, state, delivery and fence of one occurrence and its job, and nothing else; a second cancellation changes nothing |
| `ScheduleStore.Store.CancelCoordination` | packages/dingtalk-dsh-assistant/coordination-schedules.js:231-240 | Every open schedule of an arrangement ends and its occurrences are cancelled |
| `ScheduleStore.Store.ReplaceUnstarted` | packages/dingtalk-dsh-assistant/coordination-schedules.js:241-264 | An unstarted occurrence moves to a new revision in its slot or in a free one; otherwise the slot counts as consumed |
| `ScheduleStore.Store.CreateSchedule` | packages/dingtalk-dsh-assistant/coordination-schedules.js:267-286 | The whole new table state, or the first error with the tables unchanged |
| `ScheduleStore.Store.ChangeSchedule` | packages/dingtalk-dsh-assistant/coordination-schedules.js:287-324 | The whole new table state, or the first error with every partial change rolled back |
| `ScheduleStore.Store.DueSchedules` | packages/dingtalk-dsh-assistant/coordination-schedules.js:329 | The schedules scanned are due, in the order of their due instants, without repetition, and none is left out before the limit |
| `ScheduleStore.Store.AcceptSlot` | packages/dingtalk-dsh-assistant/coordination-schedules.js:336-361 | A new slot gets one occurrence, which absorbs every waiting one unless it has expired |
| `ScheduleStore.Store.Scan` | packages/dingtalk-dsh-assistant/coordination-schedules.js:325-369 | A scan processes exactly the listed due schedules one after the other, or changes nothing |
| `ScheduleStore.Store.ClaimJob` | packages/dingtalk-dsh-assistant/coordination-schedules.js:370-398 | A claim checks state, definition, overlap and slot, then takes the next fence and a lease |
| `ScheduleStore.Store.CompleteJob` | packages/dingtalk-dsh-assistant/coordination-schedules.js:399-481 | A report settles job and occurrence under a held lease, or changes nothing |
| `ScheduleStore.Store.AcceptOccurrence` | packages/dingtalk-dsh-assistant/coordination-schedules.js:482-510 | Accepting an event twice with the same definition changes nothing; a different definition is refused |
| `ScheduleStore.Store.ControlOne` | packages/dingtalk-dsh-assistant/coordination-schedules.js:511-525 | Pausing or resuming returns the occurrence to waiting under a new fence and revision |
| `ScheduleSafety.EveryCommandIsGood` | packages/dingtalk-dsh-assistant/coordination-schedules.js:265-528 | Every command keeps the four tables consistent with each other, undoes no started slot, outcome or fence, and lets no occurrence run but the one it claims |
| `ScheduleSafety.EveryRunIsGood` | packages/dingtalk-dsh-assistant/coordination-schedules.js:265-528 | The same over every run |
| `ScheduleSafety.SlotStartsOnce` | packages/dingtalk-dsh-assistant/coordination-schedules.js:241-264 | Once a slot has a starter it keeps it in every later state, and that starter stays its current occurrence |
| `ScheduleSafety.AttemptedJobOwnsItsSlot` | packages/dingtalk-dsh-assistant/coordination-schedules.js:370-397 | In every reachable state a time-triggered job that was ever attempted belongs to the occurrence that is both current and started for its slot |
| `ScheduleSafety.OutcomesAreFinal` | packages/dingtalk-dsh-assistant/coordination-schedules.js:215-230 | In every run a succeeded, expired, superseded or cancelled occurrence keeps that state |
| `ScheduleSafety.FenceServesOnce` | packages/dingtalk-dsh-assistant/coordination-schedules.js:137-141 | After a report under a fence, every later report under it is stale, however the run goes on |
| `ScheduleSafety.SerialExactly` | packages/dingtalk-dsh-assistant/coordination-schedules.js:376-397 | From at most one runner per schedule a command leads to at most one again exactly unless it claims a blocked job beside a runner |
| `ScheduleSafety.RunsStaySerial` | packages/dingtalk-dsh-assistant/coordination-schedules.js:370-397 | Runs without such a claim keep at most one runner per schedule |
| `BlockedReclaim.BlockedReclaimBreaksSerial` | packages/dingtalk-dsh-assistant/coordination-schedules.js:376-397 | A run from empty tables (create, scan, claim, blocked report, next scan, claim) after which claiming the blocked job makes two occurrences of one schedule run |
| `ScheduleDelivery.EveryCommandQueues` | packages/dingtalk-dsh-assistant/coordination-schedules.js:399-481 | Every command keeps what was accepted and queues a delivery for exactly what it reports; a cancellation ends what is pending for ever, and revisions grow when an occurrence is cancelled or superseded |
| `ScheduleDelivery.EveryReportIsDelivered` | packages/dingtalk-dsh-assistant/coordination-schedules.js:399-481 | In every run a reminder or query that has succeeded, and a query that is blocked, has had a delivery queued; a command that succeeded without one has a target that asks for a summary only |
| `ScheduleDelivery.AcceptedStays` | packages/dingtalk-dsh-assistant/coordination-schedules.js:399-481 | In every run what an occurrence was accepted to do, and for whom, stays as it was |
| `ScheduleDelivery.QueuedDeliveryBlocks` | packages/dingtalk-dsh-assistant/coordination-schedules.js:387-388 | A pending delivery keeps every other occurrence of its schedule from a first claim |
| `ScheduleDelivery.ReportedReminderBlocks` | packages/dingtalk-dsh-assistant/coordination-schedules.js:387-406 | In every run a reported reminder does so until it is cancelled |
| `SlotOwnership.EveryCommandOwns` | packages/dingtalk-dsh-assistant/coordination-schedules.js:265-528 | Every command leaves each waiting occurrence the current one of its slot and its definition on record; only its own control pauses or resumes it, and its own commands are given to it once |
| `SlotOwnership.ClaimIsExact` | packages/dingtalk-dsh-assistant/coordination-schedules.js:370-397 | In every reachable state a claim succeeds exactly for a waiting occurrence that is alone, due and active or whose trigger holds, a running one whose lease is over, or a blocked one, neither paused nor cancelled: none is refused for a lost slot, job or definition |
| `ScheduleControl.PausedUntilResumed` | packages/dingtalk-dsh-assistant/coordination-schedules.js:511-521 | In every run a paused occurrence is neither claimed nor reported until it is resumed itself |
| `ScheduleControl.ResumedCanStart` | packages/dingtalk-dsh-assistant/coordination-schedules.js:511-521 | Once resumed it can be claimed exactly as soon as its trigger allows |
| `ScheduleControl.InterruptedReportIsStale` | packages/dingtalk-dsh-assistant/coordination-schedules.js:137-141 | In every run whoever held a job when its occurrence was paused, resumed or cancelled can report nothing any more |
| `ScheduleControl.RevisionServesOnce` | packages/dingtalk-dsh-assistant/coordination-schedules.js:511-525 | In every run a control that acts uses up the revision it was addressed to |
| `ScheduleControl.CancellationIsFinal` | packages/dingtalk-dsh-assistant/coordination-schedules.js:215-230 | In every run a cancelled occurrence stays cancelled, is not claimed or reported again, and delivers nothing more |
| `ScheduleControl.CancelledArrangementIsOver` | packages/dingtalk-dsh-assistant/coordination-schedules.js:231-240 | Cancelling an arrangement ends its open schedules and cancels its occurrences, each with the delivery state that its notice tells, and touches nothing of any other |
| `ScheduleControl.StoppedUntilReactivated` | packages/dingtalk-dsh-assistant/coordination-schedules.js:287-329 | In every run, from a pause or an end of a schedule until it is made active again, no scan accepts anything for it and no waiting occurrence of it can be claimed |
| `ScheduleControl.EndedForEver` | packages/dingtalk-dsh-assistant/coordination-schedules.js:287-289 | In every run an ended schedule stays ended |
| `ScheduleControl.RoundKeepsItsCommands` | packages/dingtalk-dsh-assistant/coordination-schedules.js:399-481 | In every run the instructions made for one round of a recurring occurrence are what it releases from then on |
| `ScheduleControl.TriggerIsAcceptedOnce` | packages/dingtalk-dsh-assistant/coordination-schedules.js:482-510 | In every run a trigger once accepted is accepted again without effect for the same arrangement and definition, and refused for any other |
| `ScheduleControl.LeaseLastsAMinute` | packages/dingtalk-dsh-assistant/coordination-schedules.js:376-394 | A claimed job can be claimed again exactly from one minute on |
| `ScheduleChanges.CreatedIsDue` | packages/dingtalk-dsh-assistant/coordination-schedules.js:267-286 | A new schedule is first due at its one instant, or at the first instant of its rule after its creation |
| `ScheduleChanges.ChangedAsAsked` | packages/dingtalk-dsh-assistant/coordination-schedules.js:287-324 | A change does what it asks and leaves the rest; a redefined schedule is due at the first instant of its rule from now on that is off the date last served, or at an earlier planned replacement |
| `ScheduleChanges.ChangeReaches` | packages/dingtalk-dsh-assistant/coordination-schedules.js:241-264 | The end of a schedule cancels its occurrences, a change of what has not started moves each waiting one to the new revision and instant, and any other change leaves all as they are |
| `ScheduleChanges.ScanServes` | packages/dingtalk-dsh-assistant/coordination-schedules.js:325-369 | A scan serves the last instant missed, with the number of the others: one occurrence that is expired exactly when too late and not to be caught up, which takes the place of the waiting ones; next due is the first instant off that date |
| `ScheduleChanges.RedefinedOffTheServedDate` | packages/dingtalk-dsh-assistant/coordination-schedules.js:310-364 | Whatever happens between a scan and a redefinition, the redefined schedule is not due again on the date that the scan served |
| `ScheduleChanges.BacklogIsOne` | packages/dingtalk-dsh-assistant/coordination-schedules.js:351-358 | In every run each schedule has at most one occurrence that waits and was never attempted |
| `ScanConservation.ScanAccounts` | packages/dingtalk-dsh-assistant/coordination-schedules.js:325-366 | One scan accounts for exactly the calendar slots since the previous one: the accepted occurrence plus what it merges |
| `ScanConservation.EveryRunAccounts` | packages/dingtalk-dsh-assistant/coordination-schedules.js:325-366 | No other command changes that account, and no run that leaves the schedule its definition, pauses included |
| `ScanConservation.ScansConserveSlots` | packages/dingtalk-dsh-assistant/coordination-schedules.js:325-366 | After any run from the creation of a recurring schedule, pauses and resumptions included, its accepted occurrences, each with what it merged, number exactly the calendar slots from the first due instant to the last scan that processed it |
| `Graphs.AddingEdgesStaysAcyclic` | packages/dingtalk-dsh-assistant/coordination-ledger.js:155-174 | Giving a node new parents keeps a graph acyclic exactly when no new parent already leads to that node |
| `Graphs.Search.Visit` | packages/dingtalk-dsh-assistant/coordination-ledger.js:170-173 | A visit that fails has met a cycle; one that succeeds leaves every visited node finished after all its parents, and it terminates |
| `Graphs.Search.VisitAll` | packages/dingtalk-dsh-assistant/coordination-ledger.js:170-173 | The depth-first check accepts exactly the acyclic graphs |
| `Graphs.SomeNodeIsFree` | packages/dingtalk-dsh-assistant/coordination-ledger.js:35 | In a finite acyclic graph some node of every non-empty set waits on no other node of it |
| `LedgerStore.BuildEdges` | packages/dingtalk-dsh-assistant/coordination-ledger.js:156-169 | The edge map holds exactly the effective, or the recorded, task dependencies of the members in force |
| `LedgerStore.CheckGraph` | packages/dingtalk-dsh-assistant/coordination-ledger.js:155-174 | The check refuses exactly a missing prerequisite, a prerequisite of another group, or a cycle |
| `LedgerStore.Store.Reserve` | packages/dingtalk-dsh-assistant/coordination-ledger.js:207-220 | Reserving a known source changes nothing, and is refused when its text, group or reservation differs |
| `LedgerStore.Store.SourceStep` | packages/dingtalk-dsh-assistant/coordination-ledger.js:221-296 | Every source command: fence and owner checks, freeze and handover, and what remains possible before acceptance |
| `LedgerStore.Store.AdmitProposal` | packages/dingtalk-dsh-assistant/coordination-ledger.js:303-347 | The checks of an acceptance before anything is recorded |
| `LedgerStore.Store.AcceptProposal` | packages/dingtalk-dsh-assistant/coordination-ledger.js:297-366 | The whole new ledger of an acceptance, replacing an arrangement that awaits clarification or not |
| `LedgerStore.Store.ApplyMember` | packages/dingtalk-dsh-assistant/coordination-ledger.js:367-385 | A frozen command is handed on or the call waits; nothing else changes |
| `LedgerStore.Store.AssessOrder` | packages/dingtalk-dsh-assistant/coordination-ledger.js:391-417 | An assessment settles a proposed order or leaves it open, after the graph is checked again |
| `LedgerStore.Store.AnswerDraft` | packages/dingtalk-dsh-assistant/coordination-ledger.js:423-444 | Answered clarifications give way to new members, in their slots of the source order |
| `LedgerStore.Store.AppendDraft` | packages/dingtalk-dsh-assistant/coordination-ledger.js:473-490 | Appended members take the place of revoked ones for the same task and extend the source order |
| `LedgerStore.Store.ReorderDraft` | packages/dingtalk-dsh-assistant/coordination-ledger.js:491-508 | New dependencies apply at once to untouched members and as a proposal to started ones |
| `LedgerStore.Store.ChangeArrangement` | packages/dingtalk-dsh-assistant/coordination-ledger.js:418-518 | The whole new ledger of a change, or an error with nothing changed |
| `LedgerStore.Store.CancelOne` | packages/dingtalk-dsh-assistant/coordination-ledger.js:544-553 | Cancelling an arrangement withdraws its members that are still ready |
| `LedgerStore.Store.Retire` | packages/dingtalk-dsh-assistant/coordination-ledger.js:519-543 | Only an arrangement of pure observations is retired, and its members are revoked |
| `LedgerStore.Store.InstantiateRecurring` | packages/dingtalk-dsh-assistant/coordination-ledger.js:181-200 | A recurring round adds its members to the arrangement under the same graph check |
| `LedgerGraph.StepIsAcyclic` | packages/dingtalk-dsh-assistant/coordination-ledger.js:155-180 | From an acyclic effective task graph every command leads to an acyclic one exactly unless it pauses or resumes a revoked member whose prerequisites already lead to its own task |
| `LedgerGraph.RevivalIsAcyclic` | packages/dingtalk-dsh-assistant/coordination-ledger.js:462-471 | Bringing back any list of revoked members keeps the graph acyclic exactly when each of them, one after the other, is safe |
| `LedgerGraph.EveryCarefulRunIsAcyclic` | packages/dingtalk-dsh-assistant/coordination-ledger.js:201-555 | Every run from the empty ledger without an unsafe revival keeps the effective task graph acyclic |
| `LedgerGraph.InstructionLoopIsTaskLoop` | packages/dingtalk-dsh-assistant/coordination-ledger.js:313-330 | Instructions that wait for each other in a circle belong to tasks that do, so the walk along instructions finds no loop that the walk along tasks does not |
| `RevivalLoop.ResumingCanCloseALoop` | packages/dingtalk-dsh-assistant/coordination-ledger.js:462-471 | A run from the empty ledger after which a successful resume leaves two tasks waiting on each other |
| `LedgerRuns.StepKeepsMembers` | packages/dingtalk-dsh-assistant/coordination-ledger.js:117-154 | No command changes the frozen part of a member, and a member that has left the ready state never returns to it |
| `LedgerRuns.StepApplies` | packages/dingtalk-dsh-assistant/coordination-ledger.js:367-384 | Only an apply hands a frozen command on, once, for a ready, running, current, triggered member without open assessment whose dependencies are all complete |
| `LedgerRuns.EveryRunAppliesOnce` | packages/dingtalk-dsh-assistant/coordination-ledger.js:18-35 | In every run each frozen command is applied at most once, and at that moment every dependency its member then carried had a current completion proof |
| `LedgerRuns.SomeMemberIsFree` | packages/dingtalk-dsh-assistant/coordination-ledger.js:35 | With an acyclic graph, any non-empty set of members in force without open assessment has one that waits on no other of the set |
| `LedgerCommitments.AskedIsRecorded` | packages/dingtalk-dsh-assistant/coordination-ledger.js:108-153 | What a command records of an instruction is what its input says: task, frozen command, version, order, and its place in the arrangement |
| `LedgerCommitments.AcceptedOrderIsKept` | packages/dingtalk-dsh-assistant/coordination-ledger.js:367-384 | In every run an accepted, answered, appended or recurring instruction is handed on, until a reordering names it, only when everything its input asked it to come after is complete |
| `LedgerCommitments.ReorderedOrderIsKept` | packages/dingtalk-dsh-assistant/coordination-ledger.js:491-508 | After a reordering the same holds of the order it asked for, also while and after that is assessed, until the next one |
| `LedgerCommitments.AppliedInOrder` | packages/dingtalk-dsh-assistant/coordination-ledger.js:18-35 | In every run commands are handed on after those they depend on, and after the tasks of those have been completed by them |
| `LedgerControl.StepKeepsControls` | packages/dingtalk-dsh-assistant/coordination-ledger.js:462-471 | Only steering starts a member again |
| `LedgerControl.StoppedUntilResumed` | packages/dingtalk-dsh-assistant/coordination-ledger.js:462-471 | In every run a paused or cancelled member is not handed on, and nothing that depends on it is, until a resume selects it |
| `LedgerControl.HandedOnExactly` | packages/dingtalk-dsh-assistant/coordination-ledger.js:367-384 | A frozen command is handed on exactly when its member runs and everything else is ready |
| `LedgerControl.ResumedRunsAgain` | packages/dingtalk-dsh-assistant/coordination-ledger.js:462-471 | A resumed member is handed on once everything else is ready |
| `LedgerControl.ResumeUndoesPause` | packages/dingtalk-dsh-assistant/coordination-ledger.js:462-471 | Resuming what was paused leaves every member as it was |
| `LedgerControl.CancelledIsNeverHandedOn` | packages/dingtalk-dsh-assistant/coordination-ledger.js:465 | In every run a member cancelled while ready is never handed on, resumed or not |
| `LedgerLifecycles.RevisionServesOnce` | packages/dingtalk-dsh-assistant/coordination-ledger.js:418-421 | In every run, of all changes, cancellations and replacements decided on one revision of an arrangement, one at most is carried out |
| `LedgerLifecycles.EndedHandsNothingOn` | packages/dingtalk-dsh-assistant/coordination-ledger.js:519-553 | In every run a cancelled or retired arrangement stays so, and no command of it, nor any that depends on one of it, is handed on |
| `LedgerLifecycles.CancelWithdraws` | packages/dingtalk-dsh-assistant/coordination-ledger.js:544-553 | Cancelling an arrangement withdraws exactly its members that are ready |
| `LedgerLifecycles.RetiredHandedNothingOn` | packages/dingtalk-dsh-assistant/coordination-ledger.js:519-543 | In every run a retired arrangement had no open question, and none of its members was ever handed on |
| `LedgerLifecycles.AcceptedAsProposed` | packages/dingtalk-dsh-assistant/coordination-ledger.js:297-366 | An accepted arrangement has the members, the open questions and the way of waiting of its proposal |
| `LedgerLifecycles.AllTogetherWaits` | packages/dingtalk-dsh-assistant/coordination-ledger.js:378-380 | In every run an arrangement accepted to wait for all its questions hands nothing on while one of them is unanswered |
| `LedgerLifecycles.RoundsHaveNoOrdinal` | packages/dingtalk-dsh-assistant/coordination-ledger.js:181-200 | In every run a round of a recurring plan changes the meaning of no ordinal |
| `LedgerSources.HandedOverIsNeverDispatched` | packages/dingtalk-dsh-assistant/coordination-ledger.js:225-238 | In every run a source handed to the legacy topic owner was and will be the source of no arrangement |
| `LedgerSources.NeverBoth` | packages/dingtalk-dsh-assistant/coordination-ledger.js:225-239 | In every run no source is both accepted and frozen |
| `LedgerSources.AcceptedIsFinal` | packages/dingtalk-dsh-assistant/coordination-ledger.js:239 | In every run an accepted source is not frozen, stays accepted, is never frozen later, and keeps its owner |
| `LedgerSources.OnlyReservedIsAccepted` | packages/dingtalk-dsh-assistant/coordination-ledger.js:297-299 | A corollary of the checks of one command: only a reserved, unfrozen source is accepted, so none is accepted twice |
| `LedgerLifecycles.SourcesKeepTheirText` | packages/dingtalk-dsh-assistant/coordination-ledger.js:207-220 | In every run a source keeps its text, group and reservation, and its fence never goes back |
| `LedgerLifecycles.SourceServesOnce` | packages/dingtalk-dsh-assistant/coordination-ledger.js:297-299 | In every run each source makes one proposal or change at most, and none once it was rejected |
| `LedgerLifecycles.ClosedFenceIsRefused` | packages/dingtalk-dsh-assistant/coordination-ledger.js:221-296 | In every run whoever acted for a source before it was reconsidered or handed over can do nothing under the old fence, and after a handover nobody can under any |
| `LedgerLifecycles.ReconsideredOnce` | packages/dingtalk-dsh-assistant/coordination-ledger.js:221-296 | In every run a source is reconsidered once |
| `Ordinals.FreezeSourceOrder` | packages/dingtalk-dsh-assistant/coordination-changes.js:11-36 | The validation loop, the sort and the final pass compute the frozen order |
| `Ordinals.FreezeIsExact` | packages/dingtalk-dsh-assistant/coordination-changes.js:11-36 | A source order is accepted exactly when its entries are valid, their targets distinct, their ordinals 1..n, and their quotes ascending and disjoint |
| `Ordinals.EachPartHasOneSlot` | packages/dingtalk-dsh-assistant/coordination-changes.js:13-31 | In a frozen order every new member and every open question has exactly one slot and nothing else has one |
| `Ordinals.FrozenIsWellOrdered` | packages/dingtalk-dsh-assistant/coordination-changes.js:28-35 | Frozen slots carry the exact quotes of the original text at their ranges |
| `Ordinals.AppendedIsWellOrdered` | packages/dingtalk-dsh-assistant/coordination-ledger.js:477-481 | A corollary used by every append: the slots of another source keep ordinals 1..n and the ranges of each source disjoint and ascending |
| `Ordinals.OrdinalStays` | packages/dingtalk-dsh-assistant/coordination-changes.js:47-75 | An ordinal that means an instruction means it in every directory that continues this one, with or without a frozen order |
| `OrdinalMeaning.OrdinalMeansItsSlot` | packages/dingtalk-dsh-assistant/coordination-changes.js:57 | With a frozen order, an ordinal means an instruction exactly when the slot of that ordinal has it, and it alone, and it is a member |
| `OrdinalMeaning.OrdinalCountsOriginals` | packages/dingtalk-dsh-assistant/coordination-changes.js:47-75 | Without one, and with no question ever left open, it means an instruction exactly when that is the member of that number, recurring rounds not counted |
| `OrdinalMeaning.AcceptedMeans` | packages/dingtalk-dsh-assistant/coordination-changes.js:11-36 | After an acceptance the ordinal of each entry of the proposal means the member of that entry, and the ordinal of an open question none |
| `OrdinalMeaning.AnsweredMeans` | packages/dingtalk-dsh-assistant/coordination-ledger.js:423-444 | After an answer the ordinal of a question means the one instruction assigned to it |
| `OrdinalMeaning.AppendedMeans` | packages/dingtalk-dsh-assistant/coordination-ledger.js:473-485 | After an append the numbers go on: entry k of the appended order has the ordinal that many slots later |
| `OrdinalMeaning.NumberedPartsKeepTheirNames` | packages/dingtalk-dsh-assistant/coordination-changes.js:47-75 | In every run from an acceptance on, each numbered part keeps meaning the member that its entry named |
| `LedgerOrdinals.StepIsSteady` | packages/dingtalk-dsh-assistant/coordination-ledger.js:418-518 | Every command keeps every frozen order well ordered and every arrangement a continuation of what it was |
| `LedgerOrdinals.OrdinalsAreNeverRepointed` | packages/dingtalk-dsh-assistant/coordination-changes.js:47-75 | In every run, once an ordinal means an instruction no later command makes it mean another one or none |
| `BridgeStore.Listening.QueueGroupBackfill` | packages/dingtalk-dsh-assistant/dws-bridge.js:287-318 | Queueing starts at most one backfill per entry, from the earlier of the default start and the recovery bound |
| `BridgeStore.Listening.BackfillCompletes` | packages/dingtalk-dsh-assistant/dws-bridge.js:332-345 | Completion ends the recovery only in the epoch in which the backfill began and with the listener ready |
| `BridgeStore.Listening.BackfillSettles` | packages/dingtalk-dsh-assistant/dws-bridge.js:365-374 | A wish noted during a backfill starts another one after it |
| `BridgeStore.Listening.ListenerFails` | packages/dingtalk-dsh-assistant/dws-bridge.js:675-693 | A lost listener moves the bound to the earliest instant that may have been missed |
| `BridgeStore.Listening.ListenerIsReady` | packages/dingtalk-dsh-assistant/dws-bridge.js:694-703 | A ready listener asks for a backfill, of recovery when one is owed |
| `BridgeStore.Listening.HumanListenerFails` | packages/dingtalk-dsh-assistant/dws-bridge.js:783-801 | Losing the shared private listener moves the bound of every private conversation |
| `BridgeStore.Listening.PauseGroups` | packages/dingtalk-dsh-assistant/dws-bridge.js:903-914 | A pause stops every group and moves its bound |
| `BridgeStore.Listening.FinishRecovery` | packages/dingtalk-dsh-assistant/dws-bridge.js:878-892 | The end of the ingress recovery is decided only when every group has recovered |
| `BridgeSafety.CompletionIsGood` | packages/dingtalk-dsh-assistant/dws-bridge.js:336-340 | What a group owes ends only with a complete backfill that began at or before the bound, no listener lost and no pause since |
| `BridgeSafety.StepIsSound` | packages/dingtalk-dsh-assistant/dws-bridge.js:287-375 | Every step of every piece of code keeps the invariants, moves no bound later, and ends no debt in another way |
| `BridgeSafety.RunIsSound` | packages/dingtalk-dsh-assistant/dws-bridge.js:287-375 | The same for every step of every interleaving, from every state that meets the invariants |
| `BridgeCoverage.LossReachesBack` | packages/dingtalk-dsh-assistant/dws-bridge.js:675-693 | After a loss the bound is at most the start of the backfill in flight, else at most the end of the last complete one less the overlap, else at most the default start |
| `BridgeCoverage.LossGoesNoFurther` | packages/dingtalk-dsh-assistant/dws-bridge.js:195-197 | And it is the latest such, or the one the group had |
| `BridgeCoverage.CutShortIsReadAgain` | packages/dingtalk-dsh-assistant/dws-bridge.js:332-340 | In every run the backfill that ends the debt of a group whose loss cut one short begins at or before the start of that one |
| `BridgeCoverage.UncoveredIsReadAgain` | packages/dingtalk-dsh-assistant/dws-bridge.js:332-340 | In every run it begins at or before the end of the last complete one less the overlap when none was in flight |
| `BridgeCoverage.StepKeepsEnds` | packages/dingtalk-dsh-assistant/dws-bridge.js:332-345 | Only a completing backfill changes the recorded end, to its own |
| `BridgeCoverage.EveryUnreadGroupOwes` | packages/dingtalk-dsh-assistant/dws-bridge.js:199-213 | In every run, while the ingress has a bound, a group that no backfill has read completely owes everything from it on |
| `BridgeCoverage.BackfillReaches` | packages/dingtalk-dsh-assistant/dws-bridge.js:301-318 | A backfill reads from the default start, or in recovery from an earlier bound, to the moment it was asked for |
| `BridgePauses.PauseTakesEffect` | packages/dingtalk-dsh-assistant/dws-bridge.js:896-914 | In every run a pause takes effect with the latest bound before it was asked for, less the overlap, and every group then owes everything from it on |
| `BridgePauses.PauseForgetsExactly` | packages/dingtalk-dsh-assistant/dws-bridge.js:896-914 | After a pause a group owes everything from the start of the backfill that it cut short exactly when the pause, or what the group owed before, begins no later |
| `BridgePauses.PauseForgetsBackfill` | packages/dingtalk-dsh-assistant/dws-bridge.js:896-914 | A run in which a pause cuts the first backfill of a group short, and after the recovery that follows the group owes nothing though no backfill was complete from so far back |
| `BridgePauses.FailureLeavesNoBound` | packages/dingtalk-dsh-assistant/dws-bridge.js:355-364 | A run in which the first backfill of a group fails, the group owes nothing, and the next one begins at the default start of its own time |
| `BridgeWishes.ReadyReads` | packages/dingtalk-dsh-assistant/dws-bridge.js:694-703 | A listener that becomes ready starts a backfill, or one is noted behind the backfill in flight |
| `BridgeWishes.NotedIsRead` | packages/dingtalk-dsh-assistant/dws-bridge.js:365-374 | In every run what was noted is read, up to that moment, when the backfill in flight settles |
| `BridgeWishes.ResumedListens` | packages/dingtalk-dsh-assistant/dws-bridge.js:903-914 | When a pause ends every group listens again, or a reconnect is pending |
| `BridgeDebts.EveryRunIsSound` | packages/dingtalk-dsh-assistant/dws-bridge.js:287-375 | The same for every step of every run from any saved ingress state and any groups |
| `BridgeDebts.StepTells` | packages/dingtalk-dsh-assistant/dws-bridge.js:675-693 | While the drop is being saved, a group owes something after an event exactly when the event lost its listener or gave it an entry, or it owed something before and neither recovered nor left |
| `BridgeDebts.DropIsExact` | packages/dingtalk-dsh-assistant/dws-bridge.js:885-892 | In every run: when the dropped ingress bound takes effect, a group owes something exactly when some event since the drop was decided lost its listener or gave it an entry and no later one completed its recovery or removed it |
| `BridgeDebts.LossDuringSaveIsForgotten` | packages/dingtalk-dsh-assistant/dws-bridge.js:885-892 | A run from a saved ingress state in which a listener lost while the drop is being saved leaves a group in debt that the ingress no longer remembers |
| `CanonicalJson.StringRoundTrip` | packages/dingtalk-dsh-assistant/artifact-json.js:9 | Reading a quoted string back gives its code units, lone surrogates included, as section 7 of RFC 8259 has it |
| `CanonicalJson.QuoteIsPrefixFree` | packages/dingtalk-dsh-assistant/artifact-json.js:9 | Quoted strings followed by anything are told apart by their text |
| `CanonicalJson.SortAscends` | packages/dingtalk-dsh-assistant/artifact-json.js:17 | Keys come out in ascending order of their code units, as section 3.2.3 of RFC 8785 has it |
| `CanonicalJson.PrintIsPrefixFree` | packages/dingtalk-dsh-assistant/artifact-json.js:8-21 | Two normal values followed by a delimiter or nothing have equal texts only when both values and both remainders are equal |
| `CanonicalJson.SameIsCanonical` | packages/dingtalk-dsh-assistant/artifact-json.js:17 | Two values are equal up to key order exactly when their normal forms are equal |
| `CanonicalJson.CanonicalTextIsExact` | packages/dingtalk-dsh-assistant/artifact-json.js:6-24 | Two JSON values have the same canonical text exactly when they are equal up to key order |
| `JsonGuard.EncoderIsExact` | packages/dingtalk-dsh-assistant/artifact-json.js:7-22 | Over a heap with shared and cyclic values, the encoder succeeds exactly on those that unfold to a finite JSON value, and prints the canonical text of that value |
| `JsonGuard.CyclesAreRefused` | packages/dingtalk-dsh-assistant/artifact-json.js:11 | A value is refused when a cycle can be reached from it, through arrays and objects alike |
| `Sessions.LineIsFifo` | packages/dingtalk-dsh-assistant/coordination-sessions.js:136-160 | Requests of other roles are served first come, first served: their line grows only at its end and loses only its head |
| `Sessions.BypassIsBounded` | packages/dingtalk-dsh-assistant/coordination-sessions.js:143-169 | In every run the k-th waiting request of another role gets the slot within 3(k+1) grants, unless it is cancelled |
| `Sessions.AtMostTwoRoutes` | packages/dingtalk-dsh-assistant/coordination-sessions.js:147-169 | While a request of another role waits, at most two routing turns are granted |
| `Sessions.GroupSlot.Dispatch` | packages/dingtalk-dsh-assistant/coordination-sessions.js:136-142 | Where a new request enters the queue |
| `Sessions.GroupSlot.TakeNext` | packages/dingtalk-dsh-assistant/coordination-sessions.js:145-151 | Which request the loop takes, and whether it is its fair turn |
| `Sessions.GroupSlot.SessionOpened` | packages/dingtalk-dsh-assistant/coordination-sessions.js:153-175 | A granted, dropped or put-back request, and the count of routing turns |
| `Sessions.GroupSlot.AbsorbUpdates` | packages/dingtalk-dsh-assistant/coordination-sessions.js:183-189 | The in-place removal loop takes only routing updates of the holder, leaves none, and moves no other request |
| `Sessions.GroupSlot.Released` | packages/dingtalk-dsh-assistant/coordination-sessions.js:191-202 | A turn cut short is continued at the end of the queue, unless its request is already queued |
| `SessionTurns.TurnsAreConserved` | packages/dingtalk-dsh-assistant/coordination-sessions.js:126-206 | Every queued turn is granted the slot, dropped when its request is no longer current, or taken in by its own routing request; a turn cut short leaves one continuation, unless its request has something queued |
| `SessionTurns.RoutesComeFirst` | packages/dingtalk-dsh-assistant/coordination-sessions.js:146-169 | In every run another role is granted the slot while a routing request is queued only after two routing turns in a row, and a routing request is chosen otherwise |
| `Replay.AssertManagedEdits` | packages/dingtalk-dsh-assistant/execution-candidate.js:224-248 | A candidate is accepted exactly when the source tree, changed by the edits in turn with every expected hash matching, is the candidate tree |
| `Replay.Replayer.ReplayAll` | packages/dingtalk-dsh-assistant/execution-candidate.js:231-243 | The listing with the bytes written so far follows the plain tree of files through every edit, deletion and re-creation |
| `Replay.Replayer.Matches` | packages/dingtalk-dsh-assistant/execution-candidate.js:244-247 | Equally many files, each as expected, means equal trees |
| `ReplayMeaning.LastEditDecides` | packages/dingtalk-dsh-assistant/execution-candidate.js:231-243 | After a replay each file holds what its last edit wrote, is gone if that deleted it, or is as in the source, with the mode of the source unless it was deleted in between |
| `ReplayMeaning.ReplaysExactly` | packages/dingtalk-dsh-assistant/execution-candidate.js:231-243 | A history replays exactly when each edit was allowed and expected what the edits before it had left of its file |
| `Readers.SplitOfConcat` | packages/dingtalk-dsh-assistant/dws-runner.js:6-9 | Cutting a text anywhere, also inside a CRLF, changes only its last line |
| `Readers.ReadLines` | packages/dingtalk-dsh-assistant/dws-runner.js:3-13 | The lines delivered are those of the whole text for every way of cutting it into chunks |
| `Readers.BlobReader.OnData` | packages/dingtalk-dsh-assistant/agent-query-resources.js:36-52 | What one arriving chunk does to the reply being read |
| `Readers.ChunksYieldContent` | packages/dingtalk-dsh-assistant/agent-query-resources.js:36-52 | A reply cut in any way yields its content exactly when it is within the limit and no chunk ends after 1024 bytes and inside its header; otherwise it is refused |
| `Readers.HeaderLimitIsExact` | packages/dingtalk-dsh-assistant/agent-query-resources.js:39-43 | Every cutting of a reply within the limit yields its content exactly when its header has at most 1024 bytes |
| `Readers.OnlyRepliesResolve` | packages/dingtalk-dsh-assistant/agent-query-resources.js:36-52 | Whatever arrives, content is delivered only when what had arrived was a reply with that content |
| `Readers.LongHeadersDependOnChunks` | packages/dingtalk-dsh-assistant/agent-query-resources.js:41 | Headers of more than 1024 bytes exist whose reply is delivered when it comes whole and refused when cut after the header |
| `ReaderFormats.LinesComeBack` | packages/dingtalk-dsh-assistant/dws-runner.js:6-9 | Lines come back as they were written, whether a newline or a carriage return and a newline ended each, and so does an unfinished last one |
| `ReaderFormats.HeaderIsExact` | packages/dingtalk-dsh-assistant/agent-query-resources.js:42 | A header says a size exactly when it is 40 to 64 hexadecimal digits, the word blob and decimal digits of that size |
| `ReaderFormats.WrittenHeaderComesBack` | packages/dingtalk-dsh-assistant/agent-query-resources.js:42 | A header that is written comes back with its size |
| `Batches.NextBatch` | packages/dingtalk-dsh-assistant/execution-candidate.js:153-155 | A batch is one file or fits 4 MiB with overhead, and could take no further file |
| `Batches.SearchBatch` | packages/dingtalk-dsh-assistant/execution-candidate.js:156-169 | A batch is answered exactly when the reply is the header and the blob of each file in turn and nothing else, and with the paths whose received content matches |
| `Batches.SearchFiles` | packages/dingtalk-dsh-assistant/execution-candidate.js:148-173 | The batches cut the selected files, and the search gives the paths that match when every file is tested alone, for every batching and whatever Git replies |
| `Coverage.AssertVisible` | packages/dingtalk-dsh-assistant/conversation-router.js:41-68 | The greedy walk accepts exactly when every character is among the first thousand shown at once or was shown as it is by a page of the source |
| `Coverage.VisibleLength` | packages/dingtalk-dsh-assistant/coordination-context.js:29-38 | The result is the exact length of the covered beginning |
| `Coverage.BuildEntry` | packages/dingtalk-dsh-assistant/coordination-context.js:74-98 | The manifest accepts exactly matching pages; its ranges are separated and cover the same positions, its count is their number, and it is complete exactly when every position is covered |
| `Coverage.AllAgree` | packages/dingtalk-dsh-assistant/coordination-context.js:29-98 | On pages inside the text, empty ones included, the three checks accept together |
| `Coverage.LengthExceedsText` | packages/dingtalk-dsh-assistant/coordination-context.js:29-38 | The measured length exceeds the text exactly when all of the text is covered and a matching page that begins no later than its end claims to end beyond it |
| `Coverage.LengthStaysWithin` | packages/dingtalk-dsh-assistant/conversation-router.js:62 | The check that no page ends beyond the text keeps the measured length within it |
| `Coverage.LengthCanExceedText` | packages/dingtalk-dsh-assistant/coordination-context.js:29-38 | A page with the whole text that claims to end beyond it makes the measured length what it claims |
| `Coverage.SectionCounts` | packages/dingtalk-dsh-assistant/coordination-context.js:29-38 | On pages that end within the text a position counts as read exactly when a page shows it as it is or a page that counts from the end claims it |
| `Coverage.UnseenCanCount` | packages/dingtalk-dsh-assistant/coordination-context.js:29-31 | One empty page that counts from the end makes all of a text but its last character count as read |
| `Coverage.PartsShow` | packages/dingtalk-dsh-assistant/coordination-context.js:83-86 | The positions that accepted parts cover are those they show as they are |
| `Pagination.Follow` | packages/dingtalk-dsh-assistant/agent-query-resources.js:97-109 | Following the next offset of lists and reads terminates, concatenates to the whole in full pages of the limits asked for, and leaves records that pass the coverage check |
| `Pagination.CheckComplete` | packages/dingtalk-dsh-assistant/agent-work.js:109-121 | The loop over the sorted records computes the check |
| `Pagination.CompleteIsExact` | packages/dingtalk-dsh-assistant/agent-work.js:109-121 | Honest records pass, in any order, exactly when they cover the whole result and one of them begins within it |
| `Pagination.Search` | packages/dingtalk-dsh-assistant/agent-query-resources.js:111-125 | A search page ends with the first file that brings it to its limit of matches, 4 MiB of text or 200 files; it holds all matches of its files, or the first of them with its last file, which did lose one, named as truncated |
| `Pagination.FollowSearch` | packages/dingtalk-dsh-assistant/agent-query-resources.js:111-125 | Following a search to its end shows only matches, shows every match or names its file as truncated, names only files that lost one, and leaves records that pass the coverage check |
| `ExecutionLog.AssertHistory` | packages/dingtalk-dsh-assistant/claude-execution-session.js:55-72 | The loop over the records computes the verdict on a history, its error included |
| `ExecutionHistory.AcceptedExactly` | packages/dingtalk-dsh-assistant/claude-execution-session.js:55-72 | A history is accepted exactly when its records are numbered on and of this execution, each start is of a known input and raises every start before it, every other record belongs to the start before it, and the last says drained |
| `ExecutionLog.Session.Permission` | packages/dingtalk-dsh-assistant/claude-execution-session.js:282-307 | A call is allowed exactly when it is admitted, current and new; it is started at most once, also when it is denied after its start was recorded |
| `ExecutionLog.Session.SettleToolResult` | packages/dingtalk-dsh-assistant/claude-execution-session.js:411-425 | A result settles a pending call, once |
| `ExecutionLog.Session.Drain` | packages/dingtalk-dsh-assistant/claude-execution-session.js:526-531 | In a drained log every started call has ended exactly once, those still pending as unknown, and none is reported as pending |
| `ExecutionLog.DrainedHistoryIsAccepted` | packages/dingtalk-dsh-assistant/claude-execution-session.js:439-441 | Whatever history the guard lets an execution start on, the history with that execution’s drained records is accepted again |
| `ExecutionLog.LaterClaimsAccept` | packages/dingtalk-dsh-assistant/claude-execution-session.js:61-67 | A history stays acceptable to every later claim that knows the same inputs |
| `ExecutionLog.WholeLogIsAccepted` | packages/dingtalk-dsh-assistant/claude-execution-session.js:55-72 | The log of any number of executions, each under a larger lease and with a matching input history, is accepted |
| `ExecutionLog.LogIsAcceptedExactly` | packages/dingtalk-dsh-assistant/claude-execution-session.js:449-450 | The log an execution leaves is accepted again exactly when its binding was current when its start was to be recorded; otherwise no claim at all accepts it |
| `ExecutionLog.StaleStartSpoilsTheLog` | packages/dingtalk-dsh-assistant/claude-execution-session.js:449-450 | A drained record without its start is accepted by no claim |

## Left out

- ScheduleStore.Store.CompleteJob: what the ledger made of the released commands (blocked, waiting, done, and the ids of the materialised instructions) is a parameter; dispatching itself is the ledger's `ApplyMember` and `InstantiateRecurring`.
- ScheduleStore.Store.Scan: the order in which rows of the occurrence table are listed is a parameter; superseding happens before the new rows are written, which the surrounding transaction makes indistinguishable.
- LedgerStore.Store.AdmitProposal: the second walk of `accept` along instruction dependencies is represented by the task-level check, which refuses every loop that walk finds (`LedgerGraph.InstructionLoopIsTaskLoop`); what it repeats of the checks for missing and foreign prerequisites is left to the first check.
- LedgerStore.Store.AcceptProposal: the wording, kind and envelope checks of a frozen command are one predicate of the environment, and the proposal texts, histories and notifications are not kept.
- LedgerStore.CheckGraph: with several faults at once it reports a missing prerequisite before a foreign one, where the code reports the first it meets.
- LedgerRuns.EveryRunAppliesOnce: completion proofs are recorded by a step of the task store, whose own code no longer contains that step.
- BridgeStore.Listening.ListenerFails: timers, health reports, carrier issues and the backoff delay are not modelled, only that a reconnect is pending.
- Batches.SearchFiles: decoding and lower-casing of contents is a predicate on bytes.
- Coverage.AllAgree: pages are taken as already extracted from the conversation; which tool calls are visible is not modelled.
- Pagination.CheckComplete: grouping of evidence by query, exclusions, and the follow-up read of a truncated file are not modelled.
- ExecutionLog.Session.Permission: the individual checks before a call is handed on are one flag, and writing to the file never fails.
- The admission gate, coverage scope and views of the ledger (`gate`, `scope`, `claimScope`, `view`): they only read what the modelled commands maintain.
- `normalizeCoordinationInstant`, zone names and the `Intl` data behind offsets.
- The rest of the bridge (outbound delivery, approvals, human replies), the session gate `createCoordinationStepGate`, and starting, steering and disposing of agents.
- Storage, SQL, Git, processes, HTTP, prompts and the user interface.
