/**
  What a control of an occurrence, a change of a schedule and a cancellation are good for, over whole runs: what is paused
  does not run until it is resumed, what is ended never starts again, and a schedule that is redefined is next due when its
  new rule says.
*/
module ScheduleControl {
  import opened Wrappers
  import opened Schedules
  import opened ScheduleSafety
  import opened ScheduleDelivery
  import opened ScanConservation
  import opened SlotOwnership
  import Calendar
  import CalendarRules

  // ---------- Pausing one occurrence ----------

  predicate Paused(t: Tables, id: OccurrenceId) {
    id in t.occurrences && t.occurrences[id].paused
  }

  predicate ResumesIt(t: Tables, s: Step, id: OccurrenceId) {
    s.command.ControlOne? && s.command.occurrence == id && s.command.control.ResumeOne? && Execute(t, s.env, s.command).Success?
  }

  predicate NeverResumed(t: Tables, run: seq<Step>, id: OccurrenceId)
    decreases |run|
  {
    run != [] ==> !ResumesIt(t, run[0], id) && NeverResumed(After(t, run[0].env, run[0].command), run[1..], id)
  }

  lemma ControlTouchesOne(t: Tables, env: Env, id: OccurrenceId, expected: nat, control: Control, p: OccurrenceId)
    requires ControlOccurrence(t, env, id, expected, control).Success? && Paused(t, p)
    ensures !(control.ResumeOne? && p == id) ==> Paused(ControlOccurrence(t, env, id, expected, control).value, p)
  {
  }

  lemma StepStaysPaused(t: Tables, s: Step, id: OccurrenceId)
    requires Consistent(t) && Owned(t) && Paused(t, id) && !ResumesIt(t, s, id)
    ensures Paused(After(t, s.env, s.command), id)
  {
    if Execute(t, s.env, s.command).Success? {
      EveryCommandOwns(t, s.env, s.command);
      if s.command.ControlOne? {
        ControlTouchesOne(t, s.env, s.command.occurrence, s.command.expected, s.command.control, id);
      }
    }
    hide Consistent, Owned, Execute, Records;
  }

  lemma {:induction false} RunStaysPaused(t: Tables, run: seq<Step>, id: OccurrenceId)
    requires Consistent(t) && Owned(t) && Paused(t, id) && NeverResumed(t, run, id)
    ensures Paused(AfterAll(t, run), id)
    decreases |run|
  {
    hide Consistent, Owned, Preserves, KeepsCourse, Execute, Paused, ResumesIt;
    if run != [] {
      StepStaysPaused(t, run[0], id);
      if Execute(t, run[0].env, run[0].command).Success? {
        EveryCommandIsGood(t, run[0].env, run[0].command);
        EveryCommandOwns(t, run[0].env, run[0].command);
      }
      RunStaysPaused(After(t, run[0].env, run[0].command), run[1..], id);
    }
  }

  lemma ReachedIsSound(run: seq<Step>)
    ensures Consistent(Reached(run)) && Owned(Reached(run)) && Queued(Reached(run))
  {
    hide Reached, Consistent, Owned, Queued;
    ReachedIsConsistent(run);
    ReachedIsOwned(run);
    ReachedIsQueued(run);
  }

  lemma ControlledIsSound(t: Tables, env: Env, id: OccurrenceId, expected: nat, control: Control)
    requires Consistent(t) && Owned(t) && Queued(t) && ControlOccurrence(t, env, id, expected, control).Success?
    ensures var u := ControlOccurrence(t, env, id, expected, control).value; Consistent(u) && Owned(u) && Queued(u)
  {
    ControlIsGood(t, env, id, expected, control);
    ControlOwns(t, env, id, expected, control);
    ControlQueues(t, env, id, expected, control);
    hide Consistent, Owned, Queued, Preserves, ControlOccurrence;
  }

  /** A paused occurrence is not claimed, and nothing is reported of it, until it is resumed itself. */
  lemma PausedUntilResumed(before: seq<Step>, env: Env, id: OccurrenceId, expected: nat, later: seq<Step>, now: Env)
    requires var r := ControlOccurrence(Reached(before), env, id, expected, PauseOne); r.Success? && NeverResumed(r.value, later, id)
    ensures var t := AfterAll(ControlOccurrence(Reached(before), env, id, expected, PauseOne).value, later);
            Claim(t, now, id).Failure? && forall fence, report :: Complete(t, now, id, fence, report).Failure?
  {
    var u := ControlOccurrence(Reached(before), env, id, expected, PauseOne).value;
    assert Paused(u, id);
    hide Reached, ControlOccurrence, Consistent, Owned, Queued, Paused;
    ReachedIsSound(before);
    ControlledIsSound(Reached(before), env, id, expected, PauseOne);
    RunStaysPaused(u, later, id);
    PausedIsRefused(AfterAll(u, later), now, id);
  }

  lemma PausedIsRefused(t: Tables, env: Env, id: OccurrenceId)
    requires Paused(t, id)
    ensures Claim(t, env, id).Failure? && forall fence, report :: Complete(t, env, id, fence, report).Failure?
  {
  }

  /** Resumed, it can be claimed as soon as its trigger allows. */
  lemma ResumedCanStart(before: seq<Step>, env: Env, id: OccurrenceId, expected: nat, now: Env)
    requires ControlOccurrence(Reached(before), env, id, expected, ResumeOne).Success?
    ensures var t := ControlOccurrence(Reached(before), env, id, expected, ResumeOne).value;
            id in t.occurrences
            && var o := t.occurrences[id];
               Claim(t, now, id).Success? <==>
                 now.Alive(o.coordinationId)
                 && if o.trigger.OnEvent? then now.triggerHolds(id)
                    else var k := o.trigger.slot;
                         k.scheduleId in t.schedules && t.schedules[k.scheduleId].state.Active? && k.plannedAt <= now.now && Alone(t, id, k.scheduleId)
  {
    var u := ControlOccurrence(Reached(before), env, id, expected, ResumeOne).value;
    assert id in u.occurrences && u.occurrences[id].actionState.Waiting? && !u.occurrences[id].paused && !u.occurrences[id].cancelled;
    hide Reached, ControlOccurrence, Claim, Alone;
    ReachedIsSound(before);
    ControlledIsSound(Reached(before), env, id, expected, ResumeOne);
    assert OccurrenceOk(u, id) && Owns(u, id);
    if u.occurrences[id].trigger.AtTime? { assert SlotOk(u, u.occurrences[id].trigger.slot); }
    ClaimableExactly(u, now, id);
  }

  // ---------- Fences and revisions ----------

  lemma ControlSpends(t: Tables, env: Env, id: OccurrenceId, expected: nat, control: Control, fence: nat)
    requires Consistent(t) && ControlOccurrence(t, env, id, expected, control).Success? && id in t.jobs && fence <= t.jobs[id].fence
    ensures Spent(ControlOccurrence(t, env, id, expected, control).value, id, fence)
  {
    RowIsOk(t, id);
  }

  /** Whoever held a job when its occurrence was paused, resumed or cancelled can report nothing any more. */
  lemma InterruptedReportIsStale(before: seq<Step>, env: Env, id: OccurrenceId, expected: nat, control: Control,
                                 later: seq<Step>, now: Env, fence: nat, report: Report)
    requires ControlOccurrence(Reached(before), env, id, expected, control).Success?
    requires id in Reached(before).jobs && fence <= Reached(before).jobs[id].fence
    ensures Complete(AfterAll(ControlOccurrence(Reached(before), env, id, expected, control).value, later), now, id, fence, report)
            == Failure("DYNAMIC_COORDINATION_JOB_STALE")
  {
    var u := ControlOccurrence(Reached(before), env, id, expected, control).value;
    hide Reached, ControlOccurrence, Complete, Consistent, Owned, Queued;
    ReachedIsSound(before);
    ControlSpends(Reached(before), env, id, expected, control, fence);
    ControlledIsSound(Reached(before), env, id, expected, control);
    EveryRunIsGood(u, later);
    assert JobPreserved(u, AfterAll(u, later), id);
    SpentIsStale(AfterAll(u, later), now, id, fence, report);
  }

  /** A control that acts uses up the revision it was addressed to. */
  lemma RevisionServesOnce(before: seq<Step>, env: Env, id: OccurrenceId, expected: nat, control: Control, later: seq<Step>, now: Env, again: Control)
    requires ControlOccurrence(Reached(before), env, id, expected, control).Success? && !Reached(before).occurrences[id].cancelled
    ensures ControlOccurrence(AfterAll(ControlOccurrence(Reached(before), env, id, expected, control).value, later), now, id, expected, again)
            == Failure("DYNAMIC_COORDINATION_REVISION_STALE")
  {
    var u := ControlOccurrence(Reached(before), env, id, expected, control).value;
    assert id in u.occurrences && expected < u.occurrences[id].instanceRevision;
    ReachedIsSound(before);
    hide Reached, Consistent, Owned, Queued;
    ControlledIsSound(Reached(before), env, id, expected, control);
    RunQueues(u, later);
    assert Kept(u.occurrences[id], AfterAll(u, later).occurrences[id]);
  }

  // ---------- Cancellations ----------

  /** A cancelled occurrence stays cancelled, is never claimed or reported again, and delivers nothing more. */
  lemma CancellationIsFinal(before: seq<Step>, later: seq<Step>, id: OccurrenceId, now: Env)
    requires id in Reached(before).occurrences && Reached(before).occurrences[id].cancelled
    ensures var t, u := Reached(before), AfterAll(Reached(before), later);
            id in u.occurrences && u.occurrences[id].cancelled && u.occurrences[id].deliveryState == t.occurrences[id].deliveryState
            && !u.occurrences[id].deliveryState.Pending?
            && Claim(u, now, id).Failure? && forall fence, report :: Complete(u, now, id, fence, report).Failure?
  {
    var t, u := Reached(before), AfterAll(Reached(before), later);
    hide Reached, Consistent, Owned, Queued;
    ReachedIsSound(before);
    RunQueues(t, later);
    QueuesIsQueued(t, u);
    assert Kept(t.occurrences[id], u.occurrences[id]) && RowOk(u, id);
    CancelledIsRefused(u, now, id);
  }

  lemma CancelledIsRefused(t: Tables, env: Env, id: OccurrenceId)
    requires id in t.occurrences && t.occurrences[id].cancelled
    ensures Claim(t, env, id).Failure? && forall fence, report :: Complete(t, env, id, fence, report).Failure?
  {
  }

  /** A cancelled row: what became of its delivery is told by its notice, and what it had done stays. */
  ghost predicate Cancels(t: Tables, u: Tables, env: Env, id: OccurrenceId)
    requires id in t.occurrences
  {
    id in u.occurrences
    && var o, o', notice := t.occurrences[id], u.occurrences[id], env.notice(id);
       o'.cancelled && o'.definition == o.definition
       && (if o.cancelled then o' == o
           else && (o'.deliveryState.Delivered? <==> notice.NoticeDelivered?) && (o'.deliveryState.Unknown? <==> notice.SendPermitted?)
                && (o'.deliveryState.NoDelivery? <==> notice.NoNotice? && o.deliveryState.NoDelivery?)
                && o'.actionState == if o.actionState.Waiting? || o.actionState.Running? then Cancelled else o.actionState)
  }

  ghost predicate CancelsJust(t: Tables, u: Tables, env: Env, ids: seq<OccurrenceId>, id: OccurrenceId)
    requires id in t.occurrences
  {
    if id in ids then Cancels(t, u, env, id) else id in u.occurrences && u.occurrences[id] == t.occurrences[id]
  }

  lemma CancelsOne(t: Tables, env: Env, x: OccurrenceId, id: OccurrenceId)
    requires x in t.occurrences && RowOk(t, x) && id in t.occurrences
    ensures CancelsJust(t, CancelOccurrence(t, env, x), env, [x], id)
  {
  }

  lemma CancelsOn(t: Tables, u: Tables, v: Tables, env: Env, ids: seq<OccurrenceId>, id: OccurrenceId)
    requires ids != [] && id in t.occurrences && CancelsJust(t, u, env, ids[..1], id) && id in u.occurrences && CancelsJust(u, v, env, ids[1..], id)
    ensures CancelsJust(t, v, env, ids, id)
  {
    assert ids[..1] == [ids[0]];
  }

  lemma {:induction false} CancelAllCancels(t: Tables, env: Env, ids: seq<OccurrenceId>)
    requires Queued(t) && forall id :: id in ids ==> id in t.occurrences
    ensures var u := CancelAll(t, env, ids);
            u.occurrences.Keys == t.occurrences.Keys && u.schedules == t.schedules && u.slots == t.slots
    ensures forall id :: id in t.occurrences ==> CancelsJust(t, CancelAll(t, env, ids), env, ids, id)
    decreases |ids|
  {
    if ids != [] {
      var u, v := CancelOccurrence(t, env, ids[0]), CancelAll(t, env, ids);
      CancellingQueues(t, env, ids[0]);
      QueuesIsQueued(t, u);
      assert u.schedules == t.schedules && u.slots == t.slots && u.occurrences.Keys == t.occurrences.Keys;
      assert RowOk(t, ids[0]);
      assert ids[..1] == [ids[0]] && forall id :: id in ids[1..] ==> id in ids;
      hide CancelOccurrence, Queued, RowOk, CancelsJust;
      CancelAllCancels(u, env, ids[1..]);
      forall id | id in t.occurrences ensures CancelsJust(t, v, env, ids, id) {
        CancelsOne(t, env, ids[0], id);
        CancelsOn(t, u, v, env, ids, id);
      }
    }
  }

  predicate Open(sc: Schedule) {
    sc.state.Active? || sc.state.Paused?
  }

  predicate EndsJust(sc: Schedule, sc': Schedule, ended: bool) {
    if ended && Open(sc) then sc'.state.Terminated? && sc'.nextDueAt.None? && sc'.revision == sc.revision + 1 else sc' == sc
  }

  /** The occurrences of an arrangement that a cancellation reaches: all but the expired and superseded ones. */
  predicate Reachable(o: Occurrence, coordinationId: Id) {
    o.coordinationId == coordinationId && !o.actionState.Expired? && !o.actionState.Superseded?
  }

  /** Cancelling an arrangement ends its schedules that are open and cancels its occurrences, and touches nothing of any other. */
  lemma CancelledArrangementIsOver(before: seq<Step>, env: Env, coordinationId: Id, rows: seq<OccurrenceId>)
    requires forall id :: id in Reached(before).occurrences ==> id in rows
    ensures var t, u := Reached(before), CancelCoordination(Reached(before), env, coordinationId, rows);
            && (forall s :: s in t.schedules ==>
                  s in u.schedules && EndsJust(t.schedules[s], u.schedules[s], t.schedules[s].coordinationId == coordinationId))
            && (forall id :: id in t.occurrences ==>
                  if Reachable(t.occurrences[id], coordinationId) then Cancels(t, u, env, id)
                  else id in u.occurrences && u.occurrences[id] == t.occurrences[id])
  {
    var t, u := Reached(before), CancelCoordination(Reached(before), env, coordinationId, rows);
    ReachedIsSound(before);
    var ids := Cancellable(t, rows, (o: Occurrence) => o.coordinationId == coordinationId);
    CancelAllCancels(t, env, ids);
    var t' := CancelAll(t, env, ids);
    hide Reached, Consistent, Owned, Queued, CancelAll, Cancellable, Cancels;
    forall id | id in t.occurrences
      ensures if Reachable(t.occurrences[id], coordinationId) then Cancels(t, u, env, id)
              else id in u.occurrences && u.occurrences[id] == t.occurrences[id]
    {
      assert CancelsJust(t, t', env, ids, id);
      if id in ids { SameRowCancels(t, t', u, env, id); }
    }
  }

  lemma SameRowCancels(t: Tables, u: Tables, v: Tables, env: Env, id: OccurrenceId)
    requires id in t.occurrences && Cancels(t, u, env, id) && v.occurrences == u.occurrences
    ensures Cancels(t, v, env, id)
  {
  }

  // ---------- Schedules that are paused or ended ----------

  predicate Stopped(t: Tables, id: Id) {
    id in t.schedules && !t.schedules[id].state.Active?
  }

  predicate Reactivates(t: Tables, s: Step, id: Id) {
    s.command.ChangeSchedule? && s.command.id == id && s.command.change.state == Some(Active) && Execute(t, s.env, s.command).Success?
  }

  predicate NeverReactivated(t: Tables, run: seq<Step>, id: Id)
    decreases |run|
  {
    run != [] ==> !Reactivates(t, run[0], id) && NeverReactivated(After(t, run[0].env, run[0].command), run[1..], id)
  }

  /** Still stopped, ended for ever if it was, and no scan has accepted anything for it. */
  ghost predicate Silent(t: Tables, u: Tables, id: Id) {
    Stopped(t, id) && Stopped(u, id) && (!Open(t.schedules[id]) ==> u.schedules[id].state == t.schedules[id].state)
    && forall o :: o in u.occurrences && FromScanOf(o, id) ==> o in t.occurrences
  }

  lemma GrowthIsSilent(t: Tables, u: Tables, id: Id)
    requires Stopped(t, id) && GrowsElsewhere(t, u, id)
    ensures Silent(t, u, id)
  {
  }

  lemma ChangeIsSilent(t: Tables, env: Env, id: Id, a: ScheduleChange, rows: seq<OccurrenceId>)
    requires Consistent(t) && Stopped(t, id) && Change(t, env, id, a, rows).Success? && a.state != Some(Active)
    ensures Silent(t, Change(t, env, id, a, rows).value, id)
  {
    var sc := Revised(t.schedules[id], env, a).value;
    assert !sc.state.Active? && Open(t.schedules[id]);
    hide Consistent, Revised;
    if sc.state.Terminated? {
      CancelAllIsGood(t, env, Cancellable(t, rows, o => OfSchedule(o, id)));
      hide CancelAll;
    } else if a.unstarted {
      hide CancelAll;
      ReplacementsGrowElsewhere(t.(schedules := t.schedules[id := sc]), id, sc, WaitingOf(t, rows, id), a.replacementPlannedAt);
      hide ReplaceAll;
    }
  }

  lemma CancellationIsSilent(t: Tables, env: Env, coordinationId: Id, rows: seq<OccurrenceId>, id: Id)
    requires Consistent(t) && Stopped(t, id)
    ensures Silent(t, CancelCoordination(t, env, coordinationId, rows), id)
  {
    CancelAllIsGood(t, env, Cancellable(t, rows, (o: Occurrence) => o.coordinationId == coordinationId));
    hide CancelAll;
  }

  lemma {:induction false} ScanIsSilent(t: Tables, env: Env, ids: seq<Id>, rows: seq<OccurrenceId>, id: Id)
    requires Consistent(t) && Stopped(t, id) && ScanAll(t, env, ids, rows).Success?
    ensures Silent(t, ScanAll(t, env, ids, rows).value, id)
    decreases |ids|
  {
    if ids != [] {
      assert ids[0] != id;
      var u := ScanSchedule(t, env, ids[0], rows).value;
      ScanScheduleIsGood(t, env, ids[0], rows);
      GoodStepIsConsistent(t, u);
      ScanGrowsElsewhere(t, env, ids[0], rows, id);
      GrowthIsSilent(t, u, id);
      hide ScanSchedule, Consistent, GoodStep, Due;
      ScanIsSilent(u, env, ids[1..], rows, id);
    }
  }

  lemma StepIsSilent(t: Tables, s: Step, id: Id)
    requires Consistent(t) && Stopped(t, id) && !Reactivates(t, s, id)
    ensures Silent(t, After(t, s.env, s.command), id)
  {
    var c := s.command;
    if Execute(t, s.env, c).Success? {
      if c.Scan? {
        ScanIsSilent(t, s.env, c.due, c.rows, id);
      } else if Leaves(c, id, t.schedules[id].coordinationId) {
        CommandKeepsDefinition(t, s.env, c, id);
        GrowthIsSilent(t, Execute(t, s.env, c).value, id);
      } else if c.ChangeSchedule? {
        ChangeIsSilent(t, s.env, id, c.change, c.rows);
      } else {
        CancellationIsSilent(t, s.env, c.coordinationId, c.rows, id);
      }
    }
    hide Consistent, Change, ScanAll, CancelCoordination, Silent;
    assert !Execute(t, s.env, c).Success? ==> Silent(t, t, id) by { assert Stopped(t, id); NothingIsSilent(t, id); }
  }

  lemma NothingIsSilent(t: Tables, id: Id)
    requires Stopped(t, id)
    ensures Silent(t, t, id)
  {
  }

  lemma {:induction false} RunIsSilent(t: Tables, run: seq<Step>, id: Id)
    requires Consistent(t) && Stopped(t, id) && NeverReactivated(t, run, id)
    ensures Silent(t, AfterAll(t, run), id)
    decreases |run|
  {
    hide Consistent, Preserves, Execute, Reactivates;
    if run != [] {
      var u := After(t, run[0].env, run[0].command);
      StepIsSilent(t, run[0], id);
      if Execute(t, run[0].env, run[0].command).Success? {
        EveryCommandIsGood(t, run[0].env, run[0].command);
      }
      RunIsSilent(u, run[1..], id);
    }
  }

  lemma StoppedIsRefused(t: Tables, env: Env, id: Id, p: OccurrenceId)
    requires Consistent(t) && Stopped(t, id) && p in t.occurrences && OfSchedule(t.occurrences[p], id) && t.occurrences[p].actionState.Waiting?
    ensures Claim(t, env, p).Failure?
  {
    RowIsOk(t, p);
  }

  /** From a pause or an end of a schedule until it is made active again, no scan accepts anything for it and no waiting
      occurrence of it can be claimed. */
  lemma StoppedUntilReactivated(before: seq<Step>, later: seq<Step>, id: Id, now: Env, p: OccurrenceId)
    requires Stopped(Reached(before), id) && NeverReactivated(Reached(before), later, id)
    ensures var t, u := Reached(before), AfterAll(Reached(before), later);
            && Silent(t, u, id)
            && (p in u.occurrences && OfSchedule(u.occurrences[p], id) && u.occurrences[p].actionState.Waiting? ==> Claim(u, now, p).Failure?)
  {
    var t, u := Reached(before), AfterAll(Reached(before), later);
    hide Reached, Consistent, Silent, Claim, Preserves;
    ReachedIsConsistent(before);
    EveryRunIsGood(t, later);
    RunIsSilent(t, later, id);
    assert Stopped(u, id) by { assert Silent(t, u, id); SilentIsStopped(t, u, id); }
    if p in u.occurrences && OfSchedule(u.occurrences[p], id) && u.occurrences[p].actionState.Waiting? {
      StoppedIsRefused(u, now, id, p);
    }
  }

  lemma SilentIsStopped(t: Tables, u: Tables, id: Id)
    requires Silent(t, u, id)
    ensures Stopped(u, id)
  {
  }

  /** An ended schedule cannot be changed, so it is never reactivated. */
  lemma {:induction false} EndedIsNeverReactivated(t: Tables, run: seq<Step>, id: Id)
    requires Consistent(t) && id in t.schedules && !Open(t.schedules[id])
    ensures NeverReactivated(t, run, id)
    decreases |run|
  {
    if run != [] {
      assert !Reactivates(t, run[0], id);
      StepIsSilent(t, run[0], id);
      if Execute(t, run[0].env, run[0].command).Success? {
        EveryCommandIsGood(t, run[0].env, run[0].command);
      }
      hide Consistent, Preserves, Execute, Reactivates;
      EndedIsNeverReactivated(After(t, run[0].env, run[0].command), run[1..], id);
    }
  }

  /** So an ended schedule stays ended, and silent, in every run. */
  lemma EndedForEver(before: seq<Step>, later: seq<Step>, id: Id)
    requires id in Reached(before).schedules && !Open(Reached(before).schedules[id])
    ensures Silent(Reached(before), AfterAll(Reached(before), later), id)
  {
    hide Reached, Consistent, Silent;
    ReachedIsConsistent(before);
    EndedIsNeverReactivated(Reached(before), later, id);
    RunIsSilent(Reached(before), later, id);
  }

  // ---------- Commands of one round ----------

  /** The instructions that an occurrence releases. */
  function Released(o: Occurrence): seq<Id> {
    match o.definition.action
    case Reminder(_) => []
    case ReadQuery(_, onIncomplete) => onIncomplete
    case TaskCommand(instructionIds) => instructionIds
  }

  predicate Commits(t: Tables, u: Tables, id: OccurrenceId) {
    id in t.occurrences && t.occurrences[id].templateAction.Some? && id in u.occurrences
    && Continues(t.occurrences[id].(paused := false), u.occurrences[id].(paused := false))
  }

  lemma ControlCommits(t: Tables, env: Env, p: OccurrenceId, expected: nat, control: Control, id: OccurrenceId)
    requires ControlOccurrence(t, env, p, expected, control).Success? && id in t.occurrences && t.occurrences[id].templateAction.Some?
    ensures Commits(t, ControlOccurrence(t, env, p, expected, control).value, id)
  {
  }

  lemma StepCommits(t: Tables, s: Step, id: OccurrenceId)
    requires Consistent(t) && Owned(t) && id in t.occurrences && t.occurrences[id].templateAction.Some?
    ensures Commits(t, After(t, s.env, s.command), id)
  {
    if Execute(t, s.env, s.command).Success? {
      EveryCommandOwns(t, s.env, s.command);
      if s.command.ControlOne? {
        ControlCommits(t, s.env, s.command.occurrence, s.command.expected, s.command.control, id);
      }
    }
    hide Consistent, Owned, Execute, Records;
  }

  lemma {:induction false} RunCommits(t: Tables, run: seq<Step>, id: OccurrenceId)
    requires Consistent(t) && Owned(t) && id in t.occurrences && t.occurrences[id].templateAction.Some?
    ensures Commits(t, AfterAll(t, run), id)
    decreases |run|
  {
    hide Consistent, Owned, Preserves, KeepsCourse, Execute;
    if run != [] {
      StepCommits(t, run[0], id);
      if Execute(t, run[0].env, run[0].command).Success? {
        EveryCommandIsGood(t, run[0].env, run[0].command);
        EveryCommandOwns(t, run[0].env, run[0].command);
      }
      RunCommits(After(t, run[0].env, run[0].command), run[1..], id);
    }
  }

  /** What a report materialised for an occurrence. */
  function MaterializedBy(report: Report): Option<seq<Id>> {
    match report
    case Remind => None
    case Read(dispatch) => dispatch.materialized
    case RunCommands(dispatch) => if dispatch.DispatchBlocked? then None else dispatch.materialized
  }

  /** The instructions made for one round of a recurring occurrence are what that occurrence releases from then on; the template
      it was accepted with stays beside them. */
  lemma RoundKeepsItsCommands(before: seq<Step>, env: Env, id: OccurrenceId, fence: nat, report: Report, later: seq<Step>)
    requires Complete(Reached(before), env, id, fence, report).Success? && MaterializedBy(report).Some?
    requires var o := Reached(before).occurrences[id];
             o.trigger.AtTime? && o.templateAction.None? && Released(o) != []
    ensures var u := AfterAll(Complete(Reached(before), env, id, fence, report).value, later);
            id in u.occurrences && Released(u.occurrences[id]) == MaterializedBy(report).value
            && u.occurrences[id].templateAction == Some(Reached(before).occurrences[id].definition.action)
  {
    ReportMaterializes(Reached(before), env, id, fence, report);
    ReachedIsSound(before);
    hide Reached, Complete, Consistent, Owned, Queued, Released, MaterializedBy;
    MaterializedStays(Reached(before), env, id, fence, report, later);
  }

  lemma MaterializedStays(t: Tables, env: Env, id: OccurrenceId, fence: nat, report: Report, later: seq<Step>)
    requires Consistent(t) && Owned(t) && Complete(t, env, id, fence, report).Success?
    requires var u := Complete(t, env, id, fence, report).value; id in u.occurrences && u.occurrences[id].templateAction.Some?
    ensures var u := Complete(t, env, id, fence, report).value;
            var v := AfterAll(u, later);
            id in v.occurrences && v.occurrences[id].templateAction == u.occurrences[id].templateAction
            && Released(v.occurrences[id]) == Released(u.occurrences[id])
  {
    hide Complete, Consistent, Owned, AfterAll, Released, GoodStep, OwnStep;
    var u := Complete(t, env, id, fence, report).value;
    CompletedIsSound(t, env, id, fence, report);
    RunCommits(u, later, id);
    SameReleased(u, AfterAll(u, later), id);
  }

  lemma CompletedIsSound(t: Tables, env: Env, id: OccurrenceId, fence: nat, report: Report)
    requires Consistent(t) && Owned(t) && Complete(t, env, id, fence, report).Success?
    ensures Consistent(Complete(t, env, id, fence, report).value) && Owned(Complete(t, env, id, fence, report).value)
  {
    hide Complete, Consistent, Owned, GoodStep, OwnStep;
    CompleteIsGood(t, env, id, fence, report);
    GoodStepIsConsistent(t, Complete(t, env, id, fence, report).value);
    CompleteOwns(t, env, id, fence, report);
    OwnStepIsOwned(t, Complete(t, env, id, fence, report).value);
  }

  lemma SameReleased(t: Tables, u: Tables, id: OccurrenceId)
    requires Commits(t, u, id)
    ensures u.occurrences[id].templateAction == t.occurrences[id].templateAction && Released(u.occurrences[id]) == Released(t.occurrences[id])
  {
  }

  lemma ReportMaterializes(t: Tables, env: Env, id: OccurrenceId, fence: nat, report: Report)
    requires Complete(t, env, id, fence, report).Success? && MaterializedBy(report).Some?
    requires t.occurrences[id].trigger.AtTime? && t.occurrences[id].templateAction.None? && Released(t.occurrences[id]) != []
    ensures var u := Complete(t, env, id, fence, report).value;
            id in u.occurrences && Released(u.occurrences[id]) == MaterializedBy(report).value
            && u.occurrences[id].templateAction == Some(t.occurrences[id].definition.action)
  {
  }

  // ---------- Accepting ----------

  lemma AcceptingRecords(t: Tables, env: Env, id: OccurrenceId, coordinationId: Id, d: Definition)
    requires Consistent(t) && Owned(t) && Queued(t) && Accept(t, env, id, coordinationId, d).Success?
    ensures var u := Accept(t, env, id, coordinationId, d).value;
            Consistent(u) && Owned(u) && Queued(u)
            && id in u.occurrences && u.occurrences[id].coordinationId == coordinationId && Accepted(u.occurrences[id]) == d
  {
    AcceptIsGood(t, env, id, coordinationId, d);
    AcceptOwns(t, env, id, coordinationId, d);
    AcceptQueues(t, env, id, coordinationId, d);
    hide Consistent, Owned, Queued, Preserves;
  }

  /** However the run goes on, a trigger that was accepted is accepted again, without effect, for the same arrangement and definition,
      and refused for any other. */
  lemma TriggerIsAcceptedOnce(before: seq<Step>, env: Env, id: OccurrenceId, coordinationId: Id, d: Definition, later: seq<Step>,
                              now: Env, coordinationId': Id, d': Definition)
    requires Accept(Reached(before), env, id, coordinationId, d).Success? && now.Alive(coordinationId')
    ensures var u := AfterAll(Accept(Reached(before), env, id, coordinationId, d).value, later);
            Accept(u, now, id, coordinationId', d')
            == if coordinationId' == coordinationId && d' == d then Success(u) else Failure("DYNAMIC_COORDINATION_TRIGGER_CONFLICT")
  {
    var t := Accept(Reached(before), env, id, coordinationId, d).value;
    ReachedIsSound(before);
    AcceptingRecords(Reached(before), env, id, coordinationId, d);
    hide Reached, Consistent, Owned, Queued;
    RunQueues(t, later);
    assert Kept(t.occurrences[id], AfterAll(t, later).occurrences[id]);
    hide AfterAll;
  }

  /** A claim holds its job for a minute: until then it cannot be claimed again, and from then on it can. */
  lemma LeaseLastsAMinute(before: seq<Step>, env: Env, id: OccurrenceId, now: Env)
    requires Claim(Reached(before), env, id).Success?
    ensures var t := Claim(Reached(before), env, id).value;
            id in t.occurrences
            && (Claim(t, now, id).Success? <==> now.Alive(t.occurrences[id].coordinationId) && env.now + 60_000 <= now.now)
  {
    hide Reached, TimeClaimError;
  }
}
