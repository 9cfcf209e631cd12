/**
  Reports and deliveries over whole runs of the schedule commands: what has been reported is queued for delivery unless
  its target asks for a summary only, what was accepted is never altered, and a queued delivery keeps every other
  occurrence of its schedule from starting.
*/
module ScheduleDelivery {
  import opened Wrappers
  import opened Schedules
  import opened ScheduleSafety
  import Calendar

  // ---------- What every occurrence keeps ----------

  /** A reminder or a query that has succeeded, or a query that is blocked, has had a delivery queued.  A command queues one exactly
      when it succeeds and its target asks for more than a summary. */
  predicate Delivers(o: Occurrence) {
    match o.definition.action
    case Reminder(_) => !o.actionState.Blocked? && (o.actionState.Succeeded? ==> !o.deliveryState.NoDelivery?)
    case ReadQuery(_, _) => o.actionState.Succeeded? || o.actionState.Blocked? ==> !o.deliveryState.NoDelivery?
    case TaskCommand(_) => !o.cancelled ==> (!o.deliveryState.NoDelivery? <==> o.actionState.Succeeded? && !o.definition.target.summaryOnly)
  }

  /** The only deliveries are those of attempted jobs; they are pending until the occurrence is cancelled, and then no more. */
  ghost predicate RowOk(t: Tables, id: OccurrenceId)
    requires id in t.occurrences
  {
    var o := t.occurrences[id];
    Delivers(o) && (o.cancelled ==> !o.deliveryState.Pending?)
    && (!o.cancelled && !o.deliveryState.NoDelivery? ==> o.deliveryState.Pending? && id in t.jobs && 0 < t.jobs[id].attempt)
  }

  predicate SameKind(a: Action, b: Action) {
    (a.Reminder? <==> b.Reminder?) && (a.ReadQuery? <==> b.ReadQuery?)
  }

  /** What was accepted stays as it was; a cancellation is for ever, with what it made of the delivery, and so is a queued
      delivery until then.  Revisions only grow, and do when an occurrence is cancelled or superseded. */
  predicate Kept(o: Occurrence, o': Occurrence) {
    && o'.coordinationId == o.coordinationId && Accepted(o') == Accepted(o) && SameKind(o.definition.action, o'.definition.action)
    && (o.cancelled ==> o'.cancelled) && o.instanceRevision <= o'.instanceRevision && o.deliveryRevision <= o'.deliveryRevision
    && (o.deliveryState.Pending? && !o'.cancelled ==> o'.deliveryState.Pending?)
    && (o.cancelled ==> o'.deliveryState == o.deliveryState)
    && (o'.cancelled && !o.cancelled ==> o.instanceRevision < o'.instanceRevision && o.deliveryRevision < o'.deliveryRevision)
    && (o'.actionState.Superseded? && !o.actionState.Superseded? ==> o.instanceRevision < o'.instanceRevision)
  }

  ghost predicate Queued(t: Tables) {
    forall id :: id in t.occurrences ==> RowOk(t, id)
  }

  ghost predicate Queues(t: Tables, u: Tables) {
    Queued(u) && forall id :: id in t.occurrences ==> id in u.occurrences && Kept(t.occurrences[id], u.occurrences[id])
  }

  lemma QueuesOn(t: Tables, u: Tables, v: Tables)
    requires Queues(t, u) && Queues(u, v)
    ensures Queues(t, v)
  {
    hide Queued;
    forall id | id in t.occurrences ensures id in v.occurrences && Kept(t.occurrences[id], v.occurrences[id]) {
      assert Kept(t.occurrences[id], u.occurrences[id]) && Kept(u.occurrences[id], v.occurrences[id]);
    }
  }

  /** Nothing but the row `id`, old or new, is touched. */
  ghost predicate OnlyRow(t: Tables, u: Tables, id: OccurrenceId) {
    && (forall p :: p in u.occurrences && p != id ==> p in t.occurrences && u.occurrences[p] == t.occurrences[p])
    && (forall p :: p in t.occurrences ==> p in u.occurrences)
    && (forall p :: p in t.jobs && p != id ==> p in u.jobs && u.jobs[p] == t.jobs[p])
  }

  lemma RowQueues(t: Tables, u: Tables, id: OccurrenceId)
    requires Queued(t) && OnlyRow(t, u, id) && id in u.occurrences && RowOk(u, id)
    requires id in t.occurrences ==> Kept(t.occurrences[id], u.occurrences[id])
    ensures Queues(t, u)
  {
    hide Delivers;
    forall p | p in u.occurrences ensures RowOk(u, p) {
      if p != id { assert RowOk(t, p); }
    }
  }

  lemma SameRowsQueue(t: Tables, u: Tables)
    requires Queued(t) && u.occurrences == t.occurrences && u.jobs == t.jobs
    ensures Queues(t, u)
  {
    forall p | p in u.occurrences ensures RowOk(u, p) { assert RowOk(t, p); }
  }

  // ---------- One row at a time ----------

  lemma CancellingQueues(t: Tables, env: Env, id: OccurrenceId)
    requires Queued(t) && id in t.occurrences
    ensures Queues(t, CancelOccurrence(t, env, id))
  {
    var u := CancelOccurrence(t, env, id);
    if u == t {
      SameRowsQueue(t, t);
    } else {
      CancelledRow(t, env, id);
      hide CancelOccurrence, RowOk, Kept, Queued, Queues;
      RowQueues(t, u, id);
    }
  }

  lemma CancelledRow(t: Tables, env: Env, id: OccurrenceId)
    requires Queued(t) && id in t.occurrences && !t.occurrences[id].cancelled
    ensures var u := CancelOccurrence(t, env, id);
            OnlyRow(t, u, id) && id in u.occurrences && RowOk(u, id) && Kept(t.occurrences[id], u.occurrences[id])
  {
    assert RowOk(t, id);
  }

  lemma {:induction false} CancelAllQueues(t: Tables, env: Env, ids: seq<OccurrenceId>)
    requires Queued(t) && forall id :: id in ids ==> id in t.occurrences
    ensures Queues(t, CancelAll(t, env, ids))
    decreases |ids|
  {
    hide CancelOccurrence, Queued, Kept;
    if ids == [] {
      SameRowsQueue(t, t);
    } else {
      var u := CancelOccurrence(t, env, ids[0]);
      CancellingQueues(t, env, ids[0]);
      assert forall id :: id in ids[1..] ==> id in ids;
      CancelAllQueues(u, env, ids[1..]);
      QueuesOn(t, u, CancelAll(t, env, ids));
    }
  }

  lemma SupersedingQueues(t: Tables, id: OccurrenceId)
    requires Queued(t) && id in t.occurrences && id in t.jobs && !t.occurrences[id].actionState.Succeeded?
    ensures Queues(t, SupersedeOne(t, id))
  {
    assert RowOk(t, id);
    RowQueues(t, SupersedeOne(t, id), id);
  }

  lemma {:induction false} SupersedeAllQueues(t: Tables, ids: seq<OccurrenceId>)
    requires Queued(t) && SupersedeAll(t, ids).Success?
    requires forall id :: id in ids ==> id in t.occurrences && !t.occurrences[id].actionState.Succeeded?
    ensures Queues(t, SupersedeAll(t, ids).value)
    decreases |ids|
  {
    if ids == [] {
      SameRowsQueue(t, t);
    } else {
      var u := SupersedeOne(t, ids[0]);
      SupersedingQueues(t, ids[0]);
      forall id | id in ids[1..] ensures id in u.occurrences && !u.occurrences[id].actionState.Succeeded? { assert id in ids; }
      hide SupersedeOne, Queued, Kept;
      SupersedeAllQueues(u, ids[1..]);
      QueuesOn(t, u, SupersedeAll(t, ids).value);
    }
  }

  // ---------- Scans ----------

  lemma AddedSlotQueues(t: Tables, slot: SlotId, o: Occurrence, jobs: map<OccurrenceId, Job>)
    requires Queued(t) && TimeOccurrence(slot) !in t.occurrences && o.deliveryState.NoDelivery? && (o.actionState.Waiting? || o.actionState.Expired?)
    requires jobs == t.jobs || jobs == t.jobs[TimeOccurrence(slot) := FreshJob]
    ensures Queues(t, AddSlot(t, slot, o, jobs))
  {
    RowQueues(t, AddSlot(t, slot, o, jobs), TimeOccurrence(slot));
  }

  lemma AcceptSlotQueues(t: Tables, env: Env, id: Id, m: Missed, rows: seq<OccurrenceId>)
    requires Consistent(t) && Queued(t) && id in t.schedules && SlotId(id, m.plannedAt) !in t.slots && AcceptSlot(t, env, id, m, rows).Success?
    ensures Queues(t, AcceptSlot(t, env, id, m, rows).value)
  {
    var sc, slot := t.schedules[id], SlotId(id, m.plannedAt);
    var expired := TooLate(sc, env, m.plannedAt);
    var occurrence := Occurrence(sc.coordinationId, AtTime(slot, sc.revision), sc.definition, None,
                                 if expired then Expired else Waiting, NoDelivery, 1, 1, false, false, m.merged);
    SlotIsNew(t, slot);
    hide Consistent, Queued, Queues, TooLate;
    if expired {
      AddedSlotQueues(t, slot, occurrence, t.jobs);
    } else {
      var ids := WaitingOf(t, rows, id);
      SupersedeAllIsGood(t, ids);
      SupersedeAllQueues(t, ids);
      var u := SupersedeAll(t, ids).value;
      QueuesIsQueued(t, u);
      AddedSlotQueues(u, slot, occurrence, u.jobs[TimeOccurrence(slot) := FreshJob]);
      QueuesOn(t, u, AddSlot(u, slot, occurrence, u.jobs[TimeOccurrence(slot) := FreshJob]));
    }
  }

  lemma QueuesIsQueued(t: Tables, u: Tables)
    requires Queues(t, u)
    ensures Queued(u)
  {
  }

  lemma ScanScheduleQueues(t: Tables, env: Env, id: Id, rows: seq<OccurrenceId>)
    requires Consistent(t) && Queued(t) && id in t.schedules && Due(t.schedules[id], env) && ScanSchedule(t, env, id, rows).Success?
    ensures Queues(t, ScanSchedule(t, env, id, rows).value)
  {
    hide Consistent, Queued, Queues, AcceptSlot, TooLate, Due, MissedSlots, Calendar.NextTimeSlot, Calendar.DateAt;
    var m, u := MissedSlots(t.schedules[id], env).value, ScanSchedule(t, env, id, rows).value;
    if SlotId(id, m.plannedAt) !in t.slots {
      AcceptSlotQueues(t, env, id, m, rows);
      var t' := AcceptSlot(t, env, id, m, rows).value;
      QueuesIsQueued(t, t');
      SameRowsQueue(t', u);
      QueuesOn(t, t', u);
    } else {
      SameRowsQueue(t, u);
    }
  }

  lemma {:induction false} ScanAllQueues(t: Tables, env: Env, ids: seq<Id>, rows: seq<OccurrenceId>)
    requires Consistent(t) && Queued(t) && ScanAll(t, env, ids, rows).Success?
    ensures Queues(t, ScanAll(t, env, ids, rows).value)
    decreases |ids|
  {
    hide Consistent, Queued, Queues, GoodStep, ScanSchedule, Due;
    if ids == [] {
      SameRowsQueue(t, t);
    } else {
      var u := ScanSchedule(t, env, ids[0], rows).value;
      ScanScheduleIsGood(t, env, ids[0], rows);
      GoodStepIsConsistent(t, u);
      ScanScheduleQueues(t, env, ids[0], rows);
      QueuesIsQueued(t, u);
      ScanAllQueues(u, env, ids[1..], rows);
      QueuesOn(t, u, ScanAll(t, env, ids, rows).value);
    }
  }

  // ---------- Changes of a schedule ----------

  /** An occurrence whose slot was never started has had nothing delivered. */
  lemma UnstartedHasNoDelivery(t: Tables, id: OccurrenceId)
    requires Consistent(t) && Queued(t) && id in t.occurrences && t.occurrences[id].trigger.AtTime? && t.occurrences[id].actionState.Waiting?
    requires t.occurrences[id].trigger.slot in t.slots && t.slots[t.occurrences[id].trigger.slot].started.None?
    ensures t.occurrences[id].deliveryState.NoDelivery?
  {
    RowIsOk(t, id);
    assert RowOk(t, id);
  }

  lemma ReplacingQueues(t: Tables, scheduleId: Id, sc: Schedule, ids: seq<OccurrenceId>, plannedAt: int)
    requires Consistent(t) && Queued(t) && ids != [] && Replaceable(t, ids, scheduleId, sc.revision)
    requires ReplaceUnstarted(t, scheduleId, sc, ids[0], plannedAt).Success?
    ensures Queues(t, ReplaceUnstarted(t, scheduleId, sc, ids[0], plannedAt).value)
  {
    hide Consistent, Queued, Queues, RowOk, Kept;
    var id, u := ids[0], ReplaceUnstarted(t, scheduleId, sc, ids[0], plannedAt).value;
    var o, newSlot, t1 := t.occurrences[id], SlotId(scheduleId, plannedAt), SupersedeOne(t, id);
    assert id in ids && Replacement(id, sc.revision) !in t.occurrences;
    RowIsOk(t, id);
    UnstartedHasNoDelivery(t, id);
    SupersedingQueues(t, id);
    QueuesIsQueued(t, t1);
    NewRowOk(u, Replacement(id, sc.revision));
    RowQueues(t1, u, Replacement(id, sc.revision));
    QueuesOn(t, t1, u);
  }

  lemma NewRowOk(t: Tables, id: OccurrenceId)
    requires id in t.occurrences && t.occurrences[id].deliveryState.NoDelivery? && t.occurrences[id].actionState.Waiting?
    ensures RowOk(t, id)
  {
  }

  lemma {:induction false} ReplaceAllQueues(t: Tables, scheduleId: Id, sc: Schedule, ids: seq<OccurrenceId>, at: Option<int>)
    requires Consistent(t) && Queued(t) && Replaceable(t, ids, scheduleId, sc.revision)
    requires scheduleId in t.schedules && t.schedules[scheduleId].revision == sc.revision
    requires ReplaceAll(t, scheduleId, sc, ids, at).Success?
    ensures Queues(t, ReplaceAll(t, scheduleId, sc, ids, at).value)
    decreases |ids|
  {
    hide Consistent, Queued, Queues, GoodStep, ReplaceUnstarted, Replaceable;
    if ids == [] {
      SameRowsQueue(t, t);
    } else {
      var plannedAt := if at.Some? then at.value else t.occurrences[ids[0]].trigger.slot.plannedAt;
      ReplaceUnstartedIsGood(t, scheduleId, sc, ids, plannedAt);
      ReplacingQueues(t, scheduleId, sc, ids, plannedAt);
      var u := ReplaceUnstarted(t, scheduleId, sc, ids[0], plannedAt).value;
      GoodStepIsConsistent(t, u);
      QueuesIsQueued(t, u);
      ReplaceAllQueues(u, scheduleId, sc, ids[1..], at);
      QueuesOn(t, u, ReplaceAll(t, scheduleId, sc, ids, at).value);
    }
  }

  lemma ChangeQueues(t: Tables, env: Env, id: Id, a: ScheduleChange, rows: seq<OccurrenceId>)
    requires Consistent(t) && Queued(t) && Change(t, env, id, a, rows).Success?
    ensures Queues(t, Change(t, env, id, a, rows).value)
  {
    var sc, u := Revised(t.schedules[id], env, a).value, Change(t, env, id, a, rows).value;
    RevisedGrows(t.schedules[id], env, a);
    hide Consistent, Queued, Queues, GoodStep, Revised, OccurrenceOk, SlotOk;
    if sc.state.Terminated? {
      var ids := Cancellable(t, rows, o => OfSchedule(o, id));
      CancelAllQueues(t, env, ids);
      var t' := CancelAll(t, env, ids);
      QueuesIsQueued(t, t');
      SameRowsQueue(t', u);
      QueuesOn(t, t', u);
    } else if !a.unstarted {
      SameRowsQueue(t, u);
    } else {
      var t0, ids := t.(schedules := t.schedules[id := sc]), WaitingOf(t, rows, id);
      ScheduleStepIsGood(t, t0);
      GoodStepIsConsistent(t, t0);
      NotYetReplaced(t, t0, ids, id, sc.revision);
      SameRowsQueue(t, t0);
      QueuesIsQueued(t, t0);
      ReplaceAllQueues(t0, id, sc, ids, a.replacementPlannedAt);
      var t' := ReplaceAll(t0, id, sc, ids, a.replacementPlannedAt).value;
      QueuesIsQueued(t0, t');
      SameRowsQueue(t', u);
      QueuesOn(t, t0, t');
      QueuesOn(t, t', u);
    }
  }

  lemma CancelCoordinationQueues(t: Tables, env: Env, coordinationId: Id, rows: seq<OccurrenceId>)
    requires Queued(t)
    ensures Queues(t, CancelCoordination(t, env, coordinationId, rows))
  {
    hide Queued, Queues, CancelAll;
    var ids := Cancellable(t, rows, (o: Occurrence) => o.coordinationId == coordinationId);
    CancelAllQueues(t, env, ids);
    var t' := CancelAll(t, env, ids);
    QueuesIsQueued(t, t');
    SameRowsQueue(t', CancelCoordination(t, env, coordinationId, rows));
    QueuesOn(t, t', CancelCoordination(t, env, coordinationId, rows));
  }

  // ---------- Jobs and occurrences ----------

  lemma ClaimQueues(t: Tables, env: Env, id: OccurrenceId)
    requires Consistent(t) && Queued(t) && Claim(t, env, id).Success?
    ensures Queues(t, Claim(t, env, id).value)
  {
    RowIsOk(t, id);
    assert RowOk(t, id);
    ClaimedRowOk(t, env, id);
    hide Consistent, Claim, RowOk, Kept, Queued, Queues, OnlyRow;
    RowQueues(t, Claim(t, env, id).value, id);
  }

  lemma ClaimedRowOk(t: Tables, env: Env, id: OccurrenceId)
    requires id in t.occurrences && OccurrenceOk(t, id) && RowOk(t, id) && Claim(t, env, id).Success?
    ensures var u := Claim(t, env, id).value;
            OnlyRow(t, u, id) && id in u.occurrences && RowOk(u, id) && Kept(t.occurrences[id], u.occurrences[id])
  {
    hide TimeClaimError;
  }

  lemma CompleteQueues(t: Tables, env: Env, id: OccurrenceId, fence: nat, report: Report)
    requires Consistent(t) && Queued(t) && Complete(t, env, id, fence, report).Success?
    ensures Queues(t, Complete(t, env, id, fence, report).value)
  {
    var u := Complete(t, env, id, fence, report).value;
    RowIsOk(t, id);
    assert RowOk(t, id);
    CompletedRowOk(t, env, id, fence, report);
    hide Consistent, Complete, RowOk, Kept, Queued, Queues;
    RowQueues(t, u, id);
  }

  lemma CompletedRowOk(t: Tables, env: Env, id: OccurrenceId, fence: nat, report: Report)
    requires id in t.occurrences && OccurrenceOk(t, id) && RowOk(t, id) && Complete(t, env, id, fence, report).Success?
    ensures var u := Complete(t, env, id, fence, report).value;
            OnlyRow(t, u, id) && id in u.occurrences && RowOk(u, id) && Kept(t.occurrences[id], u.occurrences[id])
  {
    RunningJob(t, id, env, fence);
    hide OccurrenceOk, RowOk, Kept, Materialize, OnlyRow, Holds;
    var o := t.occurrences[id];
    match report
    case Remind => SettledRowOk(t, id, JobCompleted, o.(actionState := Succeeded, deliveryState := Pending));
    case Read(dispatch) =>
      SettledRowOk(t, id, JobCompleted, o.(actionState := Succeeded, deliveryState := Pending));
      var o' := Materialize(o, dispatch.materialized);
      MaterializedIsKept(o, dispatch.materialized);
      SettledRowOk(t, id, JobBlocked, o'.(actionState := Blocked, deliveryState := Pending));
      SettledRowOk(t, id, JobCompleted, o'.(actionState := Succeeded, deliveryState := Pending));
    case RunCommands(dispatch) =>
      SettledRowOk(t, id, JobBlocked, o.(actionState := Blocked));
      var o' := if o.trigger.AtTime? then Materialize(o, dispatch.materialized) else o;
      MaterializedIsKept(o, dispatch.materialized);
      var delivery := if (dispatch.Dispatched? && dispatch.waiting) || o.definition.target.summaryOnly then NoDelivery else DeliveryState.Pending;
      SettledRowOk(t, id, JobWaiting, o'.(actionState := Waiting, deliveryState := delivery));
      SettledRowOk(t, id, JobCompleted, o'.(actionState := Succeeded, deliveryState := delivery));
  }

  lemma RunningJob(t: Tables, id: OccurrenceId, env: Env, fence: nat)
    requires id in t.occurrences && OccurrenceOk(t, id) && Holds(t, env, id, fence)
    ensures id in t.jobs && 0 < t.jobs[id].attempt && t.occurrences[id].actionState.Running? && !t.occurrences[id].cancelled
  {
  }

  /** What a report may make of an occurrence that runs. */
  predicate Reported(o: Occurrence, o': Occurrence) {
    && o'.coordinationId == o.coordinationId && Accepted(o') == Accepted(o) && SameKind(o.definition.action, o'.definition.action)
    && o'.definition.target == o.definition.target && o'.cancelled == o.cancelled
    && o'.instanceRevision == o.instanceRevision && o'.deliveryRevision == o.deliveryRevision
    && !o'.actionState.Superseded?
    && (o'.deliveryState == o.deliveryState || o'.deliveryState.Pending? || (o'.deliveryState.NoDelivery? && o.definition.action.TaskCommand?))
  }

  lemma SettledRowOk(t: Tables, id: OccurrenceId, job: JobState, o: Occurrence)
    requires id in t.occurrences && id in t.jobs && 0 < t.jobs[id].attempt && RowOk(t, id) && t.occurrences[id].actionState.Running?
    requires !t.occurrences[id].cancelled
    ensures OnlyRow(t, Settle(t, id, job, o), id) && id in Settle(t, id, job, o).occurrences
    ensures Reported(t.occurrences[id], o) && Delivers(o) ==> RowOk(Settle(t, id, job, o), id) && Kept(t.occurrences[id], o)
  {
  }

  lemma MaterializedIsKept(o: Occurrence, instructionIds: Option<seq<Id>>)
    ensures var o' := Materialize(o, instructionIds);
            && o'.coordinationId == o.coordinationId && Accepted(o') == Accepted(o) && SameKind(o.definition.action, o'.definition.action)
            && o'.definition.target == o.definition.target && o'.cancelled == o.cancelled && o'.deliveryState == o.deliveryState
            && o'.instanceRevision == o.instanceRevision && o'.deliveryRevision == o.deliveryRevision
  {
  }

  lemma ControlQueues(t: Tables, env: Env, id: OccurrenceId, expected: nat, control: Control)
    requires Consistent(t) && Queued(t) && ControlOccurrence(t, env, id, expected, control).Success?
    ensures Queues(t, ControlOccurrence(t, env, id, expected, control).value)
  {
    if control.CancelOne? {
      CancellingQueues(t, env, id);
    } else {
      assert RowOk(t, id);
      ControlledRowOk(t, env, id, expected, control);
      hide Consistent, ControlOccurrence, RowOk, Kept, Queued, Queues, OnlyRow;
      RowQueues(t, ControlOccurrence(t, env, id, expected, control).value, id);
    }
  }

  lemma ControlledRowOk(t: Tables, env: Env, id: OccurrenceId, expected: nat, control: Control)
    requires id in t.occurrences && RowOk(t, id) && ControlOccurrence(t, env, id, expected, control).Success? && !control.CancelOne?
    ensures var u := ControlOccurrence(t, env, id, expected, control).value;
            OnlyRow(t, u, id) && id in u.occurrences && RowOk(u, id) && Kept(t.occurrences[id], u.occurrences[id])
  {
  }

  lemma AcceptQueues(t: Tables, env: Env, id: OccurrenceId, coordinationId: Id, d: Definition)
    requires Queued(t) && Accept(t, env, id, coordinationId, d).Success?
    ensures Queues(t, Accept(t, env, id, coordinationId, d).value)
  {
    if id in t.occurrences {
      SameRowsQueue(t, t);
    } else {
      RowQueues(t, Accept(t, env, id, coordinationId, d).value, id);
    }
  }

  // ---------- Every command, every run ----------

  /** Every command keeps what was accepted, and queues a delivery for exactly what it reports. */
  lemma EveryCommandQueues(t: Tables, env: Env, c: Command)
    requires Consistent(t) && Queued(t) && Execute(t, env, c).Success?
    ensures Queues(t, Execute(t, env, c).value)
  {
    hide Consistent, Queued, Queues, Create, Change, ScanAll, Claim, Complete, Accept, ControlOccurrence, CancelCoordination;
    match c
    case CreateSchedule(id, schedule) => CreatingQueues(t, env, id, schedule);
    case ChangeSchedule(id, change, rows) => ChangeQueues(t, env, id, change, rows);
    case Scan(limit, due, rows) => ScanAllQueues(t, env, due, rows);
    case ClaimJob(o) => ClaimQueues(t, env, o);
    case CompleteJob(o, fence, report) => CompleteQueues(t, env, o, fence, report);
    case AcceptOccurrence(o, coordinationId, d) => AcceptQueues(t, env, o, coordinationId, d);
    case ControlOne(o, expected, control) => ControlQueues(t, env, o, expected, control);
    case CancelArrangement(coordinationId, rows) => CancelCoordinationQueues(t, env, coordinationId, rows);
  }

  lemma CreatingQueues(t: Tables, env: Env, id: Id, a: NewSchedule)
    requires Queued(t) && Create(t, env, id, a).Success?
    ensures Queues(t, Create(t, env, id, a).value)
  {
    SameRowsQueue(t, Create(t, env, id, a).value);
  }

  lemma {:induction false} RunQueues(t: Tables, run: seq<Step>)
    requires Consistent(t) && Queued(t)
    ensures Queues(t, AfterAll(t, run))
    decreases |run|
  {
    hide Consistent, Preserves, Queued, Queues, Execute;
    SameRowsQueue(t, t);
    if run != [] {
      var u := After(t, run[0].env, run[0].command);
      if Execute(t, run[0].env, run[0].command).Success? {
        EveryCommandIsGood(t, run[0].env, run[0].command);
        EveryCommandQueues(t, run[0].env, run[0].command);
      }
      QueuesIsQueued(t, u);
      RunQueues(u, run[1..]);
      QueuesOn(t, u, AfterAll(t, run));
    }
  }

  lemma ReachedIsQueued(run: seq<Step>)
    ensures Queued(Reached(run))
  {
    hide Consistent, Queued, Queues;
    assert Queued(EmptyTables) by { NothingQueued(); }
    ReachedIsConsistent([]);
    RunQueues(EmptyTables, run);
    QueuesIsQueued(EmptyTables, Reached(run));
  }

  lemma NothingQueued()
    ensures Queued(EmptyTables)
  {
  }

  /** In every run a reminder or a query that has succeeded, and a query that is blocked, has had a delivery queued; a command
      that succeeded without one has a target that asks for a summary only. */
  lemma EveryReportIsDelivered(run: seq<Step>, id: OccurrenceId)
    requires id in Reached(run).occurrences
    ensures var o := Reached(run).occurrences[id];
            && (o.definition.action.Reminder? && o.actionState.Succeeded? ==> !o.deliveryState.NoDelivery?)
            && (o.definition.action.ReadQuery? && (o.actionState.Succeeded? || o.actionState.Blocked?) ==> !o.deliveryState.NoDelivery?)
            && (o.definition.action.TaskCommand? && !o.cancelled ==>
                  (o.deliveryState.NoDelivery? <==> !o.actionState.Succeeded? || o.definition.target.summaryOnly))
            && (!o.cancelled && !o.deliveryState.NoDelivery? ==> o.deliveryState.Pending?)
  {
    hide Reached;
    ReachedIsQueued(run);
    assert RowOk(Reached(run), id);
  }

  /** In every run what an occurrence was accepted to do, and for whom, stays as it was. */
  lemma AcceptedStays(before: seq<Step>, later: seq<Step>, id: OccurrenceId)
    requires id in Reached(before).occurrences
    ensures var t, u := Reached(before), AfterAll(Reached(before), later);
            id in u.occurrences && Kept(t.occurrences[id], u.occurrences[id])
  {
    hide Reached, Consistent, Queued, Kept;
    ReachedIsConsistent(before);
    ReachedIsQueued(before);
    RunQueues(Reached(before), later);
  }

  /** A queued delivery keeps every other occurrence of the schedule from being claimed for the first time. */
  lemma QueuedDeliveryBlocks(t: Tables, env: Env, p: OccurrenceId, q: OccurrenceId, s: Id)
    requires p in t.occurrences && OfSchedule(t.occurrences[p], s) && t.occurrences[p].deliveryState.Pending? && !t.occurrences[p].cancelled
    requires q != p && q in t.occurrences && OfSchedule(t.occurrences[q], s) && q in t.jobs && t.jobs[q].state.JobWaiting?
    ensures Claim(t, env, q).Failure?
  {
    assert Occupies(t.occurrences[p]);
  }

  /** In every run: after a reminder is reported done, no other occurrence of its schedule can be claimed for the first time until
      it is cancelled, because nothing else ends its delivery. */
  lemma ReportedReminderBlocks(before: seq<Step>, env: Env, p: OccurrenceId, fence: nat, later: seq<Step>, now: Env, q: OccurrenceId, s: Id)
    requires Complete(Reached(before), env, p, fence, Remind).Success?
    requires var t := AfterAll(Complete(Reached(before), env, p, fence, Remind).value, later);
             && p in t.occurrences && OfSchedule(t.occurrences[p], s) && !t.occurrences[p].cancelled
             && q != p && q in t.occurrences && OfSchedule(t.occurrences[q], s) && q in t.jobs && t.jobs[q].state.JobWaiting?
    ensures var t := AfterAll(Complete(Reached(before), env, p, fence, Remind).value, later); Claim(t, now, q).Failure?
  {
    var t := Complete(Reached(before), env, p, fence, Remind).value;
    RemindedIsPending(Reached(before), env, p, fence);
    hide Reached, Complete, Consistent, Queued, Claim;
    ReachedIsConsistent(before);
    ReachedIsQueued(before);
    CompleteIsGood(Reached(before), env, p, fence, Remind);
    GoodStepIsConsistent(Reached(before), t);
    CompleteQueues(Reached(before), env, p, fence, Remind);
    RunQueues(t, later);
    QueuedDeliveryBlocks(AfterAll(t, later), now, p, q, s);
  }

  lemma RemindedIsPending(t: Tables, env: Env, p: OccurrenceId, fence: nat)
    requires Complete(t, env, p, fence, Remind).Success?
    ensures var u := Complete(t, env, p, fence, Remind).value; p in u.occurrences && u.occurrences[p].deliveryState.Pending?
  {
  }
}
