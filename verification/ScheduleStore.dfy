/**
  The coordination tables as the object that coordination-schedules.js keeps and updates in place.
  Every command is proved against its function on `Tables`; a command that fails part of the way
  puts the saved rows back, as the enclosing store transaction does.
*/
module ScheduleStore {
  import opened Wrappers
  import opened Schedules
  import Calendar

  class Store {
    var schedules: map<Id, Schedule>
    var occurrences: map<OccurrenceId, Occurrence>
    var slots: map<SlotId, Slot>
    var jobs: map<OccurrenceId, Job>

    constructor ()
      ensures Rows() == EmptyTables
    {
      schedules, occurrences, slots, jobs := map[], map[], map[], map[];
    }

    function Rows(): Tables
      reads this
    {
      Tables(schedules, occurrences, slots, jobs)
    }

    /** `error` is the thrown code, if any, and `expected` the outcome that the command function names. */
    twostate predicate Did(new expected: Result<Tables>, new error: Option<string>)
      reads this
    {
      match expected
      case Success(t) => error.None? && Rows() == t
      case Failure(code) => error == Some(code) && Rows() == old(Rows())
    }

    method Restore(t: Tables)
      modifies this
      ensures Rows() == t
    {
      schedules, occurrences, slots, jobs := t.schedules, t.occurrences, t.slots, t.jobs;
    }

    method CancelOccurrence(env: Env, id: OccurrenceId)
      requires id in occurrences
      modifies this
      ensures Rows() == Schedules.CancelOccurrence(old(Rows()), env, id)
    {
      var o := occurrences[id];
      if o.cancelled { return; }
      o := o.(instanceRevision := o.instanceRevision + 1, deliveryRevision := o.deliveryRevision + 1, cancelled := true);
      if o.actionState.Waiting? || o.actionState.Running? {
        o := o.(actionState := Cancelled);
      }
      if id in jobs && (jobs[id].state.JobWaiting? || jobs[id].state.JobRunning?) {
        var job := jobs[id];
        jobs := jobs[id := job.(state := JobCancelled, fence := job.fence + 1)];
      }
      if env.notice(id).NoticeDelivered? {
        o := o.(deliveryState := Delivered);
      } else if env.notice(id).SendPermitted? {
        o := o.(deliveryState := Unknown);
      } else if o.deliveryState != NoDelivery {
        o := o.(deliveryState := DeliveryCancelled);
      }
      occurrences := occurrences[id := o];
    }

    method CancelEach(env: Env, ids: seq<OccurrenceId>)
      requires forall id :: id in ids ==> id in occurrences
      modifies this
      ensures Rows() == CancelAll(old(Rows()), env, ids)
    {
      hide Schedules.CancelOccurrence;
      var i := 0;
      while i < |ids|
        invariant 0 <= i <= |ids|
        invariant forall id :: id in ids ==> id in occurrences
        invariant CancelAll(Rows(), env, ids[i..]) == CancelAll(old(Rows()), env, ids)
      {
        assert ids[i..][0] == ids[i] && ids[i..][1..] == ids[i + 1..];
        CancellationKeepsRows(Rows(), env, ids[i]);
        CancelOccurrence(env, ids[i]);
        i := i + 1;
      }
    }

    method CancelCoordination(env: Env, coordinationId: Id, rows: seq<OccurrenceId>)
      modifies this
      ensures Rows() == Schedules.CancelCoordination(old(Rows()), env, coordinationId, rows)
    {
      var ids := Cancellable(Rows(), rows, (o: Occurrence) => o.coordinationId == coordinationId);
      var closed := map id | id in schedules ::
        var sc := schedules[id];
        if sc.coordinationId == coordinationId && !sc.state.Terminated? && !sc.state.Completed? then TerminatedSchedule(sc) else sc;
      CancelEach(env, ids);
      schedules := closed;
    }

    method CreateSchedule(env: Env, id: Id, a: NewSchedule) returns (error: Option<string>)
      modifies this
      ensures Did(Create(old(Rows()), env, id, a), error)
    {
      if env.arrangement(a.coordinationId) != ArrangementActive { return Some("DYNAMIC_COORDINATION_REVISION_STALE"); }
      if id in schedules { return Some("DYNAMIC_COORDINATION_EXISTS"); }
      if !Calendar.ValidRule(a.rule) { return Some("DYNAMIC_COORDINATION_TIME_INVALID"); }
      if !env.acceptsAction(a.definition.action) { return Some("DYNAMIC_COORDINATION_ACTION_INVALID"); }
      if !env.acceptsTarget(a.definition.target) { return Some("DYNAMIC_COORDINATION_SCOPE"); }
      var due: Result<Option<int>> := Success(if a.rule.Once? then Some(a.rule.at) else None);
      if !a.rule.Once? { due := Calendar.FindNextTimeSlot(a.rule, env.zone(a.timezone), env.now, None); }
      if due.Failure? { return Some(due.code); }
      if a.graceMs < 0 || 604_800_000 < a.graceMs { return Some("DYNAMIC_ARGUMENT_INVALID"); }
      if a.freshnessWindowMs < 1000 || 86_400_000 < a.freshnessWindowMs { return Some("DYNAMIC_ARGUMENT_INVALID"); }
      if !a.rule.Once? && !env.acceptsTemplate(a.definition.action) { return Some("DYNAMIC_COORDINATION_RECURRING_TEMPLATE_INVALID"); }
      schedules := schedules[id := Schedule(a.coordinationId, 1, Active, a.timezone, a.rule, a.definition, a.graceMs,
                                            a.misfirePolicy, None, [], due.value)];
      return None;
    }

    method ReplaceUnstarted(scheduleId: Id, sc: Schedule, id: OccurrenceId, plannedAt: int) returns (error: Option<string>)
      requires id in occurrences && occurrences[id].trigger.AtTime?
      modifies this
      ensures Did(Schedules.ReplaceUnstarted(old(Rows()), scheduleId, sc, id, plannedAt), error)
    {
      var o := occurrences[id];
      var oldSlotId, slotId := o.trigger.slot, SlotId(scheduleId, plannedAt);
      if oldSlotId !in slots || id !in jobs { return Some("DYNAMIC_NOT_FOUND"); }
      var oldSlot, oldJob := slots[oldSlotId], jobs[id];
      if !o.actionState.Waiting? || oldSlot.started.Some? || oldSlot.current != id { return Some("DYNAMIC_COORDINATION_SLOT_CONSUMED"); }
      if slotId != oldSlotId && slotId in slots { return Some("DYNAMIC_COORDINATION_SLOT_CONSUMED"); }
      var newId := Replacement(id, sc.revision);
      var replacement := o.(trigger := AtTime(slotId, sc.revision), definition := sc.definition, instanceRevision := 1, deliveryRevision := 1);
      o := o.(actionState := Superseded, instanceRevision := o.instanceRevision + 1);
      oldJob := oldJob.(state := JobSuperseded, fence := oldJob.fence + 1);
      jobs := jobs[id := oldJob];
      occurrences := occurrences[id := o];
      occurrences := occurrences[newId := replacement];
      if slotId == oldSlotId {
        slots := slots[oldSlotId := oldSlot.(current := newId)];
      } else {
        slots := slots[oldSlotId := oldSlot.(retired := true)];
        slots := slots[slotId := Slot(newId, None, false)];
      }
      jobs := jobs[newId := FreshJob];
      return None;
    }

    method ReplaceEach(scheduleId: Id, sc: Schedule, ids: seq<OccurrenceId>, at: Option<int>) returns (error: Option<string>)
      modifies this
      ensures Did(ReplaceAll(old(Rows()), scheduleId, sc, ids, at), error)
    {
      var saved, i := Rows(), 0;
      while i < |ids|
        invariant 0 <= i <= |ids|
        invariant ReplaceAll(Rows(), scheduleId, sc, ids[i..], at) == ReplaceAll(saved, scheduleId, sc, ids, at)
      {
        hide Schedules.ReplaceUnstarted;
        assert ids[i..][0] == ids[i] && ids[i..][1..] == ids[i + 1..];
        if ids[i] !in occurrences || !occurrences[ids[i]].trigger.AtTime? {
          Restore(saved);
          return Some("DYNAMIC_NOT_FOUND");
        }
        var plannedAt := if at.Some? then at.value else occurrences[ids[i]].trigger.slot.plannedAt;
        error := ReplaceUnstarted(scheduleId, sc, ids[i], plannedAt);
        if error.Some? {
          Restore(saved);
          return;
        }
        i := i + 1;
      }
      return None;
    }

    method ChangeSchedule(env: Env, id: Id, a: ScheduleChange, rows: seq<OccurrenceId>) returns (error: Option<string>)
      modifies this
      ensures Did(Change(old(Rows()), env, id, a, rows), error)
    {
      if id !in schedules { return Some("DYNAMIC_NOT_FOUND"); }
      var saved := Rows();
      var revised := Revised(schedules[id], env, a);
      hide Revised;
      if revised.Failure? { return Some(revised.code); }
      var sc := revised.value;
      if sc.state.Terminated? {
        CancelEach(env, Cancellable(Rows(), rows, o => OfSchedule(o, id)));
      } else if a.unstarted {
        var waiting := WaitingOf(Rows(), rows, id);
        if waiting == [] && exists o :: o in occurrences && OfSchedule(occurrences[o], id) && occurrences[o].actionState.Running? {
          return Some("DYNAMIC_COORDINATION_SLOT_CONSUMED");
        }
        if a.replacementPlannedAt.Some? && |waiting| != 1 { return Some("DYNAMIC_COORDINATION_REPLACEMENT_AMBIGUOUS"); }
        schedules := schedules[id := sc];
        error := ReplaceEach(id, sc, waiting, a.replacementPlannedAt);
        if error.Some? {
          Restore(saved);
          return;
        }
        var at := a.replacementPlannedAt;
        if at.Some? && (sc.nextDueAt.None? || at.value < sc.nextDueAt.value) {
          sc := sc.(nextDueAt := at);
        }
      }
      schedules := schedules[id := sc];
      return None;
    }

    // ---------- Scanning ----------

    /** The due schedules, earliest due instant first, cut at the limit. */
    method DueSchedules(env: Env, limit: int) returns (ids: seq<Id>)
      requires 1 <= limit
      ensures DueList(Rows(), env, ids, limit)
    {
      ids := [];
      var left := set id | id in schedules && Due(schedules[id], env);
      while |ids| < limit && left != {}
        invariant |ids| <= limit
        invariant left == set id | id in schedules && Due(schedules[id], env) && id !in ids
        invariant forall id :: id in ids ==> id in schedules && Due(schedules[id], env)
        invariant forall i, j :: 0 <= i < j < |ids|
                    ==> ids[i] != ids[j] && schedules[ids[i]].nextDueAt.value <= schedules[ids[j]].nextDueAt.value
        invariant forall id, i :: id in left && 0 <= i < |ids| && ids[i] in ids ==> schedules[ids[i]].nextDueAt.value <= schedules[id].nextDueAt.value
        decreases left
      {
        var id := EarliestDue(schedules, left);
        ids := ids + [id];
        left := left - {id};
      }
    }

    static method EarliestDue(rows: map<Id, Schedule>, candidates: set<Id>) returns (best: Id)
      requires candidates != {} && candidates <= rows.Keys
      requires forall id :: id in candidates ==> rows[id].nextDueAt.Some?
      ensures best in candidates && forall id :: id in candidates ==> rows[best].nextDueAt.value <= rows[id].nextDueAt.value
    {
      best := Pick(candidates);
      var left := candidates - {best};
      while left != {}
        invariant left <= candidates && best in candidates
        invariant forall id :: id in candidates && id !in left ==> rows[best].nextDueAt.value <= rows[id].nextDueAt.value
        decreases left
      {
        var id := Pick(left);
        left := left - {id};
        if rows[id].nextDueAt.value < rows[best].nextDueAt.value { best := id; }
      }
    }

    method SupersedeEach(ids: seq<OccurrenceId>) returns (error: Option<string>)
      modifies this
      ensures Did(SupersedeAll(old(Rows()), ids), error)
    {
      var saved, i := Rows(), 0;
      while i < |ids|
        invariant 0 <= i <= |ids|
        invariant SupersedeAll(Rows(), ids[i..]) == SupersedeAll(saved, ids)
      {
        assert ids[i..][0] == ids[i] && ids[i..][1..] == ids[i + 1..];
        if ids[i] !in occurrences || ids[i] !in jobs {
          Restore(saved);
          return Some("DYNAMIC_NOT_FOUND");
        }
        var older, job := occurrences[ids[i]], jobs[ids[i]];
        jobs := jobs[ids[i] := job.(state := JobSuperseded, fence := job.fence + 1)];
        occurrences := occurrences[ids[i] := older.(actionState := Superseded, instanceRevision := older.instanceRevision + 1)];
        i := i + 1;
      }
      return None;
    }

    method AcceptSlot(env: Env, id: Id, m: Missed, rows: seq<OccurrenceId>) returns (error: Option<string>)
      requires id in schedules
      modifies this
      ensures Did(Schedules.AcceptSlot(old(Rows()), env, id, m, rows), error)
    {
      var sc, slotId := schedules[id], SlotId(id, m.plannedAt);
      var occurrenceId := TimeOccurrence(slotId);
      var expired := !sc.misfirePolicy.CatchUpOnce? && sc.graceMs < env.now - m.plannedAt;
      if !expired {
        error := SupersedeEach(WaitingOf(Rows(), rows, id));
        if error.Some? { return; }
        jobs := jobs[occurrenceId := FreshJob];
      }
      occurrences := occurrences[occurrenceId :=
        Occurrence(sc.coordinationId, AtTime(slotId, sc.revision), sc.definition, None, if expired then Expired else Waiting,
                   NoDelivery, 1, 1, false, false, m.merged)];
      slots := slots[slotId := Slot(occurrenceId, None, false)];
      return None;
    }

    method ScanSchedule(env: Env, id: Id, rows: seq<OccurrenceId>) returns (error: Option<string>)
      requires id in schedules && Due(schedules[id], env)
      modifies this
      ensures Did(Schedules.ScanSchedule(old(Rows()), env, id, rows), error)
    {
      hide Calendar.NextTimeSlot, Calendar.SummarizeTimeSlots, Schedules.AcceptSlot;
      var saved, sc := Rows(), schedules[id];
      var z, m := env.zone(sc.timezone), Missed(sc.nextDueAt.value, 0);
      if !sc.rule.Once? {
        var missed := Calendar.CountTimeSlots(sc.rule, z, m.plannedAt, env.now);
        if missed.Failure? { return Some(missed.code); }
        if missed.value.latest.Some? && 0 < missed.value.count {
          m := Missed(missed.value.latest.value, missed.value.count - 1);
        }
      }
      var date := Calendar.DateAt(z, m.plannedAt);
      if SlotId(id, m.plannedAt) !in slots {
        var expired := TooLate(sc, env, m.plannedAt);
        error := AcceptSlot(env, id, m, rows);
        if error.Some? { return; }
        if expired && sc.rule.Once? { sc := sc.(state := Completed); }
      }
      var next := Calendar.FindNextTimeSlot(sc.rule, z, Max(env.now, m.plannedAt), Some(date));
      if next.Failure? {
        Restore(saved);
        return Some(next.code);
      }
      schedules := schedules[id := sc.(cursor := Some(Cursor(m.plannedAt, date)), nextDueAt := next.value)];
      return None;
    }

    method Scan(env: Env, limit: int, rows: seq<OccurrenceId>) returns (error: Option<string>, ghost due: seq<Id>)
      modifies this
      ensures 1 <= limit <= 100 ==> DueList(old(Rows()), env, due, limit)
      ensures Did(Execute(old(Rows()), env, Command.Scan(limit, due, rows)), error)
    {
      if limit < 1 || 100 < limit { return Some("DYNAMIC_ARGUMENT_INVALID"), []; }
      var ids := DueSchedules(env, limit);
      due := ids;
      var saved, i := Rows(), 0;
      while i < |ids|
        invariant 0 <= i <= |ids|
        invariant ScanAll(Rows(), env, ids[i..], rows) == ScanAll(saved, env, ids, rows)
        invariant forall k :: i <= k < |ids| ==> ids[k] in schedules && schedules[ids[k]] == saved.schedules[ids[k]]
      {
        hide Schedules.ScanSchedule;
        assert ids[i..][0] == ids[i] && ids[i..][1..] == ids[i + 1..];
        ScanKeepsOtherSchedules(Rows(), env, ids[i], rows);
        error := ScanSchedule(env, ids[i], rows);
        if error.Some? {
          Restore(saved);
          return;
        }
        i := i + 1;
      }
      error := None;
    }

    // ---------- Jobs ----------

    method ClaimJob(env: Env, id: OccurrenceId) returns (error: Option<string>)
      modifies this
      ensures Did(Claim(old(Rows()), env, id), error)
    {
      if id !in jobs || id !in occurrences { return Some("DYNAMIC_NOT_FOUND"); }
      var job, o := jobs[id], occurrences[id];
      if !env.Alive(o.coordinationId) { return Some("DYNAMIC_COORDINATION_CANCELLED"); }
      if o.cancelled || o.actionState in {Cancelled, Superseded, Expired} { return Some("DYNAMIC_COORDINATION_CANCELLED"); }
      if o.paused { return Some("DYNAMIC_COORDINATION_PAUSED"); }
      if job.state.JobCompleted? || (job.state.JobRunning? && job.leaseUntil.Some? && env.now < job.leaseUntil.value) {
        return Some("DYNAMIC_COORDINATION_JOB_BUSY");
      }
      if job.state.JobWaiting? {
        if o.trigger.AtTime? {
          error := StartSlot(env, id, o);
          if error.Some? { return; }
        } else if !env.triggerHolds(id) {
          return Some("DYNAMIC_COORDINATION_EVENT_STALE");
        }
      }
      jobs := jobs[id := Job(JobRunning, job.fence + 1, job.attempt + 1, Some(env.now + 60_000), o.instanceRevision)];
      occurrences := occurrences[id := o.(actionState := Running)];
      return None;
    }

    /** The checks of a first claim; the slot is marked as started by this occurrence when they pass. */
    method StartSlot(env: Env, id: OccurrenceId, o: Occurrence) returns (error: Option<string>)
      requires o.trigger.AtTime?
      modifies this`slots
      ensures error == TimeClaimError(old(Rows()), env, id, o)
      ensures slots == if error.Some? then old(slots)
                       else old(slots)[o.trigger.slot := old(slots)[o.trigger.slot].(started := Some(id))]
    {
      var slotId := o.trigger.slot;
      if slotId.scheduleId !in schedules || slotId !in slots { return Some("DYNAMIC_NOT_FOUND"); }
      var sc, slot := schedules[slotId.scheduleId], slots[slotId];
      if !sc.state.Active? { return Some("DYNAMIC_COORDINATION_REVISION_STALE"); }
      if env.now < slotId.plannedAt { return Some("DYNAMIC_COORDINATION_NOT_DUE"); }
      if DefinitionOf(sc, o.trigger.acceptedRevision) != Some(Accepted(o)) { return Some("DYNAMIC_COORDINATION_REVISION_STALE"); }
      var others := set p | p in occurrences && p != id && OfSchedule(occurrences[p], slotId.scheduleId) && Occupies(occurrences[p]);
      assert (exists p :: p in occurrences && p != id && OfSchedule(occurrences[p], slotId.scheduleId) && Occupies(occurrences[p]))
             <==> others != {} by {
        assert forall p :: p in others <==>
                 (p in occurrences && p != id && OfSchedule(occurrences[p], slotId.scheduleId) && Occupies(occurrences[p]));
      }
      if others != {} { return Some("DYNAMIC_COORDINATION_OVERLAP"); }
      if slot.current != id || (slot.started.Some? && slot.started.value != id) { return Some("DYNAMIC_COORDINATION_SLOT_CONSUMED"); }
      slots := slots[slotId := slot.(started := Some(id))];
      return None;
    }

    method CompleteJob(env: Env, id: OccurrenceId, fence: nat, report: Report) returns (error: Option<string>)
      modifies this
      ensures Did(Complete(old(Rows()), env, id, fence, report), error)
    {
      if !Holds(Rows(), env, id, fence) { return Some("DYNAMIC_COORDINATION_JOB_STALE"); }
      var job, o := jobs[id], occurrences[id];
      var jobState, actionState, delivery := JobCompleted, Succeeded, DeliveryState.Pending;
      match report {
        case Remind =>
          if !o.definition.action.Reminder? { return Some("DYNAMIC_COORDINATION_ACTION_INVALID"); }
        case Read(dispatch) =>
          if !o.definition.action.ReadQuery? { return Some("DYNAMIC_COORDINATION_ACTION_INVALID"); }
          if o.definition.action.onIncomplete != [] {
            if dispatch.Dispatched? && dispatch.waiting { return Some("DYNAMIC_COORDINATION_CONDITIONAL_WAITING"); }
            o := Materialize(o, dispatch.materialized);
            if dispatch.DispatchBlocked? { jobState, actionState := JobBlocked, Blocked; }
          }
        case RunCommands(dispatch) =>
          if o.trigger.OnEvent? && !env.triggerHolds(id) { return Some("DYNAMIC_COORDINATION_EVENT_STALE"); }
          if !o.definition.action.TaskCommand? { return Some("DYNAMIC_COORDINATION_DISPATCH_ADAPTER_REQUIRED"); }
          if dispatch.DispatchBlocked? {
            if !o.trigger.AtTime? { return Some("DYNAMIC_COORDINATION_COMMAND_INVALID"); }
            jobState, actionState, delivery := JobBlocked, Blocked, o.deliveryState;
          } else {
            if o.trigger.AtTime? { o := Materialize(o, dispatch.materialized); }
            if dispatch.waiting { jobState, actionState := JobWaiting, Waiting; }
            if dispatch.waiting || o.definition.target.summaryOnly { delivery := NoDelivery; }
          }
      }
      jobs := jobs[id := job.(state := jobState)];
      occurrences := occurrences[id := o.(actionState := actionState, deliveryState := delivery)];
      return None;
    }

    // ---------- Occurrences ----------

    method AcceptOccurrence(env: Env, id: OccurrenceId, coordinationId: Id, d: Definition) returns (error: Option<string>)
      modifies this
      ensures Did(Accept(old(Rows()), env, id, coordinationId, d), error)
    {
      if !env.Alive(coordinationId) { return Some("DYNAMIC_COORDINATION_CANCELLED"); }
      if id in occurrences {
        if occurrences[id].coordinationId != coordinationId || Accepted(occurrences[id]) != d {
          return Some("DYNAMIC_COORDINATION_TRIGGER_CONFLICT");
        }
        return None;
      }
      if !id.EventOccurrence? { return Some("DYNAMIC_COORDINATION_TIME_SCAN_REQUIRED"); }
      if id.coordinationId != coordinationId { return Some("DYNAMIC_COORDINATION_TRIGGER_CONFLICT"); }
      if !env.triggerHolds(id) { return Some("DYNAMIC_COORDINATION_EVENT_STALE"); }
      if !env.acceptsAction(d.action) { return Some("DYNAMIC_COORDINATION_ACTION_INVALID"); }
      if !env.acceptsTarget(d.target) { return Some("DYNAMIC_COORDINATION_SCOPE"); }
      occurrences := occurrences[id := Occurrence(coordinationId, OnEvent(id.event), d, None, Waiting, NoDelivery, 1, 1, false, false, 0)];
      jobs := jobs[id := FreshJob];
      return None;
    }

    method ControlOne(env: Env, id: OccurrenceId, expected: nat, control: Control) returns (error: Option<string>)
      modifies this
      ensures Did(ControlOccurrence(old(Rows()), env, id, expected, control), error)
    {
      if id !in occurrences { return Some("DYNAMIC_NOT_FOUND"); }
      var o := occurrences[id];
      if o.instanceRevision != expected { return Some("DYNAMIC_COORDINATION_REVISION_STALE"); }
      if control.CancelOne? {
        CancelOccurrence(env, id);
        return None;
      }
      if (!o.actionState.Waiting? && !o.actionState.Running?) || o.cancelled {
        return Some("DYNAMIC_COORDINATION_CONTROL_EFFECT_BOUNDARY");
      }
      if id !in jobs { return Some("DYNAMIC_NOT_FOUND"); }
      var job := jobs[id];
      jobs := jobs[id := job.(fence := job.fence + 1, state := JobWaiting, leaseUntil := None)];
      occurrences := occurrences[id := o.(instanceRevision := o.instanceRevision + 1, paused := control.PauseOne?, actionState := Waiting)];
      return None;
    }
  }

  lemma ScanKeepsOtherSchedules(t: Tables, env: Env, id: Id, rows: seq<OccurrenceId>)
    requires id in t.schedules && Due(t.schedules[id], env)
    ensures var r := Schedules.ScanSchedule(t, env, id, rows);
            r.Success? ==> t.schedules.Keys == r.value.schedules.Keys
                           && forall other :: other in t.schedules && other != id ==> r.value.schedules[other] == t.schedules[other]
  {
    hide Calendar.NextTimeSlot, MissedSlots;
    var m := MissedSlots(t.schedules[id], env);
    if m.Success? { SupersedingKeepsSchedules(t, WaitingOf(t, rows, id)); }
  }

  lemma {:induction false} SupersedingKeepsSchedules(t: Tables, ids: seq<OccurrenceId>)
    ensures SupersedeAll(t, ids).Success? ==> SupersedeAll(t, ids).value.schedules == t.schedules
    decreases |ids|
  {
    if ids != [] && ids[0] in t.occurrences && ids[0] in t.jobs { SupersedingKeepsSchedules(SupersedeOne(t, ids[0]), ids[1..]); }
  }

  lemma CancellationKeepsRows(t: Tables, env: Env, id: OccurrenceId)
    requires id in t.occurrences
    ensures Schedules.CancelOccurrence(t, env, id).occurrences.Keys == t.occurrences.Keys
  {
  }
}
