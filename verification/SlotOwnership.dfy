/**
  No waiting occurrence is ever stranded: in every reachable state it is the current one of its slot, and what it was
  accepted to do is what its schedule recorded for the revision it was accepted under.  So a claim is refused only for
  the reasons a caller can see.
*/
module SlotOwnership {
  import opened Wrappers
  import opened Schedules
  import opened ScheduleSafety
  import opened ScheduleDelivery
  import Calendar

  // ---------- What is recorded of a schedule ----------

  ghost predicate HistoryOk(sc: Schedule) {
    forall h :: h in sc.history ==> h.revision < sc.revision
  }

  /** A later record of the same schedule: what was defined under a revision stays known until the schedule is cancelled. */
  ghost predicate Records(sc: Schedule, sc': Schedule) {
    && HistoryOk(sc') && sc'.coordinationId == sc.coordinationId && sc.revision <= sc'.revision && (sc.state.Terminated? ==> sc'.state.Terminated?)
    && (!sc'.state.Terminated? ==> forall r: nat :: DefinitionOf(sc, r).Some? ==> DefinitionOf(sc', r) == DefinitionOf(sc, r))
  }

  lemma {:induction false} PastAppended(history: seq<PastRevision>, x: PastRevision, r: nat)
    ensures PastDefinition(history, r).Some? ==> PastDefinition(history + [x], r) == PastDefinition(history, r)
    ensures (forall h :: h in history ==> h.revision != r) && x.revision == r ==> PastDefinition(history + [x], r) == x.definition
  {
    if history == [] {
      assert history + [x] == [x];
    } else {
      assert (history + [x])[1..] == history[1..] + [x];
      PastAppended(history[1..], x, r);
    }
  }

  lemma {:induction false} PastIsOlder(history: seq<PastRevision>, r: nat)
    requires forall h :: h in history ==> h.revision != r
    ensures PastDefinition(history, r).None?
  {
    if history != [] { PastIsOlder(history[1..], r); }
  }

  lemma RevisedRecords(sc: Schedule, env: Env, a: ScheduleChange)
    requires HistoryOk(sc) && Revised(sc, env, a).Success?
    ensures Records(sc, Revised(sc, env, a).value)
  {
    var sc' := Revised(sc, env, a).value;
    var x := PastRevision(sc.revision, Some(sc.definition));
    assert sc'.history == sc.history + [x] && sc'.revision == sc.revision + 1 && !sc.state.Terminated? && sc'.coordinationId == sc.coordinationId;
    hide Revised;
    forall r: nat | DefinitionOf(sc, r).Some? ensures DefinitionOf(sc', r) == DefinitionOf(sc, r) {
      PastAppended(sc.history, x, r);
      if r == sc'.revision { PastIsOlder(sc.history, r); }
    }
  }

  // ---------- What every occurrence keeps ----------

  /** A waiting occurrence is the current one of its slot, and a time-triggered one does what its schedule recorded. */
  ghost predicate Owns(t: Tables, id: OccurrenceId)
    requires id in t.occurrences
  {
    var o := t.occurrences[id];
    (id in t.jobs && t.jobs[id].state.JobRunning? ==> t.jobs[id].leaseUntil.Some?)
    && (o.trigger.AtTime? ==>
          var k := o.trigger.slot;
          k in t.slots && k.scheduleId in t.schedules
          && (o.actionState.Waiting? ==> t.slots[k].current == id)
          && (!t.schedules[k.scheduleId].state.Terminated? ==>
                DefinitionOf(t.schedules[k.scheduleId], o.trigger.acceptedRevision) == Some(Accepted(o)))
          && (o.templateAction.Some? ==> id in t.jobs && 0 < t.jobs[id].attempt))
  }

  ghost predicate Owned(t: Tables) {
    (forall s :: s in t.schedules ==> HistoryOk(t.schedules[s])) && (forall id :: id in t.occurrences ==> Owns(t, id))
  }

  /** Only a control of the occurrence itself pauses or resumes it, and its own commands are given to it once. */
  predicate Continues(o: Occurrence, o': Occurrence) {
    o'.paused == o.paused && (o.templateAction.Some? ==> o'.templateAction == o.templateAction && o'.definition == o.definition)
  }

  ghost predicate KeepsCourse(t: Tables, u: Tables) {
    (forall id :: id in t.occurrences ==> id in u.occurrences && Continues(t.occurrences[id], u.occurrences[id]))
    && (forall s :: s in t.schedules ==> s in u.schedules && Records(t.schedules[s], u.schedules[s]))
  }

  ghost predicate OwnStep(t: Tables, u: Tables) {
    Owned(u) && KeepsCourse(t, u)
  }

  lemma RecordsOn(a: Schedule, b: Schedule, c: Schedule)
    requires Records(a, b) && Records(b, c)
    ensures Records(a, c)
  {
    hide HistoryOk, DefinitionOf;
  }

  lemma KeepsCourseOn(t: Tables, u: Tables, v: Tables)
    requires KeepsCourse(t, u) && KeepsCourse(u, v)
    ensures KeepsCourse(t, v)
  {
    forall s | s in t.schedules ensures s in v.schedules && Records(t.schedules[s], v.schedules[s]) {
      hide Records, Continues;
      assert Records(t.schedules[s], u.schedules[s]) && Records(u.schedules[s], v.schedules[s]);
      RecordsOn(t.schedules[s], u.schedules[s], v.schedules[s]);
    }
    hide Records;
    forall id | id in t.occurrences ensures id in v.occurrences && Continues(t.occurrences[id], v.occurrences[id]) {
      assert Continues(t.occurrences[id], u.occurrences[id]) && Continues(u.occurrences[id], v.occurrences[id]);
    }
  }

  lemma OwnStepOn(t: Tables, u: Tables, v: Tables)
    requires OwnStep(t, u) && OwnStep(u, v)
    ensures OwnStep(t, v)
  {
    hide KeepsCourse, Owned;
    KeepsCourseOn(t, u, v);
  }

  lemma OwnStepIsOwned(t: Tables, u: Tables)
    requires OwnStep(t, u)
    ensures Owned(u)
  {
  }

  lemma RecordsItself(sc: Schedule)
    requires HistoryOk(sc)
    ensures Records(sc, sc)
  {
  }

  /** The slots kept their current occurrences. */
  ghost predicate SameCurrent(t: Tables, u: Tables) {
    forall k :: k in t.slots ==> k in u.slots && u.slots[k].current == t.slots[k].current
  }

  lemma OwnsStays(t: Tables, u: Tables, id: OccurrenceId)
    requires id in t.occurrences && Owns(t, id) && id in u.occurrences && u.occurrences[id] == t.occurrences[id] && SameJob(t, u, id)
    requires t.occurrences[id].trigger.AtTime? && t.occurrences[id].actionState.Waiting? ==>
               var k := t.occurrences[id].trigger.slot; k in u.slots && u.slots[k].current == t.slots[k].current
    requires t.occurrences[id].trigger.AtTime? ==> t.occurrences[id].trigger.slot in u.slots
    requires forall s :: s in t.schedules ==> s in u.schedules && Records(t.schedules[s], u.schedules[s])
    ensures Owns(u, id)
  {
    hide DefinitionOf, HistoryOk, Accepted;
    var o := t.occurrences[id];
    if o.trigger.AtTime? {
      var s := o.trigger.slot.scheduleId;
      assert Records(t.schedules[s], u.schedules[s]);
      assert !u.schedules[s].state.Terminated? ==>
               DefinitionOf(u.schedules[s], o.trigger.acceptedRevision) == DefinitionOf(t.schedules[s], o.trigger.acceptedRevision);
    }
  }

  /** A step that touches one row, no schedule, and no current occurrence. */
  lemma RowOwns(t: Tables, u: Tables, id: OccurrenceId)
    requires Owned(t) && OnlyRow(t, u, id) && u.schedules == t.schedules && SameCurrent(t, u) && u.jobs.Keys <= t.jobs.Keys + {id}
    requires id in u.occurrences && Owns(u, id)
    ensures Owned(u)
    ensures id in t.occurrences ==> Continues(t.occurrences[id], u.occurrences[id]) ==> OwnStep(t, u)
    ensures id !in t.occurrences ==> OwnStep(t, u)
  {
    forall s | s in t.schedules ensures s in u.schedules && Records(t.schedules[s], u.schedules[s]) { RecordsItself(t.schedules[s]); }
    hide HistoryOk, Records;
    forall p | p in u.occurrences ensures Owns(u, p) {
      if p != id {
        assert Owns(t, p);
        OwnsStays(t, u, p);
      }
    }
  }

  /** A step that touches no row and no slot. */
  lemma SchedulesOwn(t: Tables, u: Tables)
    requires Owned(t) && u.occurrences == t.occurrences && u.jobs == t.jobs && u.slots == t.slots
    requires forall s :: s in t.schedules ==> s in u.schedules && Records(t.schedules[s], u.schedules[s])
    requires forall s :: s in u.schedules ==> HistoryOk(u.schedules[s])
    ensures OwnStep(t, u)
  {
    hide Records, HistoryOk;
    forall p | p in u.occurrences ensures Owns(u, p) {
      assert Owns(t, p);
      OwnsStays(t, u, p);
    }
  }

  lemma NothingOwns(t: Tables)
    requires Owned(t)
    ensures OwnStep(t, t)
  {
    forall s | s in t.schedules ensures Records(t.schedules[s], t.schedules[s]) { RecordsItself(t.schedules[s]); }
    SchedulesOwn(t, t);
  }

  // ---------- One row at a time ----------

  lemma CancellingOwns(t: Tables, env: Env, id: OccurrenceId)
    requires Owned(t) && id in t.occurrences
    ensures OwnStep(t, CancelOccurrence(t, env, id))
  {
    var u := CancelOccurrence(t, env, id);
    if u == t {
      NothingOwns(t);
    } else {
      assert Owns(t, id);
      CancelledOwns(t, env, id);
      hide CancelOccurrence, Owns, Owned, OwnStep;
      RowOwns(t, u, id);
    }
  }

  lemma CancelledOwns(t: Tables, env: Env, id: OccurrenceId)
    requires id in t.occurrences && !t.occurrences[id].cancelled && Owns(t, id)
    ensures var u := CancelOccurrence(t, env, id);
            OnlyRow(t, u, id) && u.schedules == t.schedules && SameCurrent(t, u) && u.jobs.Keys <= t.jobs.Keys + {id}
            && id in u.occurrences && Owns(u, id) && Continues(t.occurrences[id], u.occurrences[id])
  {
    hide DefinitionOf, CancelledDelivery;
  }

  lemma {:induction false} CancelAllOwns(t: Tables, env: Env, ids: seq<OccurrenceId>)
    requires Owned(t) && forall id :: id in ids ==> id in t.occurrences
    ensures OwnStep(t, CancelAll(t, env, ids)) && CancelAll(t, env, ids).schedules == t.schedules
    decreases |ids|
  {
    if ids == [] {
      NothingOwns(t);
    } else {
      var u := CancelOccurrence(t, env, ids[0]);
      CancellingOwns(t, env, ids[0]);
      OwnStepIsOwned(t, u);
      assert u.schedules == t.schedules;
      assert forall id :: id in ids[1..] ==> id in ids;
      hide CancelOccurrence, Owned, OwnStep;
      CancelAllOwns(u, env, ids[1..]);
      OwnStepOn(t, u, CancelAll(t, env, ids));
    }
  }

  lemma SupersedingOwns(t: Tables, id: OccurrenceId)
    requires Owned(t) && id in t.occurrences && id in t.jobs
    ensures OwnStep(t, SupersedeOne(t, id))
  {
    assert Owns(t, id);
    SupersededOwns(t, id);
    hide SupersedeOne, Owns, Owned, OwnStep;
    RowOwns(t, SupersedeOne(t, id), id);
  }

  lemma SupersededOwns(t: Tables, id: OccurrenceId)
    requires id in t.occurrences && id in t.jobs && Owns(t, id)
    ensures var u := SupersedeOne(t, id);
            OnlyRow(t, u, id) && u.schedules == t.schedules && SameCurrent(t, u) && u.jobs.Keys <= t.jobs.Keys + {id}
            && id in u.occurrences && Owns(u, id) && Continues(t.occurrences[id], u.occurrences[id])
  {
    hide DefinitionOf;
  }

  lemma {:induction false} SupersedeAllOwns(t: Tables, ids: seq<OccurrenceId>)
    requires Owned(t) && SupersedeAll(t, ids).Success?
    ensures OwnStep(t, SupersedeAll(t, ids).value) && SupersedeAll(t, ids).value.schedules == t.schedules
    decreases |ids|
  {
    if ids == [] {
      NothingOwns(t);
    } else {
      var u := SupersedeOne(t, ids[0]);
      SupersedingOwns(t, ids[0]);
      OwnStepIsOwned(t, u);
      assert u.schedules == t.schedules;
      hide SupersedeOne, Owned, OwnStep;
      SupersedeAllOwns(u, ids[1..]);
      OwnStepOn(t, u, SupersedeAll(t, ids).value);
    }
  }

  // ---------- Scans ----------

  lemma AddedSlotOwns(t: Tables, slot: SlotId, o: Occurrence, jobs: map<OccurrenceId, Job>)
    requires Owned(t) && TimeOccurrence(slot) !in t.occurrences && slot !in t.slots && o.trigger.AtTime? && o.trigger.slot == slot
    requires slot.scheduleId in t.schedules && o.templateAction.None?
    requires DefinitionOf(t.schedules[slot.scheduleId], o.trigger.acceptedRevision) == Some(o.definition)
    requires jobs == t.jobs[TimeOccurrence(slot) := FreshJob] || (jobs == t.jobs && TimeOccurrence(slot) !in t.jobs)
    ensures OwnStep(t, AddSlot(t, slot, o, jobs))
  {
    var u, id := AddSlot(t, slot, o, jobs), TimeOccurrence(slot);
    assert Owns(u, id) by { hide DefinitionOf; }
    hide Owns, DefinitionOf, Owned, OwnStep;
    RowOwns(t, u, id);
  }

  lemma AcceptSlotOwns(t: Tables, env: Env, id: Id, m: Missed, rows: seq<OccurrenceId>)
    requires Consistent(t) && Owned(t) && id in t.schedules && SlotId(id, m.plannedAt) !in t.slots && AcceptSlot(t, env, id, m, rows).Success?
    ensures OwnStep(t, AcceptSlot(t, env, id, m, rows).value) && AcceptSlot(t, env, id, m, rows).value.schedules == t.schedules
  {
    var sc, slot := t.schedules[id], SlotId(id, m.plannedAt);
    var expired := TooLate(sc, env, m.plannedAt);
    var occurrence := Occurrence(sc.coordinationId, AtTime(slot, sc.revision), sc.definition, None,
                                 if expired then Expired else Waiting, NoDelivery, 1, 1, false, false, m.merged);
    SlotIsNew(t, slot);
    assert TimeOccurrence(slot) !in t.jobs;
    hide Consistent, Owned, OwnStep, TooLate;
    if expired {
      AddedSlotOwns(t, slot, occurrence, t.jobs);
    } else {
      var ids := WaitingOf(t, rows, id);
      SupersedeAllIsGood(t, ids);
      SupersedeAllOwns(t, ids);
      var u := SupersedeAll(t, ids).value;
      OwnStepIsOwned(t, u);
      AddedSlotOwns(u, slot, occurrence, u.jobs[TimeOccurrence(slot) := FreshJob]);
      OwnStepOn(t, u, AddSlot(u, slot, occurrence, u.jobs[TimeOccurrence(slot) := FreshJob]));
    }
  }

  lemma ScannedRecords(sc: Schedule, state: ScheduleState, cursor: Option<Cursor>, due: Option<int>)
    requires HistoryOk(sc) && !sc.state.Terminated?
    ensures Records(sc, sc.(state := state, cursor := cursor, nextDueAt := due))
  {
  }

  lemma ScanScheduleOwns(t: Tables, env: Env, id: Id, rows: seq<OccurrenceId>)
    requires Consistent(t) && Owned(t) && id in t.schedules && Due(t.schedules[id], env) && ScanSchedule(t, env, id, rows).Success?
    ensures OwnStep(t, ScanSchedule(t, env, id, rows).value)
  {
    hide Consistent, OwnStep, AcceptSlot, TooLate, MissedSlots, Calendar.NextTimeSlot, Calendar.DateAt;
    var m, u := MissedSlots(t.schedules[id], env).value, ScanSchedule(t, env, id, rows).value;
    var sc, sc' := t.schedules[id], u.schedules[id];
    ScannedRecords(sc, sc'.state, sc'.cursor, sc'.nextDueAt);
    var t' := if SlotId(id, m.plannedAt) !in t.slots then AcceptSlot(t, env, id, m, rows).value else t;
    if SlotId(id, m.plannedAt) !in t.slots {
      AcceptSlotOwns(t, env, id, m, rows);
    } else {
      NothingOwns(t);
    }
    OwnStepIsOwned(t, t');
    assert u == t'.(schedules := t'.schedules[id := sc']);
    hide ScanSchedule, Due;
    OneScheduleOwns(t', id, sc');
    OwnStepOn(t, t', u);
  }

  lemma OneScheduleOwns(t: Tables, id: Id, sc: Schedule)
    requires Owned(t) && (if id in t.schedules then Records(t.schedules[id], sc) else HistoryOk(sc))
    ensures OwnStep(t, t.(schedules := t.schedules[id := sc]))
  {
    var u := t.(schedules := t.schedules[id := sc]);
    forall s | s in t.schedules ensures s in u.schedules && Records(t.schedules[s], u.schedules[s]) {
      if s != id { RecordsItself(t.schedules[s]); }
    }
    assert HistoryOk(sc);
    forall s | s in u.schedules ensures HistoryOk(u.schedules[s]) { assert s in t.schedules || s == id; }
    hide HistoryOk, Records;
    SchedulesOwn(t, u);
  }

  lemma {:induction false} ScanAllOwns(t: Tables, env: Env, ids: seq<Id>, rows: seq<OccurrenceId>)
    requires Consistent(t) && Owned(t) && ScanAll(t, env, ids, rows).Success?
    ensures OwnStep(t, ScanAll(t, env, ids, rows).value)
    decreases |ids|
  {
    hide Consistent, Owned, OwnStep, GoodStep, ScanSchedule, Due;
    if ids == [] {
      NothingOwns(t);
    } else {
      var u := ScanSchedule(t, env, ids[0], rows).value;
      ScanScheduleIsGood(t, env, ids[0], rows);
      GoodStepIsConsistent(t, u);
      ScanScheduleOwns(t, env, ids[0], rows);
      OwnStepIsOwned(t, u);
      ScanAllOwns(u, env, ids[1..], rows);
      OwnStepOn(t, u, ScanAll(t, env, ids, rows).value);
    }
  }

  // ---------- Changes of a schedule ----------

  lemma ReplacingOwns(t: Tables, scheduleId: Id, sc: Schedule, ids: seq<OccurrenceId>, plannedAt: int)
    requires Consistent(t) && Owned(t) && ids != [] && Replaceable(t, ids, scheduleId, sc.revision)
    requires scheduleId in t.schedules && t.schedules[scheduleId] == sc
    requires ReplaceUnstarted(t, scheduleId, sc, ids[0], plannedAt).Success?
    ensures OwnStep(t, ReplaceUnstarted(t, scheduleId, sc, ids[0], plannedAt).value)
    ensures ReplaceUnstarted(t, scheduleId, sc, ids[0], plannedAt).value.schedules == t.schedules
  {
    hide Consistent, OwnStep, DefinitionOf;
    var id, u := ids[0], ReplaceUnstarted(t, scheduleId, sc, ids[0], plannedAt).value;
    assert id in ids && Replacement(id, sc.revision) !in t.occurrences;
    RowIsOk(t, id);
    assert Owns(t, id);
    assert t.occurrences[id].templateAction.None?;
    SupersedingOwns(t, id);
    var t1 := SupersedeOne(t, id);
    OwnStepIsOwned(t, t1);
    ReplacementOwns(t1, id, sc, u, SlotId(scheduleId, plannedAt));
    OwnStepOn(t, t1, u);
  }

  /** The replacement takes over the slot of a superseded occurrence, or a new one. */
  lemma ReplacementOwns(t: Tables, id: OccurrenceId, sc: Schedule, u: Tables, newSlot: SlotId)
    requires Owned(t) && id in t.occurrences && t.occurrences[id].trigger.AtTime? && t.occurrences[id].trigger.slot in t.slots
    requires t.slots[t.occurrences[id].trigger.slot].current == id && t.occurrences[id].actionState.Superseded?
    requires Replacement(id, sc.revision) !in t.occurrences && newSlot.scheduleId in t.schedules && t.schedules[newSlot.scheduleId] == sc
    requires newSlot == t.occurrences[id].trigger.slot || newSlot !in t.slots
    requires exists o: Occurrence :: o.trigger == AtTime(newSlot, sc.revision) && o.definition == sc.definition && o.templateAction.None?
                                     && u == AddReplacement(t, id, sc.revision, o, t.occurrences[id].trigger.slot, newSlot)
    ensures OwnStep(t, u)
  {
    var k, newO := t.occurrences[id].trigger.slot, Replacement(id, sc.revision);
    forall s | s in t.schedules ensures s in u.schedules && Records(t.schedules[s], u.schedules[s]) { RecordsItself(t.schedules[s]); }
    forall p | p in u.occurrences ensures Owns(u, p) {
      hide Records, HistoryOk;
      if p != newO {
        assert Owns(t, p);
        OwnsStays(t, u, p);
      }
    }
    hide Owns;
  }

  lemma {:induction false} ReplaceAllOwns(t: Tables, scheduleId: Id, sc: Schedule, ids: seq<OccurrenceId>, at: Option<int>)
    requires Consistent(t) && Owned(t) && Replaceable(t, ids, scheduleId, sc.revision)
    requires scheduleId in t.schedules && t.schedules[scheduleId] == sc
    requires ReplaceAll(t, scheduleId, sc, ids, at).Success?
    ensures OwnStep(t, ReplaceAll(t, scheduleId, sc, ids, at).value) && ReplaceAll(t, scheduleId, sc, ids, at).value.schedules == t.schedules
    decreases |ids|
  {
    hide Consistent, Owned, OwnStep, GoodStep, ReplaceUnstarted, Replaceable;
    if ids == [] {
      NothingOwns(t);
    } else {
      var plannedAt := if at.Some? then at.value else t.occurrences[ids[0]].trigger.slot.plannedAt;
      ReplaceUnstartedIsGood(t, scheduleId, sc, ids, plannedAt);
      ReplacingOwns(t, scheduleId, sc, ids, plannedAt);
      var u := ReplaceUnstarted(t, scheduleId, sc, ids[0], plannedAt).value;
      GoodStepIsConsistent(t, u);
      OwnStepIsOwned(t, u);
      ReplaceAllOwns(u, scheduleId, sc, ids[1..], at);
      OwnStepOn(t, u, ReplaceAll(t, scheduleId, sc, ids, at).value);
    }
  }

  lemma EarlierDueRecords(sc: Schedule, due: Option<int>)
    requires HistoryOk(sc)
    ensures Records(sc, sc.(nextDueAt := due))
  {
  }

  lemma ChangeOwns(t: Tables, env: Env, id: Id, a: ScheduleChange, rows: seq<OccurrenceId>)
    requires Consistent(t) && Owned(t) && Change(t, env, id, a, rows).Success?
    ensures OwnStep(t, Change(t, env, id, a, rows).value)
  {
    var sc, u := Revised(t.schedules[id], env, a).value, Change(t, env, id, a, rows).value;
    RevisedGrows(t.schedules[id], env, a);
    RevisedRecords(t.schedules[id], env, a);
    assert HistoryOk(sc);
    hide Consistent, Owned, OwnStep, GoodStep, Revised, OccurrenceOk, SlotOk, HistoryOk, Records;
    if sc.state.Terminated? {
      var ids := Cancellable(t, rows, o => OfSchedule(o, id));
      CancelAllOwns(t, env, ids);
      var t' := CancelAll(t, env, ids);
      OwnStepIsOwned(t, t');
      OneScheduleOwns(t', id, sc);
      OwnStepOn(t, t', u);
    } else if !a.unstarted {
      OneScheduleOwns(t, id, sc);
    } else {
      var t0, ids := t.(schedules := t.schedules[id := sc]), WaitingOf(t, rows, id);
      ScheduleStepIsGood(t, t0);
      GoodStepIsConsistent(t, t0);
      NotYetReplaced(t, t0, ids, id, sc.revision);
      OneScheduleOwns(t, id, sc);
      OwnStepIsOwned(t, t0);
      ReplaceAllOwns(t0, id, sc, ids, a.replacementPlannedAt);
      var t' := ReplaceAll(t0, id, sc, ids, a.replacementPlannedAt).value;
      OwnStepIsOwned(t0, t');
      EarlierDueRecords(sc, u.schedules[id].nextDueAt);
      OneScheduleOwns(t', id, u.schedules[id]);
      OwnStepOn(t, t0, t');
      OwnStepOn(t, t', u);
    }
  }

  lemma TerminatedRecords(sc: Schedule)
    requires HistoryOk(sc)
    ensures Records(sc, TerminatedSchedule(sc))
  {
  }

  lemma CancelCoordinationOwns(t: Tables, env: Env, coordinationId: Id, rows: seq<OccurrenceId>)
    requires Owned(t)
    ensures OwnStep(t, CancelCoordination(t, env, coordinationId, rows))
  {
    var ids := Cancellable(t, rows, (o: Occurrence) => o.coordinationId == coordinationId);
    CancelAllOwns(t, env, ids);
    var t', u := CancelAll(t, env, ids), CancelCoordination(t, env, coordinationId, rows);
    OwnStepIsOwned(t, t');
    hide CancelAll;
    forall s | s in t'.schedules ensures s in u.schedules && Records(t'.schedules[s], u.schedules[s]) {
      RecordsItself(t'.schedules[s]);
      TerminatedRecords(t'.schedules[s]);
    }
    forall s | s in u.schedules ensures HistoryOk(u.schedules[s]) { assert s in t'.schedules && Records(t'.schedules[s], u.schedules[s]); }
    hide OwnStep, Owns, Records, HistoryOk;
    SchedulesOwn(t', u);
    OwnStepOn(t, t', u);
  }

  lemma CreateOwns(t: Tables, env: Env, id: Id, a: NewSchedule)
    requires Owned(t) && Create(t, env, id, a).Success?
    ensures OwnStep(t, Create(t, env, id, a).value)
  {
    hide Owned, OwnStep, FirstDue;
    OneScheduleOwns(t, id, Create(t, env, id, a).value.schedules[id]);
  }

  // ---------- Jobs and occurrences ----------

  lemma ClaimOwns(t: Tables, env: Env, id: OccurrenceId)
    requires Owned(t) && Claim(t, env, id).Success?
    ensures OwnStep(t, Claim(t, env, id).value)
  {
    assert Owns(t, id);
    ClaimedOwns(t, env, id);
    hide Claim, Owns, Owned, OwnStep, OnlyRow, SameCurrent;
    RowOwns(t, Claim(t, env, id).value, id);
  }

  lemma ClaimedOwns(t: Tables, env: Env, id: OccurrenceId)
    requires id in t.occurrences && Owns(t, id) && Claim(t, env, id).Success?
    ensures var u := Claim(t, env, id).value;
            OnlyRow(t, u, id) && u.schedules == t.schedules && SameCurrent(t, u) && u.jobs.Keys <= t.jobs.Keys + {id}
            && id in u.occurrences && Owns(u, id) && Continues(t.occurrences[id], u.occurrences[id])
  {
    hide DefinitionOf, Occupies;
  }

  lemma CompleteOwns(t: Tables, env: Env, id: OccurrenceId, fence: nat, report: Report)
    requires Consistent(t) && Owned(t) && Complete(t, env, id, fence, report).Success?
    ensures OwnStep(t, Complete(t, env, id, fence, report).value)
  {
    RowIsOk(t, id);
    assert Owns(t, id);
    RunsInItsSlot(t, env, id, fence);
    CompletedOwns(t, env, id, fence, report);
    hide Complete, Owns, Owned, OwnStep, OnlyRow, SameCurrent, Consistent;
    RowOwns(t, Complete(t, env, id, fence, report).value, id);
  }

  /** Whoever runs is current: only the current occurrence of a slot was ever started. */
  lemma RunsInItsSlot(t: Tables, env: Env, id: OccurrenceId, fence: nat)
    requires Consistent(t) && Holds(t, env, id, fence)
    ensures 0 < t.jobs[id].attempt
    ensures t.occurrences[id].trigger.AtTime? ==>
              var k := t.occurrences[id].trigger.slot; k in t.slots && t.slots[k].current == id
  {
    RowIsOk(t, id);
    if t.occurrences[id].trigger.AtTime? { assert SlotOk(t, t.occurrences[id].trigger.slot); }
  }

  lemma CompletedOwns(t: Tables, env: Env, id: OccurrenceId, fence: nat, report: Report)
    requires id in t.occurrences && Owns(t, id) && Complete(t, env, id, fence, report).Success? && id in t.jobs && 0 < t.jobs[id].attempt
    requires t.occurrences[id].trigger.AtTime? ==> t.slots[t.occurrences[id].trigger.slot].current == id
    ensures var u := Complete(t, env, id, fence, report).value;
            OnlyRow(t, u, id) && u.schedules == t.schedules && SameCurrent(t, u) && u.jobs.Keys <= t.jobs.Keys + {id}
            && id in u.occurrences && Owns(u, id) && Continues(t.occurrences[id], u.occurrences[id])
  {
    hide OnlyRow, SameCurrent, Owns, Materialize, Holds;
    var o := t.occurrences[id];
    match report
    case Remind => SettledOwns(t, id, JobCompleted, o.(actionState := Succeeded, deliveryState := Pending));
    case Read(dispatch) =>
      SettledOwns(t, id, JobCompleted, o.(actionState := Succeeded, deliveryState := Pending));
      var o' := Materialize(o, dispatch.materialized);
      MaterializedContinues(o, dispatch.materialized);
      SettledOwns(t, id, JobBlocked, o'.(actionState := Blocked, deliveryState := Pending));
      SettledOwns(t, id, JobCompleted, o'.(actionState := Succeeded, deliveryState := Pending));
    case RunCommands(dispatch) =>
      SettledOwns(t, id, JobBlocked, o.(actionState := Blocked));
      var o' := if o.trigger.AtTime? then Materialize(o, dispatch.materialized) else o;
      MaterializedContinues(o, dispatch.materialized);
      var delivery := if (dispatch.Dispatched? && dispatch.waiting) || o.definition.target.summaryOnly then NoDelivery else DeliveryState.Pending;
      SettledOwns(t, id, JobWaiting, o'.(actionState := Waiting, deliveryState := delivery));
      SettledOwns(t, id, JobCompleted, o'.(actionState := Succeeded, deliveryState := delivery));
  }

  /** What a report leaves of the trigger, the acceptance and the course of an occurrence. */
  predicate SameAcceptance(o: Occurrence, o': Occurrence) {
    o'.trigger == o.trigger && Accepted(o') == Accepted(o) && Continues(o, o')
  }

  lemma MaterializedContinues(o: Occurrence, instructionIds: Option<seq<Id>>)
    ensures SameAcceptance(o, Materialize(o, instructionIds)) && SameAcceptance(o, o)
  {
  }

  lemma SettledOwns(t: Tables, id: OccurrenceId, job: JobState, o: Occurrence)
    requires id in t.occurrences && Owns(t, id) && id in t.jobs && 0 < t.jobs[id].attempt && !job.JobRunning?
    requires t.occurrences[id].trigger.AtTime? ==> t.slots[t.occurrences[id].trigger.slot].current == id
    ensures var u := Settle(t, id, job, o);
            SameAcceptance(t.occurrences[id], o) ==>
              OnlyRow(t, u, id) && u.schedules == t.schedules && SameCurrent(t, u) && u.jobs.Keys <= t.jobs.Keys + {id}
              && id in u.occurrences && Owns(u, id) && Continues(t.occurrences[id], u.occurrences[id])
  {
    hide DefinitionOf, Accepted;
  }

  lemma ControlOwns(t: Tables, env: Env, id: OccurrenceId, expected: nat, control: Control)
    requires Consistent(t) && Owned(t) && ControlOccurrence(t, env, id, expected, control).Success?
    ensures var u := ControlOccurrence(t, env, id, expected, control).value; Owned(u) && u.schedules == t.schedules
  {
    if control.CancelOne? {
      CancellingOwns(t, env, id);
      OwnStepIsOwned(t, CancelOccurrence(t, env, id));
    } else {
      assert Owns(t, id);
      RowIsOk(t, id);
      if t.occurrences[id].trigger.AtTime? { assert SlotOk(t, t.occurrences[id].trigger.slot); }
      ControlledOwns(t, env, id, expected, control);
      hide ControlOccurrence, Owns, Owned, OwnStep, OnlyRow, SameCurrent, Consistent;
      RowOwns(t, ControlOccurrence(t, env, id, expected, control).value, id);
    }
  }

  lemma ControlledOwns(t: Tables, env: Env, id: OccurrenceId, expected: nat, control: Control)
    requires id in t.occurrences && Owns(t, id) && OccurrenceOk(t, id) && !control.CancelOne?
    requires ControlOccurrence(t, env, id, expected, control).Success?
    requires t.occurrences[id].trigger.AtTime? ==> SlotOk(t, t.occurrences[id].trigger.slot)
    ensures var u := ControlOccurrence(t, env, id, expected, control).value;
            OnlyRow(t, u, id) && u.schedules == t.schedules && SameCurrent(t, u) && u.jobs.Keys <= t.jobs.Keys + {id}
            && id in u.occurrences && Owns(u, id)
            && Continues(t.occurrences[id].(paused := control.PauseOne?), u.occurrences[id])
  {
    hide DefinitionOf;
  }

  lemma AcceptOwns(t: Tables, env: Env, id: OccurrenceId, coordinationId: Id, d: Definition)
    requires Owned(t) && Accept(t, env, id, coordinationId, d).Success?
    ensures OwnStep(t, Accept(t, env, id, coordinationId, d).value)
  {
    var u := Accept(t, env, id, coordinationId, d).value;
    if id in t.occurrences {
      NothingOwns(t);
    } else {
      assert Owns(u, id);
      hide Owns, Owned, OwnStep;
      RowOwns(t, u, id);
    }
  }

  // ---------- Every command, every run ----------

  /** Every command leaves each waiting occurrence its slot and its record; only its own control pauses or resumes one. */
  lemma EveryCommandOwns(t: Tables, env: Env, c: Command)
    requires Consistent(t) && Owned(t) && Execute(t, env, c).Success?
    ensures Owned(Execute(t, env, c).value)
    ensures !c.ControlOne? ==> KeepsCourse(t, Execute(t, env, c).value)
  {
    hide Consistent, Owned, KeepsCourse, Create, Change, ScanAll, Claim, Complete, Accept, ControlOccurrence, CancelCoordination;
    match c
    case CreateSchedule(id, schedule) => CreateOwns(t, env, id, schedule);
    case ChangeSchedule(id, change, rows) => ChangeOwns(t, env, id, change, rows);
    case Scan(limit, due, rows) => ScanAllOwns(t, env, due, rows);
    case ClaimJob(o) => ClaimOwns(t, env, o);
    case CompleteJob(o, fence, report) => CompleteOwns(t, env, o, fence, report);
    case AcceptOccurrence(o, coordinationId, d) => AcceptOwns(t, env, o, coordinationId, d);
    case ControlOne(o, expected, control) => ControlOwns(t, env, o, expected, control);
    case CancelArrangement(coordinationId, rows) => CancelCoordinationOwns(t, env, coordinationId, rows);
  }

  lemma {:induction false} RunOwns(t: Tables, run: seq<Step>)
    requires Consistent(t) && Owned(t)
    ensures Owned(AfterAll(t, run))
    decreases |run|
  {
    hide Consistent, Preserves, Owned, KeepsCourse, Execute;
    if run != [] {
      if Execute(t, run[0].env, run[0].command).Success? {
        EveryCommandIsGood(t, run[0].env, run[0].command);
        EveryCommandOwns(t, run[0].env, run[0].command);
      }
      RunOwns(After(t, run[0].env, run[0].command), run[1..]);
    }
  }

  lemma ReachedIsOwned(run: seq<Step>)
    ensures Owned(Reached(run))
  {
    hide Consistent, Owned;
    assert Owned(EmptyTables) by { NothingOwned(); }
    ReachedIsConsistent([]);
    RunOwns(EmptyTables, run);
  }

  lemma NothingOwned()
    ensures Owned(EmptyTables)
  {
  }

  // ---------- Who can be claimed ----------

  /** No other occurrence of the schedule runs or has a delivery under way. */
  ghost predicate Alone(t: Tables, id: OccurrenceId, s: Id) {
    forall p :: p in t.occurrences && p != id && OfSchedule(t.occurrences[p], s) ==> !Occupies(t.occurrences[p])
  }

  /** What a caller can see of an occurrence that may be claimed. */
  ghost predicate Claimable(t: Tables, env: Env, id: OccurrenceId) {
    id in t.occurrences
    && var o := t.occurrences[id];
       env.Alive(o.coordinationId) && !o.paused && !o.cancelled
       && match o.actionState
          case Waiting =>
            if o.trigger.OnEvent? then env.triggerHolds(id)
            else var k := o.trigger.slot;
                 k.scheduleId in t.schedules && t.schedules[k.scheduleId].state.Active? && k.plannedAt <= env.now && Alone(t, id, k.scheduleId)
          case Running => id in t.jobs && t.jobs[id].leaseUntil.Some? && t.jobs[id].leaseUntil.value <= env.now
          case Blocked => true
          case _ => false
  }

  /** In every reachable state those can be claimed and no others: a waiting occurrence is never refused because its slot was
      taken, its job or schedule is missing, or its schedule no longer knows what it was accepted to do. */
  lemma ClaimIsExact(run: seq<Step>, env: Env, id: OccurrenceId)
    ensures Claim(Reached(run), env, id).Success? <==> Claimable(Reached(run), env, id)
  {
    var t := Reached(run);
    hide Reached;
    ReachedIsConsistent(run);
    ReachedIsOwned(run);
    if id in t.occurrences {
      assert OccurrenceOk(t, id) && Owns(t, id);
      if t.occurrences[id].trigger.AtTime? { assert SlotOk(t, t.occurrences[id].trigger.slot); }
      ClaimableExactly(t, env, id);
    }
  }

  lemma ClaimableExactly(t: Tables, env: Env, id: OccurrenceId)
    requires id in t.occurrences && OccurrenceOk(t, id) && Owns(t, id)
    requires t.occurrences[id].trigger.AtTime? ==> SlotOk(t, t.occurrences[id].trigger.slot)
    ensures Claim(t, env, id).Success? <==> Claimable(t, env, id)
  {
    hide DefinitionOf, Accepted, Occupies;
  }
}
