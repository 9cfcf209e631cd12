/**
  What every command keeps, and what follows for every run: slots start once, fences only grow and
  are spent once, final outcomes stay final, and when one schedule's occurrences run one at a time.
*/
module ScheduleSafety {
  import opened Wrappers
  import opened Schedules
  import Calendar

  // ---------- The invariant ----------

  predicate Matches(a: ActionState, j: JobState) {
    match a
    case Waiting => j.JobWaiting?
    case Running => j.JobRunning?
    case Succeeded => j.JobCompleted?
    case Expired => false
    case Superseded => j.JobSuperseded?
    case Cancelled => j.JobCancelled?
    case Blocked => j.JobBlocked?
  }

  /** The schedule that a time-triggered occurrence, or the one it replaces, was accepted for. */
  function ScheduleOf(id: OccurrenceId): Id {
    match id
    case TimeOccurrence(slot) => slot.scheduleId
    case Replacement(of, _) => ScheduleOf(of)
    case EventOccurrence(_, _) => ""
  }

  /** An occurrence, its job, its slot and its schedule agree. */
  ghost predicate OccurrenceOk(t: Tables, id: OccurrenceId)
    requires id in t.occurrences
  {
    var o := t.occurrences[id];
    (id.EventOccurrence? <==> o.trigger.OnEvent?)
    && (id.TimeOccurrence? ==> o.trigger.slot == id.slot)
    && (o.cancelled ==> !o.actionState.Waiting? && !o.actionState.Running?)
    && (if o.actionState.Expired? then id !in t.jobs else id in t.jobs && Matches(o.actionState, t.jobs[id].state))
    && (id in t.jobs && (t.jobs[id].state.JobRunning? || t.jobs[id].state.JobBlocked?) ==> 0 < t.jobs[id].attempt)
    && (o.trigger.AtTime? ==>
          o.trigger.slot in t.slots && o.trigger.slot.scheduleId == ScheduleOf(id) && o.trigger.slot.scheduleId in t.schedules
          && (id.Replacement? ==> id.revision <= t.schedules[o.trigger.slot.scheduleId].revision)
          && (id in t.jobs && 0 < t.jobs[id].attempt ==> t.slots[o.trigger.slot].started == Some(id)))
  }

  /** A slot's current occurrence is one of its own, and only the current one was ever started. */
  ghost predicate SlotOk(t: Tables, k: SlotId)
    requires k in t.slots
  {
    var slot := t.slots[k];
    slot.current in t.occurrences && t.occurrences[slot.current].trigger.AtTime?
    && t.occurrences[slot.current].trigger.slot == k
    && (slot.started.Some? ==> slot.started.value == slot.current)
  }

  ghost predicate Consistent(t: Tables) {
    (forall id :: id in t.occurrences ==> OccurrenceOk(t, id))
    && (forall k :: k in t.slots ==> SlotOk(t, k))
    && (forall id :: id in t.jobs ==> id in t.occurrences)
  }

  // ---------- What no step undoes ----------

  predicate Final(a: ActionState) {
    a.Succeeded? || a.Expired? || a.Superseded? || a.Cancelled?
  }

  ghost predicate OccurrencePreserved(t: Tables, u: Tables, id: OccurrenceId)
    requires id in t.occurrences
  {
    id in u.occurrences && u.occurrences[id].trigger.AtTime? == t.occurrences[id].trigger.AtTime?
    && (t.occurrences[id].trigger.AtTime? ==> u.occurrences[id].trigger == t.occurrences[id].trigger)
    && u.occurrences[id].merged == t.occurrences[id].merged
    && (Final(t.occurrences[id].actionState) ==> u.occurrences[id].actionState == t.occurrences[id].actionState)
  }

  /** Fences never decrease, and a job starts to run only under a larger fence. */
  ghost predicate JobPreserved(t: Tables, u: Tables, id: OccurrenceId)
    requires id in t.jobs
  {
    id in u.jobs && t.jobs[id].fence <= u.jobs[id].fence
    && (u.jobs[id].state.JobRunning? && !t.jobs[id].state.JobRunning? ==> t.jobs[id].fence < u.jobs[id].fence)
  }

  ghost predicate SlotPreserved(t: Tables, u: Tables, k: SlotId)
    requires k in t.slots
  {
    k in u.slots && (t.slots[k].started.Some? ==> u.slots[k].started == t.slots[k].started)
  }

  ghost predicate Preserves(t: Tables, u: Tables) {
    (forall id :: id in t.occurrences ==> OccurrencePreserved(t, u, id))
    && (forall id :: id in t.jobs ==> JobPreserved(t, u, id))
    && (forall k :: k in t.slots ==> SlotPreserved(t, u, k))
    && (forall id :: id in t.schedules ==> id in u.schedules && t.schedules[id].revision <= u.schedules[id].revision)
  }

  lemma PreservesChains(t: Tables, u: Tables, v: Tables)
    requires Preserves(t, u) && Preserves(u, v)
    ensures Preserves(t, v)
  {
    forall id | id in t.occurrences ensures OccurrencePreserved(t, v, id) {
      assert OccurrencePreserved(t, u, id) && OccurrencePreserved(u, v, id);
    }
    forall id | id in t.jobs ensures JobPreserved(t, v, id) {
      assert JobPreserved(t, u, id) && JobPreserved(u, v, id);
    }
    forall k | k in t.slots ensures SlotPreserved(t, v, k) {
      assert SlotPreserved(t, u, k) && SlotPreserved(u, v, k);
    }
  }

  /** The row runs only if it ran before. */
  predicate QuietRow(t: Tables, u: Tables, id: OccurrenceId)
    requires id in u.occurrences
  {
    u.occurrences[id].actionState.Running? ==> id in t.occurrences && t.occurrences[id].actionState.Running?
  }

  /** A step that keeps the tables in order, undoes nothing and starts no occurrence. */
  ghost predicate GoodStep(t: Tables, u: Tables) {
    Consistent(u) && Preserves(t, u) && forall id :: id in u.occurrences ==> QuietRow(t, u, id)
  }

  lemma GoodStepsChain(t: Tables, u: Tables, v: Tables)
    requires GoodStep(t, u) && GoodStep(u, v)
    ensures GoodStep(t, v)
  {
    PreservesChains(t, u, v);
    hide Consistent, Preserves;
    forall id | id in v.occurrences ensures QuietRow(t, v, id) {
      assert QuietRow(u, v, id);
      assert id in u.occurrences ==> QuietRow(t, u, id);
    }
  }

  // ---------- One row at a time ----------

  predicate SameJob(t: Tables, u: Tables, id: OccurrenceId) {
    (id in u.jobs <==> id in t.jobs) && (id in t.jobs ==> u.jobs[id] == t.jobs[id])
  }

  /** A row whose occurrence and job a step left alone stays in order if its slot was started before exactly as after. */
  lemma OccurrenceFrame(t: Tables, u: Tables, id: OccurrenceId)
    requires id in t.occurrences && OccurrenceOk(t, id)
    requires id in u.occurrences && u.occurrences[id] == t.occurrences[id] && SameJob(t, u, id)
    requires t.occurrences[id].trigger.AtTime? ==>
               var k := t.occurrences[id].trigger.slot;
               k in u.slots && (u.slots[k].started == t.slots[k].started || !(id in t.jobs && 0 < t.jobs[id].attempt))
               && k.scheduleId in u.schedules && t.schedules[k.scheduleId].revision <= u.schedules[k.scheduleId].revision
    ensures OccurrenceOk(u, id) && OccurrencePreserved(t, u, id)
  {
  }

  /** A step that rewrites the occurrence and job of one id and nothing else. */
  ghost predicate RowStep(t: Tables, u: Tables, id: OccurrenceId) {
    id in t.occurrences && u.schedules == t.schedules && u.slots == t.slots
    && u.occurrences.Keys == t.occurrences.Keys && u.jobs.Keys == t.jobs.Keys
    && (forall p :: p in t.occurrences && p != id ==> u.occurrences[p] == t.occurrences[p])
    && (forall p :: p in t.jobs && p != id ==> u.jobs[p] == t.jobs[p])
    && u.occurrences[id].trigger == t.occurrences[id].trigger
  }

  lemma SlotKnown(t: Tables, id: OccurrenceId)
    requires Consistent(t) && id in t.occurrences
    ensures OccurrenceOk(t, id)
    ensures t.occurrences[id].trigger.AtTime? ==> t.occurrences[id].trigger.slot in t.slots && t.occurrences[id].trigger.slot.scheduleId in t.schedules
  {
    hide SlotOk;
    assert OccurrenceOk(t, id);
  }

  lemma SlotFrame(t: Tables, u: Tables, k: SlotId)
    requires k in t.slots && SlotOk(t, k) && k in u.slots && u.slots[k] == t.slots[k]
    requires t.slots[k].current in u.occurrences
    requires u.occurrences[t.slots[k].current].trigger == t.occurrences[t.slots[k].current].trigger
    ensures SlotOk(u, k)
  {
  }

  lemma RowStepIsGood(t: Tables, u: Tables, id: OccurrenceId)
    requires Consistent(t) && RowStep(t, u, id)
    requires OccurrenceOk(u, id) && OccurrencePreserved(t, u, id) && (id in t.jobs ==> JobPreserved(t, u, id)) && QuietRow(t, u, id)
    ensures GoodStep(t, u)
  {
    hide OccurrenceOk, OccurrencePreserved;
    forall p | p in u.occurrences ensures OccurrenceOk(u, p) && OccurrencePreserved(t, u, p) {
      if p != id {
        SlotKnown(t, p);
        OccurrenceFrame(t, u, p);
      }
    }
    forall k | k in u.slots ensures SlotOk(u, k) {
      assert SlotOk(t, k);
      SlotFrame(t, u, k);
    }
    hide SlotOk;
  }

  ghost predicate GoodRow(t: Tables, u: Tables, id: OccurrenceId) {
    RowStep(t, u, id) && OccurrenceOk(u, id) && OccurrencePreserved(t, u, id) && (id in t.jobs ==> JobPreserved(t, u, id))
    && QuietRow(t, u, id)
  }

  lemma CancelRow(t: Tables, env: Env, id: OccurrenceId)
    requires id in t.occurrences && OccurrenceOk(t, id)
    ensures GoodRow(t, CancelOccurrence(t, env, id), id)
  {
  }

  lemma GoodRowIsGood(t: Tables, u: Tables, id: OccurrenceId)
    requires Consistent(t) && GoodRow(t, u, id)
    ensures GoodStep(t, u)
  {
    hide RowStep, OccurrenceOk, OccurrencePreserved;
    RowStepIsGood(t, u, id);
  }

  lemma CancelOccurrenceIsGood(t: Tables, env: Env, id: OccurrenceId)
    requires Consistent(t) && id in t.occurrences
    ensures GoodStep(t, CancelOccurrence(t, env, id)) && RowStep(t, CancelOccurrence(t, env, id), id)
  {
    hide CancelOccurrence, OccurrenceOk, RowStep;
    CancelRow(t, env, id);
    GoodRowIsGood(t, CancelOccurrence(t, env, id), id);
  }

  lemma {:induction false} CancelAllIsGood(t: Tables, env: Env, ids: seq<OccurrenceId>)
    requires Consistent(t) && forall id :: id in ids ==> id in t.occurrences
    ensures var u := CancelAll(t, env, ids);
            GoodStep(t, u) && u.schedules == t.schedules && u.slots == t.slots && u.occurrences.Keys == t.occurrences.Keys
    decreases |ids|
  {
    if ids != [] {
      hide CancelOccurrence, OccurrenceOk, SlotOk, OccurrencePreserved, JobPreserved, SlotPreserved;
      CancelOccurrenceIsGood(t, env, ids[0]);
      var u := CancelOccurrence(t, env, ids[0]);
      CancelAllIsGood(u, env, ids[1..]);
      GoodStepsChain(t, u, CancelAll(t, env, ids));
    }
  }

  lemma SupersedeRow(t: Tables, id: OccurrenceId)
    requires id in t.occurrences && OccurrenceOk(t, id)
    requires t.occurrences[id].actionState.Waiting? || t.occurrences[id].actionState.Superseded?
    ensures id in t.jobs && GoodRow(t, SupersedeOne(t, id), id)
    ensures SupersedeOne(t, id).occurrences[id].actionState.Superseded?
  {
  }

  /** Superseding waiting rows never fails in consistent tables, and touches only rows that exist. */
  lemma {:induction false} SupersedeAllIsGood(t: Tables, ids: seq<OccurrenceId>)
    requires Consistent(t)
    requires forall id :: id in ids ==> id in t.occurrences && (t.occurrences[id].actionState.Waiting? || t.occurrences[id].actionState.Superseded?)
    ensures var r := SupersedeAll(t, ids);
            r.Success? && GoodStep(t, r.value) && r.value.schedules == t.schedules && r.value.slots == t.slots
            && r.value.occurrences.Keys == t.occurrences.Keys && r.value.jobs.Keys == t.jobs.Keys
    decreases |ids|
  {
    if ids != [] {
      hide OccurrenceOk, SlotOk, OccurrencePreserved, JobPreserved, SlotPreserved;
      assert OccurrenceOk(t, ids[0]);
      SupersedeRow(t, ids[0]);
      var u := SupersedeOne(t, ids[0]);
      GoodRowIsGood(t, u, ids[0]);
      SupersedeStays(t, u, ids);
      hide SupersedeOne, Consistent, Preserves, RowStep;
      SupersedeAllIsGood(u, ids[1..]);
      GoodStepsChain(t, u, SupersedeAll(u, ids[1..]).value);
    }
  }

  lemma SupersedeStays(t: Tables, u: Tables, ids: seq<OccurrenceId>)
    requires ids != [] && RowStep(t, u, ids[0]) && u.occurrences[ids[0]].actionState.Superseded?
    requires forall id :: id in ids ==> id in t.occurrences && (t.occurrences[id].actionState.Waiting? || t.occurrences[id].actionState.Superseded?)
    ensures forall id :: id in ids[1..] ==> id in u.occurrences && (u.occurrences[id].actionState.Waiting? || u.occurrences[id].actionState.Superseded?)
  {
    forall id | id in ids[1..]
      ensures id in u.occurrences && (u.occurrences[id].actionState.Waiting? || u.occurrences[id].actionState.Superseded?)
    {
      assert id in ids;
    }
  }

  // ---------- Steps that add rows or touch slots and schedules ----------

  /** The slot of an occurrence was not started meanwhile, or not to the harm of this occurrence. */
  ghost predicate StartKept(t: Tables, u: Tables, id: OccurrenceId)
    requires id in t.occurrences && OccurrenceOk(t, id)
  {
    t.occurrences[id].trigger.AtTime? ==>
      var k := t.occurrences[id].trigger.slot;
      k in u.slots && (u.slots[k].started == t.slots[k].started || !(id in t.jobs && 0 < t.jobs[id].attempt))
  }

  /** Everything outside `touched` is as before, and what `touched` became is in order. */
  ghost predicate Framed(t: Tables, u: Tables, touched: set<OccurrenceId>)
    requires Consistent(t)
  {
    (forall p :: p in t.occurrences && p !in touched ==> p in u.occurrences && u.occurrences[p] == t.occurrences[p])
    && (forall p :: p in t.occurrences && p !in touched ==> SameJob(t, u, p))
    && (forall p :: p in t.occurrences && p !in touched ==> OccurrenceOk(t, p) && StartKept(t, u, p))
    && (forall p :: p in u.occurrences ==> p in t.occurrences || p in touched)
    && (forall p :: p in u.jobs ==> p in u.occurrences)
    && (forall p :: p in touched ==> p in u.occurrences && OccurrenceOk(u, p) && (p in t.occurrences ==> OccurrencePreserved(t, u, p))
                                     && (p in t.jobs ==> JobPreserved(t, u, p)))
    && (forall k :: k in u.slots ==> SlotOk(u, k))
    && (forall k :: k in t.slots ==> SlotPreserved(t, u, k))
    && (forall s :: s in t.schedules ==> s in u.schedules && t.schedules[s].revision <= u.schedules[s].revision)
  }

  lemma FramedIsGood(t: Tables, u: Tables, touched: set<OccurrenceId>)
    requires Consistent(t) && Framed(t, u, touched)
    ensures Consistent(u) && Preserves(t, u) && forall id :: id in u.occurrences && id !in touched ==> QuietRow(t, u, id)
  {
    hide SlotOk, SlotPreserved;
    forall p | p in u.occurrences ensures OccurrenceOk(u, p) && (p in t.occurrences ==> OccurrencePreserved(t, u, p)) {
      hide OccurrencePreserved, OccurrenceOk, JobPreserved;
      if p !in touched {
        SlotKnown(t, p);
        OccurrenceFrame(t, u, p);
      }
    }
    forall p | p in t.jobs ensures JobPreserved(t, u, p) {
      hide OccurrencePreserved, OccurrenceOk;
      assert p in t.occurrences;
      if p !in touched {
        assert SameJob(t, u, p);
      }
    }
    hide OccurrencePreserved, OccurrenceOk, JobPreserved, SameJob, StartKept;
  }

  lemma UntouchedStarts(t: Tables, u: Tables)
    requires Consistent(t)
    requires forall k :: k in t.slots ==> k in u.slots && u.slots[k].started == t.slots[k].started
    ensures forall p :: p in t.occurrences ==> OccurrenceOk(t, p) && StartKept(t, u, p)
  {
    hide SlotOk;
  }

  lemma SlotsKeptOk(t: Tables, u: Tables, changed: set<SlotId>)
    requires Consistent(t)
    requires forall p :: p in t.occurrences ==> p in u.occurrences && u.occurrences[p].trigger == t.occurrences[p].trigger
    requires forall k :: k in u.slots && k !in changed ==> k in t.slots && u.slots[k] == t.slots[k]
    ensures forall k :: k in u.slots && k !in changed ==> SlotOk(u, k)
  {
    hide OccurrenceOk;
    forall k | k in u.slots && k !in changed ensures SlotOk(u, k) {
      assert SlotOk(t, k);
      SlotFrame(t, u, k);
    }
  }

  /** Only schedule records change, and no revision goes back. */
  lemma ScheduleStepIsGood(t: Tables, u: Tables)
    requires Consistent(t) && u == t.(schedules := u.schedules)
    requires forall s :: s in t.schedules ==> s in u.schedules && t.schedules[s].revision <= u.schedules[s].revision
    ensures GoodStep(t, u)
  {
    hide OccurrenceOk, SlotOk, StartKept, OccurrencePreserved, JobPreserved;
    UntouchedStarts(t, u);
    SlotsKeptOk(t, u, {});
    FramedIsGood(t, u, {});
    hide Consistent, Preserves;
  }

  lemma SlotIsNew(t: Tables, slot: SlotId)
    requires Consistent(t) && slot !in t.slots
    ensures TimeOccurrence(slot) !in t.occurrences && TimeOccurrence(slot) !in t.jobs
  {
    hide SlotOk;
    assert TimeOccurrence(slot) in t.occurrences ==> OccurrenceOk(t, TimeOccurrence(slot));
  }

  lemma AddedRowIsOk(t: Tables, slot: SlotId, o: Occurrence, jobs: map<OccurrenceId, Job>)
    requires TimeOccurrence(slot) !in t.jobs && slot.scheduleId in t.schedules
    requires o.trigger.AtTime? && o.trigger.slot == slot && !o.cancelled
    requires if o.actionState.Expired? then jobs == t.jobs
             else o.actionState.Waiting? && jobs == t.jobs[TimeOccurrence(slot) := FreshJob]
    ensures var u := AddSlot(t, slot, o, jobs);
            OccurrenceOk(u, TimeOccurrence(slot)) && SlotOk(u, slot)
  {
  }

  /** One new occurrence, with its job if it has one, beside unchanged rows and slots with unchanged starts. */
  ghost predicate Inserted(t: Tables, u: Tables, id: OccurrenceId, slots: set<SlotId>) {
    id !in t.occurrences && u.schedules == t.schedules
    && u.occurrences.Keys == t.occurrences.Keys + {id} && u.jobs.Keys <= t.jobs.Keys + {id}
    && (forall p :: p in t.occurrences ==> u.occurrences[p] == t.occurrences[p])
    && (forall p :: p in t.occurrences ==> SameJob(t, u, p))
    && (forall k :: k in t.slots ==> k in u.slots && u.slots[k].started == t.slots[k].started)
    && (forall k :: k in u.slots && k !in slots ==> k in t.slots && u.slots[k] == t.slots[k])
  }

  lemma InsertedIsGood(t: Tables, u: Tables, id: OccurrenceId, slots: set<SlotId>)
    requires Consistent(t) && Inserted(t, u, id, slots) && OccurrenceOk(u, id) && !u.occurrences[id].actionState.Running?
    requires forall k :: k in slots ==> k in u.slots && SlotOk(u, k)
    ensures GoodStep(t, u)
  {
    hide OccurrenceOk, SlotOk, StartKept, OccurrencePreserved, JobPreserved;
    UntouchedStarts(t, u);
    SlotsKeptOk(t, u, slots);
    FramedIsGood(t, u, {id});
    hide Consistent, Preserves, Inserted;
  }

  lemma AddSlotIsGood(t: Tables, slot: SlotId, o: Occurrence, jobs: map<OccurrenceId, Job>)
    requires Consistent(t) && slot !in t.slots && slot.scheduleId in t.schedules
    requires o.trigger.AtTime? && o.trigger.slot == slot && !o.cancelled
    requires if o.actionState.Expired? then jobs == t.jobs
             else o.actionState.Waiting? && jobs == t.jobs[TimeOccurrence(slot) := FreshJob]
    ensures GoodStep(t, AddSlot(t, slot, o, jobs))
  {
    hide Consistent, OccurrenceOk, SlotOk, GoodStep;
    SlotIsNew(t, slot);
    AddedRowIsOk(t, slot, o, jobs);
    InsertedIsGood(t, AddSlot(t, slot, o, jobs), TimeOccurrence(slot), {slot});
  }

  lemma AcceptSlotIsGood(t: Tables, env: Env, id: Id, m: Missed, rows: seq<OccurrenceId>)
    requires Consistent(t) && id in t.schedules && SlotId(id, m.plannedAt) !in t.slots
    ensures var r := AcceptSlot(t, env, id, m, rows);
            r.Success? && GoodStep(t, r.value) && r.value.schedules == t.schedules
  {
    var sc, slot := t.schedules[id], SlotId(id, m.plannedAt);
    var expired := TooLate(sc, env, m.plannedAt);
    var occurrence := Occurrence(sc.coordinationId, AtTime(slot, sc.revision), sc.definition, None,
                                 if expired then Expired else Waiting, NoDelivery, 1, 1, false, false, m.merged);
    hide Consistent, GoodStep, TooLate;
    if expired {
      AddSlotIsGood(t, slot, occurrence, t.jobs);
    } else {
      var ids := WaitingOf(t, rows, id);
      SupersedeAllIsGood(t, ids);
      var t' := SupersedeAll(t, ids).value;
      GoodStepIsConsistent(t, t');
      var jobs := t'.jobs[TimeOccurrence(slot) := FreshJob];
      AddSlotIsGood(t', slot, occurrence, jobs);
      GoodStepsChain(t, t', AddSlot(t', slot, occurrence, jobs));
    }
  }

  lemma GoodStepIsConsistent(t: Tables, u: Tables)
    requires GoodStep(t, u)
    ensures Consistent(u)
  {
  }

  lemma NoStepIsGood(t: Tables)
    requires Consistent(t)
    ensures GoodStep(t, t)
  {
    hide OccurrenceOk, SlotOk;
  }

  // ---------- Schedule commands ----------

  lemma ScanScheduleIsGood(t: Tables, env: Env, id: Id, rows: seq<OccurrenceId>)
    requires Consistent(t) && id in t.schedules && Due(t.schedules[id], env)
    requires ScanSchedule(t, env, id, rows).Success?
    ensures GoodStep(t, ScanSchedule(t, env, id, rows).value)
  {
    hide Consistent, GoodStep, AcceptSlot, TooLate, Due, MissedSlots, Calendar.NextTimeSlot, Calendar.DateAt;
    var m := MissedSlots(t.schedules[id], env).value;
    var u := ScanSchedule(t, env, id, rows).value;
    var t' := t;
    if SlotId(id, m.plannedAt) !in t.slots {
      AcceptSlotIsGood(t, env, id, m, rows);
      t' := AcceptSlot(t, env, id, m, rows).value;
      GoodStepIsConsistent(t, t');
    } else {
      NoStepIsGood(t);
    }
    ScheduleStepIsGood(t', u);
    GoodStepsChain(t, t', u);
  }

  lemma {:induction false} ScanAllIsGood(t: Tables, env: Env, ids: seq<Id>, rows: seq<OccurrenceId>)
    requires Consistent(t) && ScanAll(t, env, ids, rows).Success?
    ensures GoodStep(t, ScanAll(t, env, ids, rows).value)
    decreases |ids|
  {
    hide Consistent, GoodStep, ScanSchedule, Due;
    if ids == [] {
      NoStepIsGood(t);
    } else {
      ScanScheduleIsGood(t, env, ids[0], rows);
      var u := ScanSchedule(t, env, ids[0], rows).value;
      GoodStepIsConsistent(t, u);
      ScanAllIsGood(u, env, ids[1..], rows);
      GoodStepsChain(t, u, ScanAll(t, env, ids, rows).value);
    }
  }

  /** A replacement row that may be added beside the superseded row `id`. */
  ghost predicate Replaces(t: Tables, id: OccurrenceId, revision: nat, o: Occurrence, oldSlot: SlotId, newSlot: SlotId) {
    id in t.occurrences && t.occurrences[id].trigger.AtTime? && t.occurrences[id].trigger.slot == oldSlot
    && Replacement(id, revision) !in t.occurrences && Replacement(id, revision) !in t.jobs
    && oldSlot in t.slots && t.slots[oldSlot].started.None? && t.slots[oldSlot].current == id
    && (newSlot != oldSlot ==> newSlot !in t.slots)
    && o.trigger.AtTime? && o.trigger.slot == newSlot && o.actionState.Waiting? && !o.cancelled
    && newSlot.scheduleId == ScheduleOf(id) && newSlot.scheduleId in t.schedules
    && revision <= t.schedules[newSlot.scheduleId].revision
  }

  lemma AddedReplacementIsOk(t: Tables, id: OccurrenceId, revision: nat, o: Occurrence, oldSlot: SlotId, newSlot: SlotId)
    requires Replaces(t, id, revision, o, oldSlot, newSlot)
    ensures var u := AddReplacement(t, id, revision, o, oldSlot, newSlot);
            OccurrenceOk(u, Replacement(id, revision)) && oldSlot in u.slots && SlotOk(u, oldSlot) && newSlot in u.slots && SlotOk(u, newSlot)
  {
  }

  lemma AddReplacementInserts(t: Tables, id: OccurrenceId, revision: nat, o: Occurrence, oldSlot: SlotId, newSlot: SlotId)
    requires Replaces(t, id, revision, o, oldSlot, newSlot)
    ensures Inserted(t, AddReplacement(t, id, revision, o, oldSlot, newSlot), Replacement(id, revision), {oldSlot, newSlot})
  {
  }

  lemma AddReplacementIsGood(t: Tables, id: OccurrenceId, revision: nat, o: Occurrence, oldSlot: SlotId, newSlot: SlotId)
    requires Consistent(t) && Replaces(t, id, revision, o, oldSlot, newSlot)
    ensures GoodStep(t, AddReplacement(t, id, revision, o, oldSlot, newSlot))
  {
    AddedReplacementIsOk(t, id, revision, o, oldSlot, newSlot);
    AddReplacementInserts(t, id, revision, o, oldSlot, newSlot);
    hide Consistent, OccurrenceOk, SlotOk, GoodStep, Inserted, AddReplacement;
    InsertedIsGood(t, AddReplacement(t, id, revision, o, oldSlot, newSlot), Replacement(id, revision), {oldSlot, newSlot});
  }

  /** A waiting occurrence has not yet been replaced at this revision. */
  ghost predicate Replaceable(t: Tables, ids: seq<OccurrenceId>, scheduleId: Id, revision: nat) {
    forall id :: id in ids ==> id in t.occurrences && OfSchedule(t.occurrences[id], scheduleId)
                               && (t.occurrences[id].actionState.Waiting? ==> Replacement(id, revision) !in t.occurrences)
  }

  lemma ReplaceUnstartedIsGood(t: Tables, scheduleId: Id, sc: Schedule, ids: seq<OccurrenceId>, plannedAt: int)
    requires Consistent(t) && ids != [] && Replaceable(t, ids, scheduleId, sc.revision)
    requires scheduleId in t.schedules && t.schedules[scheduleId].revision == sc.revision
    requires ReplaceUnstarted(t, scheduleId, sc, ids[0], plannedAt).Success?
    ensures var u := ReplaceUnstarted(t, scheduleId, sc, ids[0], plannedAt).value;
            GoodStep(t, u) && u.schedules == t.schedules && Replaceable(u, ids[1..], scheduleId, sc.revision)
  {
    hide Consistent, OccurrenceOk, SlotOk, OccurrencePreserved, JobPreserved, GoodStep;
    var id, revision := ids[0], sc.revision;
    var u := ReplaceUnstarted(t, scheduleId, sc, id, plannedAt).value;
    var o, newSlot := t.occurrences[id], SlotId(scheduleId, plannedAt);
    var oldSlot, t1 := o.trigger.slot, SupersedeOne(t, id);
    assert id in ids && Replacement(id, revision) !in t.occurrences;
    RowIsOk(t, id);
    SupersedeRow(t, id);
    GoodRowIsGood(t, t1, id);
    GoodStepIsConsistent(t, t1);
    assert Replacement(id, revision) !in t1.jobs by { JobsHaveRows(t); }
    AddReplacementIsGood(t1, id, revision, o.(trigger := AtTime(newSlot, revision), definition := sc.definition,
                                              instanceRevision := 1, deliveryRevision := 1), oldSlot, newSlot);
    GoodStepsChain(t, t1, u);
    forall p | p in ids[1..]
      ensures p in u.occurrences && OfSchedule(u.occurrences[p], scheduleId)
              && (u.occurrences[p].actionState.Waiting? ==> Replacement(p, revision) !in u.occurrences)
    {
      assert p in ids;
    }
  }

  lemma JobsHaveRows(t: Tables)
    requires Consistent(t)
    ensures forall id :: id in t.jobs ==> id in t.occurrences
  {
  }

  lemma RowIsOk(t: Tables, id: OccurrenceId)
    requires Consistent(t) && id in t.occurrences
    ensures OccurrenceOk(t, id) && (t.occurrences[id].trigger.AtTime? ==> t.occurrences[id].trigger.slot.scheduleId == ScheduleOf(id))
    ensures t.occurrences[id].cancelled ==> !t.occurrences[id].actionState.Waiting? && !t.occurrences[id].actionState.Running?
  {
    hide SlotOk;
    assert OccurrenceOk(t, id);
  }

  lemma {:induction false} ReplaceAllIsGood(t: Tables, scheduleId: Id, sc: Schedule, ids: seq<OccurrenceId>, at: Option<int>)
    requires Consistent(t) && Replaceable(t, ids, scheduleId, sc.revision)
    requires scheduleId in t.schedules && t.schedules[scheduleId].revision == sc.revision
    requires ReplaceAll(t, scheduleId, sc, ids, at).Success?
    ensures var u := ReplaceAll(t, scheduleId, sc, ids, at).value;
            GoodStep(t, u) && u.schedules == t.schedules
    decreases |ids|
  {
    hide Consistent, GoodStep, ReplaceUnstarted, Replaceable;
    if ids == [] {
      NoStepIsGood(t);
    } else {
      var plannedAt := if at.Some? then at.value else t.occurrences[ids[0]].trigger.slot.plannedAt;
      ReplaceUnstartedIsGood(t, scheduleId, sc, ids, plannedAt);
      var u := ReplaceUnstarted(t, scheduleId, sc, ids[0], plannedAt).value;
      GoodStepIsConsistent(t, u);
      ReplaceAllIsGood(u, scheduleId, sc, ids[1..], at);
      GoodStepsChain(t, u, ReplaceAll(t, scheduleId, sc, ids, at).value);
    }
  }

  lemma NotYetReplaced(t: Tables, u: Tables, ids: seq<OccurrenceId>, scheduleId: Id, revision: nat)
    requires Consistent(t) && u.occurrences == t.occurrences && scheduleId in t.schedules && t.schedules[scheduleId].revision < revision
    requires forall id :: id in ids ==> id in t.occurrences && OfSchedule(t.occurrences[id], scheduleId)
    ensures Replaceable(u, ids, scheduleId, revision)
  {
    hide SlotOk;
    forall id | id in ids
      ensures Replacement(id, revision) !in t.occurrences
    {
      assert OccurrenceOk(t, id);
      assert Replacement(id, revision) in t.occurrences ==> OccurrenceOk(t, Replacement(id, revision));
    }
  }

  lemma RevisedGrows(sc: Schedule, env: Env, a: ScheduleChange)
    requires Revised(sc, env, a).Success?
    ensures Revised(sc, env, a).value.revision == sc.revision + 1
  {
  }

  lemma ChangeIsGood(t: Tables, env: Env, id: Id, a: ScheduleChange, rows: seq<OccurrenceId>)
    requires Consistent(t) && Change(t, env, id, a, rows).Success?
    ensures GoodStep(t, Change(t, env, id, a, rows).value)
  {
    var sc := Revised(t.schedules[id], env, a).value;
    RevisedGrows(t.schedules[id], env, a);
    var u := Change(t, env, id, a, rows).value;
    hide Consistent, GoodStep, Revised, OccurrenceOk, SlotOk;
    if sc.state.Terminated? {
      var ids := Cancellable(t, rows, o => OfSchedule(o, id));
      CancelAllIsGood(t, env, ids);
      var t' := CancelAll(t, env, ids);
      GoodStepIsConsistent(t, t');
      ScheduleStepIsGood(t', u);
      GoodStepsChain(t, t', u);
    } else if !a.unstarted {
      ScheduleStepIsGood(t, u);
    } else {
      var t0, ids := t.(schedules := t.schedules[id := sc]), WaitingOf(t, rows, id);
      ScheduleStepIsGood(t, t0);
      GoodStepIsConsistent(t, t0);
      NotYetReplaced(t, t0, ids, id, sc.revision);
      ReplaceAllIsGood(t0, id, sc, ids, a.replacementPlannedAt);
      var t' := ReplaceAll(t0, id, sc, ids, a.replacementPlannedAt).value;
      GoodStepIsConsistent(t0, t');
      ScheduleStepIsGood(t', u);
      GoodStepsChain(t, t0, t');
      GoodStepsChain(t, t', u);
    }
  }

  lemma CancelCoordinationIsGood(t: Tables, env: Env, coordinationId: Id, rows: seq<OccurrenceId>)
    requires Consistent(t)
    ensures GoodStep(t, CancelCoordination(t, env, coordinationId, rows))
  {
    hide Consistent, GoodStep, CancelAll;
    var ids := Cancellable(t, rows, (o: Occurrence) => o.coordinationId == coordinationId);
    CancelAllIsGood(t, env, ids);
    var t' := CancelAll(t, env, ids);
    GoodStepIsConsistent(t, t');
    ScheduleStepIsGood(t', CancelCoordination(t, env, coordinationId, rows));
    GoodStepsChain(t, t', CancelCoordination(t, env, coordinationId, rows));
  }

  lemma CreateIsGood(t: Tables, env: Env, id: Id, a: NewSchedule)
    requires Consistent(t) && Create(t, env, id, a).Success?
    ensures GoodStep(t, Create(t, env, id, a).value)
  {
    hide Consistent, GoodStep, FirstDue;
    ScheduleStepIsGood(t, Create(t, env, id, a).value);
  }

  // ---------- Job and occurrence commands ----------

  lemma ClaimedRowIsOk(t: Tables, env: Env, id: OccurrenceId)
    requires Claim(t, env, id).Success? && OccurrenceOk(t, id)
    requires t.occurrences[id].trigger.AtTime? ==> SlotOk(t, t.occurrences[id].trigger.slot)
    ensures var u := Claim(t, env, id).value;
            OccurrenceOk(u, id) && OccurrencePreserved(t, u, id) && JobPreserved(t, u, id)
            && (t.occurrences[id].trigger.AtTime? ==> SlotOk(u, t.occurrences[id].trigger.slot))
  {
  }

  /** A claim that starts a slot finds no other occurrence of that slot ever attempted. */
  lemma ClaimKeepsStarts(t: Tables, env: Env, id: OccurrenceId)
    requires Consistent(t) && Claim(t, env, id).Success?
    ensures var u := Claim(t, env, id).value;
            forall p :: p in t.occurrences && p != id ==> OccurrenceOk(t, p) && StartKept(t, u, p)
  {
    var u := Claim(t, env, id).value;
    forall p | p in t.occurrences && p != id
      ensures OccurrenceOk(t, p) && StartKept(t, u, p)
    {
      assert OccurrenceOk(t, p);
      if t.occurrences[p].trigger.AtTime? {
        assert SlotOk(t, t.occurrences[p].trigger.slot);
      }
    }
  }

  /** A step on one existing row that may also start the given slots. */
  ghost predicate Started(t: Tables, u: Tables, id: OccurrenceId, slots: set<SlotId>) {
    id in t.occurrences && u.schedules == t.schedules && u.occurrences.Keys == t.occurrences.Keys
    && u.jobs.Keys == t.jobs.Keys && u.slots.Keys == t.slots.Keys
    && u.occurrences[id].trigger == t.occurrences[id].trigger
    && (forall p :: p in t.occurrences && p != id ==> u.occurrences[p] == t.occurrences[p] && SameJob(t, u, p))
    && (forall k :: k in t.slots ==> SlotPreserved(t, u, k))
    && (forall k :: k in t.slots && k !in slots ==> u.slots[k] == t.slots[k])
  }

  lemma StartedIsGood(t: Tables, u: Tables, id: OccurrenceId, slots: set<SlotId>)
    requires Consistent(t) && Started(t, u, id, slots)
    requires OccurrenceOk(u, id) && OccurrencePreserved(t, u, id) && (id in t.jobs ==> JobPreserved(t, u, id))
    requires forall k :: k in slots ==> k in u.slots && SlotOk(u, k)
    requires forall p :: p in t.occurrences && p != id ==> OccurrenceOk(t, p) && StartKept(t, u, p)
    ensures Consistent(u) && Preserves(t, u) && forall p :: p in u.occurrences && p != id ==> QuietRow(t, u, p)
  {
    hide OccurrenceOk, SlotOk, StartKept, OccurrencePreserved, JobPreserved, SlotPreserved;
    SlotsKeptOk(t, u, slots);
    FramedIsGood(t, u, {id});
  }

  function StartedSlots(t: Tables, id: OccurrenceId): set<SlotId>
    requires id in t.occurrences
  {
    if t.occurrences[id].trigger.AtTime? then {t.occurrences[id].trigger.slot} else {}
  }

  lemma ClaimStarts(t: Tables, env: Env, id: OccurrenceId)
    requires Claim(t, env, id).Success?
    ensures Started(t, Claim(t, env, id).value, id, StartedSlots(t, id))
  {
  }

  lemma ClaimIsGood(t: Tables, env: Env, id: OccurrenceId)
    requires Consistent(t) && Claim(t, env, id).Success?
    ensures var u := Claim(t, env, id).value;
            Consistent(u) && Preserves(t, u) && forall p :: p in u.occurrences && p != id ==> QuietRow(t, u, p)
  {
    SlotKnown(t, id);
    SlotsAreOk(t, id);
    ClaimedRowIsOk(t, env, id);
    ClaimStarts(t, env, id);
    ClaimKeepsStarts(t, env, id);
    hide Consistent, OccurrenceOk, SlotOk, StartKept, OccurrencePreserved, JobPreserved, Preserves, Claim, ClaimError, Started;
    StartedIsGood(t, Claim(t, env, id).value, id, StartedSlots(t, id));
  }

  lemma SlotsAreOk(t: Tables, id: OccurrenceId)
    requires Consistent(t) && id in t.occurrences
    ensures forall k :: k in StartedSlots(t, id) ==> k in t.slots && SlotOk(t, k)
  {
    SlotKnown(t, id);
    hide OccurrenceOk;
  }

  lemma SettledRow(t: Tables, id: OccurrenceId, job: JobState, o: Occurrence)
    requires id in t.occurrences && OccurrenceOk(t, id) && id in t.jobs && t.jobs[id].state.JobRunning?
    requires o.trigger == t.occurrences[id].trigger && o.merged == t.occurrences[id].merged && o.cancelled == t.occurrences[id].cancelled
    requires !o.actionState.Running? && Matches(o.actionState, job)
    ensures GoodRow(t, Settle(t, id, job, o), id)
  {
  }

  lemma CompletedRow(t: Tables, env: Env, id: OccurrenceId, fence: nat, report: Report)
    requires id in t.occurrences && OccurrenceOk(t, id) && Complete(t, env, id, fence, report).Success?
    ensures GoodRow(t, Complete(t, env, id, fence, report).value, id)
  {
    hide OccurrenceOk, GoodRow, Settle;
    var u := Complete(t, env, id, fence, report).value;
    var job, o :| u == Settle(t, id, job, o) && o.trigger == t.occurrences[id].trigger && o.merged == t.occurrences[id].merged
                  && o.cancelled == t.occurrences[id].cancelled && !o.actionState.Running? && Matches(o.actionState, job);
    SettledRow(t, id, job, o);
  }

  lemma CompleteIsGood(t: Tables, env: Env, id: OccurrenceId, fence: nat, report: Report)
    requires Consistent(t) && Complete(t, env, id, fence, report).Success?
    ensures GoodStep(t, Complete(t, env, id, fence, report).value)
  {
    assert id in t.occurrences;
    hide Consistent, Complete, OccurrenceOk, GoodRow;
    RowIsOk(t, id);
    CompletedRow(t, env, id, fence, report);
    GoodRowIsGood(t, Complete(t, env, id, fence, report).value, id);
  }

  lemma ControlledRow(t: Tables, env: Env, id: OccurrenceId, expected: nat, control: Control)
    requires id in t.occurrences && OccurrenceOk(t, id) && !control.CancelOne?
    requires ControlOccurrence(t, env, id, expected, control).Success?
    ensures GoodRow(t, ControlOccurrence(t, env, id, expected, control).value, id)
  {
  }

  lemma ControlIsGood(t: Tables, env: Env, id: OccurrenceId, expected: nat, control: Control)
    requires Consistent(t) && ControlOccurrence(t, env, id, expected, control).Success?
    ensures GoodStep(t, ControlOccurrence(t, env, id, expected, control).value)
  {
    hide Consistent, OccurrenceOk, GoodRow, GoodStep;
    RowIsOk(t, id);
    if control.CancelOne? {
      CancelOccurrenceIsGood(t, env, id);
    } else {
      ControlledRow(t, env, id, expected, control);
      GoodRowIsGood(t, ControlOccurrence(t, env, id, expected, control).value, id);
    }
  }

  lemma AcceptedRowIsOk(t: Tables, env: Env, id: OccurrenceId, coordinationId: Id, d: Definition)
    requires id !in t.occurrences && id !in t.jobs && Accept(t, env, id, coordinationId, d).Success?
    ensures var u := Accept(t, env, id, coordinationId, d).value;
            Inserted(t, u, id, {}) && OccurrenceOk(u, id) && !u.occurrences[id].actionState.Running?
  {
  }

  lemma AcceptIsGood(t: Tables, env: Env, id: OccurrenceId, coordinationId: Id, d: Definition)
    requires Consistent(t) && Accept(t, env, id, coordinationId, d).Success?
    ensures GoodStep(t, Accept(t, env, id, coordinationId, d).value)
  {
    JobsHaveRows(t);
    hide Consistent, OccurrenceOk, GoodStep;
    if id in t.occurrences {
      NoStepIsGood(t);
    } else {
      AcceptedRowIsOk(t, env, id, coordinationId, d);
      hide Accept, Inserted;
      InsertedIsGood(t, Accept(t, env, id, coordinationId, d).value, id, {});
    }
  }

  // ---------- Every command and every run ----------

  /** Only a claim makes an occurrence run, and then only its own. */
  lemma EveryCommandIsGood(t: Tables, env: Env, c: Command)
    requires Consistent(t) && Execute(t, env, c).Success?
    ensures var u := Execute(t, env, c).value;
            Consistent(u) && Preserves(t, u)
            && forall p :: p in u.occurrences && !(c.ClaimJob? && c.occurrence == p) ==> QuietRow(t, u, p)
  {
    hide Consistent, Preserves, Create, Change, ScanAll, Claim, Complete, Accept, ControlOccurrence, CancelCoordination;
    match c
    case CreateSchedule(id, schedule) => CreateIsGood(t, env, id, schedule);
    case ChangeSchedule(id, change, rows) => ChangeIsGood(t, env, id, change, rows);
    case Scan(limit, due, rows) => ScanAllIsGood(t, env, due, rows);
    case ClaimJob(o) => ClaimIsGood(t, env, o);
    case CompleteJob(o, fence, report) => CompleteIsGood(t, env, o, fence, report);
    case AcceptOccurrence(o, coordinationId, d) => AcceptIsGood(t, env, o, coordinationId, d);
    case ControlOne(o, expected, control) => ControlIsGood(t, env, o, expected, control);
    case CancelArrangement(coordinationId, rows) => CancelCoordinationIsGood(t, env, coordinationId, rows);
  }

  lemma {:induction false} EveryRunIsGood(t: Tables, run: seq<Step>)
    requires Consistent(t)
    ensures Consistent(AfterAll(t, run)) && Preserves(t, AfterAll(t, run))
    decreases |run|
  {
    hide Consistent, Preserves, Execute;
    if run == [] {
      NoStepIsGood(t);
    } else {
      var u := After(t, run[0].env, run[0].command);
      if Execute(t, run[0].env, run[0].command).Success? {
        EveryCommandIsGood(t, run[0].env, run[0].command);
      } else {
        NoStepIsGood(t);
      }
      EveryRunIsGood(u, run[1..]);
      PreservesChains(t, u, AfterAll(t, run));
    }
  }

  // ---------- What follows for every run ----------

  function Reached(run: seq<Step>): Tables {
    AfterAll(EmptyTables, run)
  }

  lemma ReachedIsConsistent(run: seq<Step>)
    ensures Consistent(Reached(run))
  {
    hide Execute;
    EveryRunIsGood(EmptyTables, run);
  }

  /**
    A planned slot is started at most once: whatever runs later, the occurrence that started it stays
    the one that did, and a time-triggered job was attempted only for the occurrence that is both
    current and started for its slot, also after the slot was retired, moved or replaced.
  */
  lemma SlotStartsOnce(before: seq<Step>, later: seq<Step>, k: SlotId)
    requires k in Reached(before).slots && Reached(before).slots[k].started.Some?
    ensures var t, u := Reached(before), AfterAll(Reached(before), later);
            k in u.slots && u.slots[k].started == t.slots[k].started && u.slots[k].current == t.slots[k].started.value
  {
    hide AfterAll;
    var t := Reached(before);
    ReachedIsConsistent(before);
    EveryRunIsGood(t, later);
    hide OccurrenceOk;
    var u := AfterAll(t, later);
    assert SlotOk(t, k) && SlotPreserved(t, u, k) && SlotOk(u, k);
  }

  lemma AttemptedJobOwnsItsSlot(run: seq<Step>, id: OccurrenceId)
    requires id in Reached(run).jobs && 0 < Reached(run).jobs[id].attempt
    ensures var t := Reached(run);
            id in t.occurrences
            && (t.occurrences[id].trigger.AtTime? ==>
                  var k := t.occurrences[id].trigger.slot;
                  k in t.slots && t.slots[k].current == id && t.slots[k].started == Some(id))
  {
    hide AfterAll;
    var t := Reached(run);
    ReachedIsConsistent(run);
    assert OccurrenceOk(t, id);
    if t.occurrences[id].trigger.AtTime? {
      assert SlotOk(t, t.occurrences[id].trigger.slot);
    }
  }

  /** Succeeded, expired, superseded and cancelled occurrences keep that outcome in every later state. */
  lemma OutcomesAreFinal(before: seq<Step>, later: seq<Step>, id: OccurrenceId)
    requires id in Reached(before).occurrences && Final(Reached(before).occurrences[id].actionState)
    ensures var t, u := Reached(before), AfterAll(Reached(before), later);
            id in u.occurrences && u.occurrences[id].actionState == t.occurrences[id].actionState
  {
    hide AfterAll;
    var t := Reached(before);
    ReachedIsConsistent(before);
    EveryRunIsGood(t, later);
    hide Consistent;
    assert OccurrencePreserved(t, AfterAll(t, later), id);
  }

  // ---------- Fences ----------

  /** No report can be made under this fence any more. */
  ghost predicate Spent(t: Tables, id: OccurrenceId, fence: nat) {
    id in t.jobs && (fence < t.jobs[id].fence || (fence == t.jobs[id].fence && !t.jobs[id].state.JobRunning?))
  }

  lemma CompletionSpends(t: Tables, env: Env, id: OccurrenceId, fence: nat, report: Report)
    requires Complete(t, env, id, fence, report).Success?
    ensures Spent(Complete(t, env, id, fence, report).value, id, fence)
  {
  }

  /** Each fence value serves at most one remind, read or command report, however the run goes on. */
  lemma FenceServesOnce(before: seq<Step>, env: Env, id: OccurrenceId, fence: nat, report: Report,
                        between: seq<Step>, env': Env, report': Report)
    requires Complete(Reached(before), env, id, fence, report).Success?
    ensures var t := Complete(Reached(before), env, id, fence, report).value;
            Complete(AfterAll(t, between), env', id, fence, report') == Failure("DYNAMIC_COORDINATION_JOB_STALE")
  {
    hide AfterAll;
    var t := Complete(Reached(before), env, id, fence, report).value;
    CompletionSpends(Reached(before), env, id, fence, report);
    ReachedIsConsistent(before);
    CompleteIsGood(Reached(before), env, id, fence, report);
    EveryRunIsGood(t, between);
    hide Complete, Consistent;
    assert JobPreserved(t, AfterAll(t, between), id);
    SpentIsStale(AfterAll(t, between), env', id, fence, report');
  }

  lemma SpentIsStale(t: Tables, env: Env, id: OccurrenceId, fence: nat, report: Report)
    requires Spent(t, id, fence)
    ensures Complete(t, env, id, fence, report) == Failure("DYNAMIC_COORDINATION_JOB_STALE")
  {
  }

  // ---------- One occurrence of a schedule at a time ----------

  predicate RunsFor(t: Tables, p: OccurrenceId, s: Id) {
    p in t.occurrences && OfSchedule(t.occurrences[p], s) && t.occurrences[p].actionState.Running?
  }

  ghost predicate Serial(t: Tables) {
    forall p, q, s :: RunsFor(t, p, s) && RunsFor(t, q, s) ==> p == q
  }

  /** A blocked job is claimed while another occurrence of its schedule runs: the overlap check is not made. */
  ghost predicate ClaimsPastARunner(t: Tables, c: Command) {
    c.ClaimJob? && c.occurrence in t.jobs && t.jobs[c.occurrence].state.JobBlocked?
    && c.occurrence in t.occurrences && t.occurrences[c.occurrence].trigger.AtTime?
    && exists q :: q != c.occurrence && RunsFor(t, q, t.occurrences[c.occurrence].trigger.slot.scheduleId)
  }

  lemma ClaimOverlap(t: Tables, env: Env, id: OccurrenceId)
    requires Claim(t, env, id).Success? && t.jobs[id].state.JobWaiting? && t.occurrences[id].trigger.AtTime?
    ensures forall q :: q in t.occurrences && q != id && OfSchedule(t.occurrences[q], t.occurrences[id].trigger.slot.scheduleId)
                        ==> !Occupies(t.occurrences[q])
  {
  }

  lemma RunnersAreTracked(t: Tables, env: Env, c: Command, p: OccurrenceId, s: Id)
    requires Consistent(t) && Execute(t, env, c).Success?
    requires RunsFor(Execute(t, env, c).value, p, s) && !(c.ClaimJob? && c.occurrence == p)
    ensures RunsFor(t, p, s)
  {
    hide Execute, Consistent;
    var u := Execute(t, env, c).value;
    EveryCommandIsGood(t, env, c);
    assert QuietRow(t, u, p);
    assert OccurrencePreserved(t, u, p);
  }

  /** A claim that succeeds beside another runner of the schedule is of a blocked job. */
  lemma ClaimBesideARunner(t: Tables, env: Env, id: OccurrenceId, q: OccurrenceId, s: Id)
    requires Consistent(t) && Serial(t) && Claim(t, env, id).Success? && q != id && RunsFor(t, q, s)
    requires OfSchedule(t.occurrences[id], s)
    ensures t.jobs[id].state.JobBlocked?
  {
    RowIsOk(t, id);
    RowIsOk(t, q);
    hide Consistent;
    if t.jobs[id].state.JobWaiting? {
      ClaimOverlap(t, env, id);
    }
    assert t.occurrences[id].actionState.Running? ==> RunsFor(t, id, s);
  }

  /**
    From one runner per schedule, a command leads to one runner per schedule again exactly unless it
    claims a blocked job while another occurrence of that schedule runs.
  */
  lemma SerialExactly(t: Tables, env: Env, c: Command)
    requires Consistent(t) && Serial(t) && Execute(t, env, c).Success?
    ensures Serial(Execute(t, env, c).value) <==> !ClaimsPastARunner(t, c)
  {
    var u := Execute(t, env, c).value;
    if ClaimsPastARunner(t, c) {
      var id := c.occurrence;
      var s := t.occurrences[id].trigger.slot.scheduleId;
      var q :| q != id && RunsFor(t, q, s);
      assert RunsFor(u, q, s) && RunsFor(u, id, s);
    } else {
      hide Execute, Consistent;
      forall p, q, s | RunsFor(u, p, s) && RunsFor(u, q, s)
        ensures p == q
      {
        if p != q {
          TwoRunnersMeanAReclaim(t, env, c, p, q, s);
        }
      }
    }
  }

  lemma TwoRunnersMeanAReclaim(t: Tables, env: Env, c: Command, p: OccurrenceId, q: OccurrenceId, s: Id)
    requires Consistent(t) && Serial(t) && Execute(t, env, c).Success? && p != q
    requires RunsFor(Execute(t, env, c).value, p, s) && RunsFor(Execute(t, env, c).value, q, s)
    ensures ClaimsPastARunner(t, c)
  {
    hide Consistent, Claim;
    if c.ClaimJob? && c.occurrence == p {
      RunnersAreTracked(t, env, c, q, s);
      ClaimedStays(t, env, p, s);
      ClaimBesideARunner(t, env, p, q, s);
    } else if c.ClaimJob? && c.occurrence == q {
      RunnersAreTracked(t, env, c, p, s);
      ClaimedStays(t, env, q, s);
      ClaimBesideARunner(t, env, q, p, s);
    } else {
      RunnersAreTracked(t, env, c, p, s);
      RunnersAreTracked(t, env, c, q, s);
    }
  }

  /** No command of the run claims a blocked job beside a runner. */
  ghost predicate NeverClaimsPastARunner(t: Tables, run: seq<Step>)
    decreases |run|
  {
    run == [] || (!ClaimsPastARunner(t, run[0].command) && NeverClaimsPastARunner(After(t, run[0].env, run[0].command), run[1..]))
  }

  lemma {:induction false} RunsStaySerial(t: Tables, run: seq<Step>)
    requires Consistent(t) && Serial(t) && NeverClaimsPastARunner(t, run)
    ensures Serial(AfterAll(t, run))
    decreases |run|
  {
    hide Consistent, Serial, Execute, ClaimsPastARunner;
    if run != [] {
      if Execute(t, run[0].env, run[0].command).Success? {
        SerialExactly(t, run[0].env, run[0].command);
        EveryCommandIsGood(t, run[0].env, run[0].command);
      }
      RunsStaySerial(After(t, run[0].env, run[0].command), run[1..]);
    }
  }

  lemma ClaimedStays(t: Tables, env: Env, id: OccurrenceId, s: Id)
    requires Claim(t, env, id).Success? && RunsFor(Claim(t, env, id).value, id, s)
    ensures id in t.occurrences && id in t.jobs && OfSchedule(t.occurrences[id], s)
  {
  }
}
