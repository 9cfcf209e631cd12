/**
  When a schedule is due, what a change makes of it and of its waiting occurrences, and its backlog: one unstarted
  occurrence at most, in every run.
*/
module ScheduleChanges {
  import opened Wrappers
  import opened Schedules
  import opened ScheduleSafety
  import opened ScheduleDelivery
  import opened SlotOwnership
  import Calendar
  import CalendarRules
  import ScanConservation
  import ScheduleControl

  // ---------- When a schedule is due ----------

  ghost predicate Regular(z: Calendar.Zone) {
    Calendar.OrdinaryZone(z) && Calendar.DatesNeverDecrease(z)
  }

  /** The first instant of a recurring rule after another, off a date that was served already. */
  ghost predicate DueAfter(rule: Calendar.Rule, z: Calendar.Zone, after: int, served: Option<int>, due: Option<int>)
    requires !rule.Once?
  {
    due.Some? && after < due.value && served != Some(Calendar.DateAt(z, due.value)) && CalendarRules.IsRuleInstant(rule, z, due.value)
    && forall t :: CalendarRules.IsRuleInstant(rule, z, t) && after < t && served != Some(Calendar.DateAt(z, t)) ==> due.value <= t
  }

  lemma NextIsDue(rule: Calendar.Rule, z: Calendar.Zone, after: int, served: Option<int>)
    requires !rule.Once? && Regular(z) && Calendar.NextTimeSlot(rule, z, after, served).Success?
    ensures DueAfter(rule, z, after, served, Calendar.NextTimeSlot(rule, z, after, served).value)
  {
    CalendarRules.NextIsLeastRuleInstant(rule, z, after, served);
    hide CalendarRules.IsRuleInstant, Calendar.DateAt, Calendar.OrdinaryZone, Calendar.DatesNeverDecrease, Calendar.DaysOf;
  }

  /** A new schedule is first due at its one instant, or at the first of its rule after its creation. */
  lemma CreatedIsDue(t: Tables, env: Env, id: Id, a: NewSchedule)
    requires Create(t, env, id, a).Success?
    ensures var u := Create(t, env, id, a).value;
            id in u.schedules && u.schedules[id].state.Active?
            && if a.rule.Once? then u.schedules[id].nextDueAt == Some(a.rule.at)
               else Regular(env.zone(a.timezone)) ==> DueAfter(a.rule, env.zone(a.timezone), env.now, None, u.schedules[id].nextDueAt)
  {
    if !a.rule.Once? && Regular(env.zone(a.timezone)) { NextIsDue(a.rule, env.zone(a.timezone), env.now, None); }
    hide DueAfter, Regular, Calendar.NextTimeSlot;
  }

  /** What a change asks for takes effect, and what it leaves open stays. */
  predicate Asked(sc: Schedule, sc': Schedule, a: ScheduleChange) {
    && (a.rule.Some? ==> sc'.rule == a.rule.value) && (a.rule.None? ==> sc'.rule == sc.rule)
    && (a.timezone.Some? ==> sc'.timezone == a.timezone.value) && (a.timezone.None? ==> sc'.timezone == sc.timezone)
    && (a.action.Some? ==> sc'.definition.action == a.action.value) && (a.action.None? ==> sc'.definition.action == sc.definition.action)
    && (a.target.Some? ==> sc'.definition.target == a.target.value) && (a.target.None? ==> sc'.definition.target == sc.definition.target)
    && (a.state.Some? ==> sc'.state == a.state.value) && (a.state.None? ==> sc'.state == sc.state)
    && sc'.revision == sc.revision + 1 && sc'.cursor == sc.cursor && sc'.coordinationId == sc.coordinationId
    && sc'.graceMs == sc.graceMs && sc'.misfirePolicy == sc.misfirePolicy
  }

  /** The due instant that a change leaves: none for an ended schedule, the same without a redefinition, and otherwise the first
      of the rule from now on that is off the date last served; an earlier planned replacement comes before it. */
  ghost predicate DueChanged(sc: Schedule, sc': Schedule, env: Env, a: ScheduleChange) {
    if sc'.state.Terminated? then sc'.nextDueAt.None?
    else
      var served := if sc.cursor.Some? then Some(sc.cursor.value.localDate) else None;
      exists due: Option<int> ::
        (if !a.Redefines() then due == sc.nextDueAt
         else if sc'.rule.Once? then due == (if env.now < sc'.rule.at then Some(sc'.rule.at) else None)
         else DueAfter(sc'.rule, env.zone(sc'.timezone), env.now, served, due))
        && Earlier(due, if a.unstarted then a.replacementPlannedAt else None, sc'.nextDueAt)
  }

  predicate Earlier(a: Option<int>, b: Option<int>, least: Option<int>) {
    (least == a || least == b) && (a.Some? ==> least.Some? && least.value <= a.value) && (b.Some? ==> least.Some? && least.value <= b.value)
  }

  lemma RevisedAsAsked(sc: Schedule, env: Env, a: ScheduleChange)
    requires Revised(sc, env, a).Success?
    ensures Asked(sc, Revised(sc, env, a).value, a)
  {
    hide Calendar.NextTimeSlot, Calendar.ValidRule;
  }

  lemma RevisedDue(sc: Schedule, env: Env, a: ScheduleChange) returns (due: Option<int>)
    requires Revised(sc, env, a).Success? && Regular(env.zone(Or(a.timezone, sc.timezone)))
    ensures var sc', served := Revised(sc, env, a).value, if sc.cursor.Some? then Some(sc.cursor.value.localDate) else None;
            && (if !a.Redefines() then due == sc.nextDueAt
                else if sc'.rule.Once? then due == (if env.now < sc'.rule.at then Some(sc'.rule.at) else None)
                else DueAfter(sc'.rule, env.zone(sc'.timezone), env.now, served, due))
            && sc'.nextDueAt == if sc'.state.Terminated? then None else due
  {
    var rule, timezone := Or(a.rule, sc.rule), Or(a.timezone, sc.timezone);
    var served := if sc.cursor.Some? then Some(sc.cursor.value.localDate) else None;
    due := if a.Redefines() then Calendar.NextTimeSlot(rule, env.zone(timezone), env.now, served).value else sc.nextDueAt;
    if a.Redefines() && !rule.Once? { NextIsDue(rule, env.zone(timezone), env.now, served); }
    hide DueAfter, Regular, Calendar.DaysOf;
  }

  lemma {:induction false} CancelAllKeepsSchedules(t: Tables, env: Env, ids: seq<OccurrenceId>)
    requires forall id :: id in ids ==> id in t.occurrences
    ensures CancelAll(t, env, ids).schedules == t.schedules
    decreases |ids|
  {
    if ids != [] {
      assert forall id :: id in ids[1..] ==> id in ids;
      CancelAllKeepsSchedules(CancelOccurrence(t, env, ids[0]), env, ids[1..]);
    }
  }

  /** The only schedule that a change rewrites. */
  lemma ChangedSchedules(t: Tables, env: Env, id: Id, a: ScheduleChange, rows: seq<OccurrenceId>) returns (due: Option<int>)
    requires Change(t, env, id, a, rows).Success?
    ensures id in t.schedules && Revised(t.schedules[id], env, a).Success?
    ensures var sc, u := Revised(t.schedules[id], env, a).value, Change(t, env, id, a, rows).value;
            u.schedules == t.schedules[id := sc.(nextDueAt := due)]
            && if sc.state.Terminated? then due == sc.nextDueAt else Earlier(sc.nextDueAt, if a.unstarted then a.replacementPlannedAt else None, due)
  {
    var sc, u := Revised(t.schedules[id], env, a).value, Change(t, env, id, a, rows).value;
    hide Revised, CancelAll, ReplaceAll, Cancellable, WaitingOf;
    due := u.schedules[id].nextDueAt;
    if sc.state.Terminated? {
      CancelAllKeepsSchedules(t, env, Cancellable(t, rows, o => OfSchedule(o, id)));
    } else if a.unstarted {
      ScanConservation.ReplacementsGrowElsewhere(t.(schedules := t.schedules[id := sc]), id, sc, WaitingOf(t, rows, id), a.replacementPlannedAt);
    }
  }

  lemma OtherDueAsAsked(sc: Schedule, sc': Schedule, due: Option<int>, a: ScheduleChange)
    requires Asked(sc, sc', a)
    ensures Asked(sc, sc'.(nextDueAt := due), a)
  {
  }

  lemma DueIsChanged(sc: Schedule, env: Env, a: ScheduleChange, due: Option<int>)
    requires Revised(sc, env, a).Success? && Regular(env.zone(Or(a.timezone, sc.timezone)))
    requires var sc' := Revised(sc, env, a).value;
             if sc'.state.Terminated? then due == sc'.nextDueAt else Earlier(sc'.nextDueAt, if a.unstarted then a.replacementPlannedAt else None, due)
    ensures DueChanged(sc, Revised(sc, env, a).value.(nextDueAt := due), env, a)
  {
    var first := RevisedDue(sc, env, a);
    hide Revised, DueAfter, Regular;
  }

  lemma RevisedTimezone(sc: Schedule, env: Env, a: ScheduleChange)
    requires Revised(sc, env, a).Success?
    ensures Revised(sc, env, a).value.timezone == Or(a.timezone, sc.timezone)
  {
    hide Calendar.NextTimeSlot, Calendar.ValidRule;
  }

  /** A change does what it was asked to, and the schedule is next due accordingly. */
  lemma ChangedAsAsked(t: Tables, env: Env, id: Id, a: ScheduleChange, rows: seq<OccurrenceId>)
    requires Change(t, env, id, a, rows).Success?
    ensures var u := Change(t, env, id, a, rows).value;
            id in t.schedules && id in u.schedules && Asked(t.schedules[id], u.schedules[id], a)
            && (Regular(env.zone(u.schedules[id].timezone)) ==> DueChanged(t.schedules[id], u.schedules[id], env, a))
            && forall s :: s in t.schedules && s != id ==> s in u.schedules && u.schedules[s] == t.schedules[s]
  {
    var sc, u := t.schedules[id], Change(t, env, id, a, rows).value;
    RevisedAsAsked(sc, env, a);
    hide Asked, DueChanged, Regular;
    var due := ChangedSchedules(t, env, id, a, rows);
    OtherDueAsAsked(sc, Revised(sc, env, a).value, due, a);
    RevisedTimezone(sc, env, a);
    if Regular(env.zone(Or(a.timezone, sc.timezone))) { DueIsChanged(sc, env, a, due); }
    hide Change, Revised;
  }

  // ---------- What a scan serves ----------

  /** The last instant of the rule in the interval, or its beginning if there is none. */
  ghost predicate LastMissed(sc: Schedule, z: Calendar.Zone, from: int, through: int, planned: int, merged: nat) {
    if sc.rule.Once? then planned == from && merged == 0
    else
      var missed := CalendarRules.RuleInstants(sc.rule, z, from, through);
      if missed == {} then planned == from && merged == 0
      else planned in missed && merged + 1 == |missed| && forall t :: t in missed ==> t <= planned
  }

  lemma MissedIsLast(sc: Schedule, env: Env)
    requires Due(sc, env) && Regular(env.zone(sc.timezone)) && MissedSlots(sc, env).Success?
    ensures var m := MissedSlots(sc, env).value;
            LastMissed(sc, env.zone(sc.timezone), sc.nextDueAt.value, env.now, m.plannedAt, m.merged) && m.plannedAt <= env.now
  {
    if !sc.rule.Once? {
      assert Calendar.ValidRule(sc.rule);
      CalendarRules.SummaryCountsRuleInstants(sc.rule, env.zone(sc.timezone), sc.nextDueAt.value, env.now);
      hide Calendar.SummarizeTimeSlots, Regular, Calendar.ValidRule;
    }
  }

  lemma {:induction false} SupersedeAllJust(t: Tables, ids: seq<OccurrenceId>)
    requires SupersedeAll(t, ids).Success?
    ensures var u := SupersedeAll(t, ids).value;
            u.schedules == t.schedules && u.slots == t.slots && u.occurrences.Keys == t.occurrences.Keys && u.jobs.Keys == t.jobs.Keys
            && (forall p :: p in t.occurrences && p !in ids ==> u.occurrences[p] == t.occurrences[p])
            && (forall p :: p in t.jobs && p !in ids ==> u.jobs[p] == t.jobs[p])
            && (forall p :: p in ids ==> p in u.occurrences && u.occurrences[p].actionState.Superseded?)
    decreases |ids|
  {
    if ids != [] {
      var u := SupersedeOne(t, ids[0]);
      SupersedeAllJust(u, ids[1..]);
      var v := SupersedeAll(t, ids).value;
      assert u.occurrences.Keys == t.occurrences.Keys && u.jobs.Keys == t.jobs.Keys;
      assert forall p :: p in ids <==> p == ids[0] || p in ids[1..];
    }
  }

  /** The occurrence that a scan accepts: expired exactly when it comes too late and is not to be caught up. */
  predicate AcceptedNow(sc: Schedule, o: Occurrence, slot: SlotId, merged: nat, now: int) {
    && o.coordinationId == sc.coordinationId && o.trigger == AtTime(slot, sc.revision) && Accepted(o) == sc.definition && o.merged == merged
    && o.actionState == (if sc.misfirePolicy != CatchUpOnce && slot.plannedAt + sc.graceMs < now then Expired else Waiting)
    && !o.paused && !o.cancelled && o.deliveryState.NoDelivery?
  }

  /** It takes the place of every waiting occurrence of the schedule, unless it has expired; nothing else is touched. */
  ghost predicate TakesOver(t: Tables, u: Tables, o: OccurrenceId, id: Id, rows: seq<OccurrenceId>)
    requires o in u.occurrences
  {
    && o !in t.occurrences && u.occurrences.Keys == t.occurrences.Keys + {o}
    && (u.occurrences[o].actionState.Waiting? ==> o in u.jobs && u.jobs[o] == FreshJob)
    && forall p :: p in t.occurrences ==>
         if u.occurrences[o].actionState.Waiting? && p in rows && OfSchedule(t.occurrences[p], id) && t.occurrences[p].actionState.Waiting?
         then u.occurrences[p].actionState.Superseded?
         else u.occurrences[p] == t.occurrences[p] && (p in t.jobs ==> p in u.jobs && u.jobs[p] == t.jobs[p]) && (p in u.jobs ==> p in t.jobs)
  }

  lemma AcceptSlotTakesOver(t: Tables, env: Env, id: Id, m: Missed, rows: seq<OccurrenceId>)
    requires Consistent(t) && id in t.schedules && SlotId(id, m.plannedAt) !in t.slots && AcceptSlot(t, env, id, m, rows).Success?
    ensures var u, slot := AcceptSlot(t, env, id, m, rows).value, SlotId(id, m.plannedAt);
            var o := TimeOccurrence(slot);
            && o in u.occurrences && AcceptedNow(t.schedules[id], u.occurrences[o], slot, m.merged, env.now)
            && TakesOver(t, u, o, id, rows)
            && u.slots == t.slots[slot := Slot(o, None, false)] && u.schedules == t.schedules
  {
    var slot := SlotId(id, m.plannedAt);
    SlotIsNew(t, slot);
    assert TimeOccurrence(slot) !in t.jobs;
    hide Consistent;
    if TooLate(t.schedules[id], env, m.plannedAt) {
      hide SupersedeAll, WaitingOf;
    } else {
      InTimeTakesOver(t, env, id, m, rows);
    }
  }

  lemma InTimeTakesOver(t: Tables, env: Env, id: Id, m: Missed, rows: seq<OccurrenceId>)
    requires id in t.schedules && AcceptSlot(t, env, id, m, rows).Success? && !TooLate(t.schedules[id], env, m.plannedAt)
    requires TimeOccurrence(SlotId(id, m.plannedAt)) !in t.occurrences && TimeOccurrence(SlotId(id, m.plannedAt)) !in t.jobs
    ensures var u, slot := AcceptSlot(t, env, id, m, rows).value, SlotId(id, m.plannedAt);
            var o := TimeOccurrence(slot);
            && o in u.occurrences && AcceptedNow(t.schedules[id], u.occurrences[o], slot, m.merged, env.now)
            && TakesOver(t, u, o, id, rows)
            && u.slots == t.slots[slot := Slot(o, None, false)] && u.schedules == t.schedules
  {
    var ids := WaitingOf(t, rows, id);
    assert SupersedeAll(t, ids).Success?;
    SupersedeAllJust(t, ids);
    hide SupersedeAll, WaitingOf;
    var u, v, o := SupersedeAll(t, ids).value, AcceptSlot(t, env, id, m, rows).value, TimeOccurrence(SlotId(id, m.plannedAt));
    assert v.jobs == u.jobs[o := FreshJob] && v.occurrences.Keys == u.occurrences.Keys + {o}
           && (forall p :: p in t.occurrences ==> v.occurrences[p] == u.occurrences[p]) && v.occurrences[o].actionState.Waiting?;
    assert AcceptedNow(t.schedules[id], v.occurrences[o], o.slot, m.merged, env.now);
    hide AcceptSlot, AcceptedNow;
  }

  /** A scan serves the last instant it has missed: a slot that has no occurrence yet gets one, and the schedule is next due at the
      first instant from now on that is off the date just served.  It is over when it was to happen once and expired. */
  ghost predicate Serves(t: Tables, u: Tables, env: Env, id: Id, rows: seq<OccurrenceId>, planned: int, merged: nat)
    requires id in t.schedules && id in u.schedules && Due(t.schedules[id], env)
  {
    var sc, sc', slot := t.schedules[id], u.schedules[id], SlotId(id, planned);
    var z, o := env.zone(sc.timezone), TimeOccurrence(slot);
    && LastMissed(sc, z, sc.nextDueAt.value, env.now, planned, merged)
    && sc'.cursor == Some(Cursor(planned, Calendar.DateAt(z, planned)))
    && (if sc.rule.Once? then sc'.nextDueAt == (if env.now < sc.rule.at then Some(sc.rule.at) else None)
        else DueAfter(sc.rule, z, env.now, Some(Calendar.DateAt(z, planned)), sc'.nextDueAt))
    && slot in u.slots
    && (if slot in t.slots then u.occurrences == t.occurrences && u.jobs == t.jobs && u.slots == t.slots
        else o in u.occurrences && AcceptedNow(sc, u.occurrences[o], slot, merged, env.now) && TakesOver(t, u, o, id, rows)
             && u.slots == t.slots[slot := Slot(o, None, false)])
    && sc'.state == (if slot !in t.slots && u.occurrences[o].actionState.Expired? && sc.rule.Once? then Completed else sc.state)
  }

  /** The cursor and the due instant that a scan writes. */
  lemma ScannedSchedule(t: Tables, env: Env, id: Id, rows: seq<OccurrenceId>, m: Missed)
    requires id in t.schedules && Due(t.schedules[id], env) && ScanSchedule(t, env, id, rows).Success?
    requires MissedSlots(t.schedules[id], env) == Success(m) && m.plannedAt <= env.now
    requires SlotId(id, m.plannedAt) !in t.slots ==>
               AcceptSlot(t, env, id, m, rows).Success? && AcceptSlot(t, env, id, m, rows).value.schedules == t.schedules
    ensures var sc, u, z := t.schedules[id], ScanSchedule(t, env, id, rows).value, env.zone(t.schedules[id].timezone);
            var isNew, date := SlotId(id, m.plannedAt) !in t.slots, Calendar.DateAt(z, m.plannedAt);
            var t' := if isNew then AcceptSlot(t, env, id, m, rows).value else t;
            id in u.schedules && Calendar.NextTimeSlot(sc.rule, z, env.now, Some(date)) == Success(u.schedules[id].nextDueAt)
            && u == t'.(schedules := t.schedules[id := u.schedules[id]])
            && u.schedules[id] == sc.(cursor := Some(Cursor(m.plannedAt, date)), nextDueAt := u.schedules[id].nextDueAt,
                                      state := if isNew && TooLate(sc, env, m.plannedAt) && sc.rule.Once? then Completed else sc.state)
  {
    hide AcceptSlot, MissedSlots, Due, TooLate, Calendar.DateAt, Calendar.NextTimeSlot;
  }

  lemma ScanServes(t: Tables, env: Env, id: Id, rows: seq<OccurrenceId>)
    requires Consistent(t) && id in t.schedules && Due(t.schedules[id], env) && Regular(env.zone(t.schedules[id].timezone))
    requires ScanSchedule(t, env, id, rows).Success?
    ensures var u := ScanSchedule(t, env, id, rows).value;
            id in u.schedules && exists planned, merged :: Serves(t, u, env, id, rows, planned, merged)
  {
    var sc, z, u := t.schedules[id], env.zone(t.schedules[id].timezone), ScanSchedule(t, env, id, rows).value;
    var m := MissedSlots(sc, env).value;
    MissedIsLast(sc, env);
    if SlotId(id, m.plannedAt) !in t.slots { AcceptSlotTakesOver(t, env, id, m, rows); }
    hide LastMissed, TakesOver, AcceptedNow, Consistent, Regular, TooLate, Due, MissedSlots;
    ScannedSchedule(t, env, id, rows, m);
    hide AcceptSlot, ScanSchedule;
    var t' := if SlotId(id, m.plannedAt) !in t.slots then AcceptSlot(t, env, id, m, rows).value else t;
    DueIsServed(sc, z, env.now, m.plannedAt, u.schedules[id].nextDueAt);
    ScannedServes(t, t', u, env, id, rows, m);
  }

  lemma DueIsServed(sc: Schedule, z: Calendar.Zone, now: int, planned: int, due: Option<int>)
    requires Regular(z) && Calendar.NextTimeSlot(sc.rule, z, now, Some(Calendar.DateAt(z, planned))) == Success(due)
    ensures if sc.rule.Once? then due == (if now < sc.rule.at then Some(sc.rule.at) else None)
            else DueAfter(sc.rule, z, now, Some(Calendar.DateAt(z, planned)), due)
  {
    if !sc.rule.Once? { NextIsDue(sc.rule, z, now, Some(Calendar.DateAt(z, planned))); }
    hide DueAfter, Calendar.DateAt, Regular, Calendar.DaysOf;
  }

  lemma ScannedServes(t: Tables, t': Tables, u: Tables, env: Env, id: Id, rows: seq<OccurrenceId>, m: Missed)
    requires id in t.schedules && Due(t.schedules[id], env) && id in u.schedules && u == t'.(schedules := t.schedules[id := u.schedules[id]])
    requires var sc, sc', z, slot := t.schedules[id], u.schedules[id], env.zone(t.schedules[id].timezone), SlotId(id, m.plannedAt);
             var o, date := TimeOccurrence(slot), Calendar.DateAt(z, m.plannedAt);
             && LastMissed(sc, z, sc.nextDueAt.value, env.now, m.plannedAt, m.merged)
             && (if slot in t.slots then t' == t
                 else o in t'.occurrences && AcceptedNow(sc, t'.occurrences[o], slot, m.merged, env.now) && TakesOver(t, t', o, id, rows)
                      && t'.slots == t.slots[slot := Slot(o, None, false)])
             && (if sc.rule.Once? then sc'.nextDueAt == (if env.now < sc.rule.at then Some(sc.rule.at) else None)
                 else DueAfter(sc.rule, z, env.now, Some(date), sc'.nextDueAt))
             && sc'.cursor == Some(Cursor(m.plannedAt, date))
             && sc'.state == if slot !in t.slots && TooLate(sc, env, m.plannedAt) && sc.rule.Once? then Completed else sc.state
    ensures Serves(t, u, env, id, rows, m.plannedAt, m.merged)
  {
    var slot := SlotId(id, m.plannedAt);
    if slot !in t.slots { SameTakesOver(t, t', u, TimeOccurrence(slot), id, rows); }
    hide TakesOver, LastMissed, DueAfter, Calendar.DateAt;
  }

  lemma SameTakesOver(t: Tables, u: Tables, v: Tables, o: OccurrenceId, id: Id, rows: seq<OccurrenceId>)
    requires o in u.occurrences && TakesOver(t, u, o, id, rows) && v.occurrences == u.occurrences && v.jobs == u.jobs
    ensures TakesOver(t, v, o, id, rows)
  {
  }

  // ---------- The date last served ----------

  predicate Scans(t: Tables, s: Step, id: Id) {
    s.command.Scan? && id in s.command.due && Execute(t, s.env, s.command).Success?
  }

  predicate NeverScanned(t: Tables, run: seq<Step>, id: Id)
    decreases |run|
  {
    run != [] ==> !Scans(t, run[0], id) && NeverScanned(After(t, run[0].env, run[0].command), run[1..], id)
  }

  predicate SameCursor(t: Tables, u: Tables, id: Id) {
    id in t.schedules && id in u.schedules && u.schedules[id].cursor == t.schedules[id].cursor
  }

  lemma {:induction false} ScansElsewhere(t: Tables, env: Env, ids: seq<Id>, rows: seq<OccurrenceId>, id: Id)
    requires Consistent(t) && id in t.schedules && id !in ids && ScanAll(t, env, ids, rows).Success?
    ensures SameCursor(t, ScanAll(t, env, ids, rows).value, id)
    decreases |ids|
  {
    if ids != [] {
      var u := ScanSchedule(t, env, ids[0], rows).value;
      ScanScheduleIsGood(t, env, ids[0], rows);
      GoodStepIsConsistent(t, u);
      ScanConservation.ScanGrowsElsewhere(t, env, ids[0], rows, id);
      hide ScanSchedule, Consistent, GoodStep, Due;
      ScansElsewhere(u, env, ids[1..], rows, id);
    }
  }

  lemma StepKeepsCursor(t: Tables, s: Step, id: Id)
    requires Consistent(t) && id in t.schedules && !Scans(t, s, id)
    ensures SameCursor(t, After(t, s.env, s.command), id)
  {
    var c := s.command;
    if Execute(t, s.env, c).Success? {
      if c.Scan? {
        ScansElsewhere(t, s.env, c.due, c.rows, id);
      } else if ScanConservation.Leaves(c, id, t.schedules[id].coordinationId) {
        ScanConservation.CommandKeepsDefinition(t, s.env, c, id);
      } else if c.ChangeSchedule? {
        ChangedAsAsked(t, s.env, id, c.change, c.rows);
      } else {
        CancellingKeepsCursor(t, s.env, c.coordinationId, c.rows, id);
      }
    }
    hide Consistent, Change, ScanAll, CancelCoordination, DueChanged, Regular;
  }

  lemma CancellingKeepsCursor(t: Tables, env: Env, coordinationId: Id, rows: seq<OccurrenceId>, id: Id)
    requires id in t.schedules
    ensures SameCursor(t, CancelCoordination(t, env, coordinationId, rows), id)
  {
    hide CancelAll, Cancellable;
  }

  lemma {:induction false} RunKeepsCursor(t: Tables, run: seq<Step>, id: Id)
    requires Consistent(t) && id in t.schedules && NeverScanned(t, run, id)
    ensures SameCursor(t, AfterAll(t, run), id)
    decreases |run|
  {
    if run != [] {
      StepKeepsCursor(t, run[0], id);
      if Execute(t, run[0].env, run[0].command).Success? {
        EveryCommandIsGood(t, run[0].env, run[0].command);
      }
      hide Consistent, Preserves, Execute, Scans;
      RunKeepsCursor(After(t, run[0].env, run[0].command), run[1..], id);
    }
  }

  /** Whatever happens between a scan of a schedule and its redefinition, the redefined schedule is not due again on the local date
      that the scan served, unless a replacement is planned for it. */
  lemma RedefinedOffTheServedDate(before: seq<Step>, env: Env, id: Id, rows: seq<OccurrenceId>, between: seq<Step>,
                                  env': Env, a: ScheduleChange, rows': seq<OccurrenceId>, due: int)
    requires id in Reached(before).schedules && Due(Reached(before).schedules[id], env)
    requires Regular(env.zone(Reached(before).schedules[id].timezone)) && ScanSchedule(Reached(before), env, id, rows).Success?
    requires NeverScanned(ScanSchedule(Reached(before), env, id, rows).value, between, id)
    requires var t := AfterAll(ScanSchedule(Reached(before), env, id, rows).value, between);
             Change(t, env', id, a, rows').Success? && a.Redefines() && a.replacementPlannedAt.None?
             && var sc := Change(t, env', id, a, rows').value.schedules[id];
                !sc.rule.Once? && sc.nextDueAt == Some(due) && Regular(env'.zone(sc.timezone))
    ensures var t := AfterAll(ScanSchedule(Reached(before), env, id, rows).value, between);
            var sc := Change(t, env', id, a, rows').value.schedules[id];
            exists planned: int, merged: nat ::
              Serves(Reached(before), ScanSchedule(Reached(before), env, id, rows).value, env, id, rows, planned, merged)
              && Calendar.DateAt(env'.zone(sc.timezone), due) != Calendar.DateAt(env.zone(Reached(before).schedules[id].timezone), planned)
  {
    var t0 := Reached(before);
    ReachedIsConsistent(before);
    ScanServes(t0, env, id, rows);
    ScanScheduleIsGood(t0, env, id, rows);
    var u := ScanSchedule(t0, env, id, rows).value;
    GoodStepIsConsistent(t0, u);
    var planned, merged :| Serves(t0, u, env, id, rows, planned, merged);
    var date := Calendar.DateAt(env.zone(t0.schedules[id].timezone), planned);
    assert u.schedules[id].cursor == Some(Cursor(planned, date)) by { hide ScanSchedule, Consistent, GoodStep; }
    hide Reached, Consistent, GoodStep, ScanSchedule, Due, Serves;
    RunKeepsCursor(u, between, id);
    hide AfterAll;
    var t := AfterAll(u, between);
    ChangedAsAsked(t, env', id, a, rows');
    hide Change, Regular;
    OffTheServedDate(t.schedules[id], Change(t, env', id, a, rows').value.schedules[id], env', a, due);
  }

  lemma OffTheServedDate(sc: Schedule, sc': Schedule, env: Env, a: ScheduleChange, due: int)
    requires DueChanged(sc, sc', env, a) && a.Redefines() && a.replacementPlannedAt.None? && sc'.nextDueAt == Some(due) && !sc'.rule.Once?
    ensures sc.cursor.Some? ==> Calendar.DateAt(env.zone(sc'.timezone), due) != sc.cursor.value.localDate
  {
    hide CalendarRules.IsRuleInstant, Calendar.DateAt;
  }

  // ---------- Waiting occurrences under a new revision ----------

  /** The occurrence gave way to one of the new revision, planned for `planned`, that has never been attempted. */
  ghost predicate Moved(t: Tables, u: Tables, p: OccurrenceId, id: Id, sc: Schedule, planned: int)
    requires p in t.occurrences
  {
    var q := Replacement(p, sc.revision);
    && p in u.occurrences && u.occurrences[p].actionState.Superseded? && q in u.occurrences && q in u.jobs && u.jobs[q] == FreshJob
    && var o, o' := t.occurrences[p], u.occurrences[q];
       o'.trigger == AtTime(SlotId(id, planned), sc.revision) && Accepted(o') == sc.definition && o'.actionState.Waiting?
       && o'.coordinationId == o.coordinationId && o'.paused == o.paused && o'.merged == o.merged && o'.cancelled == o.cancelled
       && o'.deliveryState == o.deliveryState
  }

  ghost predicate SameRow(t: Tables, u: Tables, p: OccurrenceId) {
    p in t.occurrences && p in u.occurrences && u.occurrences[p] == t.occurrences[p] && SameJob(t, u, p)
  }

  lemma ReplacedMoves(t: Tables, id: Id, sc: Schedule, p: OccurrenceId, planned: int)
    requires p in t.occurrences && t.occurrences[p].trigger.AtTime? && Owns(t, p) && OccurrenceOk(t, p)
    requires Replacement(p, sc.revision) !in t.occurrences && Replacement(p, sc.revision) !in t.jobs
    requires ReplaceUnstarted(t, id, sc, p, planned).Success?
    ensures var u := ReplaceUnstarted(t, id, sc, p, planned).value;
            Moved(t, u, p, id, sc, planned) && u.occurrences.Keys == t.occurrences.Keys + {Replacement(p, sc.revision)}
            && forall x :: x in t.occurrences && x != p ==> x != Replacement(p, sc.revision) && SameRow(t, u, x)
  {
    hide DefinitionOf;
  }

  function PlannedFor(t: Tables, p: OccurrenceId, at: Option<int>): int
    requires p in t.occurrences && t.occurrences[p].trigger.AtTime?
  {
    if at.Some? then at.value else t.occurrences[p].trigger.slot.plannedAt
  }

  ghost predicate MovesJust(t: Tables, u: Tables, ids: seq<OccurrenceId>, id: Id, sc: Schedule, at: Option<int>) {
    forall p :: p in t.occurrences ==>
      if p in ids then t.occurrences[p].trigger.AtTime? && Moved(t, u, p, id, sc, PlannedFor(t, p, at)) else SameRow(t, u, p)
  }

  lemma ReplacedJust(t: Tables, id: Id, sc: Schedule, p: OccurrenceId, planned: int)
    requires p in t.occurrences && t.occurrences[p].trigger.AtTime? && ReplaceUnstarted(t, id, sc, p, planned).Success?
    ensures var u, q := ReplaceUnstarted(t, id, sc, p, planned).value, Replacement(p, sc.revision);
            t.occurrences[p].actionState.Waiting? && u.occurrences.Keys == t.occurrences.Keys + {q} && u.occurrences[p].actionState.Superseded?
            && forall x :: x in t.occurrences && x != p && x != q ==> u.occurrences[x] == t.occurrences[x]
  {
  }

  /** A change that succeeds replaces only waiting occurrences, each once. */
  lemma {:induction false} AllWaited(t: Tables, id: Id, sc: Schedule, ids: seq<OccurrenceId>, at: Option<int>)
    requires ReplaceAll(t, id, sc, ids, at).Success? && forall p :: p in ids ==> p in t.occurrences
    requires forall p :: p in ids && t.occurrences[p].actionState.Waiting? ==> Replacement(p, sc.revision) !in t.occurrences
    ensures forall p :: p in ids ==> t.occurrences[p].trigger.AtTime? && t.occurrences[p].actionState.Waiting?
    ensures ids != [] ==> ids[0] !in ids[1..]
    decreases |ids|
  {
    if ids != [] {
      var x := ids[0];
      var u := ReplaceUnstarted(t, id, sc, x, PlannedFor(t, x, at)).value;
      ReplacedJust(t, id, sc, x, PlannedFor(t, x, at));
      assert ReplaceAll(u, id, sc, ids[1..], at).Success?;
      hide ReplaceUnstarted, ReplaceAll;
      assert x in ids && Replacement(x, sc.revision) !in t.occurrences;
      forall p | p in ids[1..]
        ensures p in u.occurrences && (p != x ==> u.occurrences[p] == t.occurrences[p]) && p in t.occurrences
      {
        assert p in ids;
      }
      AllWaited(u, id, sc, ids[1..], at);
      forall p | p in ids ensures t.occurrences[p].trigger.AtTime? && t.occurrences[p].actionState.Waiting? { assert p == x || p in ids[1..]; }
    }
  }

  /** The first of the waiting occurrences moves, and the rest can. */
  lemma FirstMoves(t: Tables, id: Id, sc: Schedule, ids: seq<OccurrenceId>, at: Option<int>) returns (u: Tables)
    requires Consistent(t) && Owned(t) && Replaceable(t, ids, id, sc.revision) && id in t.schedules && t.schedules[id] == sc
    requires ids != [] && ReplaceAll(t, id, sc, ids, at).Success?
    ensures ids[0] in t.occurrences && t.occurrences[ids[0]].trigger.AtTime?
    ensures ReplaceUnstarted(t, id, sc, ids[0], PlannedFor(t, ids[0], at)) == Success(u)
    ensures Consistent(u) && Owned(u) && Replaceable(u, ids[1..], id, sc.revision) && u.schedules == t.schedules
    ensures ReplaceAll(u, id, sc, ids[1..], at) == ReplaceAll(t, id, sc, ids, at)
    ensures Moved(t, u, ids[0], id, sc, PlannedFor(t, ids[0], at)) && Replacement(ids[0], sc.revision) !in ids[1..] && ids[0] !in ids[1..]
    ensures forall x :: x in t.occurrences && x != ids[0] ==> SameRow(t, u, x)
  {
    hide Consistent, Owned, OwnStep, GoodStep, ReplaceUnstarted, Moved, SameRow;
    var x := ids[0];
    u := ReplaceUnstarted(t, id, sc, x, PlannedFor(t, x, at)).value;
    WaitedOnce(t, id, sc, ids, at);
    hide ReplaceAll;
    FirstIsReady(t, x, Replacement(x, sc.revision));
    ReplacedMoves(t, id, sc, x, PlannedFor(t, x, at));
    ReplaceUnstartedIsGood(t, id, sc, ids, PlannedFor(t, x, at));
    hide Replaceable;
    ReplacingOwns(t, id, sc, ids, PlannedFor(t, x, at));
    GoodStepIsConsistent(t, u);
    OwnStepIsOwned(t, u);
  }

  lemma WaitedOnce(t: Tables, id: Id, sc: Schedule, ids: seq<OccurrenceId>, at: Option<int>)
    requires Replaceable(t, ids, id, sc.revision) && ids != [] && ReplaceAll(t, id, sc, ids, at).Success?
    ensures var x, q := ids[0], Replacement(ids[0], sc.revision);
            x in t.occurrences && t.occurrences[x].trigger.AtTime? && q !in t.occurrences && x !in ids[1..] && q !in ids[1..]
  {
    hide ReplaceAll;
    AllWaited(t, id, sc, ids, at);
    assert ids[0] in ids && forall p :: p in ids[1..] ==> p in ids;
  }

  lemma {:induction false} ReplaceAllMoves(t: Tables, id: Id, sc: Schedule, ids: seq<OccurrenceId>, at: Option<int>)
    requires Consistent(t) && Owned(t) && Replaceable(t, ids, id, sc.revision) && id in t.schedules && t.schedules[id] == sc
    requires ReplaceAll(t, id, sc, ids, at).Success?
    ensures MovesJust(t, ReplaceAll(t, id, sc, ids, at).value, ids, id, sc, at)
    decreases |ids|
  {
    if ids != [] {
      hide Consistent, Owned, ReplaceAll, Moved, SameRow, Replaceable;
      var v := ReplaceAll(t, id, sc, ids, at).value;
      var u := FirstMoves(t, id, sc, ids, at);
      hide ReplaceUnstarted, PlannedFor;
      ReplaceAllMoves(u, id, sc, ids[1..], at);
      forall p | p in t.occurrences
        ensures if p in ids then t.occurrences[p].trigger.AtTime? && Moved(t, v, p, id, sc, PlannedFor(t, p, at)) else SameRow(t, v, p)
      {
        MovedOn(t, u, v, ids, id, sc, at, p);
      }
    }
  }

  lemma FirstIsReady(t: Tables, x: OccurrenceId, q: OccurrenceId)
    requires Consistent(t) && Owned(t) && x in t.occurrences && q !in t.occurrences
    ensures OccurrenceOk(t, x) && Owns(t, x) && q !in t.jobs
  {
  }

  lemma MovedOn(t: Tables, u: Tables, v: Tables, ids: seq<OccurrenceId>, id: Id, sc: Schedule, at: Option<int>, p: OccurrenceId)
    requires ids != [] && ids[0] in t.occurrences && t.occurrences[ids[0]].trigger.AtTime? && p in t.occurrences
    requires Moved(t, u, ids[0], id, sc, PlannedFor(t, ids[0], at)) && MovesJust(u, v, ids[1..], id, sc, at)
    requires ids[0] !in ids[1..] && Replacement(ids[0], sc.revision) !in ids[1..]
    requires p != ids[0] ==> SameRow(t, u, p)
    ensures if p in ids then t.occurrences[p].trigger.AtTime? && Moved(t, v, p, id, sc, PlannedFor(t, p, at)) else SameRow(t, v, p)
  {
    var q := Replacement(ids[0], sc.revision);
    assert SameRow(u, v, ids[0]) && SameRow(u, v, q);
    assert p in ids <==> p == ids[0] || p in ids[1..];
  }

  /** What a change does to the occurrences of its schedule: the end of a schedule cancels them, a change of what has not started moves
      the waiting ones to the new revision, and any other change leaves all as they are. */
  ghost predicate Reaches(t: Tables, u: Tables, env: Env, id: Id, a: ScheduleChange)
    requires id in u.schedules
  {
    forall p :: p in t.occurrences ==>
      var o, sc := t.occurrences[p], u.schedules[id];
      if sc.state.Terminated? then
        if OfSchedule(o, id) && !o.actionState.Expired? && !o.actionState.Superseded? then ScheduleControl.Cancels(t, u, env, p)
        else p in u.occurrences && u.occurrences[p] == o
      else if a.unstarted && OfSchedule(o, id) && o.actionState.Waiting? then Moved(t, u, p, id, sc, PlannedFor(t, p, a.replacementPlannedAt))
      else SameRow(t, u, p)
  }

  lemma ChangeReaches(before: seq<Step>, env: Env, id: Id, a: ScheduleChange, rows: seq<OccurrenceId>)
    requires Change(Reached(before), env, id, a, rows).Success? && forall p :: p in Reached(before).occurrences ==> p in rows
    ensures var u := Change(Reached(before), env, id, a, rows).value; id in u.schedules && Reaches(Reached(before), u, env, id, a)
  {
    var t := Reached(before);
    ScheduleControl.ReachedIsSound(before);
    hide Reached;
    var due := ChangedSchedules(t, env, id, a, rows);
    var sc, u := Revised(t.schedules[id], env, a).value, Change(t, env, id, a, rows).value;
    if sc.state.Terminated? {
      EndReaches(t, env, id, a, rows);
    } else if a.unstarted {
      UnstartedReaches(t, env, id, a, rows);
    } else {
      assert forall p :: p in t.occurrences ==> SameRow(t, u, p);
      hide Moved, SameRow, Consistent, Owned, Queued, Change, Revised;
    }
  }

  lemma EndReaches(t: Tables, env: Env, id: Id, a: ScheduleChange, rows: seq<OccurrenceId>)
    requires Queued(t) && Change(t, env, id, a, rows).Success? && Revised(t.schedules[id], env, a).value.state.Terminated?
    requires forall p :: p in t.occurrences ==> p in rows
    ensures var u := Change(t, env, id, a, rows).value; id in u.schedules && Reaches(t, u, env, id, a)
  {
    var u, ids := Change(t, env, id, a, rows).value, Cancellable(t, rows, o => OfSchedule(o, id));
    hide Revised, Queued, CancelAll;
    ScheduleControl.CancelAllCancels(t, env, ids);
    var t' := CancelAll(t, env, ids);
    hide Moved, SameRow, Cancellable, ScheduleControl.Cancels;
    forall p | p in t.occurrences && p in ids ensures ScheduleControl.Cancels(t, u, env, p) {
      assert ScheduleControl.CancelsJust(t, t', env, ids, p);
      ScheduleControl.SameRowCancels(t, t', u, env, p);
    }
    forall p | p in t.occurrences && p !in ids ensures u.occurrences[p] == t.occurrences[p] {
      assert ScheduleControl.CancelsJust(t, t', env, ids, p);
    }
  }

  lemma UnstartedReaches(t: Tables, env: Env, id: Id, a: ScheduleChange, rows: seq<OccurrenceId>)
    requires Consistent(t) && Owned(t) && Change(t, env, id, a, rows).Success? && a.unstarted
    requires !Revised(t.schedules[id], env, a).value.state.Terminated? && forall p :: p in t.occurrences ==> p in rows
    ensures var u := Change(t, env, id, a, rows).value; id in u.schedules && Reaches(t, u, env, id, a)
  {
    var u, sc := Change(t, env, id, a, rows).value, Revised(t.schedules[id], env, a).value;
    RevisedGrows(t.schedules[id], env, a);
    assert HistoryOk(t.schedules[id]);
    RevisedRecords(t.schedules[id], env, a);
    hide Consistent, Owned, OwnStep, GoodStep, Revised, OccurrenceOk, SlotOk, HistoryOk, Records;
    var t0, ids := t.(schedules := t.schedules[id := sc]), WaitingOf(t, rows, id);
    ScheduleStepIsGood(t, t0);
    GoodStepIsConsistent(t, t0);
    NotYetReplaced(t, t0, ids, id, sc.revision);
    OneScheduleOwns(t, id, sc);
    OwnStepIsOwned(t, t0);
    ReplaceAllMoves(t0, id, sc, ids, a.replacementPlannedAt);
    var t' := ReplaceAll(t0, id, sc, ids, a.replacementPlannedAt).value;
    hide ReplaceAll, WaitingOf, CancelAll, Cancellable;
    var due := u.schedules[id].nextDueAt;
    assert u.occurrences == t'.occurrences && u.jobs == t'.jobs && u.schedules[id] == sc.(nextDueAt := due);
    hide Change;
    forall p | p in t.occurrences
      ensures if OfSchedule(t.occurrences[p], id) && t.occurrences[p].actionState.Waiting?
              then Moved(t, u, p, id, u.schedules[id], PlannedFor(t, p, a.replacementPlannedAt)) else SameRow(t, u, p)
    {
      assert p in ids <==> OfSchedule(t.occurrences[p], id) && t.occurrences[p].actionState.Waiting?;
      SameMoves(t, t0, t', u, p, id, sc, a.replacementPlannedAt, due);
    }
    hide Moved, SameRow;
  }

  lemma SameMoves(t: Tables, t0: Tables, t': Tables, u: Tables, p: OccurrenceId, id: Id, sc: Schedule, at: Option<int>, due: Option<int>)
    requires p in t.occurrences && t0.occurrences == t.occurrences && t0.jobs == t.jobs && u.occurrences == t'.occurrences && u.jobs == t'.jobs
    ensures t.occurrences[p].trigger.AtTime? && Moved(t0, t', p, id, sc, PlannedFor(t0, p, at)) ==>
              Moved(t, u, p, id, sc.(nextDueAt := due), PlannedFor(t, p, at))
    ensures SameRow(t0, t', p) ==> SameRow(t, u, p)
  {
  }

  // ---------- The backlog ----------

  predicate Unstarted(t: Tables, p: OccurrenceId, s: Id) {
    p in t.occurrences && OfSchedule(t.occurrences[p], s) && t.occurrences[p].actionState.Waiting? && p in t.jobs && t.jobs[p].attempt == 0
  }

  /** At most one waiting occurrence of each schedule has never been attempted. */
  ghost predicate OneBacklogMember(t: Tables) {
    forall s, p, q :: Unstarted(t, p, s) && Unstarted(t, q, s) ==> p == q
  }

  ghost predicate NoneAdded(t: Tables, u: Tables) {
    forall s, p :: Unstarted(u, p, s) ==> Unstarted(t, p, s)
  }

  lemma OneRowAdds(t: Tables, u: Tables, id: OccurrenceId)
    requires OnlyRow(t, u, id) && u.jobs.Keys <= t.jobs.Keys + {id} && forall s :: Unstarted(u, id, s) ==> Unstarted(t, id, s)
    ensures NoneAdded(t, u)
  {
    forall s, p | Unstarted(u, p, s) ensures Unstarted(t, p, s) {
      if p != id { assert p in t.jobs && t.jobs[p] == u.jobs[p]; }
    }
  }

  lemma {:induction false} CancelAllAddsNone(t: Tables, env: Env, ids: seq<OccurrenceId>)
    requires forall id :: id in ids ==> id in t.occurrences
    ensures NoneAdded(t, CancelAll(t, env, ids))
    decreases |ids|
  {
    if ids != [] {
      var u := CancelOccurrence(t, env, ids[0]);
      assert NoneAdded(t, u);
      assert forall id :: id in ids[1..] ==> id in ids;
      CancelAllAddsNone(u, env, ids[1..]);
      hide CancelOccurrence, CancelAll, Unstarted;
    }
  }

  lemma ClaimAddsNone(t: Tables, env: Env, id: OccurrenceId)
    requires Consistent(t) && Claim(t, env, id).Success?
    ensures NoneAdded(t, Claim(t, env, id).value)
  {
    hide TimeClaimError, Consistent;
  }

  lemma CompletionAddsNone(t: Tables, env: Env, id: OccurrenceId, fence: nat, report: Report)
    requires Consistent(t) && Owned(t) && Complete(t, env, id, fence, report).Success?
    ensures NoneAdded(t, Complete(t, env, id, fence, report).value)
  {
    var u := Complete(t, env, id, fence, report).value;
    AttemptedWhenCompleted(t, env, id, fence, report);
    hide Complete, Consistent, Owned, OnlyRow;
    OneRowAdds(t, u, id);
  }

  lemma AttemptedWhenCompleted(t: Tables, env: Env, id: OccurrenceId, fence: nat, report: Report)
    requires Consistent(t) && Owned(t) && Complete(t, env, id, fence, report).Success?
    ensures var u := Complete(t, env, id, fence, report).value;
            OnlyRow(t, u, id) && u.jobs.Keys <= t.jobs.Keys + {id} && (id in u.jobs ==> 0 < u.jobs[id].attempt)
  {
    RunsInItsSlot(t, env, id, fence);
    assert Owns(t, id);
    CompletedJob(t, env, id, fence, report);
    hide Consistent, Owned, Owns, OnlyRow, SameCurrent, Complete, Holds;
    CompletedOwns(t, env, id, fence, report);
  }

  lemma CompletedJob(t: Tables, env: Env, id: OccurrenceId, fence: nat, report: Report)
    requires Complete(t, env, id, fence, report).Success? && id in t.jobs
    ensures var u := Complete(t, env, id, fence, report).value; id in u.jobs && u.jobs[id].attempt == t.jobs[id].attempt
  {
    hide Materialize, Holds;
  }

  lemma ControlAddsNone(t: Tables, env: Env, id: OccurrenceId, expected: nat, control: Control)
    requires Consistent(t) && ControlOccurrence(t, env, id, expected, control).Success?
    ensures NoneAdded(t, ControlOccurrence(t, env, id, expected, control).value)
  {
    RowIsOk(t, id);
    hide Consistent, CancelledDelivery;
  }

  lemma AcceptanceAddsNone(t: Tables, env: Env, id: OccurrenceId, coordinationId: Id, d: Definition)
    requires Accept(t, env, id, coordinationId, d).Success?
    ensures NoneAdded(t, Accept(t, env, id, coordinationId, d).value)
  {
  }

  /** A scan leaves the schedule one unstarted occurrence at most, and not due any more. */
  lemma ScanLeavesOne(t: Tables, env: Env, id: Id, rows: seq<OccurrenceId>)
    requires Consistent(t) && OneBacklogMember(t) && id in t.schedules && Due(t.schedules[id], env) && ScanSchedule(t, env, id, rows).Success?
    requires forall p :: Unstarted(t, p, id) ==> p in rows
    ensures var u := ScanSchedule(t, env, id, rows).value;
            OneBacklogMember(u) && id in u.schedules && !Due(u.schedules[id], env)
            && (forall s, p :: s != id && Unstarted(u, p, s) ==> Unstarted(t, p, s))
            && forall s :: s in t.schedules && s != id ==> s in u.schedules && u.schedules[s] == t.schedules[s]
  {
    hide TooLate, Consistent, Calendar.DaysOf, Calendar.DateAt, Unstarted, TakesOver, AcceptedNow, AcceptSlot, MissedSlots;
    var sc, m, u := t.schedules[id], MissedSlots(t.schedules[id], env).value, ScanSchedule(t, env, id, rows).value;
    var t' := if SlotId(id, m.plannedAt) !in t.slots then AcceptSlot(t, env, id, m, rows).value else t;
    if SlotId(id, m.plannedAt) !in t.slots {
      AcceptSlotTakesOver(t, env, id, m, rows);
      TakenOver(t, t', TimeOccurrence(SlotId(id, m.plannedAt)), id, rows, sc, m.merged, env.now);
    }
    assert u.occurrences == t'.occurrences && u.jobs == t'.jobs && u.schedules == t.schedules[id := u.schedules[id]];
    hide ScanSchedule, OneBacklogMember;
    SameRowsUnstarted(t', u);
  }

  lemma SameRowsUnstarted(t: Tables, u: Tables)
    requires u.occurrences == t.occurrences && u.jobs == t.jobs
    ensures forall p, s :: Unstarted(u, p, s) <==> Unstarted(t, p, s)
    ensures OneBacklogMember(t) ==> OneBacklogMember(u)
  {
    assert forall p, s :: Unstarted(u, p, s) <==> Unstarted(t, p, s);
    hide Unstarted;
  }

  lemma TakenOver(t: Tables, u: Tables, o: OccurrenceId, id: Id, rows: seq<OccurrenceId>, sc: Schedule, merged: nat, now: int)
    requires OneBacklogMember(t) && o in u.occurrences && o.TimeOccurrence? && o.slot.scheduleId == id
    requires AcceptedNow(sc, u.occurrences[o], o.slot, merged, now) && TakesOver(t, u, o, id, rows)
    requires forall p :: Unstarted(t, p, id) ==> p in rows
    ensures OneBacklogMember(u) && forall s, p :: s != id && Unstarted(u, p, s) ==> Unstarted(t, p, s)
  {
    forall s, p | Unstarted(u, p, s) && p != o ensures Unstarted(t, p, s) && (u.occurrences[o].actionState.Waiting? ==> s != id) {
      assert p in t.occurrences;
    }
  }

  /** The occurrences that a scan must see: the unstarted ones of the schedules it processes. */
  ghost predicate Listed(t: Tables, env: Env, ids: seq<Id>, rows: seq<OccurrenceId>) {
    forall s, p :: s in ids && s in t.schedules && Due(t.schedules[s], env) && Unstarted(t, p, s) ==> p in rows
  }

  lemma {:induction false} ScanAllLeavesOne(t: Tables, env: Env, ids: seq<Id>, rows: seq<OccurrenceId>)
    requires Consistent(t) && OneBacklogMember(t) && ScanAll(t, env, ids, rows).Success? && Listed(t, env, ids, rows)
    ensures OneBacklogMember(ScanAll(t, env, ids, rows).value)
    decreases |ids|
  {
    if ids != [] {
      var u := ScanSchedule(t, env, ids[0], rows).value;
      assert ids[0] in ids && forall s :: s in ids[1..] ==> s in ids;
      ScanScheduleIsGood(t, env, ids[0], rows);
      GoodStepIsConsistent(t, u);
      ScanLeavesOne(t, env, ids[0], rows);
      UnstartedIsKnown(t);
      hide ScanSchedule, Consistent, GoodStep, Due, Unstarted, OneBacklogMember;
      KnownSchedules(t, u, ids[0], env, ids, rows);
      ScanAllLeavesOne(u, env, ids[1..], rows);
    }
  }

  lemma KnownSchedules(t: Tables, u: Tables, id: Id, env: Env, ids: seq<Id>, rows: seq<OccurrenceId>)
    requires Listed(t, env, ids, rows) && id in u.schedules && !Due(u.schedules[id], env) && ids != []
    requires forall s, p :: s != id && Unstarted(u, p, s) ==> Unstarted(t, p, s)
    requires forall s :: s in t.schedules && s != id ==> s in u.schedules && u.schedules[s] == t.schedules[s]
    requires forall p, s :: Unstarted(t, p, s) ==> s in t.schedules
    ensures Listed(u, env, ids[1..], rows)
  {
    hide Due, Unstarted;
    forall s, p | s in ids[1..] && s in u.schedules && Due(u.schedules[s], env) && Unstarted(u, p, s) ensures p in rows {
      assert s in ids && Unstarted(t, p, s);
    }
  }

  lemma UnstartedIsKnown(t: Tables)
    requires Consistent(t)
    ensures forall p, s :: Unstarted(t, p, s) ==> s in t.schedules
  {
    forall p, s | Unstarted(t, p, s) ensures s in t.schedules { assert OccurrenceOk(t, p); }
  }

  lemma ReplacingLeavesOne(t: Tables, id: Id, sc: Schedule, p: OccurrenceId, planned: int)
    requires Consistent(t) && Owned(t) && OneBacklogMember(t) && p in t.occurrences && OfSchedule(t.occurrences[p], id)
    requires Replacement(p, sc.revision) !in t.occurrences && ReplaceUnstarted(t, id, sc, p, planned).Success?
    ensures OneBacklogMember(ReplaceUnstarted(t, id, sc, p, planned).value)
  {
    var u, q := ReplaceUnstarted(t, id, sc, p, planned).value, Replacement(p, sc.revision);
    RowIsOk(t, p);
    assert Unstarted(t, p, id);
    FirstIsReady(t, p, q);
    ReplacedMoves(t, id, sc, p, planned);
    hide ReplaceUnstarted, Consistent, Owned;
    forall s, x | Unstarted(u, x, s) && x != q ensures Unstarted(t, x, s) && s != id {
      assert x != p && SameRow(t, u, x);
    }
  }

  lemma FirstLeavesOne(t: Tables, id: Id, sc: Schedule, ids: seq<OccurrenceId>, at: Option<int>)
    requires Consistent(t) && Owned(t) && OneBacklogMember(t) && Replaceable(t, ids, id, sc.revision) && ids != []
    requires ReplaceAll(t, id, sc, ids, at).Success?
    ensures ids[0] in t.occurrences && t.occurrences[ids[0]].trigger.AtTime?
    ensures var r := ReplaceUnstarted(t, id, sc, ids[0], PlannedFor(t, ids[0], at)); r.Success? && OneBacklogMember(r.value)
  {
    hide Consistent, Owned, OneBacklogMember, ReplaceUnstarted;
    assert ids[0] in ids;
    WaitedOnce(t, id, sc, ids, at);
    ReplacingLeavesOne(t, id, sc, ids[0], PlannedFor(t, ids[0], at));
  }

  lemma {:induction false} ReplaceAllLeavesOne(t: Tables, id: Id, sc: Schedule, ids: seq<OccurrenceId>, at: Option<int>)
    requires Consistent(t) && Owned(t) && OneBacklogMember(t) && Replaceable(t, ids, id, sc.revision) && id in t.schedules && t.schedules[id] == sc
    requires ReplaceAll(t, id, sc, ids, at).Success?
    ensures OneBacklogMember(ReplaceAll(t, id, sc, ids, at).value)
    decreases |ids|
  {
    if ids != [] {
      hide Consistent, Owned, OneBacklogMember, ReplaceUnstarted, Moved, SameRow;
      var u := FirstMoves(t, id, sc, ids, at);
      FirstLeavesOne(t, id, sc, ids, at);
      hide Replaceable, ReplaceAll;
      ReplaceAllLeavesOne(u, id, sc, ids[1..], at);
    }
  }

  lemma ChangeLeavesOne(t: Tables, env: Env, id: Id, a: ScheduleChange, rows: seq<OccurrenceId>)
    requires Consistent(t) && Owned(t) && OneBacklogMember(t) && Change(t, env, id, a, rows).Success?
    ensures OneBacklogMember(Change(t, env, id, a, rows).value)
  {
    var u, sc := Change(t, env, id, a, rows).value, Revised(t.schedules[id], env, a).value;
    RevisedGrows(t.schedules[id], env, a);
    assert HistoryOk(t.schedules[id]);
    RevisedRecords(t.schedules[id], env, a);
    hide Consistent, Owned, OwnStep, GoodStep, Revised, OccurrenceOk, SlotOk, HistoryOk, Records, OneBacklogMember, Unstarted, CancelAll, ReplaceAll;
    if sc.state.Terminated? {
      var ids := Cancellable(t, rows, o => OfSchedule(o, id));
      CancelAllAddsNone(t, env, ids);
      NoneAddedLeavesOne(t, CancelAll(t, env, ids));
      SameRowsUnstarted(CancelAll(t, env, ids), u);
    } else if !a.unstarted {
      SameRowsUnstarted(t, u);
    } else {
      var t0, ids := t.(schedules := t.schedules[id := sc]), WaitingOf(t, rows, id);
      ScheduleStepIsGood(t, t0);
      GoodStepIsConsistent(t, t0);
      NotYetReplaced(t, t0, ids, id, sc.revision);
      OneScheduleOwns(t, id, sc);
      OwnStepIsOwned(t, t0);
      SameRowsUnstarted(t, t0);
      ReplaceAllLeavesOne(t0, id, sc, ids, a.replacementPlannedAt);
      SameRowsUnstarted(ReplaceAll(t0, id, sc, ids, a.replacementPlannedAt).value, u);
    }
  }

  lemma NoneAddedLeavesOne(t: Tables, u: Tables)
    requires OneBacklogMember(t) && NoneAdded(t, u)
    ensures OneBacklogMember(u)
  {
  }

  /** Scans of the step see every occurrence they look for. */
  ghost predicate ListsAll(t: Tables, s: Step) {
    s.command.Scan? ==> Listed(t, s.env, s.command.due, s.command.rows)
  }

  lemma CommandLeavesOne(t: Tables, s: Step)
    requires Consistent(t) && Owned(t) && OneBacklogMember(t) && ListsAll(t, s) && Execute(t, s.env, s.command).Success?
    ensures OneBacklogMember(Execute(t, s.env, s.command).value)
  {
    hide Consistent, Owned, OneBacklogMember, Unstarted, NoneAdded, Listed;
    hide Create, Change, ScanAll, Claim, Complete, Accept, ControlOccurrence, CancelCoordination;
    var u := Execute(t, s.env, s.command).value;
    match s.command
    case CreateSchedule(id, schedule) => CreationAddsNone(t, s.env, id, schedule); NoneAddedLeavesOne(t, u);
    case ChangeSchedule(id, change, rows) => ChangeLeavesOne(t, s.env, id, change, rows);
    case Scan(limit, due, rows) => ScanAllLeavesOne(t, s.env, due, rows);
    case ClaimJob(o) => ClaimAddsNone(t, s.env, o); NoneAddedLeavesOne(t, u);
    case CompleteJob(o, fence, report) => CompletionAddsNone(t, s.env, o, fence, report); NoneAddedLeavesOne(t, u);
    case AcceptOccurrence(o, coordinationId, d) => AcceptanceAddsNone(t, s.env, o, coordinationId, d); NoneAddedLeavesOne(t, u);
    case ControlOne(o, expected, control) => ControlAddsNone(t, s.env, o, expected, control); NoneAddedLeavesOne(t, u);
    case CancelArrangement(coordinationId, rows) => CancellationAddsNone(t, s.env, coordinationId, rows); NoneAddedLeavesOne(t, u);
  }

  lemma CreationAddsNone(t: Tables, env: Env, id: Id, a: NewSchedule)
    requires Create(t, env, id, a).Success?
    ensures NoneAdded(t, Create(t, env, id, a).value)
  {
    SameRowsUnstarted(t, Create(t, env, id, a).value);
    hide Unstarted;
  }

  lemma CancellationAddsNone(t: Tables, env: Env, coordinationId: Id, rows: seq<OccurrenceId>)
    ensures NoneAdded(t, CancelCoordination(t, env, coordinationId, rows))
  {
    var ids := Cancellable(t, rows, (o: Occurrence) => o.coordinationId == coordinationId);
    CancelAllAddsNone(t, env, ids);
    SameRowsUnstarted(CancelAll(t, env, ids), CancelCoordination(t, env, coordinationId, rows));
    hide CancelAll, Unstarted;
  }

  ghost predicate EveryScanListsAll(t: Tables, run: seq<Step>)
    decreases |run|
  {
    run != [] ==> ListsAll(t, run[0]) && EveryScanListsAll(After(t, run[0].env, run[0].command), run[1..])
  }

  lemma {:induction false} RunLeavesOne(t: Tables, run: seq<Step>)
    requires Consistent(t) && Owned(t) && OneBacklogMember(t) && EveryScanListsAll(t, run)
    ensures OneBacklogMember(AfterAll(t, run))
    decreases |run|
  {
    hide Consistent, Owned, Preserves, KeepsCourse, Execute, OneBacklogMember, ListsAll;
    if run != [] {
      if Execute(t, run[0].env, run[0].command).Success? {
        EveryCommandIsGood(t, run[0].env, run[0].command);
        EveryCommandOwns(t, run[0].env, run[0].command);
        CommandLeavesOne(t, run[0]);
      }
      RunLeavesOne(After(t, run[0].env, run[0].command), run[1..]);
    }
  }

  /** In every run each schedule has at most one occurrence that waits and was never attempted. */
  lemma BacklogIsOne(run: seq<Step>, s: Id, p: OccurrenceId, q: OccurrenceId)
    requires EveryScanListsAll(EmptyTables, run) && Unstarted(Reached(run), p, s) && Unstarted(Reached(run), q, s)
    ensures p == q
  {
    hide Consistent, Owned, Unstarted;
    ReachedIsConsistent([]);
    assert Owned(EmptyTables) by { NothingOwned(); }
    assert OneBacklogMember(EmptyTables) by { NothingUnstarted(); }
    RunLeavesOne(EmptyTables, run);
  }

  lemma NothingUnstarted()
    ensures OneBacklogMember(EmptyTables)
  {
  }
}
