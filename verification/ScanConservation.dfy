/**
  No calendar slot of a recurring schedule is lost or counted twice: the occurrences that scans
  accepted, each with the slots merged into it, account for every slot up to the last scan.
*/
module ScanConservation {
  import opened Wrappers
  import opened Schedules
  import opened ScheduleSafety
  import Calendar

  // ---------- The slots accounted for ----------

  predicate FromScanOf(o: OccurrenceId, id: Id) {
    o.TimeOccurrence? && o.slot.scheduleId == id
  }

  ghost function AcceptedFor(t: Tables, id: Id): set<OccurrenceId> {
    set o | o in t.occurrences && FromScanOf(o, id)
  }

  /** Each occurrence stands for itself and for the slots merged into it. */
  ghost function Total(m: map<OccurrenceId, Occurrence>, keys: set<OccurrenceId>): nat
    requires keys <= m.Keys
  {
    if keys == {} then 0
    else
      var k :| k in keys;
      1 + m[k].merged + Total(m, keys - {k})
  }

  ghost function AccountedFor(t: Tables, id: Id): nat {
    Total(t.occurrences, AcceptedFor(t, id))
  }

  lemma {:induction false} TotalWithout(m: map<OccurrenceId, Occurrence>, keys: set<OccurrenceId>, k: OccurrenceId)
    requires keys <= m.Keys && k in keys
    ensures Total(m, keys) == 1 + m[k].merged + Total(m, keys - {k})
    decreases |keys|
  {
    var j :| j in keys && Total(m, keys) == 1 + m[j].merged + Total(m, keys - {j});
    if j != k {
      TotalWithout(m, keys - {j}, k);
      TotalWithout(m, keys - {k}, j);
      assert keys - {j} - {k} == keys - {k} - {j};
    }
  }

  lemma {:induction false} TotalSame(m: map<OccurrenceId, Occurrence>, n: map<OccurrenceId, Occurrence>, keys: set<OccurrenceId>)
    requires keys <= m.Keys && keys <= n.Keys && forall k :: k in keys ==> n[k].merged == m[k].merged
    ensures Total(n, keys) == Total(m, keys)
    decreases |keys|
  {
    if keys != {} {
      var k :| k in keys;
      TotalWithout(m, keys, k);
      TotalWithout(n, keys, k);
      TotalSame(m, n, keys - {k});
    }
  }

  // ---------- The account of one schedule ----------

  /**
    `last` is where the account stands: every slot from `first` to `last` is accounted for, the next
    due instant is the first slot after `last`, and no later slot has an occurrence yet.
  */
  ghost predicate Accounts(t: Tables, id: Id, z: Calendar.Zone, first: int, last: int) {
    id in t.schedules
    && var sc := t.schedules[id];
       Calendar.ValidRule(sc.rule) && !sc.rule.Once? && sc.nextDueAt.Some? && first - 1 <= last
       && var days := Calendar.DaysOf(sc.rule, z);
          last < sc.nextDueAt.value && days.IsSlot(sc.nextDueAt.value)
          && (forall s :: days.IsSlot(s) && last < s ==> sc.nextDueAt.value <= s)
          && AccountedFor(t, id) == |days.SlotsBetween(first, last)|
          && (forall k :: k in t.slots && k.scheduleId == id ==> k.plannedAt <= last)
  }

  /** The parts of a schedule that only a change may rewrite. */
  predicate Keyed(t: Tables, u: Tables, id: Id) {
    id in t.schedules && id in u.schedules && u.schedules[id].timezone == t.schedules[id].timezone
    && u.schedules[id].coordinationId == t.schedules[id].coordinationId && u.schedules[id].rule == t.schedules[id].rule
  }

  /** Nothing that the account looks at has changed. */
  ghost predicate SameAccount(t: Tables, u: Tables, id: Id) {
    Keyed(t, u, id) && u.schedules[id].nextDueAt == t.schedules[id].nextDueAt
    && AcceptedFor(u, id) == AcceptedFor(t, id)
    && (forall o :: o in AcceptedFor(t, id) ==> u.occurrences[o].merged == t.occurrences[o].merged)
    && (forall k :: k in u.slots && k.scheduleId == id ==> k in t.slots)
  }

  lemma SameAccountKeeps(t: Tables, u: Tables, id: Id, z: Calendar.Zone, first: int, last: int)
    requires Accounts(t, id, z, first, last) && SameAccount(t, u, id)
    ensures Accounts(u, id, z, first, last)
  {
    TotalSame(t.occurrences, u.occurrences, AcceptedFor(t, id));
  }

  /** New rows belong to other schedules. */
  ghost predicate GrowsElsewhere(t: Tables, u: Tables, id: Id) {
    id in t.schedules && id in u.schedules && u.schedules[id] == t.schedules[id]
    && (forall o :: o in u.occurrences && o !in t.occurrences ==> !FromScanOf(o, id))
    && (forall k :: k in u.slots && k !in t.slots ==> k.scheduleId != id)
  }

  lemma GrowthElsewhereKeeps(t: Tables, u: Tables, id: Id)
    requires Preserves(t, u) && GrowsElsewhere(t, u, id)
    ensures SameAccount(t, u, id)
  {
    hide JobPreserved, SlotPreserved;
    assert forall o :: o in t.occurrences ==> OccurrencePreserved(t, u, o);
  }

  // ---------- A scan of the schedule ----------

  lemma SplitSlots(days: Calendar.Days, first: int, last: int, next: int, now: int)
    requires last < next <= now && first - 1 <= last && forall s :: days.IsSlot(s) && last < s ==> next <= s
    ensures |days.SlotsBetween(first, now)| == |days.SlotsBetween(first, last)| + |days.SlotsBetween(next, now)|
  {
    var a, b := days.SlotsBetween(first, last), days.SlotsBetween(next, now);
    assert days.SlotsBetween(first, now) == a + b;
    assert a !! b;
  }

  /** The date just served has no further slot, so skipping it skips nothing. */
  lemma NextAfterScan(days: Calendar.Days, planned: int, now: int, next: int)
    requires days.Ordered() && days.IsSlot(planned) && planned <= now
    requires days.Next(now, Some(days.dateOf(planned))) == Success(next)
    ensures now < next && days.IsSlot(next) && forall s :: days.IsSlot(s) && now < s ==> next <= s
  {
    days.NextIsLeast(now, Some(days.dateOf(planned)));
  }

  lemma ScanPlansTheLatest(t: Tables, env: Env, id: Id, z: Calendar.Zone, first: int, last: int) returns (m: Missed)
    requires Accounts(t, id, z, first, last) && Due(t.schedules[id], env)
    requires env.zone(t.schedules[id].timezone) == z && Calendar.DatesNeverDecrease(z)
    requires MissedSlots(t.schedules[id], env).Success?
    ensures MissedSlots(t.schedules[id], env) == Success(m)
    ensures var days, next := Calendar.DaysOf(t.schedules[id].rule, z), t.schedules[id].nextDueAt.value;
            m.merged + 1 == |days.SlotsBetween(next, env.now)| && days.IsSlot(m.plannedAt) && next <= m.plannedAt <= env.now
  {
    hide Calendar.DatesNeverDecrease, AccountedFor;
    var sc := t.schedules[id];
    var days, next := Calendar.DaysOf(sc.rule, z), sc.nextDueAt.value;
    Calendar.DaysAreOrdered(sc.rule, z);
    days.SummaryIsExact(next, env.now);
    hide Calendar.DaysOf;
    assert next in days.SlotsBetween(next, env.now);
    m := MissedSlots(sc, env).value;
  }

  lemma AcceptedOne(t: Tables, u: Tables, id: Id, slot: SlotId)
    requires Preserves(t, u) && slot.scheduleId == id && TimeOccurrence(slot) !in t.occurrences
    requires u.occurrences.Keys == t.occurrences.Keys + {TimeOccurrence(slot)}
    ensures AccountedFor(u, id) == AccountedFor(t, id) + 1 + u.occurrences[TimeOccurrence(slot)].merged
  {
    hide JobPreserved, SlotPreserved;
    var o := TimeOccurrence(slot);
    assert forall p :: p in t.occurrences ==> OccurrencePreserved(t, u, p);
    assert AcceptedFor(u, id) - {o} == AcceptedFor(t, id);
    TotalWithout(u.occurrences, AcceptedFor(u, id), o);
    TotalSame(t.occurrences, u.occurrences, AcceptedFor(t, id));
  }

  lemma AcceptSlotAdds(t: Tables, env: Env, id: Id, m: Missed, rows: seq<OccurrenceId>)
    requires Consistent(t) && id in t.schedules && SlotId(id, m.plannedAt) !in t.slots
    ensures var r, o := AcceptSlot(t, env, id, m, rows), TimeOccurrence(SlotId(id, m.plannedAt));
            r.Success? && r.value.occurrences.Keys == t.occurrences.Keys + {o} && r.value.occurrences[o].merged == m.merged
            && r.value.slots.Keys == t.slots.Keys + {o.slot} && r.value.schedules == t.schedules
  {
    hide Consistent, TooLate;
    SupersedeAllIsGood(t, WaitingOf(t, rows, id));
  }

  /** What a successful scan of an unserved slot does to the tables. */
  lemma ScanShape(t: Tables, env: Env, id: Id, rows: seq<OccurrenceId>, m: Missed)
    requires id in t.schedules && Due(t.schedules[id], env) && Calendar.ValidRule(t.schedules[id].rule) && !t.schedules[id].rule.Once?
    requires MissedSlots(t.schedules[id], env) == Success(m) && m.plannedAt <= env.now && SlotId(id, m.plannedAt) !in t.slots
    requires AcceptSlot(t, env, id, m, rows).Success? && AcceptSlot(t, env, id, m, rows).value.schedules == t.schedules
    requires ScanSchedule(t, env, id, rows).Success?
    ensures var t', u := AcceptSlot(t, env, id, m, rows).value, ScanSchedule(t, env, id, rows).value;
            var sc, days := t.schedules[id], Calendar.DaysOf(t.schedules[id].rule, env.zone(t.schedules[id].timezone));
            u.occurrences == t'.occurrences && u.slots == t'.slots && id in u.schedules && u.schedules[id].rule == sc.rule
            && u.schedules[id].nextDueAt.Some?
            && days.Next(env.now, Some(days.dateOf(m.plannedAt))) == Success(u.schedules[id].nextDueAt.value)
  {
    hide AcceptSlot, MissedSlots, Due, TooLate, Calendar.DateAt;
  }

  lemma AccountBroughtForward(t: Tables, u: Tables, id: Id, z: Calendar.Zone, first: int, last: int, now: int, m: Missed)
    requires Accounts(t, id, z, first, last)
    requires var next, days := t.schedules[id].nextDueAt.value, Calendar.DaysOf(t.schedules[id].rule, z);
             next <= now && m.plannedAt <= now && m.merged + 1 == |days.SlotsBetween(next, now)|
    requires AccountedFor(u, id) == AccountedFor(t, id) + 1 + m.merged
    requires u.slots.Keys == t.slots.Keys + {SlotId(id, m.plannedAt)}
    requires id in u.schedules && u.schedules[id].rule == t.schedules[id].rule && u.schedules[id].nextDueAt.Some?
    requires var next', days := u.schedules[id].nextDueAt.value, Calendar.DaysOf(t.schedules[id].rule, z);
             now < next' && days.IsSlot(next') && forall s :: days.IsSlot(s) && now < s ==> next' <= s
    ensures Accounts(u, id, z, first, now)
  {
    hide AccountedFor, Calendar.DaysOf;
    var days := Calendar.DaysOf(t.schedules[id].rule, z);
    SplitSlots(days, first, last, t.schedules[id].nextDueAt.value, now);
  }

  /** The scan that processes a schedule brings its account up to the instant of the scan. */
  lemma ScanAccounts(t: Tables, env: Env, id: Id, rows: seq<OccurrenceId>, z: Calendar.Zone, first: int, last: int)
    requires Consistent(t) && Accounts(t, id, z, first, last) && Due(t.schedules[id], env)
    requires env.zone(t.schedules[id].timezone) == z && Calendar.DatesNeverDecrease(z)
    requires ScanSchedule(t, env, id, rows).Success?
    ensures Accounts(ScanSchedule(t, env, id, rows).value, id, z, first, env.now)
  {
    var sc := t.schedules[id];
    var days := Calendar.DaysOf(sc.rule, z);
    var m := ScanPlansTheLatest(t, env, id, z, first, last);
    var slot := SlotId(id, m.plannedAt);
    assert slot !in t.slots;
    Calendar.DaysAreOrdered(sc.rule, z);
    var t', u := AcceptSlot(t, env, id, m, rows).value, ScanSchedule(t, env, id, rows).value;
    assert AccountedFor(u, id) == AccountedFor(t, id) + 1 + m.merged && u.slots.Keys == t.slots.Keys + {slot}
           && id in u.schedules && u.schedules[id].rule == sc.rule && u.schedules[id].nextDueAt.Some?
           && days.Next(env.now, Some(days.dateOf(m.plannedAt))) == Success(u.schedules[id].nextDueAt.value) by {
      hide Consistent, AcceptSlot, MissedSlots, ScanSchedule, TooLate, AccountedFor, Preserves, Calendar.DaysOf, Calendar.DatesNeverDecrease;
      SlotIsNew(t, slot);
      AcceptSlotIsGood(t, env, id, m, rows);
      AcceptSlotAdds(t, env, id, m, rows);
      ScanShape(t, env, id, rows, m);
      AcceptedOne(t, t', id, slot);
      SameRowsSameAccount(t', u, id);
    }
    hide Consistent, AcceptSlot, MissedSlots, ScanSchedule, TooLate, Accounts, AccountedFor, Calendar.DaysOf, Calendar.DatesNeverDecrease;
    NextAfterScan(days, m.plannedAt, env.now, u.schedules[id].nextDueAt.value);
    AccountBroughtForward(t, u, id, z, first, last, env.now, m);
  }

  lemma SameRowsSameAccount(t: Tables, u: Tables, id: Id)
    requires u.occurrences == t.occurrences
    ensures AccountedFor(u, id) == AccountedFor(t, id)
  {
    assert AcceptedFor(u, id) == AcceptedFor(t, id);
  }

  // ---------- Commands that concern other schedules ----------

  lemma {:induction false} ReplacementsGrowElsewhere(t: Tables, scheduleId: Id, sc: Schedule, ids: seq<OccurrenceId>, at: Option<int>)
    requires ReplaceAll(t, scheduleId, sc, ids, at).Success?
    ensures var u := ReplaceAll(t, scheduleId, sc, ids, at).value;
            u.schedules == t.schedules
            && (forall o :: o in u.occurrences && o !in t.occurrences ==> o.Replacement?)
            && (forall k :: k in u.slots && k !in t.slots ==> k.scheduleId == scheduleId)
    decreases |ids|
  {
    if ids != [] {
      var plannedAt := if at.Some? then at.value else t.occurrences[ids[0]].trigger.slot.plannedAt;
      var u := ReplaceUnstarted(t, scheduleId, sc, ids[0], plannedAt).value;
      assert u.schedules == t.schedules
             && (forall o :: o in u.occurrences && o !in t.occurrences ==> o.Replacement?)
             && (forall k :: k in u.slots && k !in t.slots ==> k.scheduleId == scheduleId);
      hide ReplaceUnstarted;
      ReplacementsGrowElsewhere(u, scheduleId, sc, ids[1..], at);
    }
  }

  lemma ChangeGrowsElsewhere(t: Tables, env: Env, j: Id, a: ScheduleChange, rows: seq<OccurrenceId>, id: Id)
    requires Consistent(t) && id in t.schedules && j != id && Change(t, env, j, a, rows).Success?
    ensures GrowsElsewhere(t, Change(t, env, j, a, rows).value, id)
  {
    var sc := Revised(t.schedules[j], env, a).value;
    hide Consistent, Revised;
    if sc.state.Terminated? {
      CancelAllIsGood(t, env, Cancellable(t, rows, o => OfSchedule(o, j)));
    } else if a.unstarted {
      hide CancelAll;
      ReplacementsGrowElsewhere(t.(schedules := t.schedules[j := sc]), j, sc, WaitingOf(t, rows, j), a.replacementPlannedAt);
      hide ReplaceAll;
    }
  }

  lemma ScanGrowsElsewhere(t: Tables, env: Env, j: Id, rows: seq<OccurrenceId>, id: Id)
    requires Consistent(t) && id in t.schedules && j != id && j in t.schedules && Due(t.schedules[j], env)
    requires ScanSchedule(t, env, j, rows).Success?
    ensures GrowsElsewhere(t, ScanSchedule(t, env, j, rows).value, id)
  {
    var m := MissedSlots(t.schedules[j], env).value;
    if SlotId(j, m.plannedAt) !in t.slots {
      AcceptSlotAdds(t, env, j, m, rows);
    }
    hide AcceptSlot, MissedSlots, Calendar.NextTimeSlot, TooLate;
  }

  lemma CancellationGrowsElsewhere(t: Tables, env: Env, coordinationId: Id, rows: seq<OccurrenceId>, id: Id)
    requires Consistent(t) && id in t.schedules && t.schedules[id].coordinationId != coordinationId
    ensures GrowsElsewhere(t, CancelCoordination(t, env, coordinationId, rows), id)
  {
    CancelAllIsGood(t, env, Cancellable(t, rows, (o: Occurrence) => o.coordinationId == coordinationId));
    hide CancelAll;
  }

  lemma {:induction false} ScanAllAccounts(t: Tables, env: Env, ids: seq<Id>, rows: seq<OccurrenceId>,
                                           id: Id, z: Calendar.Zone, first: int, last: int)
    requires Consistent(t) && Accounts(t, id, z, first, last) && ScanAll(t, env, ids, rows).Success?
    requires env.zone(t.schedules[id].timezone) == z && Calendar.DatesNeverDecrease(z)
    ensures Accounts(ScanAll(t, env, ids, rows).value, id, z, first, if id in ids then env.now else last)
    decreases |ids|
  {
    if ids != [] {
      var u := ScanSchedule(t, env, ids[0], rows).value;
      ScanScheduleIsGood(t, env, ids[0], rows);
      var last' := last;
      if ids[0] == id {
        ScanAccounts(t, env, id, rows, z, first, last);
        last' := env.now;
      } else {
        ScanGrowsElsewhere(t, env, ids[0], rows, id);
        GrowthElsewhereKeeps(t, u, id);
        SameAccountKeeps(t, u, id, z, first, last);
      }
      ScanKeepsKeys(t, env, ids[0], rows, id);
      hide ScanSchedule, Consistent, Preserves, Accounts, Due, Calendar.DatesNeverDecrease;
      ScanAllAccounts(u, env, ids[1..], rows, id, z, first, last');
      assert id in ids <==> id == ids[0] || id in ids[1..];
    }
  }

  // ---------- Every run that leaves the definition alone ----------

  /** Neither a redefinition of the schedule nor the end of its arrangement. */
  predicate Leaves(c: Command, id: Id, coordinationId: Id) {
    !(c.ChangeSchedule? && c.id == id) && !(c.CancelArrangement? && c.coordinationId == coordinationId)
  }

  lemma CreateGrowsElsewhere(t: Tables, env: Env, j: Id, schedule: NewSchedule, id: Id)
    requires id in t.schedules && Create(t, env, j, schedule).Success?
    ensures GrowsElsewhere(t, Create(t, env, j, schedule).value, id)
  {
    hide FirstDue;
  }

  lemma ClaimGrowsElsewhere(t: Tables, env: Env, o: OccurrenceId, id: Id)
    requires id in t.schedules && Claim(t, env, o).Success?
    ensures GrowsElsewhere(t, Claim(t, env, o).value, id)
  {
  }

  lemma CompletionGrowsElsewhere(t: Tables, env: Env, o: OccurrenceId, fence: nat, report: Report, id: Id)
    requires id in t.schedules && Complete(t, env, o, fence, report).Success?
    ensures GrowsElsewhere(t, Complete(t, env, o, fence, report).value, id)
  {
    hide Materialize;
  }

  lemma ControlGrowsElsewhere(t: Tables, env: Env, o: OccurrenceId, expected: nat, control: Control, id: Id)
    requires id in t.schedules && ControlOccurrence(t, env, o, expected, control).Success?
    ensures GrowsElsewhere(t, ControlOccurrence(t, env, o, expected, control).value, id)
  {
  }

  lemma AcceptanceGrowsElsewhere(t: Tables, env: Env, o: OccurrenceId, coordinationId: Id, d: Definition, id: Id)
    requires id in t.schedules && Accept(t, env, o, coordinationId, d).Success?
    ensures GrowsElsewhere(t, Accept(t, env, o, coordinationId, d).value, id)
  {
  }

  lemma CommandKeepsDefinition(t: Tables, env: Env, c: Command, id: Id)
    requires Consistent(t) && id in t.schedules && Execute(t, env, c).Success? && !c.Scan?
    requires Leaves(c, id, t.schedules[id].coordinationId)
    ensures GrowsElsewhere(t, Execute(t, env, c).value, id)
  {
    hide Consistent, GrowsElsewhere, Create, Change, Claim, Complete, Accept, ControlOccurrence, CancelCoordination;
    match c
    case CreateSchedule(j, schedule) => CreateGrowsElsewhere(t, env, j, schedule, id);
    case ChangeSchedule(j, change, rows) => ChangeGrowsElsewhere(t, env, j, change, rows, id);
    case ClaimJob(o) => ClaimGrowsElsewhere(t, env, o, id);
    case CompleteJob(o, fence, report) => CompletionGrowsElsewhere(t, env, o, fence, report, id);
    case AcceptOccurrence(o, coordinationId, d) => AcceptanceGrowsElsewhere(t, env, o, coordinationId, d, id);
    case ControlOne(o, expected, control) => ControlGrowsElsewhere(t, env, o, expected, control, id);
    case CancelArrangement(coordinationId, rows) => CancellationGrowsElsewhere(t, env, coordinationId, rows, id);
  }

  /** As much as pausing a schedule and resuming it needs: no new definition, no replacement, no end. */
  predicate Spares(c: Command, id: Id, coordinationId: Id) {
    Leaves(c, id, coordinationId)
    || (c.ChangeSchedule? && c.id == id && !c.change.Redefines() && !c.change.unstarted && c.change.state != Some(Terminated))
  }

  lemma PauseKeepsAccount(t: Tables, env: Env, id: Id, a: ScheduleChange, rows: seq<OccurrenceId>)
    requires id in t.schedules && Change(t, env, id, a, rows).Success? && !t.schedules[id].state.Terminated?
    requires !a.Redefines() && !a.unstarted && a.state != Some(Terminated)
    ensures SameAccount(t, Change(t, env, id, a, rows).value, id)
  {
    var u := Change(t, env, id, a, rows).value;
    assert u.occurrences == t.occurrences && u.slots == t.slots;
    hide Calendar.NextTimeSlot;
  }

  lemma OpenWhenChanged(t: Tables, env: Env, id: Id, a: ScheduleChange, rows: seq<OccurrenceId>)
    requires id in t.schedules && Change(t, env, id, a, rows).Success?
    ensures !t.schedules[id].state.Terminated?
  {
  }

  /** Where the account stands after a command: only a scan that processes the schedule moves it. */
  function Standing(t: Tables, env: Env, c: Command, id: Id, last: int): int {
    if Execute(t, env, c).Success? && c.Scan? && id in c.due then env.now else last
  }

  lemma EveryCommandAccounts(t: Tables, env: Env, c: Command, id: Id, z: Calendar.Zone, first: int, last: int)
    requires Consistent(t) && Accounts(t, id, z, first, last) && Spares(c, id, t.schedules[id].coordinationId)
    requires env.zone(t.schedules[id].timezone) == z && Calendar.DatesNeverDecrease(z)
    ensures Accounts(After(t, env, c), id, z, first, Standing(t, env, c, id, last))
    ensures id in After(t, env, c).schedules && Keyed(t, After(t, env, c), id)
  {
    if Execute(t, env, c).Success? {
      var u := Execute(t, env, c).value;
      if c.Scan? {
        ScanAllAccounts(t, env, c.due, c.rows, id, z, first, last);
        ScanAllKeepsKeys(t, env, c.due, c.rows, id);
      } else if !Leaves(c, id, t.schedules[id].coordinationId) {
        OpenWhenChanged(t, env, id, c.change, c.rows);
        PauseKeepsAccount(t, env, id, c.change, c.rows);
        hide Change, Consistent, Preserves, Accounts, Calendar.DatesNeverDecrease;
        SameAccountKeeps(t, u, id, z, first, last);
      } else {
        CommandKeepsDefinition(t, env, c, id);
        EveryCommandIsGood(t, env, c);
        hide Execute, Consistent, Preserves, Accounts, Calendar.DatesNeverDecrease;
        GrowthElsewhereKeeps(t, u, id);
        SameAccountKeeps(t, u, id, z, first, last);
      }
    }
  }

  lemma ScanKeepsKeys(t: Tables, env: Env, j: Id, rows: seq<OccurrenceId>, id: Id)
    requires Consistent(t) && id in t.schedules && j in t.schedules && Due(t.schedules[j], env)
    requires ScanSchedule(t, env, j, rows).Success?
    ensures Keyed(t, ScanSchedule(t, env, j, rows).value, id)
  {
    var m := MissedSlots(t.schedules[j], env).value;
    if SlotId(j, m.plannedAt) !in t.slots {
      AcceptSlotAdds(t, env, j, m, rows);
    }
    hide AcceptSlot, MissedSlots, Calendar.NextTimeSlot, TooLate, Consistent;
  }

  lemma {:induction false} ScanAllKeepsKeys(t: Tables, env: Env, ids: seq<Id>, rows: seq<OccurrenceId>, id: Id)
    requires Consistent(t) && id in t.schedules && ScanAll(t, env, ids, rows).Success?
    ensures Keyed(t, ScanAll(t, env, ids, rows).value, id)
    decreases |ids|
  {
    if ids != [] {
      ScanKeepsKeys(t, env, ids[0], rows, id);
      ScanScheduleIsGood(t, env, ids[0], rows);
      hide ScanSchedule, Consistent, Preserves;
      ScanAllKeepsKeys(ScanSchedule(t, env, ids[0], rows).value, env, ids[1..], rows, id);
    }
  }

  /** Every step reads the same zone data and leaves the definition of the schedule alone; pausing and resuming do. */
  ghost predicate Undisturbed(run: seq<Step>, id: Id, coordinationId: Id, timezone: string, z: Calendar.Zone) {
    forall s :: s in run ==> Spares(s.command, id, coordinationId) && s.env.zone(timezone) == z
  }

  /** The instant of the last scan of a run that processed the schedule, or `last` if none did. */
  function LastScan(t: Tables, run: seq<Step>, id: Id, last: int): int
    decreases |run|
  {
    if run == [] then last
    else LastScan(After(t, run[0].env, run[0].command), run[1..], id, Standing(t, run[0].env, run[0].command, id, last))
  }

  lemma {:induction false} EveryRunAccounts(t: Tables, run: seq<Step>, id: Id, z: Calendar.Zone, first: int, last: int)
    requires Consistent(t) && Accounts(t, id, z, first, last) && Calendar.DatesNeverDecrease(z)
    requires Undisturbed(run, id, t.schedules[id].coordinationId, t.schedules[id].timezone, z)
    ensures Accounts(AfterAll(t, run), id, z, first, LastScan(t, run, id, last)) && Keyed(t, AfterAll(t, run), id)
    decreases |run|
  {
    if run != [] {
      var s := run[0];
      assert s in run && forall x :: x in run[1..] ==> x in run;
      var u, last' := After(t, s.env, s.command), Standing(t, s.env, s.command, id, last);
      EveryCommandAccounts(t, s.env, s.command, id, z, first, last);
      EveryRunIsGood(t, [s]);
      assert AfterAll(t, [s]) == u by { assert [s][1..] == []; }
      hide Consistent, Preserves, Accounts, Execute, After, Standing, Calendar.DatesNeverDecrease;
      EveryRunAccounts(u, run[1..], id, z, first, last');
    }
  }

  lemma NewScheduleAccounts(t: Tables, env: Env, id: Id, a: NewSchedule)
    requires Consistent(t) && Create(t, env, id, a).Success? && !a.rule.Once?
    requires Calendar.DatesNeverDecrease(env.zone(a.timezone))
    ensures var u := Create(t, env, id, a).value;
            id in u.schedules && u.schedules[id].nextDueAt.Some?
            && Accounts(u, id, env.zone(a.timezone), u.schedules[id].nextDueAt.value, u.schedules[id].nextDueAt.value - 1)
  {
    var u, days := Create(t, env, id, a).value, Calendar.DaysOf(a.rule, env.zone(a.timezone));
    var first := u.schedules[id].nextDueAt.value;
    Calendar.DaysAreOrdered(a.rule, env.zone(a.timezone));
    days.NextIsLeast(env.now, None);
    hide Calendar.DaysOf, Calendar.DatesNeverDecrease, OccurrenceOk, SlotOk;
    NothingOfANewSchedule(t, id);
    assert AcceptedFor(u, id) == {} && days.SlotsBetween(first, first - 1) == {};
  }

  lemma NothingOfANewSchedule(t: Tables, id: Id)
    requires Consistent(t) && id !in t.schedules
    ensures AcceptedFor(t, id) == {} && forall k :: k in t.slots ==> k.scheduleId != id
  {
    forall o | o in t.occurrences
      ensures !FromScanOf(o, id)
    {
      assert OccurrenceOk(t, o);
    }
    forall k | k in t.slots
      ensures k.scheduleId != id
    {
      assert SlotOk(t, k);
      assert OccurrenceOk(t, t.slots[k].current);
    }
  }

  /**
    Scan conservation.  A recurring schedule is created in any reachable state, and any run follows
    that leaves its definition and arrangement alone, though it may pause and resume it.  Then the occurrences accepted by scans, each
    with the slots merged into it, number exactly the calendar slots from the first due instant to
    the last scan that processed the schedule, and the next due instant is the first slot after it.
  */
  lemma ScansConserveSlots(before: seq<Step>, env: Env, id: Id, a: NewSchedule, t: Tables, run: seq<Step>)
    requires Create(Reached(before), env, id, a) == Success(t) && !a.rule.Once?
    requires Calendar.DatesNeverDecrease(env.zone(a.timezone))
    requires Undisturbed(run, id, a.coordinationId, a.timezone, env.zone(a.timezone))
    ensures id in t.schedules && t.schedules[id].nextDueAt.Some?
    ensures var u, days, first := AfterAll(t, run), Calendar.DaysOf(a.rule, env.zone(a.timezone)), t.schedules[id].nextDueAt.value;
            var last := LastScan(t, run, id, first - 1);
            AccountedFor(u, id) == |days.SlotsBetween(first, last)| && Accounts(u, id, env.zone(a.timezone), first, last)
  {
    ReachedIsConsistent(before);
    hide Reached, AfterAll, Calendar.DatesNeverDecrease, Calendar.DaysOf, Execute;
    CreatedSchedule(Reached(before), env, id, a, t);
    hide Create, Consistent, Accounts, AccountedFor, LastScan, Preserves;
    var z, first := env.zone(a.timezone), t.schedules[id].nextDueAt.value;
    EveryRunAccounts(t, run, id, z, first, first - 1);
    AccountMeans(AfterAll(t, run), id, z, first, LastScan(t, run, id, first - 1), a.rule);
  }

  lemma CreatedSchedule(t0: Tables, env: Env, id: Id, a: NewSchedule, t: Tables)
    requires Consistent(t0) && Create(t0, env, id, a) == Success(t) && !a.rule.Once?
    requires Calendar.DatesNeverDecrease(env.zone(a.timezone))
    ensures Consistent(t) && id in t.schedules && t.schedules[id].nextDueAt.Some?
    ensures t.schedules[id].rule == a.rule && t.schedules[id].timezone == a.timezone && t.schedules[id].coordinationId == a.coordinationId
    ensures Accounts(t, id, env.zone(a.timezone), t.schedules[id].nextDueAt.value, t.schedules[id].nextDueAt.value - 1)
  {
    NewScheduleAccounts(t0, env, id, a);
    CreateIsGood(t0, env, id, a);
    hide Consistent, Preserves, Accounts, FirstDue, Calendar.DatesNeverDecrease;
  }

  lemma AccountMeans(t: Tables, id: Id, z: Calendar.Zone, first: int, last: int, rule: Calendar.Rule)
    requires Accounts(t, id, z, first, last) && t.schedules[id].rule == rule
    ensures AccountedFor(t, id) == |Calendar.DaysOf(rule, z).SlotsBetween(first, last)|
  {
  }
}
