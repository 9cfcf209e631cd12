/**
  A run of the schedule commands after which two occurrences of one schedule run at once: the first is
  reported blocked, the scan of the next day accepts and claims a second, and the first is claimed again.
*/
module BlockedReclaim {
  import opened Wrappers
  import Calendar
  import opened Schedules
  import opened ScheduleSafety

  // ---------- A daily schedule at midnight UTC ----------

  const DAY: int := 86_400_000
  const UTC: Calendar.Zone := (_: int) => 0
  const MIDNIGHT := Calendar.Daily(0)

  lemma UtcIsOrdinary()
    ensures Calendar.OrdinaryZone(UTC)
  {
    forall t ensures Calendar.InRegime(UTC, t) { assert Calendar.RegimeFrom(UTC, t, t); }
  }

  lemma MidnightOf(d: int)
    ensures Calendar.DaysOf(MIDNIGHT, UTC).slotOn(d) == Some(d * DAY) && Calendar.DateAt(UTC, d * DAY) == d
  {
    var w := d * 1440;
    UtcIsOrdinary();
    Calendar.FirstLocalInstantIsExact(UTC, w);
    assert Calendar.LocalMinute(UTC, d * DAY) == w by { assert d * DAY == w * 60_000; }
    hide Calendar.FirstLocalInstant;
    var first := Calendar.FirstLocalInstant(UTC, w);
    assert first.Some? && first.value <= d * DAY;
    assert first.value / 60_000 == w;
  }

  lemma NextMidnight(d: int, skip: Option<int>)
    requires skip.None? || skip.value == d
    ensures Calendar.NextTimeSlot(MIDNIGHT, UTC, d * DAY, skip) == Success(Some((d + 1) * DAY))
  {
    MidnightOf(d);
    MidnightOf(d + 1);
    hide Calendar.DateAt, Calendar.DaySlot, Calendar.FirstLocalInstant;
    var days := Calendar.DaysOf(MIDNIGHT, UTC);
    assert days.dateOf(d * DAY) == d;
    assert days.NextFrom(d * DAY, skip, d + 1, 15) == Success((d + 1) * DAY);
  }

  lemma OneMidnight(d: int)
    ensures Calendar.SummarizeTimeSlots(MIDNIGHT, UTC, d * DAY, d * DAY) == Success(Calendar.Summary(Some(d * DAY), 1))
  {
    MidnightOf(d);
    hide Calendar.DateAt, Calendar.DaySlot, Calendar.FirstLocalInstant;
    var days := Calendar.DaysOf(MIDNIGHT, UTC);
    assert days.dateOf(d * DAY) == d;
    assert days.SummaryOfDays(d * DAY, d * DAY, d, 0) == Calendar.Summary(None, 0);
  }

  // ---------- The run ----------

  function At(now: int): Env {
    Env(now, (_: string) => UTC, (_: Id) => ArrangementActive, (_: Action) => true, (_: Target) => true,
        (_: Action) => true, (_: OccurrenceId) => true, (_: OccurrenceId) => NoNotice)
  }

  const FIRST := SlotId("s", DAY)
  const SECOND := SlotId("s", 2 * DAY)
  const P := TimeOccurrence(FIRST)
  const Q := TimeOccurrence(SECOND)
  const COMMANDS := Definition(TaskCommand(["i"]), Target("g", [], false))

  function BlockedRun(): seq<Step> {
    [Step(At(0), CreateSchedule("s", NewSchedule("c", "UTC", MIDNIGHT, COMMANDS, 900_000, 86_400_000, CoalesceLatest))),
     Step(At(DAY), Scan(1, ["s"], [])),
     Step(At(DAY), ClaimJob(P)),
     Step(At(DAY), CompleteJob(P, 1, RunCommands(DispatchBlocked(None)))),
     Step(At(2 * DAY), Scan(1, ["s"], [P])),
     Step(At(2 * DAY), ClaimJob(Q))]
  }

  function Planned(cursor: Option<Cursor>, due: int): map<Id, Schedule> {
    map["s" := Schedule("c", 1, Active, "UTC", MIDNIGHT, COMMANDS, 900_000, CoalesceLatest, cursor, [], Some(due))]
  }

  function Of(slot: SlotId, state: ActionState): Occurrence {
    Occurrence("c", AtTime(slot, 1), COMMANDS, None, state, NoDelivery, 1, 1, false, false, 0)
  }

  function JobOf(slot: SlotId, state: JobState): Job {
    Job(state, 1, 1, Some(slot.plannedAt + 60_000), 1)
  }

  /** The tables after the first `i` commands of the run. */
  function Stage(i: nat): Tables
    requires i <= 6
  {
    var once, twice := Planned(Some(Cursor(DAY, 1)), 2 * DAY), Planned(Some(Cursor(2 * DAY, 2)), 3 * DAY);
    var started := Slot(P, Some(P), false);
    match i
    case 0 => EmptyTables
    case 1 => Tables(Planned(None, DAY), map[], map[], map[])
    case 2 => Tables(once, map[P := Of(FIRST, Waiting)], map[FIRST := Slot(P, None, false)], map[P := FreshJob])
    case 3 => Tables(once, map[P := Of(FIRST, Running)], map[FIRST := started], map[P := JobOf(FIRST, JobRunning)])
    case 4 => Tables(once, map[P := Of(FIRST, Blocked)], map[FIRST := started], map[P := JobOf(FIRST, JobBlocked)])
    case 5 => Tables(twice, map[P := Of(FIRST, Blocked), Q := Of(SECOND, Waiting)], map[FIRST := started, SECOND := Slot(Q, None, false)],
                     map[P := JobOf(FIRST, JobBlocked), Q := FreshJob])
    case _ => Tables(twice, map[P := Of(FIRST, Blocked), Q := Of(SECOND, Running)], map[FIRST := started, SECOND := Slot(Q, Some(Q), false)],
                     map[P := JobOf(FIRST, JobBlocked), Q := JobOf(SECOND, JobRunning)])
  }

  predicate Leads(i: nat)
    requires i < 6
  {
    After(Stage(i), BlockedRun()[i].env, BlockedRun()[i].command) == Stage(i + 1)
  }

  lemma ScheduleIsCreated()
    ensures Leads(0)
  {
    NextMidnight(0, None);
    hide Calendar.NextTimeSlot;
  }

  lemma OneIsMissed(cursor: Option<Cursor>, d: int)
    ensures var sc, env := Planned(cursor, d * DAY)["s"], At(d * DAY);
            Due(sc, env) && MissedSlots(sc, env) == Success(Missed(d * DAY, 0))
  {
    OneMidnight(d);
    hide Calendar.SummarizeTimeSlots;
  }

  lemma ScheduleIsScanned(t: Tables, accepted: Tables, env: Env, rows: seq<OccurrenceId>, date: int, next: int)
    requires "s" in t.schedules && Due(t.schedules["s"], env)
    requires MissedSlots(t.schedules["s"], env) == Success(Missed(env.now, 0)) && SlotId("s", env.now) !in t.slots
    requires AcceptSlot(t, env, "s", Missed(env.now, 0), rows) == Success(accepted) && accepted.schedules == t.schedules
    requires Calendar.DateAt(env.zone(t.schedules["s"].timezone), env.now) == date && !t.schedules["s"].rule.Once?
    requires Calendar.NextTimeSlot(t.schedules["s"].rule, env.zone(t.schedules["s"].timezone), env.now, Some(date)) == Success(Some(next))
    ensures ScanSchedule(t, env, "s", rows)
            == Success(accepted.(schedules := t.schedules["s" := t.schedules["s"].(cursor := Some(Cursor(env.now, date)), nextDueAt := Some(next))]))
  {
    hide AcceptSlot, MissedSlots, Due, Calendar.NextTimeSlot, Calendar.DateAt;
  }

  lemma OneScanned(t: Tables, env: Env, rows: seq<OccurrenceId>)
    requires "s" in t.schedules && Due(t.schedules["s"], env)
    ensures Execute(t, env, Scan(1, ["s"], rows)) == ScanSchedule(t, env, "s", rows)
  {
    hide ScanSchedule, Due;
    var ids: seq<Id> := ["s"];
    assert ids[1..] == [];
  }

  lemma PlannedOn(cursor: Option<Cursor>, d: int, date: int, now: int, next: int)
    ensures Planned(cursor, d)["s" := Planned(cursor, d)["s"].(cursor := Some(Cursor(now, date)), nextDueAt := Some(next))]
            == Planned(Some(Cursor(now, date)), next)
  {
  }

  lemma DayIsRead(cursor: Option<Cursor>, d: int)
    ensures var sc, env := Planned(cursor, d * DAY)["s"], At(d * DAY);
            && Calendar.DateAt(env.zone(sc.timezone), env.now) == d && !sc.rule.Once?
            && Calendar.NextTimeSlot(sc.rule, env.zone(sc.timezone), env.now, Some(d)) == Success(Some((d + 1) * DAY))
  {
    NextMidnight(d, Some(d));
    MidnightOf(d);
    hide Calendar.NextTimeSlot, Calendar.DateAt, Calendar.DaysOf;
  }

  /** A scan at the midnight of day `d` that finds the schedule due for it. */
  lemma ScanGoes(t: Tables, accepted: Tables, d: int, rows: seq<OccurrenceId>, cursor: Option<Cursor>)
    requires t.schedules == Planned(cursor, d * DAY) && SlotId("s", d * DAY) !in t.slots
    requires AcceptSlot(t, At(d * DAY), "s", Missed(d * DAY, 0), rows) == Success(accepted)
    requires accepted.schedules == t.schedules
    ensures Execute(t, At(d * DAY), Scan(1, ["s"], rows))
            == Success(accepted.(schedules := Planned(Some(Cursor(d * DAY, d)), (d + 1) * DAY)))
  {
    hide AcceptSlot, ScanSchedule, Execute, Due, MissedSlots, Calendar.NextTimeSlot, Calendar.DateAt, Calendar.DaysOf;
    OneIsMissed(cursor, d);
    DayIsRead(cursor, d);
    var env, now, next := At(d * DAY), d * DAY, (d + 1) * DAY;
    assert env.now == now && "s" in t.schedules;
    PlannedOn(cursor, now, d, now, next);
    hide At, Planned;
    ScheduleIsScanned(t, accepted, env, rows, d, next);
    OneScanned(t, env, rows);
  }

  lemma FirstIsAccepted()
    ensures AcceptSlot(Stage(1), At(DAY), "s", Missed(DAY, 0), []) == Success(Stage(2).(schedules := Stage(1).schedules))
  {
    assert SupersedeAll(Stage(1), WaitingOf(Stage(1), [], "s")) == Success(Stage(1));
  }

  lemma FirstIsScanned()
    ensures Leads(1)
  {
    FirstIsAccepted();
    hide AcceptSlot, Execute;
    ScanGoes(Stage(1), Stage(2).(schedules := Stage(1).schedules), 1, [], None);
  }

  lemma FirstMayBeClaimed()
    ensures ClaimError(Stage(2), At(DAY), P).None?
  {
    var t, env := Stage(2), At(DAY);
    assert Planned(Some(Cursor(DAY, 1)), 2 * DAY)["s"].state.Active?;
    assert TimeClaimError(t, env, P, t.occurrences[P]).None?;
    hide TimeClaimError, Planned;
  }

  lemma FirstIsClaimed()
    ensures Leads(2)
  {
    FirstMayBeClaimed();
    hide ClaimError, Planned, Complete, ScanAll, Create, Change;
  }

  lemma FirstIsBlocked()
    ensures Leads(3)
  {
    hide Planned, Claim, ScanAll, Create, Change;
    var t, env := Stage(3), At(DAY);
    assert Holds(t, env, P, 1);
  }

  lemma SecondIsAccepted()
    ensures AcceptSlot(Stage(4), At(2 * DAY), "s", Missed(2 * DAY, 0), [P]) == Success(Stage(5).(schedules := Stage(4).schedules))
  {
    var rows := [P];
    assert rows[1..] == [];
    assert WaitingOf(Stage(4), rows, "s") == [];
  }

  lemma SecondIsScanned()
    ensures Leads(4)
  {
    SecondIsAccepted();
    hide AcceptSlot, Execute;
    ScanGoes(Stage(4), Stage(5).(schedules := Stage(4).schedules), 2, [P], Some(Cursor(DAY, 1)));
  }

  lemma SecondMayBeClaimed()
    ensures ClaimError(Stage(5), At(2 * DAY), Q).None?
  {
    var t, env := Stage(5), At(2 * DAY);
    assert Planned(Some(Cursor(2 * DAY, 2)), 3 * DAY)["s"].state.Active?;
    assert TimeClaimError(t, env, Q, t.occurrences[Q]).None?;
    hide TimeClaimError, Planned;
  }

  lemma SecondIsClaimed()
    ensures Leads(5)
  {
    SecondMayBeClaimed();
    hide ClaimError, Planned, Complete, ScanAll, Create, Change;
  }

  lemma Leading(i: nat)
    requires i < 6
    ensures Leads(i)
  {
    hide Leads;
    match i
    case 0 => ScheduleIsCreated();
    case 1 => FirstIsScanned();
    case 2 => FirstIsClaimed();
    case 4 => SecondIsScanned();
    case 5 => SecondIsClaimed();
    case _ => FirstIsBlocked();
  }

  lemma FirstStage()
    ensures Stage(0) == EmptyTables
  {
  }

  lemma RunLeads()
    ensures Reached(BlockedRun()) == Stage(6)
  {
    FirstStage();
    hide Stage, After;
    var run := BlockedRun();
    assert run[0..] == run;
    for i := 0 to 6
      invariant AfterAll(EmptyTables, run) == AfterAll(Stage(i), run[i..])
    {
      Leading(i);
      assert run[i..][0] == run[i] && run[i..][1..] == run[i + 1..];
    }
    assert run[6..] == [];
  }

  lemma OneRunner()
    ensures Serial(Stage(6))
  {
  }

  lemma ReclaimPassesARunner()
    ensures Execute(Stage(6), At(2 * DAY), ClaimJob(P)).Success? && ClaimsPastARunner(Stage(6), ClaimJob(P))
  {
    var t := Stage(6);
    assert Claim(t, At(2 * DAY), P).Success?;
    assert RunsFor(t, Q, "s");
  }

  /** After that run one occurrence of the schedule runs; claiming the blocked one makes it two. */
  lemma BlockedReclaimBreaksSerial()
    ensures var t := Reached(BlockedRun());
            Serial(t) && Execute(t, At(2 * DAY), ClaimJob(P)).Success? && !Serial(Execute(t, At(2 * DAY), ClaimJob(P)).value)
  {
    RunLeads();
    OneRunner();
    ReclaimPassesARunner();
    ReachedIsConsistent(BlockedRun());
    hide BlockedRun, Stage, Consistent, Serial, Execute, ClaimsPastARunner;
    SerialExactly(Reached(BlockedRun()), At(2 * DAY), ClaimJob(P));
  }
}
