/**
  Pausing the ingress: what every group owes once the pause has taken effect, and what a pause forgets when it cuts a
  backfill short, because only the bound of the pause is kept and not the start of that backfill.
*/
module BridgePauses {
  import opened Wrappers
  import opened Bridge
  import opened BridgeSafety
  import opened BridgeDebts
  import opened BridgeCoverage

  // ---------- A pause takes effect ----------

  lemma PendingStays(s: State, env: Env, event: Event)
    requires Inv(s) && !s.control.Idle? && !Answers(event)
    ensures After(s, env, event).control == s.control && After(s, env, event).ingress == s.ingress
  {
    hide Inv, Queue, LoseDirect, QueueDirect, Finally, ListenerFailed, Reattach, Commit, Join, History, Message, Break,
         HumanAttach, HumanListenerFailed, HumanReady, Stop, Leave, MarkListenerReady, Complete, RecoveryComplete;
    match event
    case BackfillCompletes(k) => CompletionIsApart(s, k);
    case GroupLeaves(id) => LeavingIsApart(s, id);
    case GroupJoins(g) => JoiningCarries(s, env, g);
    case HistoryArrives(_, _) => ReadingCarries(s, event, env);
    case MessageStarts(_) => ReadingCarries(s, event, env);
    case BackfillBreaks(_) => ReadingCarries(s, event, env);
    case HumanFails(_) => HumanEventCarries(s, env, event);
    case HumanIsReady(_) => HumanEventCarries(s, env, event);
    case HumanRetry(_) => HumanEventCarries(s, env, event);
    case FinishRecovery =>
    case SetPaused(_) =>
    case StopAll => StoppingAllCarries(s);
    case _ => ListenerEventCarries(s, env, event);
  }

  lemma CompletionIsApart(s: State, k: nat)
    ensures Complete(s, k).control == s.control && Complete(s, k).ingress == s.ingress
  {
    hide ListenerReady;
  }

  lemma LeavingIsApart(s: State, id: Id)
    ensures Leave(s, id).control == s.control && Leave(s, id).ingress == s.ingress
  {
    hide Drop;
  }

  lemma {:induction false} PendingThroughout(s: State, run: seq<Step>)
    requires Inv(s) && !s.control.Idle? && forall i :: 0 <= i < |run| ==> !Answers(run[i].event)
    ensures Inv(AfterAll(s, run)) && AfterAll(s, run).control == s.control && AfterAll(s, run).ingress == s.ingress
    decreases |run|
  {
    hide Inv, After;
    if run != [] {
      var next := After(s, run[0].env, run[0].event);
      StepIsSound(s, run[0].env, run[0].event);
      SoundIsInv(s, next, run[0].event);
      PendingStays(s, run[0].env, run[0].event);
      PendingThroughout(next, run[1..]);
    }
  }

  /** No message after `now` less the overlap, nor after the bound the ingress had, is left out, and the bound is the latest such. */
  ghost predicate PausesFrom(env: Env, ingress: Ingress, bound: int) {
    && Overlaps(env, env.now, bound) && (ingress.from.Some? ==> bound <= ingress.from.value)
    && (ingress.from == Some(bound) || forall b: nat :: Overlaps(env, env.now, b) ==> b <= bound)
  }

  /** In every run: a pause takes effect with a bound from before it was asked for, and then every group owes everything from that
      bound on. */
  lemma PauseTakesEffect(ingress: Ingress, groups: seq<Group>, before: seq<Step>, env: Env, meanwhile: seq<Step>, saved: Env)
    requires var s := AfterAll(Initial(ingress, groups), before); s.control.Idle? && !s.stopping && !s.ingress.paused
    requires forall i :: 0 <= i < |meanwhile| ==> !Answers(meanwhile[i].event)
    ensures var s := AfterAll(Initial(ingress, groups), before);
            var s' := After(AfterAll(After(s, env, SetPaused(true)), meanwhile), saved, Saved);
            && s'.ingress.paused && s'.ingress.from.Some? && PausesFrom(env, s.ingress, s'.ingress.from.value)
            && forall g :: g in s'.groups ==> g.id in s'.current && OwesFrom(s', s'.current[g.id], s'.ingress.from.value)
  {
    hide Inv, PauseEach, AttachEach, OwesFrom;
    var s := AfterAll(Initial(ingress, groups), before);
    InitialIsGood(ingress, groups);
    RunIsSound(Initial(ingress, groups), before);
    var begun := After(s, env, SetPaused(true));
    StepIsSound(s, env, SetPaused(true));
    SoundIsInv(s, begun, SetPaused(true));
    PendingThroughout(begun, meanwhile);
    var waiting := AfterAll(begun, meanwhile);
    PauseCommits(waiting, saved);
  }

  lemma PauseCommits(s: State, env: Env)
    requires Inv(s) && s.control.Pausing?
    ensures var s' := Commit(s, env);
            && s'.ingress == Ingress(true, Some(s.control.from)) && s'.groups == s.groups
            && forall g :: g in s'.groups ==> g.id in s'.current && OwesFrom(s', s'.current[g.id], s.control.from)
  {
    hide EntriesOk, Listed, PauseEach, OwesFrom;
    GroupsAreListed(s);
    var s1 := s.(ingress := Ingress(true, Some(s.control.from)), control := Idle);
    SameEntriesOk(s, s1);
    SameGroups(s, s1, s.groups);
    PauseEachOwes(s1, env, s.groups, s.control.from);
    PauseEachKeepsGroups(s1, s.groups, s.control.from);
  }

  // ---------- What it forgets ----------

  lemma PauseOneExactly(s: State, x: Id, bound: int, id: Id)
    requires Inv(s) && Listed(s, x) && id in s.current
    ensures var s' := PauseOne(s, x, bound);
            && id in s'.current && s'.current[id] == s.current[id] && s.current[id] in s.entries && s.current[id] in s'.entries
            && s'.entries[s.current[id]].from
               == if x == id then Earlier(s.entries[s.current[id]].from, Some(bound)) else s.entries[s.current[id]].from
  {
    hide ControlOk, EntryOk, Listed;
    EntryForKeepsEntry(s, x, id);
    EntryForIsGood(s, x);
    var s1 := EntryFor(s, x);
    hide EntryFor;
    CurrentIsOk(s1, x);
    OwnEntry(s1, x, id);
  }

  lemma {:induction false} PauseEachExactly(s: State, env: Env, groups: seq<Group>, bound: int, id: Id)
    requires Inv(s) && AllListed(s, groups) && id in s.current
    ensures var k, s' := s.current[id], PauseEach(s, groups, bound);
            && k in s.entries && k in s'.entries
            && s'.entries[k].from == if exists g :: g in groups && g.id == id then Earlier(s.entries[k].from, Some(bound)) else s.entries[k].from
    decreases |groups|
  {
    hide Inv, Listed, PauseOne, Good;
    CurrentIsListed(s, id);
    if groups != [] {
      var s1 := PauseOne(s, groups[0].id, bound);
      PauseOneIsGood(s, groups[0].id, bound);
      GoodIsInv(s, s1);
      SameGroups(s, s1, groups[1..]);
      PauseOneExactly(s, groups[0].id, bound, id);
      PauseEachExactly(s1, env, groups[1..], bound, id);
      assert groups == [groups[0]] + groups[1..];
      if g :| g in groups[1..] && g.id == id { assert g in groups; }
    }
  }

  /** A pause that cuts a backfill short still owes everything from the start of that backfill exactly when the bound of the pause,
      or one the group had already, is no later than that start. */
  lemma PauseForgetsExactly(s: State, env: Env, id: Id)
    requires Inv(s) && s.control.Pausing? && id in s.current && Active(s, s.current[id])
    ensures var k, start, e := s.current[id], s.runs[s.current[id]].start, s.entries[s.current[id]];
            OwesFrom(Commit(s, env), k, start) <==> s.control.from <= start || (e.from.Some? && e.from.value <= start)
  {
    hide EntriesOk, Listed, PauseEach;
    GroupsAreListed(s);
    var from := s.control.from;
    var s1 := s.(ingress := Ingress(true, Some(from)), control := Idle);
    SameEntriesOk(s, s1);
    SameGroups(s, s1, s.groups);
    PauseEachExactly(s1, env, s.groups, from, id);
    PauseEachOwes(s1, env, s.groups, from);
    PauseEachCarries(s1, env, s.groups, from);
    CurrentIsListed(s, id);
    FoundGroup(s.groups, id);
  }

  // ---------- A run in which it does ----------

  /** The first backfill of a group begins; a pause cuts it short and takes effect; the ingress resumes, and the next backfill
      completes.  `second` is the environment after the pause, when later messages have moved the default start on. */
  function PausedRun(first: Env, second: Env): seq<Step> {
    [Step(first, GroupJoins(Group("g", false))), Step(first, ListenerIsReady(0, 1)), Step(first, SetPaused(true)), Step(first, Saved),
     Step(first, HistoryArrives(0, Some(0))), Step(first, BackfillSettles(0)), Step(second, SetPaused(false)), Step(second, Saved),
     Step(second, ListenerIsReady(0, 3)), Step(second, HistoryArrives(0, Some(0))), Step(second, BackfillCompletes(0))]
  }

  predicate Forgetful(first: Env, second: Env) {
    && first.starts("g") && second.starts("g")
    && first.fallback("g") < BeforeOverlap(first, first.now) <= second.fallback("g")
  }

  function InState(ingress: Ingress, e: Entry, runs: map<nat, Run>, control: Control): State {
    State(ingress, false, Human(0, None, Starting), [Group("g", false)], map["g" := 0], map[0 := e], runs, control, 1)
  }

  const OPEN := Ingress(false, None)

  function Joined(): Entry {
    Entry("g", 1, Starting, Some(1), false, Never, false, false, 0, false, None, None, None, false)
  }

  function Reading(first: Env): Entry {
    Joined().(listener := Ready, backfill := InProgress, running := true, activeStart := Some(first.fallback("g")))
  }

  function CutShort(first: Env): Entry {
    Reading(first).(generation := 2, listener := PausedListener, subscription := None, backfill := PausedBackfill, epoch := 1, required := true,
                    from := Some(BeforeOverlap(first, first.now)))
  }

  function Idling(first: Env): Entry {
    CutShort(first).(activeStart := None, running := false)
  }

  function Resumed(first: Env): Entry {
    Idling(first).(generation := 3, listener := Starting, subscription := Some(3))
  }

  function Recovering(first: Env): Entry {
    Resumed(first).(listener := Ready, backfill := InProgress, running := true, activeStart := Some(BeforeOverlap(first, first.now)))
  }

  function Recovered(first: Env, second: Env): Entry {
    Recovering(first).(backfill := Ok, lastEnd := Some(second.now), everOk := true, required := false, from := None)
  }

  function FirstRun(first: Env): Run {
    Run(false, false, 0, first.fallback("g"), first.now, Phase.Reading, false)
  }

  function SecondRun(first: Env, second: Env): Run {
    Run(false, true, 1, BeforeOverlap(first, first.now), second.now, Phase.Reading, false)
  }

  function Stage(first: Env, second: Env, i: nat): State
    requires i <= 11
  {
    var bound := BeforeOverlap(first, first.now);
    var paused, resumed := Ingress(true, Some(bound)), Ingress(false, Some(bound));
    var run, again := FirstRun(first), SecondRun(first, second);
    match i
    case 0 => Initial(OPEN, [])
    case 1 => InState(OPEN, Joined(), map[], Idle)
    case 2 => InState(OPEN, Reading(first), map[0 := run], Idle)
    case 3 => InState(OPEN, Reading(first), map[0 := run], Pausing(bound))
    case 4 => InState(paused, CutShort(first), map[0 := run.(disturbed := true)], Idle)
    case 5 => InState(paused, CutShort(first), map[0 := run.(disturbed := true, phase := Ended)], Idle)
    case 6 => InState(paused, Idling(first), map[], Idle)
    case 7 => InState(paused, Idling(first), map[], Resuming)
    case 8 => InState(resumed, Resumed(first), map[], Idle)
    case 9 => InState(resumed, Recovering(first), map[0 := again], Idle)
    case 10 => InState(resumed, Recovering(first), map[0 := again.(phase := Processing(0))], Idle)
    case _ => InState(resumed, Recovered(first, second), map[0 := again.(phase := Ended)], Idle)
  }

  ghost predicate Leads(first: Env, second: Env, i: nat)
    requires i < 11
  {
    var step := PausedRun(first, second)[i];
    After(Stage(first, second, i), step.env, step.event) == Stage(first, second, i + 1)
  }

  lemma GroupFound()
    ensures Find([Group("g", false)], "g") == Some(Group("g", false)) && Find([], "g").None?
  {
  }

  lemma Joins(first: Env)
    requires first.starts("g")
    ensures After(Initial(OPEN, []), first, GroupJoins(Group("g", false))) == InState(OPEN, Joined(), map[], Idle)
  {
    hide MarkListenerReady, ListenerFailed, Complete, History, Finally, Commit;
    GroupFound();
  }

  lemma Begins(first: Env)
    ensures After(InState(OPEN, Joined(), map[], Idle), first, ListenerIsReady(0, 1)) == InState(OPEN, Reading(first), map[0 := FirstRun(first)], Idle)
  {
    hide Find, Complete, History, Finally, Join, Commit, BeforeOverlap;
    GroupFound();
  }

  lemma Pauses(first: Env)
    ensures var s := InState(OPEN, Reading(first), map[0 := FirstRun(first)], Pausing(BeforeOverlap(first, first.now)));
            After(s, first, Saved)
            == InState(Ingress(true, Some(BeforeOverlap(first, first.now))), CutShort(first), map[0 := FirstRun(first).(disturbed := true)], Idle)
  {
    hide Find, Complete, History, Finally, Join, AttachEach, BeforeOverlap;
    var groups := [Group("g", false)];
    assert groups[1..] == [];
  }

  lemma Resumes(first: Env, second: Env)
    requires second.starts("g")
    ensures var bound := BeforeOverlap(first, first.now);
            After(InState(Ingress(true, Some(bound)), Idling(first), map[], Resuming), second, Saved)
            == InState(Ingress(false, Some(bound)), Resumed(first), map[], Idle)
  {
    hide Find, Complete, History, Finally, Join, PauseEach, BeforeOverlap, ListenerFailed;
    var groups := [Group("g", false)];
    assert groups[1..] == [];
  }

  lemma BeginsAgain(first: Env, second: Env)
    requires Forgetful(first, second)
    ensures var resumed := Ingress(false, Some(BeforeOverlap(first, first.now)));
            After(InState(resumed, Resumed(first), map[], Idle), second, ListenerIsReady(0, 3))
            == InState(resumed, Recovering(first), map[0 := SecondRun(first, second)], Idle)
  {
    hide Find, Complete, History, Finally, Join, Commit, BeforeOverlap;
    GroupFound();
  }

  lemma Abandons(first: Env, second: Env)
    ensures Leads(first, second, 4) && Leads(first, second, 5)
  {
    hide Find, Queue, Join, Commit, BeforeOverlap, Complete;
    GroupFound();
    assert Stage(first, second, 5).runs - {0} == map[];
  }

  lemma ReadsOn(first: Env, second: Env)
    ensures Leads(first, second, 9)
  {
    hide Find, Queue, Join, Commit, BeforeOverlap, Complete, Finally;
    GroupFound();
  }

  lemma Recovers(first: Env, second: Env)
    ensures Leads(first, second, 10)
  {
    hide Find, Queue, Join, Commit, BeforeOverlap, History, Finally;
  }

  lemma Leading(first: Env, second: Env, i: nat)
    requires i < 11 && Forgetful(first, second)
    ensures Leads(first, second, i)
  {
    hide Find, Queue, Join, Commit, BeforeOverlap, Joined, Reading, CutShort, Idling, Resumed, Recovering, Recovered, FirstRun, SecondRun,
         MarkListenerReady, History, Complete, Finally;
    match i
    case 0 => Joins(first);
    case 1 => Begins(first);
    case 2 =>
    case 3 => Pauses(first);
    case 6 =>
    case 7 => Resumes(first, second);
    case 8 => BeginsAgain(first, second);
    case 9 => ReadsOn(first, second);
    case 10 => Recovers(first, second);
    case _ => Abandons(first, second);
  }

  lemma Prefix(first: Env, second: Env, n: nat)
    requires n <= 11 && Forgetful(first, second)
    ensures AfterAll(Initial(OPEN, []), PausedRun(first, second)[..n]) == Stage(first, second, n)
  {
    hide After, Stage;
    var run := PausedRun(first, second)[..n];
    FirstStage(first, second);
    assert run[0..] == run;
    for i := 0 to n
      invariant AfterAll(Initial(OPEN, []), run) == AfterAll(Stage(first, second, i), run[i..])
    {
      Leading(first, second, i);
      assert run[i..][0] == PausedRun(first, second)[i] && run[i..][1..] == run[i + 1..];
    }
    assert run[n..] == [];
  }

  lemma FirstStage(first: Env, second: Env)
    ensures Stage(first, second, 0) == Initial(OPEN, [])
  {
  }

  /** In that run the group owes nothing at the end, although the one backfill that was completed began after the one that the pause
      cut short, and nothing before it was ever read. */
  lemma PauseForgetsBackfill(first: Env, second: Env)
    requires Forgetful(first, second)
    ensures var s := AfterAll(Initial(OPEN, []), PausedRun(first, second)[..2]);
            Active(s, 0) && s.runs[0].start == first.fallback("g")
    ensures var s := AfterAll(Initial(OPEN, []), PausedRun(first, second));
            !Owes(s, "g") && 0 in s.entries && s.entries[0].lastEnd == Some(second.now) && 0 in s.runs && first.fallback("g") < s.runs[0].start
  {
    Prefix(first, second, 2);
    Prefix(first, second, 11);
    hide After, AfterAll, BeforeOverlap;
    assert PausedRun(first, second)[..11] == PausedRun(first, second);
  }

  // ---------- A backfill that fails ----------

  /** The first backfill of a group fails, and the next poll begins another one. */
  function FailedRun(first: Env, second: Env): seq<Step> {
    [Step(first, GroupJoins(Group("g", false))), Step(first, ListenerIsReady(0, 1)), Step(first, BackfillBreaks(0)),
     Step(first, BackfillSettles(0)), Step(second, Poll("g"))]
  }

  lemma FirstFails(first: Env)
    ensures var s := InState(OPEN, Reading(first), map[0 := FirstRun(first)], Idle);
            After(s, first, BackfillBreaks(0))
            == InState(OPEN, Reading(first).(backfill := Failed), map[0 := FirstRun(first).(phase := Ended)], Idle)
  {
    hide Find, Queue, Join, Commit, History, Finally, Complete;
  }

  function Failure(first: Env): Entry {
    Reading(first).(backfill := Failed, running := false, activeStart := None)
  }

  lemma FailureSettles(first: Env)
    ensures var s := InState(OPEN, Reading(first).(backfill := Failed), map[0 := FirstRun(first).(phase := Ended)], Idle);
            After(s, first, BackfillSettles(0)) == InState(OPEN, Failure(first), map[], Idle)
  {
    hide Find, Queue, Join, Commit, History, Break, Complete;
    GroupFound();
    assert map[0 := FirstRun(first).(phase := Ended)] - {0} == map[];
  }

  lemma PollBegins(first: Env, second: Env)
    ensures var s := InState(OPEN, Failure(first), map[], Idle);
            var run := Run(false, false, 0, second.fallback("g"), second.now, Phase.Reading, false);
            After(s, second, Poll("g"))
            == InState(OPEN, Failure(first).(running := true, activeStart := Some(second.fallback("g"))), map[0 := run], Idle)
  {
    hide Find, Join, Commit, History, Break, Complete, Finally;
    GroupFound();
  }

  /** A failed backfill leaves no bound: the group owes nothing, and the next one begins at the default start of that time. */
  lemma FailureLeavesNoBound(first: Env, second: Env)
    requires first.starts("g")
    ensures var s := AfterAll(Initial(OPEN, []), FailedRun(first, second));
            !Owes(s, "g") && 0 in s.entries && s.entries[0].lastEnd.None? && Active(s, 0) && s.runs[0].start == second.fallback("g")
  {
    hide After, Reading, Joined, FirstRun, Failure;
    var run := FailedRun(first, second);
    Joins(first);
    Begins(first);
    FirstFails(first);
    FailureSettles(first);
    PollBegins(first, second);
    FiveSteps(Initial(OPEN, []), run);
    NothingOwed(first, second);
  }

  lemma NothingOwed(first: Env, second: Env)
    ensures !Failure(first).required && Failure(first).lastEnd.None?
  {
  }

  lemma FiveSteps(s: State, run: seq<Step>)
    requires |run| == 5
    ensures AfterAll(s, run) == After(After(After(After(After(s, run[0].env, run[0].event), run[1].env, run[1].event), run[2].env, run[2].event),
                                            run[3].env, run[3].event), run[4].env, run[4].event)
  {
    hide After;
    var s1 := After(s, run[0].env, run[0].event);
    var s2 := After(s1, run[1].env, run[1].event);
    var s3 := After(s2, run[2].env, run[2].event);
    var s4 := After(s3, run[3].env, run[3].event);
    var rest1, rest2, rest3, rest4 := run[1..], run[2..], run[3..], run[4..];
    assert AfterAll(s, run) == AfterAll(s1, rest1);
    assert rest1[1..] == rest2 && AfterAll(s1, rest1) == AfterAll(s2, rest2);
    assert rest2[1..] == rest3 && AfterAll(s2, rest2) == AfterAll(s3, rest3);
    assert rest3[1..] == rest4 && AfterAll(s3, rest3) == AfterAll(s4, rest4);
    assert rest4[1..] == [];
  }
}
