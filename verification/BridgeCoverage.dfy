/**
  The bounds of the bridge reach back far enough.  A lost listener leaves its group a bound no later than the start of
  the backfill in flight, else than the end of the last complete one less the overlap, else than the default start;
  and the backfill that ends the debt begins at or before that bound.
*/
module BridgeCoverage {
  import opened Wrappers
  import opened Bridge
  import opened BridgeSafety
  import opened BridgeDebts

  // ---------- What a lost listener leaves to be read ----------

  /** At least the overlap before an instant, as far as time goes back. */
  predicate Overlaps(env: Env, t: int, bound: int) {
    bound <= t - env.overlap || bound <= 0
  }

  /** A bound from which a group that loses its listener may be read again without a gap. */
  predicate ReadAgainFrom(env: Env, e: Entry, bound: int) {
    if e.activeStart.Some? then bound <= e.activeStart.value
    else if e.lastEnd.Some? then Overlaps(env, e.lastEnd.value, bound)
    else bound <= env.fallback(e.group)
  }

  /** The latest of them, or the bound that the group had. */
  ghost predicate NoEarlier(env: Env, e: Entry, e': Entry) {
    e'.from == e.from || (e'.from.Some? && ReadAgainFrom(env, e, e'.from.value) && forall b: nat :: ReadAgainFrom(env, e, b) ==> b <= e'.from.value)
  }

  predicate ReachesBack(env: Env, e: Entry, e': Entry) {
    e'.required && e'.from.Some? && (e.from.Some? ==> e'.from.value <= e.from.value) && ReadAgainFrom(env, e, e'.from.value)
  }

  lemma LosingReachesBack(s: State, env: Env, k: nat, before: Entry)
    requires k in s.entries && before.group == s.entries[k].group && before.from == s.entries[k].from
    requires before.activeStart == s.entries[k].activeStart && before.lastEnd == s.entries[k].lastEnd
    ensures ReachesBack(env, before, Lose(s, k, LossBound(env, before)).entries[k])
  {
  }

  lemma KeptReachesBack(env: Env, e: Entry, e1: Entry, e2: Entry)
    requires ReachesBack(env, e, e1) && EntryKept(e1, e2)
    ensures ReachesBack(env, e, e2)
  {
  }

  /** The event loses the listener of the group, which has an entry. */
  predicate LosesListener(s: State, env: Env, event: Event, id: Id) {
    && id in s.current && Unsettles(s, env, event, id)
    && (event.ListenerFails? || event.HumanFails? || event.HumanRetry? || (event.RetryTimer? && !s.ingress.paused))
  }

  lemma FailureReachesBack(s: State, env: Env, k: nat, generation: nat, attached: bool)
    requires k in s.entries && !s.stopping && Holds(s, k, generation) && (attached ==> s.entries[k].subscription == Some(generation))
    ensures var s' := ListenerFailed(s, env, k, generation, attached); k in s'.entries && ReachesBack(env, s.entries[k], s'.entries[k])
  {
    hide LossBound, Lose, ReachesBack;
    var e := s.entries[k];
    var e' := e.(subscription := None, listener := Reconnecting, retry := e.retry || !s.ingress.paused);
    LosingReachesBack(s.(entries := s.entries[k := e']), env, k, e);
    LossBoundIgnores(env, e, e');
    LoseKeepsKeys(s.(entries := s.entries[k := e']), k, LossBound(env, e));
  }

  lemma LoseKeepsKeys(s: State, k: nat, bound: int)
    requires k in s.entries
    ensures Lose(s, k, bound).entries.Keys == s.entries.Keys && Lose(s, k, bound).current == s.current
    ensures forall x :: x in s.entries && x != k ==> Lose(s, k, bound).entries[x] == s.entries[x]
  {
  }

  lemma LossBoundIgnores(env: Env, e: Entry, e': Entry)
    requires e'.group == e.group && e'.activeStart == e.activeStart && e'.lastEnd == e.lastEnd
    ensures LossBound(env, e') == LossBound(env, e)
  {
  }

  lemma RetryReachesBack(s: State, env: Env, k: nat, id: Id)
    requires Inv(s) && !s.ingress.paused && id in s.current && s.current[id] == k && Unsettles(s, env, RetryTimer(k), id)
    ensures var s' := Reattach(s, env, k); k in s.entries && k in s'.entries && ReachesBack(env, s.entries[k], s'.entries[k])
  {
    hide Inv, ReachesBack, ListenerFailed, Listed;
    var e := s.entries[k];
    var s1 := s.(entries := s.entries[k := e.(retry := false)]);
    ListedIsFound(s, id);
    var e2 := e.(retry := false, generation := e.generation + 1, listener := Starting);
    var s2 := s1.(entries := s1.entries[k := e2]);
    SameListing(s, s1, id);
    FailureReachesBack(s2, env, k, e2.generation, false);
    SameNeeds(env, e, e2, ListenerFailed(s2, env, k, e2.generation, false).entries[k]);
  }

  lemma SameNeeds(env: Env, e: Entry, e1: Entry, e': Entry)
    requires ReachesBack(env, e1, e') && e1.group == e.group && e1.from == e.from && e1.activeStart == e.activeStart && e1.lastEnd == e.lastEnd
    ensures ReachesBack(env, e, e')
  {
  }

  lemma {:induction false} PrivateLossReachesBack(s: State, env: Env, groups: seq<Group>, id: Id)
    requires Inv(s) && AllListed(s, groups) && id in s.current && s.current[id] in s.entries && Private(groups, id)
    ensures var k, s' := s.current[id], LoseDirect(s, env, groups);
            k in s'.entries && ReachesBack(env, s.entries[k], s'.entries[k])
    decreases |groups|
  {
    hide EntriesOk, ControlOk, EntryKept, Lose, Listed, EntryFor, Private, LossBound, ReachesBack;
    var k := s.current[id];
    if groups == [] {
      NonePrivate(id);
    } else {
      FirstPrivate(groups, id);
      if groups[0].direct {
        var x := groups[0].id;
        var s1 := EntryFor(s, x);
        EntryForIsGood(s, x);
        EntryForKeepsEntry(s, x, id);
        var bound := LossBound(env, s1.entries[s1.current[x]]);
        var s2 := Lose(s1, s1.current[x], bound);
        LosingIsGood(s1, s1.current[x], bound);
        LoseKeepsKeys(s1, s1.current[x], bound);
        LoseGroups(s1, s1.current[x], bound);
        SameGroups(s, s2, groups[1..]);
        if x == id {
          LosingReachesBack(s1, env, k, s.entries[k]);
          LoseDirectIsGood(s2, env, groups[1..]);
          KeptReachesBack(env, s.entries[k], s2.entries[k], LoseDirect(s2, env, groups[1..]).entries[k]);
        } else {
          OwnEntry(s1, x, id);
          PrivateLossReachesBack(s2, env, groups[1..], id);
        }
      } else {
        PrivateLossReachesBack(s, env, groups[1..], id);
      }
    }
  }

  lemma EntryForKeepsEntry(s: State, x: Id, id: Id)
    requires Inv(s) && id in s.current
    ensures var s' := EntryFor(s, x);
            && id in s'.current && s'.current[id] == s.current[id] && s.current[id] in s'.entries && s.current[id] in s.entries
            && s'.entries[s.current[id]] == s.entries[s.current[id]]
  {
    assert CurrentOk(s, id);
  }

  /** A lost listener never leaves a bound too late. */
  lemma LossReachesBack(s: State, env: Env, event: Event, id: Id)
    requires Inv(s) && LosesListener(s, env, event, id)
    ensures var k, s' := s.current[id], After(s, env, event);
            k in s.entries && k in s'.entries && ReachesBack(env, s.entries[k], s'.entries[k])
  {
    hide Inv, ReachesBack, LoseDirect, ListenerFailed, Reattach, Private, Listed;
    CurrentIsListed(s, id);
    CurrentIsOk(s, id);
    GroupsAreListed(s);
    match event
    case ListenerFails(k, generation) => FailureReachesBack(s, env, k, generation, true);
    case RetryTimer(k) => RetryReachesBack(s, env, k, id);
    case HumanFails(generation) => HumanLossReachesBack(s, env, s.human.(subscription := None, listener := Reconnecting), id);
    case HumanRetry(starts) => HumanLossReachesBack(s, env, Human(s.human.generation + 1, None, Reconnecting), id);
  }

  lemma HumanLossReachesBack(s: State, env: Env, human: Human, id: Id)
    requires Inv(s) && id in s.current && s.current[id] in s.entries && Private(s.groups, id)
    ensures var k, s' := s.current[id], LoseDirect(s.(human := human), env, s.groups);
            k in s'.entries && ReachesBack(env, s.entries[k], s'.entries[k])
  {
    hide Inv, ReachesBack, LoseDirect, Private, Listed;
    HumanIsGood(s, human);
    GoodIsInv(s, s.(human := human));
    GroupsAreListed(s);
    SameGroups(s, s.(human := human), s.groups);
    PrivateLossReachesBack(s.(human := human), env, s.groups, id);
  }

  // ---------- And no further than it must ----------

  /** A loss, however often it is counted, moves the bound to where the loss leaves it. */
  predicate LostAt(env: Env, e: Entry, e': Entry) {
    && e'.group == e.group && e'.activeStart == e.activeStart && e'.lastEnd == e.lastEnd
    && (e'.from == e.from || e'.from == Earlier(e.from, Some(LossBound(env, e))))
  }

  lemma LostAtTwice(env: Env, a: Entry, b: Entry, c: Entry)
    requires LostAt(env, a, b) && LostAt(env, b, c)
    ensures LostAt(env, a, c)
  {
    LossBoundIgnores(env, a, b);
    hide LossBound;
  }

  lemma LostNoEarlier(env: Env, e: Entry, e': Entry)
    requires LostAt(env, e, e')
    ensures NoEarlier(env, e, e')
  {
  }

  lemma LosingAt(s: State, env: Env, k: nat, before: Entry)
    requires k in s.entries && before.group == s.entries[k].group && before.from == s.entries[k].from
    requires before.activeStart == s.entries[k].activeStart && before.lastEnd == s.entries[k].lastEnd
    ensures LostAt(env, before, Lose(s, k, LossBound(env, before)).entries[k])
  {
    hide LossBound;
  }

  /** Every entry that was there keeps its bound or loses at it. */
  ghost predicate AllLostAt(s: State, s': State, env: Env) {
    (forall k :: k in s.entries ==> k < s.next) && (forall k :: k in s'.entries ==> k < s'.next)
    && forall k :: k in s.entries ==> k in s'.entries && LostAt(env, s.entries[k], s'.entries[k])
  }

  lemma {:induction false} DirectLostAt(s: State, env: Env, groups: seq<Group>)
    requires forall k :: k in s.entries ==> k < s.next
    ensures AllLostAt(s, LoseDirect(s, env, groups), env)
    decreases |groups|
  {
    hide LossBound;
    if groups != [] {
      if groups[0].direct {
        var s1 := EntryFor(s, groups[0].id);
        var k := s1.current[groups[0].id];
        assert AllLostAt(s, s1, env);
        if k in s1.entries {
          var s2 := Lose(s1, k, LossBound(env, s1.entries[k]));
          LosingAt(s1, env, k, s1.entries[k]);
          assert AllLostAt(s1, s2, env);
          DirectLostAt(s2, env, groups[1..]);
          hide LostAt;
          AllLostAtOn(s, s1, s2, env);
          AllLostAtOn(s, s2, LoseDirect(s2, env, groups[1..]), env);
        } else {
          DirectLostAt(s1, env, groups[1..]);
          hide LostAt;
          AllLostAtOn(s, s1, LoseDirect(s1, env, groups[1..]), env);
        }
      } else {
        DirectLostAt(s, env, groups[1..]);
      }
    }
  }

  lemma AllLostAtOn(a: State, b: State, c: State, env: Env)
    requires AllLostAt(a, b, env) && AllLostAt(b, c, env)
    ensures AllLostAt(a, c, env)
  {
    hide LostAt;
    forall k | k in a.entries ensures k in c.entries && LostAt(env, a.entries[k], c.entries[k]) {
      LostAtTwice(env, a.entries[k], b.entries[k], c.entries[k]);
    }
  }

  lemma FailureLostAt(s: State, env: Env, k: nat, generation: nat, attached: bool)
    requires k in s.entries
    ensures var s' := ListenerFailed(s, env, k, generation, attached); k in s'.entries && LostAt(env, s.entries[k], s'.entries[k])
  {
    hide LossBound;
  }

  lemma AttachLostAt(s: State, env: Env, g: Group, k: nat)
    requires g.id in s.current && s.current[g.id] == k && k in s.entries
    ensures var s' := Attach(s, env, g); k in s'.entries && LostAt(env, s.entries[k], s'.entries[k])
  {
    hide LossBound, ListenerFailed;
    var e := s.entries[k];
    var e' := e.(generation := e.generation + 1, listener := Starting);
    FailureLostAt(s.(entries := s.entries[k := e']), env, k, e'.generation, false);
    LossBoundIgnores(env, e, e');
  }

  lemma RetryLostAt(s: State, env: Env, k: nat)
    requires k in s.entries
    ensures var s' := Reattach(s, env, k); k in s'.entries && LostAt(env, s.entries[k], s'.entries[k])
  {
    hide LossBound, Attach;
    var e := s.entries[k];
    var s1 := s.(entries := s.entries[k := e.(retry := false)]);
    FoundIsNamed(s.groups, e.group);
    LossBoundIgnores(env, e, s1.entries[k]);
    if Holds(s, k, e.generation) && Listed(s, e.group) { AttachLostAt(s1, env, Find(s.groups, e.group).value, k); }
  }

  lemma {:induction false} FoundIsNamed(groups: seq<Group>, id: Id)
    ensures Find(groups, id).Some? ==> Find(groups, id).value.id == id
    decreases |groups|
  {
    if groups != [] { FoundIsNamed(groups[1..], id); }
  }

  /** Nor does it leave one earlier than the latest that has no gap, unless the group had it before. */
  lemma LossGoesNoFurther(s: State, env: Env, event: Event, id: Id)
    requires Inv(s) && LosesListener(s, env, event, id)
    ensures var k, s' := s.current[id], After(s, env, event);
            k in s.entries && k in s'.entries && NoEarlier(env, s.entries[k], s'.entries[k])
  {
    CurrentIsOk(s, id);
    assert forall k :: k in s.entries ==> k < s.next;
    assert (event.ListenerFails? || event.RetryTimer?) ==> event.entry == s.current[id];
    hide Inv, NoEarlier, LostAt, Unsettles;
    LossLosesAt(s, env, event, s.current[id]);
    LostNoEarlier(env, s.entries[s.current[id]], After(s, env, event).entries[s.current[id]]);
  }

  lemma LossLosesAt(s: State, env: Env, event: Event, k: nat)
    requires (forall x :: x in s.entries ==> x < s.next) && k in s.entries
    requires event.ListenerFails? || event.HumanFails? || event.HumanRetry? || event.RetryTimer?
    requires (event.ListenerFails? || event.RetryTimer?) ==> event.entry == k
    ensures k in After(s, env, event).entries && LostAt(env, s.entries[k], After(s, env, event).entries[k])
  {
    hide LoseDirect, ListenerFailed, Reattach, LossBound;
    match event
    case ListenerFails(_, generation) => FailureLostAt(s, env, k, generation, true);
    case RetryTimer(_) => RetryLostAt(s, env, k);
    case HumanFails(_) => DirectLostAt(s.(human := s.human.(subscription := None, listener := Reconnecting)), env, s.groups);
    case HumanRetry(_) => DirectLostAt(s.(human := Human(s.human.generation + 1, None, Reconnecting)), env, s.groups);
  }

  // ---------- Until it has been read again ----------

  /** The entry must be read again from `bound` or earlier. */
  predicate OwesFrom(s: State, k: nat, bound: int) {
    k in s.entries && s.entries[k].required && s.entries[k].from.Some? && s.entries[k].from.value <= bound
  }

  /** No step of the run settles the entry. */
  ghost predicate NeverSettled(s: State, run: seq<Step>, k: nat) {
    forall i :: 0 <= i < |run| ==> !(run[i].event == BackfillCompletes(k) && Settles(AfterAll(s, run[..i]), k))
  }

  lemma StepKeepsOwing(s: State, env: Env, event: Event, k: nat, bound: int)
    requires Inv(s) && OwesFrom(s, k, bound) && !(event == BackfillCompletes(k) && Settles(s, k))
    ensures Inv(After(s, env, event)) && OwesFrom(After(s, env, event), k, bound)
  {
    hide Inv, After;
    StepIsSound(s, env, event);
  }

  /** What is owed stays owed, from the same instant or an earlier one, until a backfill settles it. */
  lemma {:induction false} OwedUntilSettled(s: State, run: seq<Step>, k: nat, bound: int)
    requires Inv(s) && OwesFrom(s, k, bound) && NeverSettled(s, run, k)
    ensures Inv(AfterAll(s, run)) && OwesFrom(AfterAll(s, run), k, bound)
    decreases |run|
  {
    hide Inv, After, OwesFrom, Settles;
    if run != [] {
      var next, rest := After(s, run[0].env, run[0].event), run[1..];
      assert run[..0] == [];
      assert !(run[0].event == BackfillCompletes(k) && Settles(AfterAll(s, run[..0]), k));
      StepKeepsOwing(s, run[0].env, run[0].event, k, bound);
      forall i | 0 <= i < |rest| ensures !(rest[i].event == BackfillCompletes(k) && Settles(AfterAll(next, rest[..i]), k)) {
        assert run[..i + 1][0] == run[0] && run[..i + 1][1..] == rest[..i] && rest[i] == run[i + 1];
        assert !(run[i + 1].event == BackfillCompletes(k) && Settles(AfterAll(s, run[..i + 1]), k));
      }
      OwedUntilSettled(next, rest, k, bound);
    }
  }

  /** In every run: from the moment a group loses its listener while a backfill is in flight for it, the group owes everything
      from the start of that backfill on, and the backfill that settles it began at or before that start. */
  lemma CutShortIsReadAgain(ingress: Ingress, groups: seq<Group>, before: seq<Step>, env: Env, event: Event, later: seq<Step>, id: Id)
    requires var s := AfterAll(Initial(ingress, groups), before);
             LosesListener(s, env, event, id) && Active(s, s.current[id])
             && NeverSettled(After(s, env, event), later, s.current[id])
    ensures var s := AfterAll(Initial(ingress, groups), before);
            var k, s' := s.current[id], AfterAll(After(s, env, event), later);
            OwesFrom(s', k, s.runs[k].start) && (Settles(s', k) ==> s'.runs[k].start <= s.runs[k].start)
  {
    hide Inv, After, Unsettles, Settles, ReachesBack;
    var s := AfterAll(Initial(ingress, groups), before);
    InitialIsGood(ingress, groups);
    RunIsSound(Initial(ingress, groups), before);
    var k, s1 := s.current[id], After(s, env, event);
    LossReachesBack(s, env, event, id);
    StepIsSound(s, env, event);
    SoundIsInv(s, s1, event);
    InFlight(s, k);
    ReachingOwes(s1, env, s.entries[k], k, s.runs[k].start);
    OwedUntilSettled(s1, later, k, s.runs[k].start);
    SettlesEarly(AfterAll(s1, later), k, s.runs[k].start);
  }

  lemma InFlight(s: State, k: nat)
    requires Inv(s) && Active(s, k)
    ensures s.entries[k].activeStart == Some(s.runs[k].start)
  {
    EntryIsOk(s, k);
  }

  lemma ReachingOwes(s: State, env: Env, before: Entry, k: nat, start: int)
    requires k in s.entries && ReachesBack(env, before, s.entries[k]) && before.activeStart == Some(start)
    ensures OwesFrom(s, k, start)
  {
  }

  lemma SettlesEarly(s: State, k: nat, bound: int)
    requires OwesFrom(s, k, bound)
    ensures Settles(s, k) ==> s.runs[k].start <= bound
  {
  }

  /** In every run: with no backfill begun and not over, the group owes everything from the end of the last complete one on, less
      the overlap, and the backfill that settles it began at or before that. */
  lemma UncoveredIsReadAgain(ingress: Ingress, groups: seq<Group>, before: seq<Step>, env: Env, event: Event, later: seq<Step>, id: Id, end: int)
    requires var s := AfterAll(Initial(ingress, groups), before);
             LosesListener(s, env, event, id) && s.current[id] in s.entries
             && s.entries[s.current[id]].activeStart.None? && s.entries[s.current[id]].lastEnd == Some(end)
             && NeverSettled(After(s, env, event), later, s.current[id])
    ensures var s := AfterAll(Initial(ingress, groups), before);
            var k, s' := s.current[id], AfterAll(After(s, env, event), later);
            var from := if end - env.overlap < 0 then 0 else end - env.overlap;
            OwesFrom(s', k, from) && (Settles(s', k) ==> s'.runs[k].start <= from)
  {
    hide Inv, After, Unsettles, Settles, ReachesBack;
    var s := AfterAll(Initial(ingress, groups), before);
    InitialIsGood(ingress, groups);
    RunIsSound(Initial(ingress, groups), before);
    var k, s1 := s.current[id], After(s, env, event);
    var from := if end - env.overlap < 0 then 0 else end - env.overlap;
    LossReachesBack(s, env, event, id);
    StepIsSound(s, env, event);
    SoundIsInv(s, s1, event);
    ReachingLastEnd(s1, env, s.entries[k], k, end);
    OwedUntilSettled(s1, later, k, from);
    SettlesEarly(AfterAll(s1, later), k, from);
  }

  lemma ReachingLastEnd(s: State, env: Env, before: Entry, k: nat, end: int)
    requires k in s.entries && ReachesBack(env, before, s.entries[k]) && before.activeStart.None? && before.lastEnd == Some(end)
    ensures OwesFrom(s, k, if end - env.overlap < 0 then 0 else end - env.overlap)
  {
  }

  // ---------- The end of the last complete backfill ----------

  /** What every step but a completion, a save and a departure does: bounds and ends stay, groups keep their entries, and the
      entry of a group that is new owes everything from the bound of the ingress on. */
  ghost predicate Carried(s: State, s': State) {
    && s'.ingress == s.ingress && s'.control == s.control
    && (forall k :: k in s.entries ==> k in s'.entries && CarriedEntry(s.entries[k], s'.entries[k]))
    && (forall id :: id in s.current ==> id in s'.current && s'.current[id] == s.current[id])
    && (forall id :: id in s'.current && id !in s.current ==> NewlyOwes(s', id))
  }

  predicate NewlyOwes(s: State, id: Id)
    requires id in s.current
  {
    s.current[id] in s.entries && (s.ingress.from.Some? ==> OwesFrom(s, s.current[id], s.ingress.from.value))
  }

  predicate CarriedEntry(e: Entry, e': Entry) {
    EntryKept(e, e') && e'.lastEnd == e.lastEnd
  }

  lemma CarriedOn(a: State, b: State, c: State)
    requires Carried(a, b) && Carried(b, c)
    ensures Carried(a, c)
  {
    forall id | id in c.current && id !in a.current ensures NewlyOwes(c, id) {
      if id in b.current { assert NewlyOwes(b, id); }
    }
  }

  /** Every group's entry is there, and numbers are not used again. */
  predicate Known(s: State) {
    (forall id :: id in s.current ==> s.current[id] in s.entries) && forall k :: k in s.entries ==> k < s.next
  }

  lemma InvKnown(s: State)
    requires Inv(s)
    ensures Known(s)
  {
    forall id | id in s.current ensures s.current[id] in s.entries { assert CurrentOk(s, id); }
  }

  /** Entries are rewritten. */
  lemma WrittenCarries(s: State, s': State)
    requires Known(s) && s'.ingress == s.ingress && s'.control == s.control && s'.entries.Keys == s.entries.Keys
    requires forall k :: k in s.entries ==> CarriedEntry(s.entries[k], s'.entries[k])
    requires s'.current == s.current
    ensures Carried(s, s')
  {
  }

  lemma EntryForCarries(s: State, id: Id)
    requires Known(s)
    ensures Carried(s, EntryFor(s, id)) && Known(EntryFor(s, id))
  {
  }

  lemma PiecesCarry(s: State, env: Env, id: Id, k: nat, bound: int)
    requires Known(s)
    ensures Carried(s, EntryFor(s, id)) && Carried(s, StopEntry(s, id)) && (k in s.entries ==> Carried(s, Lose(s, k, bound)))
  {
    EntryForCarries(s, id);
    StoppingCarries(s, id);
    if k in s.entries { LosingCarries(s, k, bound); }
  }

  lemma StoppingCarries(s: State, id: Id)
    requires Known(s)
    ensures Carried(s, StopEntry(s, id))
  {
    WrittenCarries(s, StopEntry(s, id));
    hide Carried;
  }

  lemma LosingCarries(s: State, k: nat, bound: int)
    requires Known(s) && k in s.entries
    ensures Carried(s, Lose(s, k, bound))
  {
    WrittenCarries(s, Lose(s, k, bound));
    hide Carried;
  }

  lemma QueueCarries(s: State, env: Env, id: Id, queueAfterActive: bool, recovery: bool)
    requires Known(s)
    ensures Carried(s, Queue(s, env, id, queueAfterActive, recovery))
  {
    hide EntryFor, QueueEntry, Carried, Known;
    var s1 := EntryFor(s, id);
    EntryForCarries(s, id);
    QueueEntryCarries(s1, env, id, queueAfterActive, recovery);
    CarriedOn(s, s1, Queue(s, env, id, queueAfterActive, recovery));
  }

  lemma QueueEntryCarries(s: State, env: Env, id: Id, queueAfterActive: bool, recovery: bool)
    requires Known(s) && id in s.current
    ensures Carried(s, QueueEntry(s, env, id, queueAfterActive, recovery))
  {
    hide Carried, Listed, IsDirect, CarriedEntry;
    var s' := QueueEntry(s, env, id, queueAfterActive, recovery);
    forall k | k in s.entries ensures k in s'.entries && CarriedEntry(s.entries[k], s'.entries[k]) {
      QueuedEntryCarries(s, env, id, queueAfterActive, recovery, k);
    }
    WrittenCarries(s, s');
  }

  lemma QueuedEntryCarries(s: State, env: Env, id: Id, queueAfterActive: bool, recovery: bool, k: nat)
    requires id in s.current && k in s.entries
    ensures var s' := QueueEntry(s, env, id, queueAfterActive, recovery); k in s'.entries && CarriedEntry(s.entries[k], s'.entries[k])
  {
    hide Listed, IsDirect;
  }

  lemma {:induction false} LoseDirectCarries(s: State, env: Env, groups: seq<Group>)
    requires Inv(s) && AllListed(s, groups)
    ensures Carried(s, LoseDirect(s, env, groups))
    decreases |groups|
  {
    hide EntriesOk, ControlOk, EntriesKept, Lose, Listed, EntryFor;
    Unmoved(s);
    if groups != [] {
      if groups[0].direct {
        var s1 := EntryFor(s, groups[0].id);
        var k := s1.current[groups[0].id];
        EntryForIsGood(s, groups[0].id);
        InvKnown(s);
        InvKnown(s1);
        var bound := LossBound(env, s1.entries[k]);
        PiecesCarry(s, env, groups[0].id, 0, 0);
        PiecesCarry(s1, env, groups[0].id, k, bound);
        LosingIsGood(s1, k, bound);
        LoseGroups(s1, k, bound);
        SameGroups(s, Lose(s1, k, bound), groups[1..]);
        LoseDirectCarries(Lose(s1, k, bound), env, groups[1..]);
        hide Carried;
        CarriedOn(s, s1, Lose(s1, k, bound));
        CarriedOn(s, Lose(s1, k, bound), LoseDirect(s, env, groups));
      } else {
        LoseDirectCarries(s, env, groups[1..]);
      }
    }
  }

  lemma Unmoved(s: State)
    requires Inv(s)
    ensures Carried(s, s)
  {
    InvKnown(s);
    WrittenCarries(s, s);
  }

  lemma {:induction false} QueueDirectCarries(s: State, env: Env, groups: seq<Group>)
    requires Inv(s) && AllListed(s, groups)
    ensures Carried(s, QueueDirect(s, env, groups))
    decreases |groups|
  {
    hide EntriesOk, ControlOk, EntriesKept, Queue, Listed, EntryFor;
    Unmoved(s);
    if groups != [] {
      if groups[0].direct {
        var x := groups[0].id;
        var s1 := EntryFor(s, x);
        EntryForIsGood(s, x);
        SameListing(s, s1, x);
        InvKnown(s);
        InvKnown(s1);
        var required := s1.entries[s1.current[x]].required;
        var s2 := Queue(s1, env, x, true, required);
        PiecesCarry(s, env, x, 0, 0);
        QueueCarries(s1, env, x, true, required);
        QueueIsGood(s1, env, x, true, required);
        SameGroups(s, s2, groups[1..]);
        QueueDirectCarries(s2, env, groups[1..]);
        hide Carried;
        CarriedOn(s, s1, s2);
        CarriedOn(s, s2, QueueDirect(s, env, groups));
      } else {
        QueueDirectCarries(s, env, groups[1..]);
      }
    }
  }

  lemma FailureCarries(s: State, env: Env, k: nat, generation: nat, attached: bool)
    requires Known(s)
    ensures Carried(s, ListenerFailed(s, env, k, generation, attached))
  {
    hide LossBound, Carried;
    WrittenCarries(s, ListenerFailed(s, env, k, generation, attached));
  }

  lemma AttachCarries(s: State, env: Env, g: Group)
    requires Inv(s) && Listed(s, g.id)
    ensures Carried(s, Attach(s, env, g))
  {
    hide Inv, Listed, ListenerFailed, EntryFor;
    Unmoved(s);
    if !g.direct {
      var s1 := EntryFor(s, g.id);
      InvKnown(s);
      EntryForIsGood(s, g.id);
      GoodIsInv(s, s1);
      PiecesCarry(s, env, g.id, 0, 0);
      SubscribingCarries(s1, env, g);
      CarriedOn(s, s1, Attach(s, env, g));
    }
  }

  lemma SubscribingCarries(s: State, env: Env, g: Group)
    requires Inv(s) && !g.direct && g.id in s.current && s.current[g.id] in s.entries
    ensures Carried(s, Attach(s, env, g))
  {
    hide Inv, ListenerFailed, Carried, Known, CarriedEntry;
    Unmoved(s);
    InvKnown(s);
    var k := s.current[g.id];
    EntryIsOk(s, k);
    var e := s.entries[k].(generation := s.entries[k].generation + 1, listener := Starting);
    var s1 := s.(entries := s.entries[k := e]);
    WritingIsGood(s, k, e, s.runs);
    GoodIsInv(s, s1);
    InvKnown(s1);
    FailureCarries(s1, env, k, e.generation, false);
    QuietCarries(s.entries[k], e);
    OneCarried(s, k, e);
    QuietCarries(s.entries[k], e.(subscription := Some(e.generation)));
    OneCarried(s, k, e.(subscription := Some(e.generation)));
    CarriedOn(s, s1, ListenerFailed(s1, env, k, e.generation, false));
  }

  lemma QuietCarries(e: Entry, e': Entry)
    requires Quiet(e, e') && e'.lastEnd == e.lastEnd
    ensures CarriedEntry(e, e')
  {
  }

  lemma OneCarried(s: State, k: nat, e: Entry)
    requires Known(s) && k in s.entries && CarriedEntry(s.entries[k], e)
    ensures Carried(s, s.(entries := s.entries[k := e]))
  {
    forall x | x in s.entries ensures CarriedEntry(s.entries[x], s.entries[x]) {}
    WrittenCarries(s, s.(entries := s.entries[k := e]));
  }

  lemma RetryCarries(s: State, env: Env, k: nat)
    requires Inv(s)
    ensures Carried(s, Reattach(s, env, k))
  {
    hide Inv, Attach, Listed, Carried, Known, CarriedEntry;
    Unmoved(s);
    InvKnown(s);
    if k in s.entries && s.entries[k].retry {
      EntryIsOk(s, k);
      var e := s.entries[k];
      var s1 := s.(entries := s.entries[k := e.(retry := false)]);
      QuietCarries(e, e.(retry := false));
      OneCarried(s, k, e.(retry := false));
      if !s.stopping && Holds(s, k, e.generation) && Listed(s, e.group) {
        WritingIsGood(s, k, e.(retry := false), s.runs);
        GoodIsInv(s, s1);
        SameListing(s, s1, e.group);
        ListedIsFound(s, e.group);
        AttachCarries(s1, env, Find(s.groups, e.group).value);
        CarriedOn(s, s1, Reattach(s, env, k));
      }
    }
  }

  lemma {:induction false} PauseEachCarries(s: State, env: Env, groups: seq<Group>, bound: int)
    requires Inv(s) && AllListed(s, groups)
    ensures Carried(s, PauseEach(s, groups, bound))
    decreases |groups|
  {
    hide Inv, Listed, PauseOne, Carried;
    Unmoved(s);
    if groups != [] {
      var s1 := PauseOne(s, groups[0].id, bound);
      PauseOneIsGood(s, groups[0].id, bound);
      GoodIsInv(s, s1);
      SameGroups(s, s1, groups[1..]);
      PauseOneCarries(s, env, groups[0].id, bound);
      PauseEachCarries(s1, env, groups[1..], bound);
      CarriedOn(s, s1, PauseEach(s, groups, bound));
    }
  }

  lemma PauseOneCarries(s: State, env: Env, id: Id, bound: int)
    requires Inv(s) && Listed(s, id)
    ensures Carried(s, PauseOne(s, id, bound))
  {
    hide Inv, Lose, Listed, EntryFor, StopEntry, Carried;
    InvKnown(s);
    PiecesCarry(s, env, id, 0, 0);
    EntryForIsGood(s, id);
    var s1 := EntryFor(s, id);
    GoodIsInv(s, s1);
    InvKnown(s1);
    PiecesCarry(s1, env, id, 0, 0);
    var s2 := StopEntry(s1, id);
    StopEntryIsGood(s1, id);
    GoodIsInv(s1, s2);
    CarriedOn(s, s1, s2);
    CurrentIsListed(s2, id);
    var k := s2.current[id];
    var e := s2.entries[k].(listener := PausedListener, backfill := PausedBackfill);
    var s3 := s2.(entries := s2.entries[k := e]);
    EntryIsOk(s2, k);
    InvKnown(s2);
    QuietCarries(s2.entries[k], e);
    OneCarried(s2, k, e);
    CarriedOn(s, s2, s3);
    WritingIsGood(s2, k, e, s2.runs);
    GoodIsInv(s2, s3);
    InvKnown(s3);
    PiecesCarry(s3, env, id, k, bound);
    CarriedOn(s, s3, Lose(s3, k, bound));
  }

  lemma {:induction false} AttachEachCarries(s: State, env: Env, groups: seq<Group>)
    requires Inv(s) && AllListed(s, groups)
    ensures Carried(s, AttachEach(s, env, groups))
    decreases |groups|
  {
    hide Inv, Listed, Attach, Carried;
    Unmoved(s);
    if groups != [] {
      var s1 := Attach(s, env, groups[0]);
      AttachIsGood(s, env, groups[0]);
      GoodIsInv(s, s1);
      SameGroups(s, s1, groups[1..]);
      AttachCarries(s, env, groups[0]);
      AttachEachCarries(s1, env, groups[1..]);
      CarriedOn(s, s1, AttachEach(s, env, groups));
    }
  }

  lemma CommitKeepsEnds(s: State, env: Env, k: nat)
    requires Inv(s) && k in s.entries
    ensures k in Commit(s, env).entries && Commit(s, env).entries[k].lastEnd == s.entries[k].lastEnd
  {
    hide EntriesOk, Listed, PauseEach, AttachEach;
    GroupsAreListed(s);
    match s.control
    case Pausing(from) =>
      var s1 := s.(ingress := Ingress(true, Some(from)), control := Idle);
      SameEntriesOk(s, s1);
      SameGroups(s, s1, s.groups);
      PauseEachCarries(s1, env, s.groups, from);
    case Resuming =>
      var s1 := s.(ingress := Ingress(false, s.ingress.from), control := Idle);
      SameEntriesOk(s, s1);
      SameGroups(s, s1, s.groups);
      AttachEachCarries(s1, env, s.groups);
    case _ =>
  }

  lemma HumanCarries(s: State, env: Env, human: Human)
    requires Inv(s)
    ensures Carried(s, LoseDirect(s.(human := human), env, s.groups)) && Carried(s, QueueDirect(s.(human := human), env, s.groups))
  {
    hide Inv, LoseDirect, QueueDirect, Carried, Known;
    var s1 := s.(human := human);
    HumanIsGood(s, human);
    GoodIsInv(s, s1);
    GroupsAreListed(s1);
    InvKnown(s);
    SameRowsCarried(s, s1);
    LoseDirectCarries(s1, env, s.groups);
    QueueDirectCarries(s1, env, s.groups);
    CarriedOn(s, s1, LoseDirect(s1, env, s.groups));
    CarriedOn(s, s1, QueueDirect(s1, env, s.groups));
  }

  lemma SameRowsCarried(s: State, s': State)
    requires Known(s) && s'.entries == s.entries && s'.current == s.current && s'.ingress == s.ingress && s'.control == s.control
    ensures Carried(s, s')
  {
    WrittenCarries(s, s');
  }

  /** The backfill of the entry completes: it has read everything up to its end. */
  predicate Completes(s: State, event: Event, k: nat) {
    event == BackfillCompletes(k) && Active(s, k) && s.runs[k].phase == Processing(0)
  }

  lemma ReadingCarries(s: State, event: Event, env: Env)
    requires Inv(s) && (event.HistoryArrives? || event.MessageStarts? || event.BackfillBreaks?)
    ensures Carried(s, After(s, env, event))
  {
    hide Inv, Abandoned, Carried, CarriedEntry;
    InvKnown(s);
    var s' := After(s, env, event);
    forall k | k in s.entries ensures k in s'.entries && CarriedEntry(s.entries[k], s'.entries[k]) { ReadEntryCarries(s, event, env, k); }
    WrittenCarries(s, s');
  }

  lemma ReadEntryCarries(s: State, event: Event, env: Env, k: nat)
    requires k in s.entries && (event.HistoryArrives? || event.MessageStarts? || event.BackfillBreaks?)
    ensures var s' := After(s, env, event); k in s'.entries && CarriedEntry(s.entries[k], s'.entries[k])
  {
    hide Abandoned;
  }

  lemma SettlingCarries(s: State, env: Env, k: nat)
    requires Inv(s)
    ensures Carried(s, Finally(s, env, k))
  {
    hide Inv, Queue, Listed;
    Unmoved(s);
    if k in s.runs && k in s.entries && s.runs[k].phase.Ended? {
      EntryIsOk(s, k);
      var e := s.entries[k].(activeStart := None, running := false, queued := false);
      var s1 := s.(entries := s.entries[k := e], runs := s.runs - {k});
      WritingIsGood(s, k, e, s.runs - {k});
      GoodIsInv(s, s1);
      InvKnown(s1);
      QueueCarries(s1, env, e.group, false, false);
      CarriedOn(s, s1, Queue(s1, env, e.group, false, false));
    }
  }

  lemma ReadyCarries(s: State, env: Env, k: nat, generation: nat)
    requires Inv(s)
    ensures Carried(s, MarkListenerReady(s, env, k, generation))
  {
    hide Inv, Queue;
    Unmoved(s);
    if k in s.entries {
      EntryIsOk(s, k);
      var e := s.entries[k].(listener := Ready);
      var s1 := s.(entries := s.entries[k := e]);
      WritingIsGood(s, k, e, s.runs);
      GoodIsInv(s, s1);
      InvKnown(s1);
      QueueCarries(s1, env, e.group, true, e.required);
      CarriedOn(s, s1, Queue(s1, env, e.group, true, e.required));
    }
  }

  lemma JoiningCarries(s: State, env: Env, g: Group)
    requires Inv(s)
    ensures Carried(s, Join(s, env, g))
  {
    hide Inv, Listed, Attach;
    Unmoved(s);
    if !Listed(s, g.id) {
      var s1 := s.(groups := s.groups + [g]);
      ListingMore(s, g);
      GoodIsInv(s, s1);
      AttachCarries(s1, env, g);
      CarriedOn(s, s1, Join(s, env, g));
    }
  }

  lemma ListenerEventCarries(s: State, env: Env, event: Event)
    requires Inv(s) && (event.Poll? || event.BackfillSettles? || event.ListenerFails? || event.ListenerIsReady? || event.RetryTimer?)
    ensures Carried(s, After(s, env, event))
  {
    hide Inv, Queue, Finally, ListenerFailed, MarkListenerReady, Reattach, Carried;
    InvKnown(s);
    Unmoved(s);
    match event
    case Poll(id) => QueueCarries(s, env, id, false, false);
    case BackfillSettles(k) => SettlingCarries(s, env, k);
    case ListenerFails(k, generation) => FailureCarries(s, env, k, generation, true);
    case ListenerIsReady(k, generation) => ReadyCarries(s, env, k, generation);
    case RetryTimer(k) => RetryCarries(s, env, k);
  }

  lemma HumanEventCarries(s: State, env: Env, event: Event)
    requires Inv(s) && (event.HumanFails? || event.HumanIsReady? || event.HumanRetry?)
    ensures Carried(s, After(s, env, event))
  {
    hide Inv, LoseDirect, QueueDirect;
    Unmoved(s);
    match event
    case HumanFails(generation) => HumanCarries(s, env, s.human.(subscription := None, listener := Reconnecting));
    case HumanIsReady(generation) => HumanCarries(s, env, s.human.(listener := Ready));
    case HumanRetry(starts) => HumanCarries(s, env, Human(s.human.generation + 1, None, Reconnecting));
  }

  lemma StoppingAllCarries(s: State)
    requires Inv(s)
    ensures Carried(s, Stop(s))
  {
    hide Inv, Carried;
    InvKnown(s);
    WrittenCarries(s, Stop(s));
  }

  lemma ControlIsApart(s: State, env: Env, paused: bool)
    ensures BeginFinish(s) == s.(control := BeginFinish(s).control)
    ensures BeginPause(s, env, paused) == s.(control := BeginPause(s, env, paused).control)
    ensures SaveFails(s) == s.(control := SaveFails(s).control)
  {
    hide RecoveryComplete;
  }

  lemma LeavingCarries(s: State, id: Id)
    requires Inv(s)
    ensures var s' := Leave(s, id);
            && s'.ingress == s.ingress && (forall k :: k in s.entries ==> k in s'.entries && CarriedEntry(s.entries[k], s'.entries[k]))
            && forall x :: x in s'.current ==> x in s.current && s'.current[x] == s.current[x]
  {
    hide Inv, Drop;
  }

  lemma CompletionSetsEnd(s: State, k: nat, x: nat)
    requires x in s.entries
    ensures x in Complete(s, k).entries
    ensures Complete(s, k).entries[x].lastEnd == if Completes(s, BackfillCompletes(k), x) then Some(s.runs[x].end) else s.entries[x].lastEnd
  {
    hide ListenerReady;
  }

  /** Only a completing backfill changes the recorded end, to its own. */
  lemma StepKeepsEnds(s: State, env: Env, event: Event, k: nat)
    requires Inv(s) && k in s.entries
    ensures var s' := After(s, env, event);
            k in s'.entries && s'.entries[k].lastEnd == if Completes(s, event, k) then Some(s.runs[k].end) else s.entries[k].lastEnd
  {
    hide Inv, Queue, LoseDirect, QueueDirect, Finally, ListenerFailed, Reattach, Commit, Join, History, Message, Break, HumanAttach,
         HumanListenerFailed, HumanReady, Stop, Leave, MarkListenerReady, BeginFinish, BeginPause, SaveFails, Complete;
    match event
    case BackfillCompletes(x) => CompletionSetsEnd(s, x, k);
    case Saved => CommitKeepsEnds(s, env, k);
    case GroupJoins(g) => JoiningCarries(s, env, g);
    case HistoryArrives(_, _) => ReadingCarries(s, event, env);
    case MessageStarts(_) => ReadingCarries(s, event, env);
    case BackfillBreaks(_) => ReadingCarries(s, event, env);
    case HumanFails(_) => HumanEventCarries(s, env, event);
    case HumanIsReady(_) => HumanEventCarries(s, env, event);
    case HumanRetry(_) => HumanEventCarries(s, env, event);
    case FinishRecovery => ControlIsApart(s, env, false);
    case SetPaused(paused) => ControlIsApart(s, env, paused);
    case SaveFailed => ControlIsApart(s, env, false);
    case GroupLeaves(id) => LeavingCarries(s, id);
    case StopAll => StoppingAllCarries(s);
    case _ => ListenerEventCarries(s, env, event);
  }

  // ---------- The bound of the ingress ----------

  /** A group that no backfill has read completely owes everything from the bound of the ingress on. */
  ghost predicate UnreadOwes(s: State) {
    forall id :: id in s.current ==> UnreadGroupOwes(s, id)
  }

  predicate UnreadGroupOwes(s: State, id: Id)
    requires id in s.current
  {
    s.current[id] in s.entries
    && (s.ingress.from.Some? && s.entries[s.current[id]].lastEnd.None? ==> OwesFrom(s, s.current[id], s.ingress.from.value))
  }

  lemma CarriedUnreadOwes(s: State, s': State)
    requires Carried(s, s') && UnreadOwes(s)
    ensures UnreadOwes(s')
  {
    forall id | id in s'.current ensures UnreadGroupOwes(s', id) {
      if id in s.current { assert UnreadGroupOwes(s, id); } else { assert NewlyOwes(s', id); }
    }
  }

  lemma PauseOneOwes(s: State, id: Id, bound: int)
    requires Inv(s) && Listed(s, id)
    ensures var s' := PauseOne(s, id, bound); id in s'.current && OwesFrom(s', s'.current[id], bound)
  {
    hide Inv, Listed;
    EntryForIsGood(s, id);
    var s1 := EntryFor(s, id);
    GoodIsInv(s, s1);
    CurrentIsOk(s1, id);
  }

  /** Once a pause has taken effect every group owes everything from the pause's bound on. */
  lemma {:induction false} PauseEachOwes(s: State, env: Env, groups: seq<Group>, bound: int)
    requires Inv(s) && AllListed(s, groups)
    ensures var s' := PauseEach(s, groups, bound);
            s'.ingress == s.ingress && forall g :: g in groups ==> g.id in s'.current && OwesFrom(s', s'.current[g.id], bound)
    decreases |groups|
  {
    hide Inv, Listed, PauseOne, Good;
    Unmoved(s);
    if groups != [] {
      var s1 := PauseOne(s, groups[0].id, bound);
      PauseOneIsGood(s, groups[0].id, bound);
      GoodIsInv(s, s1);
      SameGroups(s, s1, groups[1..]);
      PauseOneOwes(s, groups[0].id, bound);
      PauseOneCarries(s, env, groups[0].id, bound);
      PauseEachCarries(s1, env, groups[1..], bound);
      PauseEachOwes(s1, env, groups[1..], bound);
      assert groups == [groups[0]] + groups[1..];
    }
  }

  lemma CommitUnreadOwes(s: State, env: Env)
    requires Inv(s) && UnreadOwes(s)
    ensures UnreadOwes(Commit(s, env))
  {
    hide EntriesOk, Listed, PauseEach, AttachEach, Carried, OwesFrom;
    GroupsAreListed(s);
    match s.control
    case Idle =>
    case Finishing => forall id | id in s.current ensures UnreadGroupOwes(Commit(s, env), id) { assert UnreadGroupOwes(s, id); }
    case Pausing(from) =>
      var s1 := s.(ingress := Ingress(true, Some(from)), control := Idle);
      SameEntriesOk(s, s1);
      SameGroups(s, s1, s.groups);
      PauseEachOwes(s1, env, s.groups, from);
      PauseEachIsGood(s1, s.groups, from);
      PauseEachKeepsGroups(s1, s.groups, from);
      EveryoneOwes(s1, Commit(s, env), s.groups, from);
    case Resuming =>
      var s1 := s.(ingress := Ingress(false, s.ingress.from), control := Idle);
      SameEntriesOk(s, s1);
      SameGroups(s, s1, s.groups);
      AttachEachCarries(s1, env, s.groups);
      forall id | id in s1.current ensures UnreadGroupOwes(s1, id) { assert UnreadGroupOwes(s, id); OwesAlike(s, s1, s.current[id]); }
      CarriedUnreadOwes(s1, Commit(s, env));
  }

  lemma OwesAlike(s: State, s': State, k: nat)
    requires s'.entries == s.entries
    ensures forall bound :: OwesFrom(s, k, bound) <==> OwesFrom(s', k, bound)
  {
  }

  lemma EveryoneOwes(s: State, s': State, groups: seq<Group>, bound: int)
    requires Inv(s') && s'.groups == groups && s'.ingress.from == Some(bound)
    requires forall g :: g in groups ==> g.id in s'.current && OwesFrom(s', s'.current[g.id], bound)
    ensures UnreadOwes(s')
  {
    forall id | id in s'.current ensures UnreadGroupOwes(s', id) {
      CurrentIsListed(s', id);
      FoundGroup(s'.groups, id);
    }
  }

  lemma {:induction false} PauseEachKeepsGroups(s: State, groups: seq<Group>, bound: int)
    requires Inv(s) && AllListed(s, groups)
    ensures PauseEach(s, groups, bound).groups == s.groups
    decreases |groups|
  {
    hide Inv, Listed, PauseOne, Good;
    if groups != [] {
      PauseOneIsGood(s, groups[0].id, bound);
      GoodIsInv(s, PauseOne(s, groups[0].id, bound));
      SameGroups(s, PauseOne(s, groups[0].id, bound), groups[1..]);
      PauseEachKeepsGroups(PauseOne(s, groups[0].id, bound), groups[1..], bound);
    }
  }

  lemma StepUnreadOwes(s: State, env: Env, event: Event)
    requires Inv(s) && UnreadOwes(s)
    ensures UnreadOwes(After(s, env, event))
  {
    hide Inv, Carried, UnreadOwes, Queue, LoseDirect, QueueDirect, Finally, ListenerFailed, Reattach, Commit, Join, History, Message, Break,
         HumanAttach, HumanListenerFailed, HumanReady, Stop, Leave, MarkListenerReady, BeginFinish, BeginPause, SaveFails, Complete;
    var s' := After(s, env, event);
    match event
    case BackfillCompletes(k) => CompletionUnreadOwes(s, k);
    case GroupLeaves(id) => LeavingUnreadOwes(s, id);
    case Saved => CommitUnreadOwes(s, env);
    case GroupJoins(g) => JoiningCarries(s, env, g); CarriedUnreadOwes(s, s');
    case HistoryArrives(_, _) => ReadingCarries(s, event, env); CarriedUnreadOwes(s, s');
    case MessageStarts(_) => ReadingCarries(s, event, env); CarriedUnreadOwes(s, s');
    case BackfillBreaks(_) => ReadingCarries(s, event, env); CarriedUnreadOwes(s, s');
    case HumanFails(_) => HumanEventCarries(s, env, event); CarriedUnreadOwes(s, s');
    case HumanIsReady(_) => HumanEventCarries(s, env, event); CarriedUnreadOwes(s, s');
    case HumanRetry(_) => HumanEventCarries(s, env, event); CarriedUnreadOwes(s, s');
    case FinishRecovery => ControlIsApart(s, env, false); SameRowsUnreadOwes(s, s');
    case SetPaused(paused) => ControlIsApart(s, env, paused); SameRowsUnreadOwes(s, s');
    case SaveFailed => ControlIsApart(s, env, false); SameRowsUnreadOwes(s, s');
    case StopAll => StoppingAllCarries(s); CarriedUnreadOwes(s, s');
    case _ => ListenerEventCarries(s, env, event); CarriedUnreadOwes(s, s');
  }

  lemma SameRowsUnreadOwes(s: State, s': State)
    requires UnreadOwes(s) && s'.entries == s.entries && s'.current == s.current && s'.ingress == s.ingress
    ensures UnreadOwes(s')
  {
    forall id | id in s'.current ensures UnreadGroupOwes(s', id) { assert UnreadGroupOwes(s, id); }
  }

  lemma CompletionUnreadOwes(s: State, k: nat)
    requires UnreadOwes(s)
    ensures UnreadOwes(Complete(s, k))
  {
    hide ListenerReady;
    var s' := Complete(s, k);
    forall id | id in s'.current ensures UnreadGroupOwes(s', id) { assert UnreadGroupOwes(s, id); }
  }

  lemma LeavingUnreadOwes(s: State, id: Id)
    requires Inv(s) && UnreadOwes(s)
    ensures UnreadOwes(Leave(s, id))
  {
    LeavingCarries(s, id);
    hide Inv, Leave, EntryKept;
    var s' := Leave(s, id);
    forall x | x in s'.current ensures UnreadGroupOwes(s', x) {
      assert UnreadGroupOwes(s, x);
      KeptOwes(s, s', s.current[x]);
    }
  }

  lemma KeptOwes(s: State, s': State, k: nat)
    requires k in s.entries && k in s'.entries && CarriedEntry(s.entries[k], s'.entries[k])
    ensures forall bound :: OwesFrom(s, k, bound) ==> OwesFrom(s', k, bound)
  {
  }

  lemma {:induction false} RunUnreadOwes(s: State, run: seq<Step>)
    requires Inv(s) && UnreadOwes(s)
    ensures UnreadOwes(AfterAll(s, run))
    decreases |run|
  {
    hide Inv, UnreadOwes, After;
    if run != [] {
      var next := After(s, run[0].env, run[0].event);
      StepIsSound(s, run[0].env, run[0].event);
      SoundIsInv(s, next, run[0].event);
      StepUnreadOwes(s, run[0].env, run[0].event);
      RunUnreadOwes(next, run[1..]);
    }
  }

  /** In every run, while the ingress has a bound, a group that no backfill has read completely owes everything from it on. */
  lemma EveryUnreadGroupOwes(ingress: Ingress, groups: seq<Group>, run: seq<Step>, id: Id)
    requires var s := AfterAll(Initial(ingress, groups), run);
             id in s.current && s.current[id] in s.entries && s.ingress.from.Some? && s.entries[s.current[id]].lastEnd.None?
    ensures var s := AfterAll(Initial(ingress, groups), run); OwesFrom(s, s.current[id], s.ingress.from.value)
  {
    InitialIsGood(ingress, groups);
    NobodyYet(ingress, groups);
    hide Inv, UnreadOwes, After;
    RunUnreadOwes(Initial(ingress, groups), run);
    UnreadAt(AfterAll(Initial(ingress, groups), run), id);
  }

  lemma NobodyYet(ingress: Ingress, groups: seq<Group>)
    ensures UnreadOwes(Initial(ingress, groups))
  {
  }

  lemma UnreadAt(s: State, id: Id)
    requires UnreadOwes(s) && id in s.current
    ensures UnreadGroupOwes(s, id)
  {
  }

  // ---------- Where a backfill begins and ends ----------

  /** A backfill reads from the default start, or in recovery from an earlier bound, to the moment it was asked for. */
  lemma BackfillReaches(s: State, env: Env, id: Id, queueAfterActive: bool, recovery: bool, k: nat)
    requires Inv(s) && Listed(s, id) && k !in s.runs && k in Queue(s, env, id, queueAfterActive, recovery).runs
    ensures var run := Queue(s, env, id, queueAfterActive, recovery).runs[k];
            var e := EntryFor(s, id).entries[k];
            && k in EntryFor(s, id).entries && e.group == id
            && run.phase.Reading? && run.end == env.now && (e.required ==> run.recovery)
            && run.start <= env.fallback(id) && (e.required ==> e.from.Some? && run.start <= e.from.value)
            && (run.start == env.fallback(id) || (e.required && e.from == Some(run.start)))
  {
  }
}
