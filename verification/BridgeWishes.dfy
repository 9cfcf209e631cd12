/**
  Listening leads to reading: a listener that becomes ready starts a backfill or has one noted, what is noted is started when the
  backfill in flight settles, and after a pause every group listens again.
*/
module BridgeWishes {
  import opened Wrappers
  import opened Bridge
  import opened BridgeSafety
  import opened BridgeDebts
  import opened BridgeCoverage

  // ---------- A noted backfill stays noted ----------

  predicate Numbered(s: State) {
    forall k :: k in s.entries ==> k < s.next
  }

  /** Every entry that was there is there, with what was noted for it. */
  ghost predicate WishesKept(s: State, s': State) {
    Numbered(s') && forall k :: k in s.entries ==> k in s'.entries && (s.entries[k].queued ==> s'.entries[k].queued)
  }

  lemma QueueingKeeps(s: State, env: Env, id: Id, queueAfterActive: bool, recovery: bool)
    requires Numbered(s)
    ensures WishesKept(s, Queue(s, env, id, queueAfterActive, recovery))
  {
  }

  lemma AttachingKeeps(s: State, env: Env, g: Group)
    requires Numbered(s)
    ensures WishesKept(s, Attach(s, env, g))
  {
    hide LossBound;
  }

  lemma {:induction false} LosingKeeps(s: State, env: Env, groups: seq<Group>)
    requires Numbered(s)
    ensures WishesKept(s, LoseDirect(s, env, groups))
    decreases |groups|
  {
    hide LossBound;
    if groups != [] {
      if groups[0].direct {
        var s1 := EntryFor(s, groups[0].id);
        var k := s1.current[groups[0].id];
        var s2 := if k in s1.entries then Lose(s1, k, LossBound(env, s1.entries[k])) else s1;
        assert WishesKept(s, s2);
        LosingKeeps(s2, env, groups[1..]);
        hide EntryFor, Lose;
      } else {
        LosingKeeps(s, env, groups[1..]);
      }
    }
  }

  lemma {:induction false} ReadyingKeeps(s: State, env: Env, groups: seq<Group>)
    requires Numbered(s)
    ensures WishesKept(s, QueueDirect(s, env, groups))
    decreases |groups|
  {
    if groups != [] {
      if groups[0].direct {
        var s1 := EntryFor(s, groups[0].id);
        assert WishesKept(s, s1);
        var k := s1.current[groups[0].id];
        var recovery := k in s1.entries && s1.entries[k].required;
        QueueingKeeps(s1, env, groups[0].id, true, recovery);
        ReadyingKeeps(Queue(s1, env, groups[0].id, true, recovery), env, groups[1..]);
        hide EntryFor, Queue;
      } else {
        ReadyingKeeps(s, env, groups[1..]);
      }
    }
  }

  lemma {:induction false} PausingKeeps(s: State, groups: seq<Group>, bound: int)
    requires Numbered(s)
    ensures WishesKept(s, PauseEach(s, groups, bound))
    decreases |groups|
  {
    if groups != [] {
      var s1 := PauseOne(s, groups[0].id, bound);
      assert WishesKept(s, s1);
      PausingKeeps(s1, groups[1..], bound);
      hide PauseOne;
    }
  }

  lemma {:induction false} ResumingKeeps(s: State, env: Env, groups: seq<Group>)
    requires Numbered(s)
    ensures WishesKept(s, AttachEach(s, env, groups))
    decreases |groups|
  {
    if groups != [] {
      AttachingKeeps(s, env, groups[0]);
      ResumingKeeps(Attach(s, env, groups[0]), env, groups[1..]);
      hide Attach;
    }
  }

  lemma CommitKeeps(s: State, env: Env)
    requires Numbered(s)
    ensures WishesKept(s, Commit(s, env))
  {
    match s.control
    case Pausing(from) => PausingKeeps(s.(ingress := Ingress(true, Some(from)), control := Idle), s.groups, from);
    case Resuming => ResumingKeeps(s.(ingress := Ingress(false, s.ingress.from), control := Idle), env, s.groups);
    case _ =>
  }

  lemma HumanKeeps(s: State, env: Env, event: Event)
    requires Numbered(s) && (event.HumanFails? || event.HumanIsReady? || event.HumanRetry?)
    ensures WishesKept(s, After(s, env, event))
  {
    hide LoseDirect, QueueDirect;
    match event
    case HumanFails(_) => LosingKeeps(s.(human := s.human.(subscription := None, listener := Reconnecting)), env, s.groups);
    case HumanIsReady(_) => ReadyingKeeps(s.(human := s.human.(listener := Ready)), env, s.groups);
    case HumanRetry(_) => LosingKeeps(s.(human := Human(s.human.generation + 1, None, Reconnecting)), env, s.groups);
  }

  lemma EntryEventKeeps(s: State, env: Env, event: Event)
    requires Numbered(s)
    requires event.HistoryArrives? || event.MessageStarts? || event.BackfillBreaks? || event.BackfillCompletes? || event.ListenerFails?
             || event.ListenerIsReady? || event.Poll? || event.RetryTimer? || event.GroupJoins?
    ensures WishesKept(s, After(s, env, event))
  {
    hide LossBound, Queue, Attach;
    match event
    case Poll(id) => QueueingKeeps(s, env, id, false, false);
    case ListenerIsReady(k, _) =>
      if k in s.entries {
        var e := s.entries[k];
        QueueingKeeps(s.(entries := s.entries[k := e.(listener := Ready)]), env, e.group, true, e.required);
      }
    case RetryTimer(k) =>
      if k in s.entries && Listed(s, s.entries[k].group) {
        AttachingKeeps(s.(entries := s.entries[k := s.entries[k].(retry := false)]), env, Find(s.groups, s.entries[k].group).value);
      }
    case GroupJoins(g) => AttachingKeeps(s.(groups := s.groups + [g]), env, g);
    case _ =>
  }

  lemma StepKeepsWishes(s: State, env: Env, event: Event)
    requires Numbered(s) && !event.BackfillSettles?
    ensures WishesKept(s, After(s, env, event))
  {
    match event
    case HumanFails(_) => HumanKeeps(s, env, event);
    case HumanIsReady(_) => HumanKeeps(s, env, event);
    case HumanRetry(_) => HumanKeeps(s, env, event);
    case Saved => CommitKeeps(s, env);
    case FinishRecovery => hide RecoveryComplete;
    case SetPaused(_) =>
    case SaveFailed =>
    case GroupLeaves(id) => hide Drop;
    case StopAll =>
    case _ => EntryEventKeeps(s, env, event);
  }

  lemma SettlingKeepsOthers(s: State, env: Env, x: nat, k: nat)
    requires Numbered(s) && x != k && k in s.entries
    ensures var s' := Finally(s, env, x); Numbered(s') && k in s'.entries && (s.entries[k].queued ==> s'.entries[k].queued)
  {
    hide Queue;
    if x in s.runs && x in s.entries {
      var e := s.entries[x];
      QueueingKeeps(s.(entries := s.entries[x := e.(activeStart := None, running := false, queued := false)], runs := s.runs - {x}), env, e.group,
                    false, false);
    }
  }

  predicate Noted(s: State, k: nat) {
    k in s.entries && s.entries[k].queued
  }

  lemma StepStaysNoted(s: State, env: Env, event: Event, k: nat)
    requires Inv(s) && Noted(s, k) && event != BackfillSettles(k)
    ensures Noted(After(s, env, event), k)
  {
    assert Numbered(s);
    if event.BackfillSettles? {
      SettlingKeepsOthers(s, env, event.entry, k);
    } else {
      StepKeepsWishes(s, env, event);
    }
    hide Inv, Finally;
  }

  lemma {:induction false} RunStaysNoted(s: State, run: seq<Step>, k: nat)
    requires Inv(s) && Noted(s, k) && forall i :: 0 <= i < |run| ==> run[i].event != BackfillSettles(k)
    ensures Noted(AfterAll(s, run), k) && Inv(AfterAll(s, run))
    decreases |run|
  {
    hide Inv, After, Noted;
    if run != [] {
      var next := After(s, run[0].env, run[0].event);
      StepStaysNoted(s, run[0].env, run[0].event, k);
      StepIsSound(s, run[0].env, run[0].event);
      SoundIsInv(s, next, run[0].event);
      RunStaysNoted(next, run[1..], k);
    }
  }

  /** The backfill reads from the default start, or in recovery from an earlier bound, to now; what is owed, it recovers. */
  predicate Reads(s: State, env: Env, k: nat, id: Id, e: Entry) {
    k in s.runs
    && var run := s.runs[k];
       run.phase.Reading? && run.end == env.now && run.start <= env.fallback(id)
       && (e.required ==> run.recovery && e.from.Some? && run.start <= e.from.value)
  }

  lemma QueueReads(s: State, env: Env, id: Id, queueAfterActive: bool, recovery: bool)
    requires Inv(s) && Listed(s, id) && id in s.current && !s.ingress.paused && !s.stopping
    ensures var k, s' := s.current[id], Queue(s, env, id, queueAfterActive, recovery);
            k in s.entries && k in s'.entries
            && if k in s.runs then s'.runs == s.runs && s'.entries[k].queued == (s.entries[k].queued || queueAfterActive)
               else Reads(s', env, k, id, s.entries[k])
  {
    CurrentIsOk(s, id);
    var k := s.current[id];
    EntryIsOk(s, k);
    if k !in s.runs { BackfillReaches(s, env, id, queueAfterActive, recovery, k); }
    hide Inv, Listed, IsDirect;
  }

  /** The listener of a group that becomes ready starts a backfill, or one is noted behind the backfill in flight. */
  lemma ReadyReads(s: State, env: Env, k: nat, generation: nat)
    requires Inv(s) && !s.stopping && !s.ingress.paused && Holds(s, k, generation)
    requires s.entries[k].subscription == Some(generation) && !s.entries[k].listener.Ready?
    ensures var s' := After(s, env, ListenerIsReady(k, generation));
            if k in s.runs then s'.runs == s.runs && Noted(s', k) else Reads(s', env, k, s.entries[k].group, s.entries[k])
  {
    var e := s.entries[k];
    var s1 := s.(entries := s.entries[k := e.(listener := Ready)]);
    ReadyIsInv(s, k);
    hide Inv, Queue, Listed;
    QueueReads(s1, env, e.group, true, e.required);
  }

  lemma ReadyIsInv(s: State, k: nat)
    requires Inv(s) && k in s.entries && s.entries[k].group in s.current && s.current[s.entries[k].group] == k
    ensures var s1 := s.(entries := s.entries[k := s.entries[k].(listener := Ready)]);
            Inv(s1) && Listed(s1, s.entries[k].group)
  {
    var e := s.entries[k];
    EntryIsOk(s, k);
    CurrentIsListed(s, e.group);
    WritingIsGood(s, k, e.(listener := Ready), s.runs);
    hide Inv;
    GoodIsInv(s, s.(entries := s.entries[k := e.(listener := Ready)]));
  }

  /** However the run goes on, what was noted is read when the backfill in flight settles, unless the ingress is stopped or paused
      then or the group has left. */
  lemma NotedIsRead(s: State, run: seq<Step>, env: Env, k: nat)
    requires Inv(s) && Noted(s, k) && forall i :: 0 <= i < |run| ==> run[i].event != BackfillSettles(k)
    requires var s' := AfterAll(s, run);
             k in s'.runs && k in s'.entries && s'.runs[k].phase.Ended? && !s'.stopping && !s'.ingress.paused
             && s'.entries[k].group in s'.current && s'.current[s'.entries[k].group] == k
    ensures var s' := AfterAll(s, run); Reads(After(s', env, BackfillSettles(k)), env, k, s'.entries[k].group, s'.entries[k])
  {
    hide Inv, AfterAll;
    RunStaysNoted(s, run, k);
    SettlingReads(AfterAll(s, run), env, k);
  }

  lemma SettlingReads(s: State, env: Env, k: nat)
    requires Inv(s) && Noted(s, k) && k in s.runs && s.runs[k].phase.Ended? && !s.stopping && !s.ingress.paused
    requires s.entries[k].group in s.current && s.current[s.entries[k].group] == k
    ensures Reads(Finally(s, env, k), env, k, s.entries[k].group, s.entries[k])
  {
    var id, e := s.entries[k].group, s.entries[k].(activeStart := None, running := false, queued := false);
    var s1 := s.(entries := s.entries[k := e], runs := s.runs - {k});
    EntryIsOk(s, k);
    CurrentIsListed(s, id);
    WritingIsGood(s, k, e, s.runs - {k});
    GoodIsInv(s, s1);
    assert Listed(s1, id);
    hide Inv, Queue, Listed;
    QueueReads(s1, env, id, false, false);
  }

  // ---------- Listening again ----------

  /** The group has a subscription, or a reconnect is pending. */
  predicate Listens(s: State, id: Id) {
    id in s.current && s.current[id] in s.entries && (s.entries[s.current[id]].subscription.Some? || s.entries[s.current[id]].retry)
  }

  lemma AttachedListens(s: State, env: Env, g: Group)
    requires Known(s) && !s.stopping && !s.ingress.paused && !g.direct && (g.id in s.current ==> s.entries[s.current[g.id]].group == g.id)
    ensures Listens(Attach(s, env, g), g.id)
  {
    hide LossBound;
  }

  lemma AttachingStaysListening(s: State, env: Env, g: Group, id: Id)
    requires Inv(s) && Listens(s, id) && Listed(s, g.id)
    ensures Listens(Attach(s, env, g), id)
  {
    hide LossBound, Listed;
    CurrentIsOk(s, id);
    if g.id in s.current { CurrentIsOk(s, g.id); }
  }

  lemma {:induction false} EveryoneListens(s: State, env: Env, groups: seq<Group>, id: Id)
    requires Inv(s) && AllListed(s, groups) && !s.stopping && !s.ingress.paused
    requires Listens(s, id) || exists g :: g in groups && !g.direct && g.id == id
    ensures Listens(AttachEach(s, env, groups), id)
    decreases |groups|
  {
    if groups != [] {
      var g := groups[0];
      var next := Attach(s, env, g);
      InvKnown(s);
      if g.id in s.current { CurrentIsOk(s, g.id); }
      if !g.direct { AttachedListens(s, env, g); }
      if Listens(s, id) { AttachingStaysListening(s, env, g, id); }
      AttachingIsApart(s, env, g);
      AttachIsGood(s, env, g);
      GoodIsInv(s, next);
      SameGroups(s, next, groups[1..]);
      hide Inv, Attach, Listens, Listed;
      EveryoneListens(next, env, groups[1..], id);
    }
  }

  lemma AttachingIsApart(s: State, env: Env, g: Group)
    ensures var s' := Attach(s, env, g); s'.stopping == s.stopping && s'.ingress == s.ingress && s'.groups == s.groups
  {
    hide LossBound;
  }

  /** When a pause ends, every group that has a listener of its own listens again, or a reconnect is pending for it. */
  lemma ResumedListens(s: State, env: Env, g: Group)
    requires Inv(s) && s.control.Resuming? && !s.stopping && g in s.groups && !g.direct
    ensures var s' := After(s, env, Saved); !s'.ingress.paused && s'.ingress.from == s.ingress.from && Listens(s', g.id)
  {
    var s1 := s.(ingress := Ingress(false, s.ingress.from), control := Idle);
    assert Inv(s1) by { ResumingIsInv(s); }
    GroupsAreListed(s);
    SameGroups(s, s1, s.groups);
    hide Inv, AttachEach, Listens;
    EveryoneListens(s1, env, s.groups, g.id);
    AttachingEachIsApart(s1, env, s.groups);
  }

  lemma ResumingIsInv(s: State)
    requires Inv(s)
    ensures Inv(s.(ingress := Ingress(false, s.ingress.from), control := Idle))
  {
    var s' := s.(ingress := Ingress(false, s.ingress.from), control := Idle);
    forall id | id in s.current ensures CurrentOk(s', id) { assert CurrentOk(s, id); }
  }

  lemma {:induction false} AttachingEachIsApart(s: State, env: Env, groups: seq<Group>)
    ensures AttachEach(s, env, groups).ingress == s.ingress
    decreases |groups|
  {
    if groups != [] {
      AttachingIsApart(s, env, groups[0]);
      AttachingEachIsApart(Attach(s, env, groups[0]), env, groups[1..]);
    }
  }
}
