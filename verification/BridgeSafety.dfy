/**
  Recovery is sound: what a lost listener or a pause may have missed is owed until one complete
  backfill from a start no later than the bound, undisturbed since it began, and bounds never move
  later.
*/
module BridgeSafety {
  import opened Wrappers
  import opened Bridge

  // ---------- Invariants ----------

  function RunAt(s: State, k: nat): Option<Run> {
    if k in s.runs then Some(s.runs[k]) else None
  }

  /** An entry and the backfill in flight for it. */
  predicate EntryOk(e: Entry, run: Option<Run>) {
    && (e.required <==> e.from.Some?) && (e.running <==> run.Some?)
    && (run.Some? ==>
          && run.value.epoch <= e.epoch && (run.value.disturbed <==> run.value.epoch != e.epoch)
          && (!run.value.phase.Ended? ==> e.activeStart == Some(run.value.start))
          && (!run.value.phase.Ended? && run.value.recovery && !run.value.disturbed && e.from.Some? ==> run.value.start <= e.from.value))
  }

  ghost predicate EntriesOk(s: State) {
    && (forall k :: k in s.entries ==> k < s.next && EntryOk(s.entries[k], RunAt(s, k)))
    && (forall k :: k in s.runs ==> k in s.entries)
    && (forall id :: id in s.current ==> CurrentOk(s, id))
  }

  predicate CurrentOk(s: State, id: Id)
    requires id in s.current
  {
    s.current[id] in s.entries && s.entries[s.current[id]].group == id && Listed(s, id)
  }

  /** What a control operation in flight relies on. */
  predicate ControlOk(s: State) {
    match s.control
    case Finishing => s.ingress.from.Some? && !s.ingress.paused
    case Pausing(from) => s.ingress.from.Some? ==> from <= s.ingress.from.value
    case _ => true
  }

  ghost predicate Inv(s: State) {
    EntriesOk(s) && ControlOk(s)
  }

  // ---------- What a step may do to an entry ----------

  /** The bound only moves earlier, and a new loss raises the epoch. */
  predicate EntryKept(e: Entry, e': Entry) {
    && e'.group == e.group && e.epoch <= e'.epoch
    && (e.required ==> e'.required && (e.from.Some? ==> e'.from.Some? && e'.from.value <= e.from.value))
    && (e'.epoch == e.epoch ==> e'.from == e.from && e'.required == e.required)
  }

  ghost predicate EntriesKept(s: State, s': State) {
    forall k :: k in s.entries ==> k in s'.entries && EntryKept(s.entries[k], s'.entries[k])
  }

  ghost predicate Good(s: State, s': State) {
    Inv(s') && EntriesKept(s, s') && s'.ingress == s.ingress && (s'.control.Finishing? ==> s.control.Finishing?)
  }

  lemma Chain(a: State, b: State, c: State)
    requires Good(a, b) && Good(b, c)
    ensures Good(a, c)
  {
    hide Inv;
    forall k | k in a.entries ensures k in c.entries && EntryKept(a.entries[k], c.entries[k]) {
      assert EntryKept(a.entries[k], b.entries[k]) && EntryKept(b.entries[k], c.entries[k]);
    }
  }

  lemma EntryForIsGood(s: State, id: Id)
    requires Inv(s) && Listed(s, id)
    ensures Good(s, EntryFor(s, id)) && EntryFor(s, id).groups == s.groups && CurrentOk(EntryFor(s, id), id)
  {
    hide EntryOk, EntryKept;
    var s' := EntryFor(s, id);
    forall k | k in s.entries ensures EntryKept(s.entries[k], s'.entries[k]) { EntryStays(s.entries[k]); }
    if id !in s.current {
      NewEntryOk(s'.entries[s.next]);
      forall x | x in s'.current ensures CurrentOk(s', x) {
        if x != id { assert CurrentOk(s, x); }
      }
    } else {
      assert CurrentOk(s, id);
    }
  }

  lemma EntryStays(e: Entry)
    ensures EntryKept(e, e)
  {
  }

  lemma NewEntryOk(e: Entry)
    requires !e.running && (e.required <==> e.from.Some?)
    ensures EntryOk(e, None)
  {
  }

  lemma LosingIsGood(s: State, k: nat, bound: int)
    requires Inv(s) && k in s.entries
    ensures Good(s, Lose(s, k, bound))
  {
  }

  /** Writing an entry without touching what it owes. */
  predicate Quiet(e: Entry, e': Entry) {
    e'.group == e.group && e'.epoch == e.epoch && e'.from == e.from && e'.required == e.required
  }

  lemma WritingIsGood(s: State, k: nat, e: Entry, runs: map<nat, Run>)
    requires Inv(s) && k in s.entries && Quiet(s.entries[k], e) && EntryOk(e, if k in runs then Some(runs[k]) else None)
    requires runs - {k} == s.runs - {k}
    ensures Good(s, s.(entries := s.entries[k := e], runs := runs))
  {
    forall x | x != k ensures (x in runs <==> x in s.runs) && (x in runs && x in s.runs ==> runs[x] == s.runs[x]) {
      assert x in runs <==> x in runs - {k};
      assert x in s.runs <==> x in s.runs - {k};
      if x in runs { assert (runs - {k})[x] == (s.runs - {k})[x]; }
    }
  }

  // ---------- Backfills ----------

  lemma QueueIsGood(s: State, env: Env, id: Id, queueAfterActive: bool, recovery: bool)
    requires Inv(s) && Listed(s, id)
    ensures Good(s, Queue(s, env, id, queueAfterActive, recovery))
    ensures Queue(s, env, id, queueAfterActive, recovery).groups == s.groups
  {
    hide Inv, Good, EntryFor, QueueEntry;
    var s1, s' := EntryFor(s, id), Queue(s, env, id, queueAfterActive, recovery);
    EntryForIsGood(s, id);
    GoodIsInv(s, s1);
    QueueingWrites(s1, env, id, queueAfterActive, recovery);
    Chain(s, s1, s');
  }

  lemma QueueingWrites(s: State, env: Env, id: Id, queueAfterActive: bool, recovery: bool)
    requires Inv(s) && id in s.current
    ensures Good(s, QueueEntry(s, env, id, queueAfterActive, recovery))
    ensures QueueEntry(s, env, id, queueAfterActive, recovery).groups == s.groups
  {
    hide Inv, Good, IsDirect, Listed;
    Unchanged(s);
    var s', k := QueueEntry(s, env, id, queueAfterActive, recovery), s.current[id];
    if s' != s {
      EntryIsOk(s, k);
      WritingIsGood(s, k, s'.entries[k], s'.runs);
    }
  }

  lemma EntryIsOk(s: State, k: nat)
    requires Inv(s) && k in s.entries
    ensures EntryOk(s.entries[k], RunAt(s, k))
  {
  }

  lemma PhaseIsGood(s: State, k: nat, phase: Phase)
    requires Inv(s) && Active(s, k)
    ensures Good(s, ToPhase(s, k, phase))
  {
    hide EntriesOk, ControlOk, EntriesKept;
    EntryIsOk(s, k);
    assert s.entries[k := s.entries[k]] == s.entries;
    WritingIsGood(s, k, s.entries[k], s.runs[k := s.runs[k].(phase := phase)]);
  }

  lemma BreakIsGood(s: State, k: nat)
    requires Inv(s)
    ensures Good(s, Break(s, k))
  {
    hide EntriesOk, ControlOk, EntriesKept, ToPhase;
    Unchanged(s);
    if Active(s, k) {
      PhaseIsGood(s, k, Ended);
      FailureIsGood(s, k);
    }
  }

  lemma FailureIsGood(s: State, k: nat)
    requires Inv(s) && Active(s, k)
    ensures Good(s, ToPhase(s.(entries := s.entries[k := s.entries[k].(backfill := Failed)]), k, Ended))
  {
    hide EntriesOk, ControlOk, EntriesKept;
    EntryIsOk(s, k);
    WritingIsGood(s, k, s.entries[k].(backfill := Failed), s.runs[k := s.runs[k].(phase := Ended)]);
  }

  /** The steps of a backfill other than its completion. */
  lemma BackfillStepsAreGood(s: State, k: nat, count: Option<nat>)
    requires Inv(s)
    ensures Good(s, History(s, k, count)) && Good(s, Message(s, k)) && Good(s, Break(s, k))
  {
    hide EntriesOk, ControlOk, EntriesKept, Abandoned, ToPhase, Break;
    Unchanged(s);
    BreakIsGood(s, k);
    if Active(s, k) {
      PhaseIsGood(s, k, Ended);
      if count.Some? { PhaseIsGood(s, k, Processing(count.value)); }
      if s.runs[k].phase.Processing? && 0 < s.runs[k].phase.left { PhaseIsGood(s, k, Processing(s.runs[k].phase.left - 1)); }
    }
  }

  lemma Unchanged(s: State)
    requires Inv(s)
    ensures Good(s, s)
  {
  }

  lemma FinallyIsGood(s: State, env: Env, k: nat)
    requires Inv(s)
    ensures Good(s, Finally(s, env, k))
  {
    hide EntriesOk, ControlOk, EntriesKept, Listed, Queue;
    Unchanged(s);
    if k in s.runs && k in s.entries && s.runs[k].phase.Ended? {
      EntryIsOk(s, k);
      var e := s.entries[k];
      var e' := e.(activeStart := None, running := false, queued := false);
      var s1 := s.(entries := s.entries[k := e'], runs := s.runs - {k});
      WritingIsGood(s, k, e', s.runs - {k});
      if e.queued && !s.stopping && !s.ingress.paused && Listed(s, e.group) {
        SameListing(s, s1, e.group);
        QueueIsGood(s1, env, e.group, false, false);
        Chain(s, s1, Finally(s, env, k));
      }
    }
  }

  lemma SameListing(s: State, s': State, id: Id)
    requires s'.groups == s.groups
    ensures Listed(s', id) <==> Listed(s, id)
  {
  }

  // ---------- Completion ----------

  /** The backfill in flight read everything from its start on, undisturbed, and started no later than the bound. */
  predicate Settles(s: State, k: nat) {
    && Active(s, k) && s.runs[k].phase == Processing(0) && s.runs[k].recovery && !s.runs[k].disturbed
    && s.entries[k].from.Some? && s.runs[k].start <= s.entries[k].from.value && ListenerReady(s, k, s.runs[k].direct)
  }

  predicate Recovers(s: State, k: nat) {
    Active(s, k) && s.runs[k].phase == Processing(0) && s.runs[k].recovery && s.entries[k].epoch == s.runs[k].epoch
    && ListenerReady(s, k, s.runs[k].direct)
  }

  lemma CompletionIsGood(s: State, k: nat)
    requires Inv(s) && k in s.entries
    ensures !Recovers(s, k) ==> Good(s, Complete(s, k))
    ensures Recovers(s, k) && s.entries[k].required ==> Settles(s, k)
    ensures Inv(Complete(s, k)) && Complete(s, k).ingress == s.ingress && (Complete(s, k).control.Finishing? <==> s.control.Finishing?)
    ensures forall x :: x in s.entries && x != k ==> x in Complete(s, k).entries && Complete(s, k).entries[x] == s.entries[x]
  {
    hide EntriesOk, ControlOk, EntriesKept, Listed;
    EntryIsOk(s, k);
    Unchanged(s);
    if Active(s, k) && s.runs[k].phase == Processing(0) {
      var s' := Complete(s, k);
      if Recovers(s, k) {
        RecoveringKeepsInv(s, k, s'.entries[k]);
      } else {
        WritingIsGood(s, k, s'.entries[k], s'.runs);
      }
    }
  }

  lemma RecoveringKeepsInv(s: State, k: nat, e: Entry)
    requires Inv(s) && Active(s, k) && e.group == s.entries[k].group && !e.required && e.from.None? && e.running
    requires e.epoch == s.entries[k].epoch
    ensures Inv(s.(entries := s.entries[k := e], runs := s.runs[k := s.runs[k].(phase := Ended)]))
  {
    var s' := s.(entries := s.entries[k := e], runs := s.runs[k := s.runs[k].(phase := Ended)]);
    assert EntryOk(s.entries[k], RunAt(s, k));
    assert EntriesOk(s') by {
      forall x | x in s'.entries ensures x < s'.next && EntryOk(s'.entries[x], RunAt(s', x)) {
        if x != k { assert EntryOk(s.entries[x], RunAt(s, x)); }
      }
      forall id | id in s'.current ensures CurrentOk(s', id) { assert CurrentOk(s, id); }
    }
  }

  // ---------- Listeners ----------

  lemma ListenerFailedIsGood(s: State, env: Env, k: nat, generation: nat, attached: bool)
    requires Inv(s)
    ensures Good(s, ListenerFailed(s, env, k, generation, attached)) && ListenerFailed(s, env, k, generation, attached).groups == s.groups
  {
    hide EntriesOk, ControlOk, EntriesKept, Lose;
    Unchanged(s);
    var s' := ListenerFailed(s, env, k, generation, attached);
    if s' != s {
      EntryIsOk(s, k);
      var e := s.entries[k];
      var e' := e.(subscription := None, listener := Reconnecting, retry := e.retry || !s.ingress.paused);
      var s1 := s.(entries := s.entries[k := e']);
      WritingIsGood(s, k, e', s.runs);
      LosingIsGood(s1, k, LossBound(env, e));
      Chain(s, s1, s');
    }
    LosingKeepsGroups(s, env, k, generation, attached);
  }

  lemma LosingKeepsGroups(s: State, env: Env, k: nat, generation: nat, attached: bool)
    ensures ListenerFailed(s, env, k, generation, attached).groups == s.groups
  {
  }

  lemma ReadyIsGood(s: State, env: Env, k: nat, generation: nat)
    requires Inv(s)
    ensures Good(s, MarkListenerReady(s, env, k, generation))
  {
    hide EntriesOk, ControlOk, EntriesKept, Queue, Listed;
    Unchanged(s);
    var s' := MarkListenerReady(s, env, k, generation);
    if s' != s {
      EntryIsOk(s, k);
      var e := s.entries[k];
      var s1 := s.(entries := s.entries[k := e.(listener := Ready)]);
      WritingIsGood(s, k, e.(listener := Ready), s.runs);
      CurrentIsListed(s1, e.group);
      QueueIsGood(s1, env, e.group, true, e.required);
      Chain(s, s1, s');
    }
  }

  lemma CurrentIsListed(s: State, id: Id)
    requires Inv(s) && id in s.current
    ensures Listed(s, id) && s.current[id] in s.entries
  {
    assert CurrentOk(s, id);
  }

  lemma AttachIsGood(s: State, env: Env, g: Group)
    requires Inv(s) && Listed(s, g.id)
    ensures Good(s, Attach(s, env, g)) && Attach(s, env, g).groups == s.groups
  {
    hide EntriesOk, ControlOk, EntriesKept, Listed, ListenerFailed;
    Unchanged(s);
    if !g.direct {
      var s1, s' := EntryFor(s, g.id), Attach(s, env, g);
      EntryForIsGood(s, g.id);
      var k := s1.current[g.id];
      if s' != s1 {
        EntryIsOk(s1, k);
        var e := s1.entries[k];
        var e' := e.(generation := e.generation + 1, listener := Starting);
        if env.starts(g.id) {
          WritingIsGood(s1, k, e'.(subscription := Some(e'.generation)), s1.runs);
        } else {
          var s2 := s1.(entries := s1.entries[k := e']);
          WritingIsGood(s1, k, e', s1.runs);
          ListenerFailedIsGood(s2, env, k, e'.generation, false);
          Chain(s1, s2, s');
        }
        Chain(s, s1, s');
      }
    }
  }

  lemma ReattachIsGood(s: State, env: Env, k: nat)
    requires Inv(s)
    ensures Good(s, Reattach(s, env, k))
  {
    hide EntriesOk, ControlOk, EntriesKept, Attach;
    Unchanged(s);
    if k in s.entries && s.entries[k].retry {
      EntryIsOk(s, k);
      var e := s.entries[k];
      var s1 := s.(entries := s.entries[k := e.(retry := false)]);
      WritingIsGood(s, k, e.(retry := false), s.runs);
      if !s.stopping && Holds(s, k, e.generation) && Listed(s, e.group) {
        FoundGroup(s.groups, e.group);
        AttachIsGood(s1, env, Find(s.groups, e.group).value);
        Chain(s, s1, Reattach(s, env, k));
      }
    }
  }

  lemma {:induction false} FoundGroup(groups: seq<Group>, id: Id)
    ensures var g := Find(groups, id); g.Some? ==> g.value.id == id && g.value in groups
    ensures Find(groups, id).Some? <==> exists g :: g in groups && g.id == id
    decreases |groups|
  {
    if groups != [] {
      FoundGroup(groups[1..], id);
      assert groups == [groups[0]] + groups[1..];
    }
  }

  lemma StopEntryIsGood(s: State, id: Id)
    requires Inv(s)
    ensures Good(s, StopEntry(s, id)) && StopEntry(s, id).groups == s.groups && StopEntry(s, id).current == s.current
  {
    hide EntriesOk, ControlOk, EntriesKept;
    Unchanged(s);
    if id in s.current && s.current[id] in s.entries {
      var k := s.current[id];
      EntryIsOk(s, k);
      WritingIsGood(s, k, StopEntry(s, id).entries[k], s.runs);
    }
  }

  // ---------- The shared listener ----------

  ghost predicate AllListed(s: State, groups: seq<Group>) {
    forall g :: g in groups ==> Listed(s, g.id)
  }

  lemma {:induction false} LoseDirectIsGood(s: State, env: Env, groups: seq<Group>)
    requires Inv(s) && AllListed(s, groups)
    ensures Good(s, LoseDirect(s, env, groups))
    decreases |groups|
  {
    hide EntriesOk, ControlOk, EntriesKept, Lose, Listed, EntryFor;
    Unchanged(s);
    if groups != [] {
      if groups[0].direct {
        var s1 := EntryFor(s, groups[0].id);
        EntryForIsGood(s, groups[0].id);
        var k := s1.current[groups[0].id];
        var s2 := Lose(s1, k, LossBound(env, s1.entries[k]));
        LosingIsGood(s1, k, LossBound(env, s1.entries[k]));
        Chain(s, s1, s2);
        SameGroups(s, s2, groups[1..]) by { assert s2.groups == s1.groups by { LoseGroups(s1, k, LossBound(env, s1.entries[k])); } }
        LoseDirectIsGood(s2, env, groups[1..]);
        Chain(s, s2, LoseDirect(s, env, groups));
      } else {
        LoseDirectIsGood(s, env, groups[1..]);
      }
    }
  }

  lemma LoseGroups(s: State, k: nat, bound: int)
    requires k in s.entries
    ensures Lose(s, k, bound).groups == s.groups
  {
  }

  lemma SameGroups(s: State, s': State, groups: seq<Group>)
    requires s'.groups == s.groups && AllListed(s, groups)
    ensures AllListed(s', groups)
  {
  }

  lemma {:induction false} QueueDirectIsGood(s: State, env: Env, groups: seq<Group>)
    requires Inv(s) && AllListed(s, groups)
    ensures Good(s, QueueDirect(s, env, groups))
    decreases |groups|
  {
    hide EntriesOk, ControlOk, EntriesKept, Queue, Listed, EntryFor;
    Unchanged(s);
    if groups != [] {
      if groups[0].direct {
        var s1 := EntryFor(s, groups[0].id);
        EntryForIsGood(s, groups[0].id);
        SameListing(s, s1, groups[0].id);
        var k := s1.current[groups[0].id];
        var s2 := Queue(s1, env, groups[0].id, true, s1.entries[k].required);
        QueueIsGood(s1, env, groups[0].id, true, s1.entries[k].required);
        Chain(s, s1, s2);
        SameGroups(s, s2, groups[1..]);
        QueueDirectIsGood(s2, env, groups[1..]);
        Chain(s, s2, QueueDirect(s, env, groups));
      } else {
        QueueDirectIsGood(s, env, groups[1..]);
      }
    }
  }

  lemma GroupsAreListed(s: State)
    ensures AllListed(s, s.groups)
  {
    forall g | g in s.groups ensures Listed(s, g.id) { FoundGroup(s.groups, g.id); }
  }

  lemma HumanIsGood(s: State, human: Human)
    requires Inv(s)
    ensures Good(s, s.(human := human))
  {
  }

  lemma HumanStepsAreGood(s: State, env: Env, generation: nat, attached: bool)
    requires Inv(s)
    ensures Good(s, HumanListenerFailed(s, env, generation, attached)) && Good(s, HumanReady(s, env, generation))
  {
    hide Good, Inv, LoseDirect, QueueDirect;
    Unchanged(s);
    GroupsAreListed(s);
    var failed, ready := s.human.(subscription := None, listener := Reconnecting), s.human.(listener := Ready);
    HumanIsGood(s, failed);
    GoodIsInv(s, s.(human := failed));
    HumanIsGood(s, ready);
    GoodIsInv(s, s.(human := ready));
    SameGroups(s, s.(human := failed), s.groups);
    LoseDirectIsGood(s.(human := failed), env, s.groups);
    Chain(s, s.(human := failed), LoseDirect(s.(human := failed), env, s.groups));
    SameGroups(s, s.(human := ready), s.groups);
    QueueDirectIsGood(s.(human := ready), env, s.groups);
    Chain(s, s.(human := ready), QueueDirect(s.(human := ready), env, s.groups));
  }

  lemma GoodIsInv(s: State, s': State)
    requires Good(s, s')
    ensures Inv(s')
  {
  }

  lemma HumanAttachIsGood(s: State, env: Env, starts: bool)
    requires Inv(s)
    ensures Good(s, HumanAttach(s, env, starts))
  {
    hide Good, Inv, HumanListenerFailed;
    Unchanged(s);
    var generation := s.human.generation + 1;
    HumanIsGood(s, Human(generation, Some(generation), Starting));
    var s1 := s.(human := Human(generation, None, Starting));
    HumanIsGood(s, s1.human);
    GoodIsInv(s, s1);
    HumanStepsAreGood(s1, env, generation, false);
    Chain(s, s1, HumanListenerFailed(s1, env, generation, false));
  }

  // ---------- The ingress ----------

  lemma PauseOneIsGood(s: State, id: Id, bound: int)
    requires Inv(s) && Listed(s, id)
    ensures Good(s, PauseOne(s, id, bound)) && PauseOne(s, id, bound).groups == s.groups
  {
    hide EntriesOk, ControlOk, EntriesKept, Lose, Listed, EntryFor, StopEntry;
    var s1 := EntryFor(s, id);
    EntryForIsGood(s, id);
    var s2 := StopEntry(s1, id);
    StopEntryIsGood(s1, id);
    Chain(s, s1, s2);
    var k := s2.current[id];
    CurrentIsListed(s2, id);
    EntryIsOk(s2, k);
    var e := s2.entries[k].(listener := PausedListener, backfill := PausedBackfill);
    var s3 := s2.(entries := s2.entries[k := e]);
    WritingIsGood(s2, k, e, s2.runs);
    Chain(s, s2, s3);
    LosingIsGood(s3, k, bound);
    Chain(s, s3, Lose(s3, k, bound));
    LoseGroups(s3, k, bound);
  }

  lemma {:induction false} PauseEachIsGood(s: State, groups: seq<Group>, bound: int)
    requires Inv(s) && AllListed(s, groups)
    ensures Good(s, PauseEach(s, groups, bound))
    decreases |groups|
  {
    hide EntriesOk, ControlOk, EntriesKept, Listed, PauseOne;
    Unchanged(s);
    if groups != [] {
      var s1 := PauseOne(s, groups[0].id, bound);
      PauseOneIsGood(s, groups[0].id, bound);
      SameGroups(s, s1, groups[1..]);
      PauseEachIsGood(s1, groups[1..], bound);
      Chain(s, s1, PauseEach(s, groups, bound));
    }
  }

  lemma {:induction false} AttachEachIsGood(s: State, env: Env, groups: seq<Group>)
    requires Inv(s) && AllListed(s, groups)
    ensures Good(s, AttachEach(s, env, groups))
    decreases |groups|
  {
    hide EntriesOk, ControlOk, EntriesKept, Listed, Attach;
    Unchanged(s);
    if groups != [] {
      var s1 := Attach(s, env, groups[0]);
      AttachIsGood(s, env, groups[0]);
      SameGroups(s, s1, groups[1..]);
      AttachEachIsGood(s1, env, groups[1..]);
      Chain(s, s1, AttachEach(s, env, groups));
    }
  }

  /** The bound of the ingress moves earlier, or is dropped by the end of a recovery that was found complete. */
  predicate IngressKept(s: State, s': State) {
    s.ingress.from.Some? ==> if s'.ingress.from.Some? then s'.ingress.from.value <= s.ingress.from.value else s.control.Finishing?
  }

  lemma CommitIsGood(s: State, env: Env)
    requires Inv(s)
    ensures Inv(Commit(s, env)) && EntriesKept(s, Commit(s, env)) && IngressKept(s, Commit(s, env)) && !Commit(s, env).control.Finishing?
  {
    hide EntriesOk, Listed, PauseEach, AttachEach, EntriesKept;
    GroupsAreListed(s);
    var s' := Commit(s, env);
    match s.control
    case Idle => KeptAll(s, s');
    case Finishing =>
      SameEntriesOk(s, s');
      KeptAll(s, s');
    case Pausing(from) =>
      var s1 := s.(ingress := Ingress(true, Some(from)), control := Idle);
      SameEntriesOk(s, s1);
      SameGroups(s, s1, s.groups);
      PauseEachIsGood(s1, s.groups, from);
      KeptFrom(s, s1, s');
    case Resuming =>
      var s1 := s.(ingress := Ingress(false, s.ingress.from), control := Idle);
      SameEntriesOk(s, s1);
      SameGroups(s, s1, s.groups);
      AttachEachIsGood(s1, env, s.groups);
      KeptFrom(s, s1, s');
  }

  lemma SameEntriesOk(s: State, s': State)
    requires EntriesOk(s) && s'.entries == s.entries && s'.runs == s.runs && s'.current == s.current && s'.groups == s.groups && s'.next == s.next
    ensures EntriesOk(s')
  {
    forall k | k in s'.entries ensures k < s'.next && EntryOk(s'.entries[k], RunAt(s', k)) { assert EntryOk(s.entries[k], RunAt(s, k)); }
    forall id | id in s'.current ensures CurrentOk(s', id) { assert CurrentOk(s, id); }
  }

  lemma KeptAll(s: State, s': State)
    requires s'.entries == s.entries
    ensures EntriesKept(s, s')
  {
  }

  lemma KeptFrom(s: State, s1: State, s': State)
    requires s1.entries == s.entries && EntriesKept(s1, s')
    ensures EntriesKept(s, s')
  {
  }

  lemma BeginningIsGood(s: State, env: Env, paused: bool)
    requires Inv(s)
    ensures Inv(BeginFinish(s)) && EntriesKept(s, BeginFinish(s)) && Good(s, BeginPause(s, env, paused)) && Good(s, SaveFails(s))
  {
    hide EntriesOk, EntriesKept, Recovered;
    KeptAll(s, BeginFinish(s));
    KeptAll(s, BeginPause(s, env, paused));
    KeptAll(s, SaveFails(s));
    SameEntriesOk(s, BeginFinish(s));
    SameEntriesOk(s, BeginPause(s, env, paused));
    SameEntriesOk(s, SaveFails(s));
  }

  // ---------- Groups come and go ----------

  lemma JoiningIsGood(s: State, env: Env, g: Group)
    requires Inv(s)
    ensures Good(s, Join(s, env, g))
  {
    hide EntriesOk, ControlOk, EntriesKept, Listed, Attach;
    Unchanged(s);
    if !Listed(s, g.id) {
      var s1 := s.(groups := s.groups + [g]);
      ListingMore(s, g);
      AttachIsGood(s1, env, g);
      Chain(s, s1, Join(s, env, g));
    }
  }

  lemma ListingMore(s: State, g: Group)
    requires Inv(s)
    ensures var s' := s.(groups := s.groups + [g]); Good(s, s') && Listed(s', g.id)
  {
    var s' := s.(groups := s.groups + [g]);
    forall id ensures Listed(s, id) || id == g.id ==> Listed(s', id) {
      FoundGroup(s.groups, id);
      FoundGroup(s'.groups, id);
      assert g in s'.groups;
    }
    forall id | id in s'.current ensures CurrentOk(s', id) { assert CurrentOk(s, id); }
    forall k | k in s'.entries ensures k < s'.next && EntryOk(s'.entries[k], RunAt(s', k)) { assert EntryOk(s.entries[k], RunAt(s, k)); }
  }

  lemma LeavingIsGood(s: State, id: Id)
    requires Inv(s)
    ensures Good(s, Leave(s, id))
  {
    hide Good, Inv;
    var s1 := StopEntry(s, id);
    StopEntryIsGood(s, id);
    GoodIsInv(s, s1);
    DroppingIsGood(s1, id);
    Chain(s, s1, Leave(s, id));
  }

  lemma DroppingIsGood(s: State, id: Id)
    requires Inv(s)
    ensures Good(s, s.(groups := Drop(s.groups, id), current := s.current - {id}))
  {
    hide EntryOk, EntryKept;
    var s' := s.(groups := Drop(s.groups, id), current := s.current - {id});
    forall x | x in s'.current ensures CurrentOk(s', x) {
      assert CurrentOk(s, x);
      DroppedStaysListed(s.groups, id, x);
    }
    forall k | k in s'.entries ensures k < s'.next && EntryOk(s'.entries[k], RunAt(s', k)) { assert EntryOk(s.entries[k], RunAt(s, k)); }
    forall k | k in s.entries ensures EntryKept(s.entries[k], s'.entries[k]) { EntryStays(s.entries[k]); }
  }

  lemma {:induction false} DroppedStaysListed(groups: seq<Group>, id: Id, x: Id)
    requires x != id
    ensures Find(Drop(groups, id), x) == Find(groups, x)
    decreases |groups|
  {
    if groups != [] { DroppedStaysListed(groups[1..], id, x); }
  }

  lemma StoppingIsGood(s: State)
    requires Inv(s)
    ensures Good(s, Stop(s))
  {
    hide EntryOk, EntryKept, EntriesKept;
    var s' := Stop(s);
    forall k | k in s'.entries ensures k < s'.next && EntryOk(s'.entries[k], RunAt(s', k)) {
      assert EntryOk(s.entries[k], RunAt(s, k));
      StoppedEntry(s.entries[k], s'.entries[k], RunAt(s, k));
    }
    forall id | id in s'.current ensures CurrentOk(s', id) { assert CurrentOk(s, id); }
    forall k | k in s.entries ensures EntryKept(s.entries[k], s'.entries[k]) { StoppedEntry(s.entries[k], s'.entries[k], RunAt(s, k)); }
    KeptEach(s, s');
  }

  lemma StoppedEntry(e: Entry, e': Entry, run: Option<Run>)
    requires e' == e || e' == e.(generation := e.generation + 1, retry := false, subscription := None, listener := Stopped)
    ensures EntryKept(e, e') && (EntryOk(e, run) ==> EntryOk(e', run))
  {
  }

  lemma KeptEach(s: State, s': State)
    requires forall k :: k in s.entries ==> k in s'.entries && EntryKept(s.entries[k], s'.entries[k])
    ensures EntriesKept(s, s')
  {
  }

  // ---------- Every event, every run ----------

  /** A step keeps the invariants and the bounds; it ends what an entry owes only by a backfill that settles it, and
      decides to drop the ingress bound only when every listed group has recovered. */
  ghost predicate Sound(s: State, s': State, event: Event) {
    && Inv(s') && IngressKept(s, s')
    && (s'.control.Finishing? && !s.control.Finishing? ==> event.FinishRecovery? && RecoveryComplete(s))
    && forall k :: k in s.entries ==>
         k in s'.entries && (EntryKept(s.entries[k], s'.entries[k]) || (event == BackfillCompletes(k) && Settles(s, k)))
  }

  lemma GoodIsSound(s: State, s': State, event: Event)
    requires Good(s, s')
    ensures Sound(s, s', event)
  {
    hide Inv, EntryKept;
  }

  lemma CompletionIsSound(s: State, k: nat)
    requires Inv(s)
    ensures Sound(s, Complete(s, k), BackfillCompletes(k))
  {
    hide Inv;
    var s' := Complete(s, k);
    if k in s.entries {
      CompletionIsGood(s, k);
      forall x | x in s.entries && x != k ensures EntryKept(s.entries[x], s'.entries[x]) { EntryStays(s.entries[x]); }
      if Recovers(s, k) && !s.entries[k].required { NothingOwed(s, k); }
    } else {
      Unchanged(s);
    }
  }

  lemma NothingOwed(s: State, k: nat)
    requires Inv(s) && k in s.entries && !s.entries[k].required
    ensures s.entries[k].from.None?
  {
    EntryIsOk(s, k);
  }

  lemma StepIsSound(s: State, env: Env, event: Event)
    requires Inv(s)
    ensures Sound(s, After(s, env, event), event)
  {
    hide Inv, Good, Sound, Queue, Listed;
    var s' := After(s, env, event);
    Unchanged(s);
    match event
    case Poll(id) =>
      if Listed(s, id) { QueueIsGood(s, env, id, false, false); }
      GoodIsSound(s, s', event);
    case HistoryArrives(k, count) => BackfillStepsAreGood(s, k, count); GoodIsSound(s, s', event);
    case MessageStarts(k) => BackfillStepsAreGood(s, k, None); GoodIsSound(s, s', event);
    case BackfillBreaks(k) => BreakIsGood(s, k); GoodIsSound(s, s', event);
    case BackfillCompletes(k) => CompletionIsSound(s, k);
    case BackfillSettles(k) => FinallyIsGood(s, env, k); GoodIsSound(s, s', event);
    case ListenerFails(k, generation) => ListenerFailedIsGood(s, env, k, generation, true); GoodIsSound(s, s', event);
    case ListenerIsReady(k, generation) => ReadyIsGood(s, env, k, generation); GoodIsSound(s, s', event);
    case RetryTimer(k) => ReattachIsGood(s, env, k); GoodIsSound(s, s', event);
    case HumanFails(generation) => HumanStepsAreGood(s, env, generation, true); GoodIsSound(s, s', event);
    case HumanIsReady(generation) => HumanStepsAreGood(s, env, generation, true); GoodIsSound(s, s', event);
    case HumanRetry(starts) => HumanAttachIsGood(s, env, starts); GoodIsSound(s, s', event);
    case Saved => CommitIsGood(s, env); KeptIsSound(s, s', event);
    case GroupJoins(g) => JoiningIsGood(s, env, g); GoodIsSound(s, s', event);
    case GroupLeaves(id) => LeavingIsGood(s, id); GoodIsSound(s, s', event);
    case StopAll => StoppingIsGood(s); GoodIsSound(s, s', event);
    case FinishRecovery => BeginningIsGood(s, env, false); KeptIsSound(s, s', event);
    case SetPaused(paused) => BeginningIsGood(s, env, paused); GoodIsSound(s, s', event);
    case SaveFailed => BeginningIsGood(s, env, false); GoodIsSound(s, s', event);
  }

  lemma KeptIsSound(s: State, s': State, event: Event)
    requires Inv(s') && EntriesKept(s, s') && IngressKept(s, s')
    requires s'.control.Finishing? && !s.control.Finishing? ==> event.FinishRecovery? && RecoveryComplete(s)
    ensures Sound(s, s', event)
  {
    hide Inv, EntryKept;
  }

  /** In every run every step is sound. */
  lemma {:induction false} RunIsSound(s: State, run: seq<Step>)
    requires Inv(s)
    ensures Inv(AfterAll(s, run))
    ensures forall i :: 0 <= i < |run| ==> Sound(AfterAll(s, run[..i]), AfterAll(s, run[..i + 1]), run[i].event)
    decreases |run|
  {
    hide Inv, Sound, After;
    if run != [] {
      var next := After(s, run[0].env, run[0].event);
      StepIsSound(s, run[0].env, run[0].event);
      SoundIsInv(s, next, run[0].event);
      RunIsSound(next, run[1..]);
      forall i | 0 <= i < |run| ensures Sound(AfterAll(s, run[..i]), AfterAll(s, run[..i + 1]), run[i].event) {
        if i == 0 {
          assert run[..1][1..] == [] && run[..1][0] == run[0];
        } else {
          assert run[..i][1..] == run[1..][..i - 1] && run[..i + 1][1..] == run[1..][..i];
        }
      }
    }
  }

  lemma SoundIsInv(s: State, s': State, event: Event)
    requires Sound(s, s', event)
    ensures Inv(s')
  {
    hide EntryKept;
  }

}
