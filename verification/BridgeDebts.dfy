/**
  Whole runs of the bridge from the state it was saved in, and what its groups owe when the bound of the ingress is dropped.
  The drop is decided when every group has recovered, but takes effect only once it is saved.
*/
module BridgeDebts {
  import opened Wrappers
  import opened Bridge
  import opened BridgeSafety

  lemma InitialIsGood(ingress: Ingress, groups: seq<Group>)
    ensures Inv(Initial(ingress, groups))
  {
  }

  /** Every step of every run of a bridge is sound. */
  lemma EveryRunIsSound(ingress: Ingress, groups: seq<Group>, run: seq<Step>)
    ensures var s := Initial(ingress, groups);
            forall i :: 0 <= i < |run| ==> Sound(AfterAll(s, run[..i]), AfterAll(s, run[..i + 1]), run[i].event)
  {
    InitialIsGood(ingress, groups);
    RunIsSound(Initial(ingress, groups), run);
  }

  // ---------- What puts a group in debt, and what takes it out ----------

  /** The group must still be read from its recovery bound on. */
  predicate Owes(s: State, id: Id) {
    id in s.current && s.current[id] in s.entries && s.entries[s.current[id]].required
  }

  predicate Private(groups: seq<Group>, id: Id) {
    exists g :: g in groups && g.direct && g.id == id
  }

  /** The branches in which the event loses the listener of the group, or gives it an entry, while the ingress has a bound. */
  predicate Unsettles(s: State, env: Env, event: Event, id: Id) {
    match event
    case Poll(x) => x == id && Listed(s, id) && id !in s.current
    case BackfillSettles(k) =>
      && k in s.runs && k in s.entries && s.runs[k].phase.Ended? && s.entries[k].queued && s.entries[k].group == id
      && !s.stopping && Listed(s, id) && id !in s.current
    case ListenerFails(k, generation) =>
      !s.stopping && Holds(s, k, generation) && s.entries[k].group == id && s.entries[k].subscription == Some(generation)
    case RetryTimer(k) =>
      && k in s.entries && s.entries[k].retry && s.entries[k].group == id && s.entries[k].subscription.None?
      && !s.stopping && Holds(s, k, s.entries[k].generation) && Listed(s, id) && !IsDirect(s, id) && !env.starts(id)
    case HumanFails(generation) =>
      !s.stopping && s.human.generation == generation && s.human.subscription == Some(generation) && Private(s.groups, id)
    case HumanRetry(starts) => !s.stopping && s.human.subscription.None? && !starts && Private(s.groups, id)
    case HumanIsReady(generation) =>
      !s.stopping && s.human.generation == generation && s.human.subscription == Some(generation) && Private(s.groups, id) && id !in s.current
    case GroupJoins(g) => g.id == id && !g.direct && !Listed(s, id)
    case _ => false
  }

  /** The group leaves, or a backfill that began after its last loss completes with the listener ready. */
  predicate Redeems(s: State, event: Event, id: Id) {
    event == GroupLeaves(id) || (id in s.current && event == BackfillCompletes(s.current[id]) && Recovers(s, s.current[id]))
  }

  // ---------- How the pieces change what a group owes ----------

  lemma EntryTells(s: State, x: Id, id: Id)
    requires Inv(s) && s.ingress.from.Some?
    ensures var s' := EntryFor(s, x);
            && s'.control == s.control && s'.ingress == s.ingress && s'.groups == s.groups
            && (Owes(s', id) <==> Owes(s, id) || (x == id && id !in s.current))
            && (id in s'.current <==> id in s.current || x == id)
  {
    if id in s.current { assert CurrentOk(s, id); }
  }

  lemma LossTells(s: State, k: nat, bound: int, id: Id)
    requires k in s.entries
    ensures var s' := Lose(s, k, bound);
            && s'.control == s.control && s'.ingress == s.ingress && s'.groups == s.groups && s'.current == s.current
            && (Owes(s', id) <==> Owes(s, id) || (id in s.current && s.current[id] == k))
  {
  }

  lemma QueueTells(s: State, env: Env, x: Id, queueAfterActive: bool, recovery: bool, id: Id)
    requires Inv(s) && s.ingress.from.Some?
    ensures var s' := Queue(s, env, x, queueAfterActive, recovery);
            && s'.control == s.control && s'.ingress == s.ingress && s'.groups == s.groups
            && (Owes(s', id) <==> Owes(s, id) || (x == id && id !in s.current))
            && (id in s'.current <==> id in s.current || x == id)
  {
    hide Inv, EntryFor, Listed, IsDirect;
    EntryTells(s, x, id);
  }

  lemma FailureTells(s: State, env: Env, k: nat, generation: nat, attached: bool, id: Id)
    requires Inv(s)
    ensures var s' := ListenerFailed(s, env, k, generation, attached);
            && s'.control == s.control
            && (Owes(s', id) <==> Owes(s, id) || (!s.stopping && Holds(s, k, generation) && s.entries[k].group == id
                                                  && (attached ==> s.entries[k].subscription == Some(generation))))
  {
    if id in s.current { assert CurrentOk(s, id); }
  }

  /** An attached listener is lost at once when its subscription cannot be started. */
  predicate FailsToStart(s: State, env: Env, g: Group)
    requires g.id in s.current && s.current[g.id] in s.entries
  {
    var e := s.entries[s.current[g.id]];
    !s.stopping && !env.starts(g.id) && e.subscription.None? && !e.retry
  }

  lemma AttachTells(s: State, env: Env, g: Group, id: Id)
    requires Inv(s) && Listed(s, g.id) && s.ingress.from.Some? && !s.ingress.paused
    requires g.id in s.current ==> s.current[g.id] in s.entries
    ensures Attach(s, env, g).control == s.control
    ensures Owes(Attach(s, env, g), id) <==>
              Owes(s, id) || (g.id == id && !g.direct && (id !in s.current || FailsToStart(s, env, g)))
  {
    hide Inv, EntryFor, Listed, ListenerFailed, Owes;
    if !g.direct {
      var s1 := EntryFor(s, g.id);
      EntryTells(s, g.id, id);
      EntryForIsGood(s, g.id);
      GoodIsInv(s, s1);
      if g.id in s.current { SameEntry(s, g.id); }
      SubscriptionTells(s1, env, g, id);
    }
  }

  lemma SameEntry(s: State, id: Id)
    requires id in s.current
    ensures EntryFor(s, id) == s
  {
  }

  lemma SubscriptionTells(s: State, env: Env, g: Group, id: Id)
    requires Inv(s) && !g.direct && g.id in s.current && s.current[g.id] in s.entries && !s.ingress.paused
    ensures Attach(s, env, g).control == s.control
    ensures Owes(Attach(s, env, g), id) <==> Owes(s, id) || (g.id == id && FailsToStart(s, env, g))
  {
    hide Inv, ListenerFailed, Owes;
    var k := s.current[g.id];
    if !s.stopping && s.entries[k].subscription.None? && !s.entries[k].retry {
      EntryIsOk(s, k);
      CurrentIsOk(s, g.id);
      var e := s.entries[k].(generation := s.entries[k].generation + 1, listener := Starting);
      var s1 := s.(entries := s.entries[k := e]);
      WritingIsGood(s, k, e, s.runs);
      GoodIsInv(s, s1);
      SameDebts(s, k, e, id);
      FailureTells(s1, env, k, e.generation, false, id);
      SameDebts(s, k, e.(subscription := Some(e.generation)), id);
    }
  }

  lemma CurrentIsOk(s: State, id: Id)
    requires Inv(s) && id in s.current
    ensures CurrentOk(s, id)
  {
  }

  lemma SameDebts(s: State, k: nat, e: Entry, id: Id)
    requires k in s.entries && e.required == s.entries[k].required
    ensures Owes(s.(entries := s.entries[k := e]), id) <==> Owes(s, id)
  {
  }

  lemma RetryTells(s: State, env: Env, k: nat, id: Id)
    requires Inv(s) && s.ingress.from.Some? && !s.ingress.paused
    ensures Reattach(s, env, k).control == s.control
    ensures Owes(Reattach(s, env, k), id) <==> Owes(s, id) || Unsettles(s, env, RetryTimer(k), id)
  {
    hide Inv, Attach, Listed, Owes;
    if k in s.entries && s.entries[k].retry {
      EntryIsOk(s, k);
      var e := s.entries[k];
      var s1 := s.(entries := s.entries[k := e.(retry := false)]);
      SameDebts(s, k, e.(retry := false), id);
      if !s.stopping && Holds(s, k, e.generation) && Listed(s, e.group) {
        WritingIsGood(s, k, e.(retry := false), s.runs);
        GoodIsInv(s, s1);
        SameListing(s, s1, e.group);
        ListedIsFound(s, e.group);
        AttachTells(s1, env, Find(s.groups, e.group).value, id);
      }
    }
  }

  lemma ListedIsFound(s: State, id: Id)
    requires Listed(s, id)
    ensures Find(s.groups, id).Some? && Find(s.groups, id).value.id == id && (IsDirect(s, id) <==> Find(s.groups, id).value.direct)
  {
    FoundGroup(s.groups, id);
  }

  lemma FirstPrivate(groups: seq<Group>, id: Id)
    requires groups != []
    ensures Private(groups, id) <==> (groups[0].direct && groups[0].id == id) || Private(groups[1..], id)
  {
    assert groups == [groups[0]] + groups[1..];
    if Private(groups[1..], id) {
      var g :| g in groups[1..] && g.direct && g.id == id;
      assert g in groups;
    }
  }

  lemma {:induction false} LoseDirectTells(s: State, env: Env, groups: seq<Group>, id: Id)
    requires Inv(s) && AllListed(s, groups) && s.ingress.from.Some?
    ensures var s' := LoseDirect(s, env, groups);
            s'.control == s.control && (Owes(s', id) <==> Owes(s, id) || Private(groups, id))
    decreases |groups|
  {
    hide EntriesOk, ControlOk, EntriesKept, Lose, Listed, EntryFor, Private, Owes;
    if groups == [] {
      NonePrivate(id);
    } else {
      FirstPrivate(groups, id);
      if groups[0].direct {
        var x := groups[0].id;
        var s1 := EntryFor(s, x);
        EntryTells(s, x, id);
        EntryForIsGood(s, x);
        var k := s1.current[x];
        var bound := LossBound(env, s1.entries[k]);
        LossTells(s1, k, bound, id);
        LosingIsGood(s1, k, bound);
        if id in s1.current { OwnEntry(s1, x, id); }
        SameGroups(s, Lose(s1, k, bound), groups[1..]);
        LoseDirectTells(Lose(s1, k, bound), env, groups[1..], id);
      } else {
        LoseDirectTells(s, env, groups[1..], id);
      }
    }
  }

  lemma NonePrivate(id: Id)
    ensures !Private([], id)
  {
  }

  lemma OwnEntry(s: State, x: Id, id: Id)
    requires Inv(s) && x in s.current && id in s.current
    ensures s.current[id] == s.current[x] <==> id == x
  {
    assert CurrentOk(s, x) && CurrentOk(s, id);
  }

  lemma {:induction false} QueueDirectTells(s: State, env: Env, groups: seq<Group>, id: Id)
    requires Inv(s) && AllListed(s, groups) && s.ingress.from.Some?
    ensures var s' := QueueDirect(s, env, groups);
            s'.control == s.control && (Owes(s', id) <==> Owes(s, id) || (Private(groups, id) && id !in s.current))
    decreases |groups|
  {
    hide EntriesOk, ControlOk, EntriesKept, Queue, Listed, EntryFor, Private, Owes;
    if groups == [] {
      NonePrivate(id);
    } else {
      FirstPrivate(groups, id);
      if groups[0].direct {
        var x := groups[0].id;
        var s1 := EntryFor(s, x);
        EntryTells(s, x, id);
        EntryForIsGood(s, x);
        SameListing(s, s1, x);
        var required := s1.entries[s1.current[x]].required;
        QueueTells(s1, env, x, true, required, id);
        QueueIsGood(s1, env, x, true, required);
        var s2 := Queue(s1, env, x, true, required);
        SameGroups(s, s2, groups[1..]);
        QueueDirectTells(s2, env, groups[1..], id);
      } else {
        QueueDirectTells(s, env, groups[1..], id);
      }
    }
  }

  lemma CompletionTells(s: State, k: nat, id: Id)
    requires Inv(s)
    ensures Complete(s, k).control == s.control
    ensures Owes(Complete(s, k), id) <==> Owes(s, id) && !Redeems(s, BackfillCompletes(k), id)
  {
    if id in s.current { assert CurrentOk(s, id); }
  }

  lemma SettlingTells(s: State, env: Env, k: nat, id: Id)
    requires Inv(s) && s.ingress.from.Some? && !s.ingress.paused
    ensures Finally(s, env, k).control == s.control
    ensures Owes(Finally(s, env, k), id) <==> Owes(s, id) || Unsettles(s, env, BackfillSettles(k), id)
  {
    hide Inv, Queue, Listed, Owes;
    if k in s.runs && k in s.entries && s.runs[k].phase.Ended? {
      var e := s.entries[k].(activeStart := None, running := false, queued := false);
      var s1 := s.(entries := s.entries[k := e], runs := s.runs - {k});
      EntryIsOk(s, k);
      WritingIsGood(s, k, e, s.runs - {k});
      GoodIsInv(s, s1);
      SameListing(s, s1, e.group);
      DebtsApart(s, k, e, s.runs - {k}, id);
      QueueTells(s1, env, e.group, false, false, id);
    }
  }

  lemma DebtsApart(s: State, k: nat, e: Entry, runs: map<nat, Run>, id: Id)
    requires k in s.entries && e.required == s.entries[k].required
    ensures Owes(s.(entries := s.entries[k := e], runs := runs), id) <==> Owes(s, id)
  {
  }

  lemma JoiningTells(s: State, env: Env, g: Group, id: Id)
    requires Inv(s) && s.ingress.from.Some? && !s.ingress.paused
    ensures Join(s, env, g).control == s.control
    ensures Owes(Join(s, env, g), id) <==> Owes(s, id) || Unsettles(s, env, GroupJoins(g), id)
  {
    hide Inv, Attach, Listed;
    if !Listed(s, g.id) {
      ListingMore(s, g);
      GoodIsInv(s, s.(groups := s.groups + [g]));
      if g.id in s.current { CurrentIsListed(s, g.id); }
      AttachTells(s.(groups := s.groups + [g]), env, g, id);
    }
  }

  lemma HumanTells(s: State, env: Env, human: Human, id: Id)
    requires Inv(s) && s.ingress.from.Some?
    ensures var s' := LoseDirect(s.(human := human), env, s.groups);
            s'.control == s.control && (Owes(s', id) <==> Owes(s, id) || Private(s.groups, id))
    ensures var s' := QueueDirect(s.(human := human), env, s.groups);
            s'.control == s.control && (Owes(s', id) <==> Owes(s, id) || (Private(s.groups, id) && id !in s.current))
  {
    hide Inv, LoseDirect, QueueDirect, Private;
    var s1 := s.(human := human);
    HumanIsGood(s, human);
    GoodIsInv(s, s1);
    GroupsAreListed(s1);
    LoseDirectTells(s1, env, s.groups, id);
    QueueDirectTells(s1, env, s.groups, id);
  }

  /** The answer to the control operation in flight. */
  predicate Answers(event: Event) {
    event.Saved? || event.SaveFailed?
  }

  /** A group owes something after the event exactly when the event put it in debt, or it owed something before and the
      event did not take it out. */
  ghost predicate Tells(s: State, env: Env, event: Event, id: Id) {
    && After(s, env, event).control == s.control
    && (Owes(After(s, env, event), id) <==> Unsettles(s, env, event, id) || (Owes(s, id) && !Redeems(s, event, id)))
  }

  lemma BackfillEventTells(s: State, env: Env, event: Event, id: Id)
    requires Inv(s) && s.ingress.from.Some? && !s.ingress.paused
    requires event.Poll? || event.HistoryArrives? || event.MessageStarts? || event.BackfillBreaks? || event.BackfillCompletes?
             || event.BackfillSettles?
    ensures Tells(s, env, event, id)
  {
    hide Inv, Queue, Finally, Complete, Listed;
    match event
    case Poll(x) => QueueTells(s, env, x, false, false, id);
    case BackfillCompletes(k) => CompletionTells(s, k, id);
    case BackfillSettles(k) => SettlingTells(s, env, k, id);
    case _ =>
  }

  lemma ListenerEventTells(s: State, env: Env, event: Event, id: Id)
    requires Inv(s) && s.ingress.from.Some? && !s.ingress.paused
    requires event.ListenerFails? || event.ListenerIsReady? || event.RetryTimer?
    ensures Tells(s, env, event, id)
  {
    hide Inv, Reattach, ListenerFailed, MarkListenerReady, Owes;
    match event
    case ListenerFails(k, generation) => FailureTells(s, env, k, generation, true, id);
    case ListenerIsReady(k, generation) => ReadyTells(s, env, k, generation, id);
    case RetryTimer(k) => RetryTells(s, env, k, id);
  }

  lemma HumanEventTells(s: State, env: Env, event: Event, id: Id)
    requires Inv(s) && s.ingress.from.Some? && (event.HumanFails? || event.HumanIsReady? || event.HumanRetry?)
    ensures Tells(s, env, event, id)
  {
    hide Inv, LoseDirect, QueueDirect, Private;
    match event
    case HumanFails(generation) => HumanTells(s, env, s.human.(subscription := None, listener := Reconnecting), id);
    case HumanIsReady(generation) => HumanTells(s, env, s.human.(listener := Ready), id);
    case HumanRetry(starts) => HumanTells(s, env, Human(s.human.generation + 1, None, Reconnecting), id);
  }

  lemma OtherEventTells(s: State, env: Env, event: Event, id: Id)
    requires Inv(s) && s.control.Finishing? && s.ingress.from.Some? && !s.ingress.paused
    requires event.FinishRecovery? || event.SetPaused? || event.GroupJoins? || event.GroupLeaves? || event.StopAll?
    ensures Tells(s, env, event, id)
  {
    hide Inv, Join, Listed;
    if event.GroupJoins? { JoiningTells(s, env, event.joined, id); }
  }

  /** While the drop is being saved, each event is read like that. */
  lemma StepTells(s: State, env: Env, event: Event, id: Id)
    requires Inv(s) && s.control.Finishing? && !Answers(event)
    ensures Tells(s, env, event, id)
  {
    hide Inv, Tells;
    ControlIsOk(s);
    match event
    case Poll(_) => BackfillEventTells(s, env, event, id);
    case HistoryArrives(_, _) => BackfillEventTells(s, env, event, id);
    case MessageStarts(_) => BackfillEventTells(s, env, event, id);
    case BackfillBreaks(_) => BackfillEventTells(s, env, event, id);
    case BackfillCompletes(_) => BackfillEventTells(s, env, event, id);
    case BackfillSettles(_) => BackfillEventTells(s, env, event, id);
    case ListenerFails(_, _) => ListenerEventTells(s, env, event, id);
    case ListenerIsReady(_, _) => ListenerEventTells(s, env, event, id);
    case RetryTimer(_) => ListenerEventTells(s, env, event, id);
    case HumanFails(_) => HumanEventTells(s, env, event, id);
    case HumanIsReady(_) => HumanEventTells(s, env, event, id);
    case HumanRetry(_) => HumanEventTells(s, env, event, id);
    case _ => OtherEventTells(s, env, event, id);
  }

  lemma ControlIsOk(s: State)
    requires Inv(s)
    ensures ControlOk(s)
  {
  }

  lemma ReadyTells(s: State, env: Env, k: nat, generation: nat, id: Id)
    requires Inv(s) && s.ingress.from.Some?
    ensures var s' := MarkListenerReady(s, env, k, generation); s'.control == s.control && (Owes(s', id) <==> Owes(s, id))
  {
    hide Inv, Queue;
    if k in s.entries {
      EntryIsOk(s, k);
      var e := s.entries[k].(listener := Ready);
      WritingIsGood(s, k, e, s.runs);
      GoodIsInv(s, s.(entries := s.entries[k := e]));
      SameDebts(s, k, e, id);
      QueueTells(s.(entries := s.entries[k := e]), env, e.group, true, e.required, id);
    }
  }

  // ---------- Dropping the bound of the ingress ----------

  /** Some event of the run put the group in debt and no later one took it out. */
  ghost predicate LeftOpen(s: State, run: seq<Step>, id: Id) {
    exists i :: 0 <= i < |run| && Unsettles(AfterAll(s, run[..i]), run[i].env, run[i].event, id)
                && forall j :: i < j < |run| ==> !Redeems(AfterAll(s, run[..j]), run[j].event, id)
  }

  ghost predicate NeverRedeemed(s: State, run: seq<Step>, id: Id) {
    forall j :: 0 <= j < |run| ==> !Redeems(AfterAll(s, run[..j]), run[j].event, id)
  }

  lemma {:induction false} RunTells(s: State, run: seq<Step>, id: Id)
    requires Inv(s) && s.control.Finishing? && forall i :: 0 <= i < |run| ==> !Answers(run[i].event)
    ensures Inv(AfterAll(s, run)) && AfterAll(s, run).control.Finishing?
    ensures Owes(AfterAll(s, run), id) <==> LeftOpen(s, run, id) || (Owes(s, id) && NeverRedeemed(s, run, id))
    decreases |run|
  {
    hide Inv, After, Unsettles, Redeems, Owes;
    if run != [] {
      var next := After(s, run[0].env, run[0].event);
      StepIsSound(s, run[0].env, run[0].event);
      SoundIsInv(s, next, run[0].event);
      StepTells(s, run[0].env, run[0].event, id);
      RunTells(next, run[1..], id);
      RestOfRun(s, run, id);
    }
  }

  lemma RestOfRun(s: State, run: seq<Step>, id: Id)
    requires run != []
    ensures var next := After(s, run[0].env, run[0].event);
            && (LeftOpen(s, run, id) <==>
                  LeftOpen(next, run[1..], id) || (Unsettles(s, run[0].env, run[0].event, id) && NeverRedeemed(next, run[1..], id)))
            && (NeverRedeemed(s, run, id) <==> !Redeems(s, run[0].event, id) && NeverRedeemed(next, run[1..], id))
  {
    hide After, Unsettles, Redeems;
    var next, rest := After(s, run[0].env, run[0].event), run[1..];
    forall i | 0 <= i <= |rest| ensures AfterAll(s, run[..i + 1]) == AfterAll(next, rest[..i]) {
      assert run[..i + 1][0] == run[0] && run[..i + 1][1..] == rest[..i];
    }
    assert run[..0] == [];
    forall i | 0 <= i < |rest| ensures rest[i] == run[i + 1] {}
    if i :| 0 <= i < |rest| && Unsettles(AfterAll(next, rest[..i]), rest[i].env, rest[i].event, id)
            && forall j :: i < j < |rest| ==> !Redeems(AfterAll(next, rest[..j]), rest[j].event, id) {
      forall j | i + 1 < j < |run| ensures !Redeems(AfterAll(s, run[..j]), run[j].event, id) {
        assert !Redeems(AfterAll(next, rest[..j - 1]), rest[j - 1].event, id);
      }
      assert Unsettles(AfterAll(s, run[..i + 1]), run[i + 1].env, run[i + 1].event, id);
    }
  }

  /** The drop is decided when nothing is owed.  When it takes effect, a group owes something exactly when an event in
      between put it in debt and none took it out; the ingress no longer remembers it. */
  lemma DropIsExact(ingress: Ingress, groups: seq<Group>, before: seq<Step>, env: Env, meanwhile: seq<Step>, id: Id)
    requires var s := AfterAll(Initial(ingress, groups), before); s.control.Idle? && RecoveryComplete(s)
    requires forall i :: 0 <= i < |meanwhile| ==> !Answers(meanwhile[i].event)
    ensures var begun := After(AfterAll(Initial(ingress, groups), before), env, FinishRecovery);
            var s' := After(AfterAll(begun, meanwhile), env, Saved);
            begun.control.Finishing? && s'.ingress == Ingress(false, None) && (Owes(s', id) <==> LeftOpen(begun, meanwhile, id))
  {
    hide Inv, Sound, Recovered, LeftOpen, After, AfterAll, Owes;
    var s0 := Initial(ingress, groups);
    var s := AfterAll(s0, before);
    InitialIsGood(ingress, groups);
    RunIsSound(s0, before);
    var begun := After(s, env, FinishRecovery);
    BeginningTells(s, env, id);
    RunTells(begun, meanwhile, id);
    SavingTells(AfterAll(begun, meanwhile), env, id);
  }

  lemma BeginningTells(s: State, env: Env, id: Id)
    requires Inv(s) && s.control.Idle? && RecoveryComplete(s)
    ensures var begun := After(s, env, FinishRecovery); Inv(begun) && begun.control.Finishing? && !Owes(begun, id)
  {
    hide Inv, Recovered;
    RecoveredOwesNothing(s, id);
    StepIsSound(s, env, FinishRecovery);
  }

  lemma SavingTells(s: State, env: Env, id: Id)
    requires s.control.Finishing?
    ensures var s' := After(s, env, Saved); s'.ingress == Ingress(false, None) && (Owes(s', id) <==> Owes(s, id))
  {
  }

  lemma RecoveredOwesNothing(s: State, id: Id)
    requires Inv(s) && RecoveryComplete(s)
    ensures !Owes(s, id)
  {
    hide Inv;
    if id in s.current {
      CurrentIsListed(s, id);
      FoundGroup(s.groups, id);
      assert Recovered(s, Find(s.groups, id).value);
    }
  }

  /** One group joins, its listener is ready, its backfill completes, and the drop is decided; then the listener is lost
      before the drop is saved. */
  function LostDuringSave(): seq<Event> {
    [GroupJoins(Group("g", false)), ListenerIsReady(0, 1), HistoryArrives(0, Some(0)), BackfillCompletes(0), BackfillSettles(0),
     FinishRecovery, ListenerFails(0, 1), Saved]
  }

  function Steps(env: Env, events: seq<Event>): seq<Step> {
    if events == [] then [] else [Step(env, events[0])] + Steps(env, events[1..])
  }

  lemma NextStep(s: State, env: Env, events: seq<Event>, i: nat)
    requires i < |events|
    ensures AfterAll(s, Steps(env, events[i..])) == AfterAll(After(s, env, events[i]), Steps(env, events[i + 1..]))
  {
    assert events[i..][1..] == events[i + 1..];
    var rest := Steps(env, events[i + 1..]);
    assert ([Step(env, events[i])] + rest)[1..] == rest;
  }

  /** In that run the group owes messages at the end, and the ingress has dropped the bound from which to read them. */
  lemma LossDuringSaveIsForgotten(env: Env)
    requires env.starts("g")
    ensures var s := AfterAll(Initial(Ingress(false, Some(0)), []), Steps(env, LostDuringSave()));
            Owes(s, "g") && s.ingress == Ingress(false, None)
  {
    hide After, Steps, AfterAll;
    var s0 := Initial(Ingress(false, Some(0)), []);
    var events := LostDuringSave();
    assert events[0..] == events;
    for i := 0 to 8
      invariant AfterAll(s0, Steps(env, events)) == AfterAll(Stage(env, i), Steps(env, events[i..]))
    {
      NextStep(Stage(env, i), env, events, i);
      if i < 5 { RecoveryGoes(env, i); } else { DropGoes(env, i); }
    }
    NothingLeft(env, events);
  }

  lemma NothingLeft(env: Env, events: seq<Event>)
    requires |events| == 8
    ensures forall s: State :: AfterAll(s, Steps(env, events[8..])) == s
  {
    assert events[8..] == [];
  }

  function OneGroup(from: Option<int>, e: Entry, runs: map<nat, Run>, control: Control): State {
    State(Ingress(false, from), false, Human(0, None, Starting), [Group("g", false)], map["g" := 0], map[0 := e], runs, control, 1)
  }

  /** The state of that run after its first `i` events. */
  function Stage(env: Env, i: nat): State
    requires i <= 8
  {
    var start := if env.fallback("g") < 0 then env.fallback("g") else 0;
    var joined := Entry("g", 1, Starting, Some(1), false, Never, false, false, 0, true, Some(0), None, None, false);
    var reading := joined.(listener := Ready, backfill := InProgress, running := true, activeStart := Some(start));
    var run := Run(false, true, 0, start, env.now, Reading, false);
    var read := reading.(backfill := Ok, lastEnd := Some(env.now), everOk := true, required := false, from := None);
    var settled := read.(activeStart := None, running := false);
    var lost := settled.(subscription := None, listener := Reconnecting, retry := true, required := true, epoch := 1,
                         from := Some(BeforeOverlap(env, env.now)));
    match i
    case 0 => Initial(Ingress(false, Some(0)), [])
    case 1 => OneGroup(Some(0), joined, map[], Idle)
    case 2 => OneGroup(Some(0), reading, map[0 := run], Idle)
    case 3 => OneGroup(Some(0), reading, map[0 := run.(phase := Processing(0))], Idle)
    case 4 => OneGroup(Some(0), read, map[0 := run.(phase := Ended)], Idle)
    case 5 => OneGroup(Some(0), settled, map[], Idle)
    case 6 => OneGroup(Some(0), settled, map[], Finishing)
    case 7 => OneGroup(Some(0), lost, map[], Finishing)
    case _ => OneGroup(None, lost, map[], Idle)
  }

  lemma RecoveryGoes(env: Env, i: nat)
    requires i < 5 && env.starts("g")
    ensures After(Stage(env, i), env, LostDuringSave()[i]) == Stage(env, i + 1)
  {
    hide Stage, After;
    match i
    case 0 => GroupIsJoined(env);
    case 1 => BackfillBegins(env);
    case _ => BackfillGoes(env, i);
  }

  lemma GroupIsJoined(env: Env)
    requires env.starts("g")
    ensures After(Stage(env, 0), env, GroupJoins(Group("g", false))) == Stage(env, 1)
  {
    hide MarkListenerReady, ListenerFailed, Complete, History, Finally;
    assert Find([], "g").None?;
  }

  lemma OneIsListed(s: State)
    requires s.groups == [Group("g", false)]
    ensures Find(s.groups, "g") == Some(Group("g", false)) && Listed(s, "g") && !IsDirect(s, "g")
  {
  }

  lemma BackfillBegins(env: Env)
    ensures After(Stage(env, 1), env, ListenerIsReady(0, 1)) == Stage(env, 2)
  {
    hide Find, Complete, History, Finally, Join;
    var s := Stage(env, 1);
    OneIsListed(s);
    OneIsListed(s.(entries := s.entries[0 := s.entries[0].(listener := Ready)]));
  }

  lemma BackfillGoes(env: Env, i: nat)
    requires 2 <= i < 5
    ensures After(Stage(env, i), env, LostDuringSave()[i]) == Stage(env, i + 1)
  {
    hide Find, Queue, Join;
    OneIsListed(Stage(env, i));
    if i == 4 { assert Stage(env, 4).runs - {0} == map[]; }
  }

  lemma DropGoes(env: Env, i: nat)
    requires 5 <= i < 8
    ensures After(Stage(env, i), env, LostDuringSave()[i]) == Stage(env, i + 1)
  {
    hide Find, Queue, Join;
    match i
    case 5 => EveryGroupRecovered(env);
    case 6 => ListenerIsLost(env);
    case _ =>
  }

  lemma EveryGroupRecovered(env: Env)
    ensures RecoveryComplete(Stage(env, 5))
  {
  }

  lemma ListenerIsLost(env: Env)
    ensures After(Stage(env, 6), env, ListenerFails(0, 1)) == Stage(env, 7)
  {
    hide Find, Queue, Join, Listed;
  }
}
