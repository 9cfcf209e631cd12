/** Who dispatches a source, over whole runs of the ledger. */
module LedgerSources {
  import opened Wrappers
  import opened Graphs
  import opened Ordinals
  import opened Ledger
  import opened LedgerGraph
  import opened LedgerRuns

  // ---------- Sources ----------

  /** Accepted, frozen and handed over are for ever. */
  predicate SourceKept(x: Source, x': Source) {
    (x.state.Accepted? ==> x'.state.Accepted? && (!x.frozen ==> !x'.frozen && x'.owner == x.owner))
    && (x.frozen ==> x'.frozen) && (x.owner.LegacyTopic? ==> x'.owner.LegacyTopic?)
  }

  ghost predicate SourcesKept(before: map<SourceId, Source>, after: map<SourceId, Source>) {
    forall a :: a in before ==> a in after && SourceKept(before[a], after[a])
  }

  type Sources = map<SourceId, Source>
  type Arrangements = map<Id, Arrangement>
  type History = set<(Id, SourceId)>

  /** The source each arrangement acts for now. */
  function Pairs(cs: Arrangements): History {
    set c | c in cs :: (c, cs[c].sourceId)
  }

  /** `history` holds every pair of an arrangement and a source it ever acted for. */
  ghost predicate Dispatching(sources: Sources, cs: Arrangements, history: History) {
    && (forall c :: c in cs ==> ActsFor(sources, cs, history, c))
    && (forall p :: p in history ==> StillOwned(sources, cs, p))
    && (forall a :: a in sources && sources[a].owner.LegacyTopic? ==> sources[a].frozen)
    && (forall a :: a in sources && sources[a].frozen ==> !sources[a].state.Accepted?)
  }

  predicate ActsFor(sources: Sources, cs: Arrangements, history: History, c: Id)
    requires c in cs
  {
    var a := cs[c];
    (c, a.sourceId) in history && a.sourceId in sources && (a.state.Active? ==> sources[a.sourceId].state.Accepted?)
  }

  /** A source that was ever dispatched is accepted by now, unless its arrangement still asks its question. */
  predicate StillOwned(sources: Sources, cs: Arrangements, p: (Id, SourceId)) {
    && p.1 in sources && !sources[p.1].frozen
    && (sources[p.1].state.Accepted? || (p.0 in cs && cs[p.0].sourceId == p.1))
  }

  /** A source may be written when it keeps what is for ever, and is frozen only where nothing acts for it. */
  predicate Writable(sources: Sources, cs: Arrangements, id: SourceId, x: Source) {
    && (id in sources ==> SourceKept(sources[id], x))
    && (x.frozen ==> id in sources && (sources[id].frozen || (!sources[id].state.Accepted? && forall c :: c in cs ==> cs[c].sourceId != id)))
    && (x.owner.LegacyTopic? ==> x.frozen)
    && (x.frozen ==> !x.state.Accepted?)
  }

  lemma WritingSource(sources: Sources, cs: Arrangements, history: History, id: SourceId, x: Source)
    requires Dispatching(sources, cs, history) && Writable(sources, cs, id, x)
    ensures Dispatching(sources[id := x], cs, history) && SourcesKept(sources, sources[id := x])
  {
    forall p | p in history ensures StillOwned(sources[id := x], cs, p) { assert StillOwned(sources, cs, p); }
    forall c | c in cs ensures ActsFor(sources[id := x], cs, history, c) { assert ActsFor(sources, cs, history, c); }
  }

  /** An arrangement may be written for a source that is not frozen; it leaves its old source only when that is accepted. */
  predicate Assignable(sources: Sources, cs: Arrangements, c: Id, a: Arrangement) {
    && a.sourceId in sources && !sources[a.sourceId].frozen && (a.state.Active? ==> sources[a.sourceId].state.Accepted?)
    && (c in cs ==> a.sourceId == cs[c].sourceId || (cs[c].sourceId in sources && sources[cs[c].sourceId].state.Accepted?))
  }

  lemma WritingArrangement(sources: Sources, cs: Arrangements, history: History, c: Id, a: Arrangement)
    requires Dispatching(sources, cs, history) && Assignable(sources, cs, c, a)
    ensures Dispatching(sources, cs[c := a], history + Pairs(cs[c := a]))
  {
    var cs' := cs[c := a];
    SameArrangements(sources, cs, history);
    forall x | x in cs' ensures ActsFor(sources, cs', history + Pairs(cs'), x) {
      if x != c { assert ActsFor(sources, cs, history, x); }
    }
    forall p | p in history + Pairs(cs') ensures StillOwned(sources, cs', p) {
      assert p in Pairs(cs) ==> p in history + Pairs(cs);
      if p in history { assert StillOwned(sources, cs, p); }
    }
  }

  lemma SameArrangements(sources: Sources, cs: Arrangements, history: History)
    requires Dispatching(sources, cs, history)
    ensures history + Pairs(cs) == history
  {
    forall p | p in Pairs(cs) ensures p in history { assert ActsFor(sources, cs, history, p.0); }
  }

  // ---------- Every command ----------

  ghost predicate DispatchStep(s: Ledger, s': Ledger, history: History) {
    SourcesKept(s.sources, s'.sources) && Dispatching(s'.sources, s'.arrangements, history + Pairs(s'.arrangements))
  }

  lemma SourceStepsDispatch(s: Ledger, history: History, id: SourceId, fence: nat, action: SourceAction)
    requires Dispatching(s.sources, s.arrangements, history) && OnSource(s, id, fence, action).Success?
    ensures DispatchStep(s, OnSource(s, id, fence, action).value, history)
  {
    hide Dispatching, SourcesKept;
    var s' := OnSource(s, id, fence, action).value;
    SameArrangements(s.sources, s.arrangements, history);
    UnfrozenOrLegacy(s.sources, s.arrangements, history, id);
    WritingSource(s.sources, s.arrangements, history, id, s'.sources[id]);
    if action.Clarify? {
      WritingArrangement(s'.sources, s.arrangements, history, action.arrangement, s'.arrangements[action.arrangement]);
    }
  }

  lemma UnfrozenOrLegacy(sources: Sources, cs: Arrangements, history: History, id: SourceId)
    requires Dispatching(sources, cs, history)
    ensures id in sources && sources[id].owner.LegacyTopic? ==> sources[id].frozen
    ensures id in sources && sources[id].frozen ==> !sources[id].state.Accepted?
    ensures forall c :: c in cs ==> cs[c].sourceId in sources && !sources[cs[c].sourceId].frozen
    ensures forall c :: c in cs && cs[c].state.Active? ==> sources[cs[c].sourceId].state.Accepted?
  {
    forall c | c in cs ensures cs[c].sourceId in sources && !sources[cs[c].sourceId].frozen
                               && (cs[c].state.Active? ==> sources[cs[c].sourceId].state.Accepted?) {
      assert ActsFor(sources, cs, history, c);
      assert StillOwned(sources, cs, (c, cs[c].sourceId));
    }
  }

  lemma AcceptDispatches(s: Ledger, env: Env, history: History, sourceId: SourceId, fence: nat, c: Id, replaced: Option<nat>, p: Proposal)
    requires Dispatching(s.sources, s.arrangements, history) && Accept(s, env, sourceId, fence, c, replaced, p).Success?
    ensures DispatchStep(s, Accept(s, env, sourceId, fence, c, replaced, p).value, history)
  {
    hide Admit, Dispatching;
    var s' := Accept(s, env, sourceId, fence, c, replaced, p).value;
    UnfrozenOrLegacy(s.sources, s.arrangements, history, sourceId);
    var sources := s.sources;
    if c in s.arrangements {
      var prior := s.arrangements[c].sourceId;
      UnfrozenOrLegacy(s.sources, s.arrangements, history, prior);
      var x := s.sources[prior].(state := SourceState.Accepted, resolvedBy := Some(sourceId), arrangement := Some(c), settled := true);
      WritingSource(s.sources, s.arrangements, history, prior, x);
      sources := s.sources[prior := x];
    }
    WritingSource(sources, s.arrangements, history, sourceId, s'.sources[sourceId]);
    WritingArrangement(s'.sources, s.arrangements, history, c, s'.arrangements[c]);
  }

  lemma ChangeDispatches(s: Ledger, env: Env, history: History, c: Command)
    requires Dispatching(s.sources, s.arrangements, history) && c.ChangeArrangement? && Execute(s, env, c).Success?
    ensures DispatchStep(s, After(s, env, c), history)
  {
    hide Accept, DraftOf, Dispatching, SourcesKept;
    if c.change.ResolveAll? {
      AcceptDispatches(s, env, history, c.source, c.fence, c.arrangement, Some(s.arrangements[c.arrangement].revision), c.change.proposal);
    } else {
      var d, s' := DraftOf(s, env, c.source, c.arrangement, c.change).value, After(s, env, c);
      UnfrozenOrLegacy(s.sources, s.arrangements, history, c.source);
      DraftSources(s, env, c.source, c.arrangement, c.change, history);
      WritingSource(d.sources, s.arrangements, history, c.source, s'.sources[c.source]);
      KeptTwice(s.sources, d.sources, s'.sources, s.arrangements[c.arrangement].sourceId);
      WritingArrangement(s'.sources, s.arrangements, history, c.arrangement, s'.arrangements[c.arrangement]);
    }
  }

  lemma KeptTwice(a: Sources, b: Sources, c: Sources, id: SourceId)
    requires SourcesKept(a, b) && SourcesKept(b, c)
    ensures SourcesKept(a, c) && (id in a ==> id in c && SourceKept(a[id], c[id]))
  {
  }

  lemma DraftSources(s: Ledger, env: Env, sourceId: SourceId, c: Id, change: Change, history: History)
    requires sourceId in s.sources && c in s.arrangements && !change.ResolveAll? && DraftOf(s, env, sourceId, c, change).Success?
    requires Dispatching(s.sources, s.arrangements, history)
    ensures var d := DraftOf(s, env, sourceId, c, change).value;
            && Dispatching(d.sources, s.arrangements, history) && SourcesKept(s.sources, d.sources)
            && sourceId in d.sources && SourceKept(d.sources[sourceId], s.sources[sourceId].(state := SourceState.Accepted))
            && (d.sources[sourceId].frozen <==> s.sources[sourceId].frozen)
  {
    hide GraphError, Dispatching, Activated, PrepareAll;
    var d := DraftOf(s, env, sourceId, c, change).value;
    if change.AnswerClarifications? {
      var original := s.arrangements[c].pendingSource.value;
      UnfrozenOrLegacy(s.sources, s.arrangements, history, original);
      WritingSource(s.sources, s.arrangements, history, original, d.sources[original]);
    }
  }

  lemma OtherStepsDispatch(s: Ledger, env: Env, history: History, c: Command)
    requires Dispatching(s.sources, s.arrangements, history) && Execute(s, env, c).Success?
    requires !c.SourceStep? && !c.AcceptProposal? && !c.ChangeArrangement?
    ensures DispatchStep(s, After(s, env, c), history)
  {
    hide Dispatching, Assess, Apply, Reconcile, MakeTemplate, Supersede, RecordCompletion, PrepareAll, GraphError;
    var s' := After(s, env, c);
    SameArrangements(s.sources, s.arrangements, history);
    match c
    case ReserveSource(id, group, original, reservation) =>
      if id !in s.sources { WritingSource(s.sources, s.arrangements, history, id, s'.sources[id]); }
    case CancelOne(id, _) => KeepsSource(s, history, id, s'.arrangements[id]);
    case Retire(id, _, _, _) => KeepsSource(s, history, id, s'.arrangements[id]);
    case InstantiateRecurring(id, _) => KeepsSource(s, history, id, s'.arrangements[id]);
    case _ => MemberStepsStay(s, env, c);
  }

  lemma KeepsSource(s: Ledger, history: History, c: Id, a: Arrangement)
    requires Dispatching(s.sources, s.arrangements, history) && c in s.arrangements
    requires a.sourceId == s.arrangements[c].sourceId && (a.state.Active? ==> s.arrangements[c].state.Active?)
    ensures Dispatching(s.sources, s.arrangements[c := a], history + Pairs(s.arrangements[c := a]))
  {
    UnfrozenOrLegacy(s.sources, s.arrangements, history, a.sourceId);
    WritingArrangement(s.sources, s.arrangements, history, c, a);
  }

  lemma MemberStepsStay(s: Ledger, env: Env, c: Command)
    requires c.ApplyMember? || c.AssessOrder? || c.ReconcileObservations? || c.BecomeTemplate? || c.SupersedeMember? || c.CompleteMember?
    ensures var s' := After(s, env, c); s'.sources == s.sources && s'.arrangements == s.arrangements
  {
    hide Apply, Assess, Reconciled;
    if c.ApplyMember? { ApplyingStays(s, env, c.member, c.expectedRevision, c.version); }
    if c.AssessOrder? { AssessingStays(s, env, c.judgement); }
  }

  lemma ApplyingStays(s: Ledger, env: Env, id: Id, revision: nat, version: Version)
    ensures var r := Apply(s, env, id, revision, version);
            r.Success? ==> r.value.sources == s.sources && r.value.arrangements == s.arrangements
  {
    hide Current, WaitingDeps;
  }

  lemma AssessingStays(s: Ledger, env: Env, j: Judgement)
    ensures var r := Assess(s, env, j); r.Success? ==> r.value.sources == s.sources && r.value.arrangements == s.arrangements
  {
    hide GraphError, Current;
  }

  lemma StepDispatches(s: Ledger, env: Env, history: History, c: Command)
    requires Dispatching(s.sources, s.arrangements, history)
    ensures DispatchStep(s, After(s, env, c), history)
  {
    hide Dispatching, OnSource, Accept, DoChange;
    if Execute(s, env, c).Success? {
      match c
      case SourceStep(id, fence, action) => SourceStepsDispatch(s, history, id, fence, action);
      case AcceptProposal(source, fence, id, replaced, p) => AcceptDispatches(s, env, history, source, fence, id, replaced, p);
      case ChangeArrangement(_, _, _, _, _) => ChangeDispatches(s, env, history, c);
      case _ => OtherStepsDispatch(s, env, history, c);
    } else {
      SameArrangements(s.sources, s.arrangements, history);
    }
  }

  /** Every pair of an arrangement and a source it acts for, in any state of the run. */
  ghost function Dispatched(s: Ledger, run: seq<Step>): History
    decreases |run|
  {
    Pairs(s.arrangements) + if run == [] then {} else Dispatched(After(s, run[0].env, run[0].command), run[1..])
  }

  lemma {:induction false} RunDispatches(s: Ledger, run: seq<Step>, history: History)
    requires Dispatching(s.sources, s.arrangements, history) && Pairs(s.arrangements) <= history
    ensures var s' := AfterAll(s, run);
            SourcesKept(s.sources, s'.sources) && Dispatching(s'.sources, s'.arrangements, history + Dispatched(s, run))
    decreases |run|
  {
    hide Dispatching, After, SourcesKept;
    if run == [] {
      assert history + Dispatched(s, run) == history;
      KeptAtFirst(s.sources);
    } else {
      var next := After(s, run[0].env, run[0].command);
      StepDispatches(s, run[0].env, history, run[0].command);
      RunDispatches(next, run[1..], history + Pairs(next.arrangements));
      PairsComeFirst(next, run[1..]);
      assert history + Pairs(next.arrangements) + Dispatched(next, run[1..]) == history + Dispatched(s, run);
      var last := AfterAll(next, run[1..]);
      KeptThrough(s.sources, next.sources, last.sources);
    }
  }

  lemma PairsComeFirst(s: Ledger, run: seq<Step>)
    ensures Pairs(s.arrangements) <= Dispatched(s, run)
  {
  }

  lemma KeptAtFirst(a: Sources)
    ensures SourcesKept(a, a)
  {
  }

  lemma KeptThrough(a: Sources, b: Sources, c: Sources)
    requires SourcesKept(a, b) && SourcesKept(b, c)
    ensures SourcesKept(a, c)
  {
  }

  /** A source handed to the old topic owner, at any time of a run, is the source of no arrangement at any time of it. */
  lemma HandedOverIsNeverDispatched(before: seq<Step>, later: seq<Step>, c: Id, id: SourceId)
    requires id in AfterAll(EmptyLedger, before).sources && AfterAll(EmptyLedger, before).sources[id].owner.LegacyTopic?
    ensures (c, id) !in Dispatched(EmptyLedger, before + later)
  {
    hide Dispatching, After;
    var middle, run := AfterAll(EmptyLedger, before), before + later;
    var last := AfterAll(EmptyLedger, run);
    EmptyDispatches();
    RunDispatches(EmptyLedger, run, {});
    RunDispatches(EmptyLedger, before, {});
    RunsCompose(EmptyLedger, before, later);
    RunDispatches(middle, later, {} + Dispatched(EmptyLedger, before)) by { LastPairs(EmptyLedger, before); }
    UnfrozenOrLegacy(last.sources, last.arrangements, {} + Dispatched(EmptyLedger, run), id);
    NeverFrozen(last, {} + Dispatched(EmptyLedger, run), c, id);
  }

  lemma NeverFrozen(s: Ledger, history: History, c: Id, id: SourceId)
    requires Dispatching(s.sources, s.arrangements, history) && id in s.sources && s.sources[id].frozen
    ensures (c, id) !in history
  {
  }

  lemma EmptyDispatches()
    ensures Dispatching(EmptyLedger.sources, EmptyLedger.arrangements, {}) && Pairs(EmptyLedger.arrangements) == {}
  {
  }

  lemma {:induction false} LastPairs(s: Ledger, run: seq<Step>)
    ensures Pairs(AfterAll(s, run).arrangements) <= Dispatched(s, run)
    decreases |run|
  {
    hide After;
    if run != [] { LastPairs(After(s, run[0].env, run[0].command), run[1..]); }
  }

  lemma {:induction false} RunsCompose(s: Ledger, a: seq<Step>, b: seq<Step>)
    ensures AfterAll(s, a + b) == AfterAll(AfterAll(s, a), b)
    decreases |a|
  {
    hide After;
    if a == [] {
      assert a + b == b;
    } else {
      assert (a + b)[1..] == a[1..] + b;
      RunsCompose(After(s, a[0].env, a[0].command), a[1..], b);
    }
  }

  /** In every run no source is both accepted and frozen. */
  lemma NeverBoth(run: seq<Step>, id: SourceId)
    requires id in AfterAll(EmptyLedger, run).sources
    ensures var x := AfterAll(EmptyLedger, run).sources[id]; !(x.state.Accepted? && x.frozen)
  {
    hide Dispatching, After;
    var s := AfterAll(EmptyLedger, run);
    EmptyDispatches();
    RunDispatches(EmptyLedger, run, {});
    UnfrozenOrLegacy(s.sources, s.arrangements, {} + Dispatched(EmptyLedger, run), id);
  }

  /** An accepted source is not frozen, and is never rejected, frozen, handed over, clarified or accepted again, in any run. */
  lemma AcceptedIsFinal(before: seq<Step>, later: seq<Step>, id: SourceId)
    requires var s := AfterAll(EmptyLedger, before); id in s.sources && s.sources[id].state.Accepted?
    ensures !AfterAll(EmptyLedger, before).sources[id].frozen
    ensures var s, s' := AfterAll(EmptyLedger, before), AfterAll(EmptyLedger, before + later);
            id in s'.sources && s'.sources[id].state.Accepted? && !s'.sources[id].frozen && s'.sources[id].owner == s.sources[id].owner
  {
    hide Dispatching, After;
    EmptyDispatches();
    NeverBoth(before, id);
    RunDispatches(EmptyLedger, before, {});
    LastPairs(EmptyLedger, before);
    RunsCompose(EmptyLedger, before, later);
    RunDispatches(AfterAll(EmptyLedger, before), later, {} + Dispatched(EmptyLedger, before));
  }

  /** Only a reserved source can be accepted. */
  lemma OnlyReservedIsAccepted(s: Ledger, env: Env, c: Command)
    requires c.AcceptProposal? || c.ChangeArrangement?
    requires Execute(s, env, c).Success?
    ensures c.source in s.sources && s.sources[c.source].state.Reserved? && !s.sources[c.source].frozen
    ensures After(s, env, c).sources[c.source].state.Accepted?
  {
    hide Admit, DraftOf;
  }
}
