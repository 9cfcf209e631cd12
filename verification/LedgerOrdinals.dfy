/**
  Ordinals over whole runs of the ledger: the frozen source order of an arrangement stays well
  ordered, and an ordinal that once meant an instruction means that instruction for ever.
*/
module LedgerOrdinals {
  import opened Wrappers
  import opened Graphs
  import opened Ordinals
  import opened Ledger
  import opened LedgerGraph
  import opened LedgerRuns
  import opened LedgerSources

  function AcceptedSources(sources: Sources): set<SourceId> {
    set a | a in sources && sources[a].state.Accepted?
  }

  ghost predicate OrderOk(sources: Sources, members: map<Id, Member>, a: Arrangement) {
    && (forall id :: id in a.memberIds ==> id in members)
    && (a.state.NeedsClarification? ==> a.memberIds == [] && a.order.None?)
    && (a.order.Some? ==> WellOrdered(a.order.value, AcceptedSources(sources)) && Unanswered(a.order.value, a.pending))
  }

  /** The slot of an open question has no instruction. */
  predicate Unanswered(order: seq<Slot>, pending: seq<Id>) {
    forall i :: 0 <= i < |order| && order[i].clarification.Some? && order[i].clarification.value in pending ==> order[i].instructionIds == []
  }

  ghost predicate AllOrdersOk(s: Ledger) {
    forall c :: c in s.arrangements ==> OrderOk(s.sources, s.members, s.arrangements[c])
  }

  function DirectoryOf(s: Ledger, a: Arrangement): Directory {
    Directory(a.order, a.gap, a.hadPartial || a.pending != [], a.memberIds, set i | i in s.members && s.members[i].recurring)
  }

  /** One arrangement after a step: well ordered, and every ordinal it resolves it keeps resolving. */
  ghost predicate Steady(s: Ledger, s': Ledger, c: Id) {
    c in s'.arrangements && OrderOk(s'.sources, s'.members, s'.arrangements[c])
    && (c in s.arrangements && !s.arrangements[c].state.NeedsClarification?
        ==> Continues(DirectoryOf(s, s.arrangements[c]), DirectoryOf(s', s'.arrangements[c])))
  }

  lemma MoreSources(order: seq<Slot>, few: set<SourceId>, many: set<SourceId>)
    requires WellOrdered(order, few) && few <= many
    ensures WellOrdered(order, many)
  {
  }

  lemma KeptIsSteady(s: Ledger, s': Ledger, c: Id)
    requires AllOrdersOk(s) && MembersKept(s.members, s'.members) && SourcesKept(s.sources, s'.sources)
    requires c in s.arrangements && c in s'.arrangements
    requires var a, a' := s.arrangements[c], s'.arrangements[c];
             a'.memberIds == a.memberIds && a'.order == a.order && a'.pending == a.pending && a'.hadPartial == a.hadPartial
             && (a'.state.NeedsClarification? ==> a.state.NeedsClarification?)
    ensures Steady(s, s', c)
  {
    var a := s.arrangements[c];
    assert OrderOk(s.sources, s.members, a);
    if a.order.Some? { MoreSources(a.order.value, AcceptedSources(s.sources), AcceptedSources(s'.sources)); }
    RecurringStays(s, s', a);
  }

  lemma RecurringStays(s: Ledger, s': Ledger, a: Arrangement)
    requires OrderOk(s.sources, s.members, a) && MembersKept(s.members, s'.members)
    ensures forall id :: id in a.memberIds ==>
              (id in (set i | i in s.members && s.members[i].recurring) <==> id in (set i | i in s'.members && s'.members[i].recurring))
  {
    forall id | id in a.memberIds ensures MemberKept(s.members[id], s'.members[id]) {}
  }

  lemma {:induction false} PutHasRows(members: map<Id, Member>, rows: Rows)
    ensures members.Keys <= Put(members, rows).Keys
    ensures forall id :: id in RowIds(rows) ==> id in Put(members, rows)
    decreases |rows|
  {
    if rows != [] {
      PutHasRows(members[rows[0].0 := rows[0].1], rows[1..]);
      forall id | id in RowIds(rows) ensures id in Put(members, rows) {
        if id != rows[0].0 {
          var k :| 0 < k < |rows| && rows[k].0 == id;
          assert RowIds(rows[1..])[k - 1] == id;
        }
      }
    }
  }

  lemma FrozenOrderIsOk(entries: Option<seq<Entry>>, source: Source, sourceId: SourceId, members: seq<Id>, pending: seq<Id>)
    requires FrozenOrder(entries, source, sourceId, members, pending).Success?
    ensures var order := FrozenOrder(entries, source, sourceId, members, pending).value;
            order.Some? ==> WellOrdered(order.value, {sourceId}) && Unanswered(order.value, pending)
                            && (pending == [] ==> forall i :: 0 <= i < |order.value| ==> order.value[i].clarification.None?)
  {
    if entries.Some? {
      FrozenIsWellOrdered(entries.value, source.original, sourceId, members, pending);
      var r := Freeze(entries.value, source.original, sourceId, members, pending).value;
      assert forall i :: 0 <= i < |r| ==> r[i] in r;
    }
  }

  // ---------- Accepting ----------

  lemma AcceptedIsSteady(s: Ledger, env: Env, sourceId: SourceId, fence: nat, c: Id, replaced: Option<nat>, p: Proposal)
    requires Accept(s, env, sourceId, fence, c, replaced, p).Success?
    ensures Steady(s, Accept(s, env, sourceId, fence, c, replaced, p).value, c)
  {
    hide GraphError, Activated, PrepareAll, FrozenOrder, Continues;
    var s' := Accept(s, env, sourceId, fence, c, replaced, p).value;
    var admitted := Admit(s, env, sourceId, c, p).value;
    var rows, a := admitted.0, s'.arrangements[c];
    var act := ActivatedRows(env, rows, sourceId, a.revision);
    assert RowIds(act) == RowIds(rows);
    PutHasRows(s.members, act);
    FrozenOrderIsOk(p.order, s.sources[sourceId], sourceId, RowIds(rows), p.pending);
    assert {sourceId} <= AcceptedSources(s'.sources);
    if a.order.Some? { MoreSources(a.order.value, {sourceId}, AcceptedSources(s'.sources)); }
  }

  // ---------- Changing ----------

  lemma AssignedIsSteady(order: seq<Slot>, pending: seq<Id>, ids: seq<Id>, assignments: seq<Assignment>, sources: set<SourceId>)
    requires WellOrdered(order, sources) && Unanswered(order, pending) && forall id :: id in ids ==> id in pending
    ensures var order' := Assign(order, ids, assignments);
            WellOrdered(order', sources) && Unanswered(order', Without(pending, ids)) && OrderContinues(order, order')
  {
  }

  lemma AppendedIsSteady(order: seq<Slot>, pending: seq<Id>, appended: seq<Slot>, sourceId: SourceId, sources: set<SourceId>)
    requires WellOrdered(order, sources) && Unanswered(order, pending) && WellOrdered(appended, {sourceId}) && sourceId !in sources
    requires forall i :: 0 <= i < |appended| ==> appended[i].clarification.None?
    ensures var order' := Append(order, appended);
            WellOrdered(order', sources + {sourceId}) && Unanswered(order', pending) && OrderContinues(order, order')
  {
    AppendedIsWellOrdered(order, sources, appended, sourceId);
  }

  /** What the draft of a change may do to the order and the members of its arrangement. */
  ghost predicate DraftSteady(s: Ledger, sourceId: SourceId, a: Arrangement, d: Draft) {
    && a.memberIds <= d.arrangement.memberIds && (forall id :: id in d.arrangement.memberIds ==> id in d.members)
    && (d.arrangement.state.NeedsClarification? ==> a.state.NeedsClarification?)
    && d.arrangement.hadPartial == a.hadPartial && (a.pending == [] ==> d.arrangement.pending == [])
    && (a.order.Some? <==> d.arrangement.order.Some?)
    && (a.order.Some? ==> OrderContinues(a.order.value, d.arrangement.order.value)
                          && WellOrdered(d.arrangement.order.value, AcceptedSources(s.sources) + {sourceId})
                          && Unanswered(d.arrangement.order.value, d.arrangement.pending))
  }

  lemma AnswerIsSteady(s: Ledger, env: Env, sourceId: SourceId, c: Id, change: Change)
    requires AllOrdersOk(s) && sourceId in s.sources && c in s.arrangements && change.AnswerClarifications?
    requires Answer(s, env, sourceId, c, change).Success?
    ensures DraftSteady(s, sourceId, s.arrangements[c], Answer(s, env, sourceId, c, change).value)
  {
    hide GraphError, Activated, PrepareAll, WellOrdered, Unanswered, Assign;
    var a, d := s.arrangements[c], Answer(s, env, sourceId, c, change).value;
    var rows := PrepareAll(s, env, change.members, c, s.sources[sourceId].group).value;
    var act := ActivatedRows(env, rows, sourceId, a.revision + 1);
    assert RowIds(act) == RowIds(rows);
    PutHasRows(s.members, act);
    assert OrderOk(s.sources, s.members, a);
    if a.order.Some? {
      AssignedIsSteady(a.order.value, a.pending, change.ids, change.assignments, AcceptedSources(s.sources));
      MoreSources(d.arrangement.order.value, AcceptedSources(s.sources), AcceptedSources(s.sources) + {sourceId});
    }
  }

  lemma AppendIsSteady(s: Ledger, env: Env, sourceId: SourceId, c: Id, change: Change)
    requires AllOrdersOk(s) && sourceId in s.sources && c in s.arrangements && change.AppendMembers? && !s.sources[sourceId].state.Accepted?
    requires DoAppend(s, env, sourceId, c, change).Success?
    ensures DraftSteady(s, sourceId, s.arrangements[c], DoAppend(s, env, sourceId, c, change).value)
  {
    hide GraphError, Activated, PrepareAll, WellOrdered, Unanswered, Append, FrozenOrder;
    var a, d := s.arrangements[c], DoAppend(s, env, sourceId, c, change).value;
    var rows := PrepareAll(s, env, change.members, c, s.sources[sourceId].group).value;
    var act := ActivatedRows(env, rows, sourceId, a.revision + 1);
    assert RowIds(act) == RowIds(rows);
    PutHasRows(MakeRoom(s.members, a.memberIds, rows), act);
    assert OrderOk(s.sources, s.members, a);
    FrozenOrderIsOk(change.order, s.sources[sourceId], sourceId, RowIds(rows), []);
    if a.order.Some? {
      var appended := FrozenOrder(change.order, s.sources[sourceId], sourceId, RowIds(rows), []).value;
      if appended.Some? && !a.gap {
        AppendedIsSteady(a.order.value, a.pending, appended.value, sourceId, AcceptedSources(s.sources));
      } else {
        MoreSources(a.order.value, AcceptedSources(s.sources), AcceptedSources(s.sources) + {sourceId});
      }
    }
  }

  lemma OtherDraftsAreSteady(s: Ledger, env: Env, sourceId: SourceId, c: Id, change: Change)
    requires AllOrdersOk(s) && sourceId in s.sources && c in s.arrangements && (change.Steer? || change.Reorder? || change.ChangePlan?)
    requires DraftOf(s, env, sourceId, c, change).Success?
    ensures DraftSteady(s, sourceId, s.arrangements[c], DraftOf(s, env, sourceId, c, change).value)
  {
    hide GraphError, WellOrdered, Unanswered, ReorderRows;
    var a := s.arrangements[c];
    assert OrderOk(s.sources, s.members, a);
    if a.order.Some? { MoreSources(a.order.value, AcceptedSources(s.sources), AcceptedSources(s.sources) + {sourceId}); }
    if change.Reorder? { PutHasRows(s.members, ReorderRows(s, env, a, change.items, sourceId).value); }
  }

  lemma ChangedIsSteady(s: Ledger, sourceId: SourceId, c: Id, d: Draft)
    requires AllOrdersOk(s) && sourceId in s.sources && c in s.arrangements && DraftSteady(s, sourceId, s.arrangements[c], d)
    requires var s' := Changed(s, sourceId, c, d); MembersKept(s.members, s'.members) && SourcesKept(s.sources, s'.sources)
    requires s.arrangements[c].state.Active?
    ensures Steady(s, Changed(s, sourceId, c, d), c)
  {
    hide WellOrdered, Unanswered, OrderContinues, MembersKept;
    var a, s' := s.arrangements[c], Changed(s, sourceId, c, d);
    assert OrderOk(s.sources, s.members, a);
    assert AcceptedSources(s.sources) + {sourceId} <= AcceptedSources(s'.sources);
    if a.order.Some? { MoreSources(d.arrangement.order.value, AcceptedSources(s.sources) + {sourceId}, AcceptedSources(s'.sources)); }
    RecurringStays(s, s', a);
  }

  // ---------- Every command, every run ----------

  lemma InstantiatedIsSteady(s: Ledger, env: Env, c: Id, inputs: seq<Input>)
    requires AllOrdersOk(s) && Instantiate(s, env, c, inputs).Success?
    requires MembersKept(s.members, Instantiate(s, env, c, inputs).value.members)
    ensures Steady(s, Instantiate(s, env, c, inputs).value, c)
  {
    hide GraphError, PrepareAll, WellOrdered, Unanswered, MembersKept;
    var a, s' := s.arrangements[c], Instantiate(s, env, c, inputs).value;
    var rows := PrepareAll(s, env, inputs, c, s.sources[a.sourceId].group).value;
    assert RowIds(AsRecurring(rows)) == RowIds(rows);
    PutHasRows(s.members, AsRecurring(rows));
    assert OrderOk(s.sources, s.members, a);
    RecurringStays(s, s', a);
  }

  lemma ChangeIsSteady(s: Ledger, env: Env, c: Command)
    requires AllOrdersOk(s) && c.ChangeArrangement? && Execute(s, env, c).Success?
    requires MembersKept(s.members, After(s, env, c).members) && SourcesKept(s.sources, After(s, env, c).sources)
    ensures Steady(s, After(s, env, c), c.arrangement)
  {
    hide AllOrdersOk, Steady, Accept, MembersKept, SourcesKept, DraftSteady, Answer, DoAppend, DoSteer, DoReorder, Changed;
    if c.change.ResolveAll? {
      AcceptedIsSteady(s, env, c.source, c.fence, c.arrangement, Some(s.arrangements[c.arrangement].revision), c.change.proposal);
    } else {
      if c.change.AnswerClarifications? {
        AnswerIsSteady(s, env, c.source, c.arrangement, c.change);
      } else if c.change.AppendMembers? {
        AppendIsSteady(s, env, c.source, c.arrangement, c.change);
      } else {
        OtherDraftsAreSteady(s, env, c.source, c.arrangement, c.change);
      }
      ChangedIsSteady(s, c.source, c.arrangement, DraftOf(s, env, c.source, c.arrangement, c.change).value);
    }
  }

  /** What an arrangement that a command does not name keeps. */
  predicate KeepsDirectory(s: Ledger, s': Ledger, x: Id) {
    x in s.arrangements ==>
      x in s'.arrangements
      && var a, a' := s.arrangements[x], s'.arrangements[x];
         a'.memberIds == a.memberIds && a'.order == a.order && a'.pending == a.pending && a'.hadPartial == a.hadPartial
         && (a'.state.NeedsClarification? ==> a.state.NeedsClarification?)
  }

  /** The arrangement whose order or members a command may write. */
  predicate Names(c: Command, x: Id) {
    match c
    case AcceptProposal(_, _, a, _, _) => x == a
    case ChangeArrangement(_, _, a, _, _) => x == a
    case InstantiateRecurring(a, _) => x == a
    case SourceStep(_, _, Clarify(a)) => x == a
    case _ => false
  }

  lemma SourceStepKeepsOthers(s: Ledger, id: SourceId, fence: nat, action: SourceAction, x: Id)
    requires OnSource(s, id, fence, action).Success? && (action.Clarify? ==> action.arrangement != x)
    ensures KeepsDirectory(s, OnSource(s, id, fence, action).value, x)
  {
  }

  lemma ChangeKeepsOthers(s: Ledger, env: Env, c: Command, x: Id)
    requires (c.AcceptProposal? || c.ChangeArrangement?) && Execute(s, env, c).Success? && !Names(c, x)
    ensures KeepsDirectory(s, After(s, env, c), x)
  {
    hide Admit, DraftOf;
  }

  lemma OthersStay(s: Ledger, env: Env, c: Command, x: Id)
    requires Execute(s, env, c).Success? && !Names(c, x)
    ensures KeepsDirectory(s, After(s, env, c), x)
  {
    hide OnSource, Accept, DoChange, GraphError, PrepareAll, Apply, Assess, Reconcile, MakeTemplate, Supersede, RecordCompletion;
    match c
    case SourceStep(id, fence, action) => SourceStepKeepsOthers(s, id, fence, action, x);
    case AcceptProposal(_, _, _, _, _) => ChangeKeepsOthers(s, env, c, x);
    case ChangeArrangement(_, _, _, _, _) => ChangeKeepsOthers(s, env, c, x);
    case ApplyMember(_, _, _) => MemberStepsStay(s, env, c);
    case AssessOrder(_) => MemberStepsStay(s, env, c);
    case ReconcileObservations(_) => MemberStepsStay(s, env, c);
    case BecomeTemplate(_) => MemberStepsStay(s, env, c);
    case SupersedeMember(_) => MemberStepsStay(s, env, c);
    case CompleteMember(_, _) => MemberStepsStay(s, env, c);
    case _ =>
  }

  lemma StepIsSteady(s: Ledger, env: Env, c: Command)
    requires AllOrdersOk(s) && SourcesKept(s.sources, After(s, env, c).sources)
    ensures var s' := After(s, env, c);
            AllOrdersOk(s') && forall x :: x in s.arrangements ==> Steady(s, s', x)
  {
    hide AllOrdersOk, Steady, MembersKept, SourcesKept, After, Execute, OrderOk;
    var s' := After(s, env, c);
    StepKeepsMembers(s, env, c);
    forall x | x in s.arrangements ensures Steady(s, s', x) { ArrangementIsSteady(s, env, c, x); }
    forall x | x in s'.arrangements ensures OrderOk(s'.sources, s'.members, s'.arrangements[x]) {
      if x in s.arrangements { SteadyIsOk(s, s', x); } else { NewIsOk(s, env, c, x); }
    }
    AllAreOk(s');
  }

  lemma AllAreOk(s: Ledger)
    requires forall c :: c in s.arrangements ==> OrderOk(s.sources, s.members, s.arrangements[c])
    ensures AllOrdersOk(s)
  {
    hide OrderOk;
  }

  lemma SteadyIsOk(s: Ledger, s': Ledger, c: Id)
    requires Steady(s, s', c)
    ensures c in s'.arrangements && OrderOk(s'.sources, s'.members, s'.arrangements[c])
  {
    hide OrderOk, Continues;
  }

  lemma ArrangementIsSteady(s: Ledger, env: Env, c: Command, x: Id)
    requires AllOrdersOk(s) && x in s.arrangements
    requires MembersKept(s.members, After(s, env, c).members) && SourcesKept(s.sources, After(s, env, c).sources)
    ensures Steady(s, After(s, env, c), x)
  {
    hide AllOrdersOk, Steady, MembersKept, SourcesKept, Accept, DoChange, Instantiate, OnSource, Apply, Assess;
    if Execute(s, env, c).Failure? {
      KeptIsSteady(s, s, x);
    } else if c.AcceptProposal? && c.arrangement == x {
      AcceptedIsSteady(s, env, c.source, c.fence, x, c.replaced, c.proposal);
    } else if c.ChangeArrangement? && c.arrangement == x {
      ChangeIsSteady(s, env, c);
    } else if c.InstantiateRecurring? && c.arrangement == x {
      InstantiatedIsSteady(s, env, x, c.inputs);
    } else if c.SourceStep? && c.action.Clarify? && c.action.arrangement == x {
      ClarifiedIsSteady(s, c.source, c.fence, x);
    } else {
      OthersStay(s, env, c, x);
      KeptIsSteady(s, After(s, env, c), x);
    }
  }

  lemma ClarifiedIsSteady(s: Ledger, id: SourceId, fence: nat, c: Id)
    requires AllOrdersOk(s) && OnSource(s, id, fence, Clarify(c)).Success?
    ensures Steady(s, OnSource(s, id, fence, Clarify(c)).value, c)
  {
    if c in s.arrangements { assert OrderOk(s.sources, s.members, s.arrangements[c]); }
  }

  lemma NewIsOk(s: Ledger, env: Env, c: Command, x: Id)
    requires AllOrdersOk(s) && x !in s.arrangements && x in After(s, env, c).arrangements
    ensures var s' := After(s, env, c); OrderOk(s'.sources, s'.members, s'.arrangements[x])
  {
    hide AllOrdersOk, OrderOk, Accept, DoChange, Instantiate, OnSource, Apply, Assess, Continues;
    assert Execute(s, env, c).Success?;
    NewArrangementsAreAccepted(s, env, c, x);
    if c.AcceptProposal? {
      AcceptedIsSteady(s, env, c.source, c.fence, x, c.replaced, c.proposal);
    } else {
      ClarifiedIsSteady(s, c.source, c.fence, x);
    }
  }

  lemma NewArrangementsAreAccepted(s: Ledger, env: Env, c: Command, x: Id)
    requires x !in s.arrangements && x in After(s, env, c).arrangements
    ensures (c.AcceptProposal? && c.arrangement == x) || (c.SourceStep? && c.action == Clarify(x))
  {
    hide GraphError, Admit, DraftOf, Activated, Current, WaitingDeps, PrepareAll, Reconciled;
  }

  /** An ordinal keeps its meaning through one command. */
  lemma StepKeepsOrdinal(s: Ledger, s': Ledger, c: Id, n: int)
    requires c in s.arrangements && OrderOk(s.sources, s.members, s.arrangements[c]) && Steady(s, s', c)
    requires Resolve(DirectoryOf(s, s.arrangements[c]), n).Success?
    ensures c in s'.arrangements && Resolve(DirectoryOf(s', s'.arrangements[c]), n) == Resolve(DirectoryOf(s, s.arrangements[c]), n)
  {
    hide Continues, WellOrdered, Unanswered, Resolve;
    var d := DirectoryOf(s, s.arrangements[c]);
    if s.arrangements[c].state.NeedsClarification? {
      NothingResolves(d, n);
    } else {
      OrdinalStays(d, DirectoryOf(s', s'.arrangements[c]), n);
    }
  }

  lemma NothingResolves(d: Directory, n: int)
    requires d.order.None? && d.memberIds == []
    ensures Resolve(d, n).Failure?
  {
  }

  ghost predicate Meaning(s: Ledger, c: Id, n: int, instruction: Id) {
    c in s.arrangements && Resolve(DirectoryOf(s, s.arrangements[c]), n) == Success(instruction)
  }

  /** In every run an ordinal that once means an instruction means it from then on, and source orders stay well ordered. */
  lemma {:induction false} RunKeepsOrdinals(s: Ledger, run: seq<Step>, history: History)
    requires AllOrdersOk(s) && Dispatching(s.sources, s.arrangements, history)
    ensures AllOrdersOk(AfterAll(s, run))
    ensures forall c, n, instruction :: Meaning(s, c, n, instruction) ==> Meaning(AfterAll(s, run), c, n, instruction)
    decreases |run|
  {
    hide AllOrdersOk, After, Dispatching, SourcesKept, Meaning;
    if run != [] {
      var next := After(s, run[0].env, run[0].command);
      StepDispatches(s, run[0].env, history, run[0].command);
      StepIsSteady(s, run[0].env, run[0].command);
      RunKeepsOrdinals(next, run[1..], history + Pairs(next.arrangements));
      forall c, n, instruction | Meaning(s, c, n, instruction) ensures Meaning(next, c, n, instruction) {
        MeaningStays(s, next, c, n, instruction);
      }
    }
  }

  lemma MeaningStays(s: Ledger, s': Ledger, c: Id, n: int, instruction: Id)
    requires AllOrdersOk(s) && (forall x :: x in s.arrangements ==> Steady(s, s', x)) && Meaning(s, c, n, instruction)
    ensures Meaning(s', c, n, instruction)
  {
    hide Steady, OrderOk, Resolve;
    StepKeepsOrdinal(s, s', c, n);
  }

  /** From the empty ledger: an ordinal that once means an instruction means it after every continuation of the run. */
  lemma OrdinalsAreNeverRepointed(before: seq<Step>, later: seq<Step>, c: Id, n: int, instruction: Id)
    requires Meaning(AfterAll(EmptyLedger, before), c, n, instruction)
    ensures Meaning(AfterAll(EmptyLedger, before + later), c, n, instruction)
    ensures AllOrdersOk(AfterAll(EmptyLedger, before + later))
  {
    hide Meaning, After, Dispatching, AllOrdersOk;
    NoOrders();
    EmptyDispatches();
    RunDispatches(EmptyLedger, before, {});
    RunKeepsOrdinals(EmptyLedger, before, {});
    RunsCompose(EmptyLedger, before, later);
    RunKeepsOrdinals(AfterAll(EmptyLedger, before), later, {} + Dispatched(EmptyLedger, before));
  }

  lemma NoOrders()
    ensures AllOrdersOk(EmptyLedger)
  {
  }
}
