/**
  Whole runs of the coordination ledger: a frozen command is applied at most once and only when all
  its dependencies are complete, and waiting members cannot all wait on each other.
*/
module LedgerRuns {
  import opened Wrappers
  import opened Graphs
  import opened Ordinals
  import opened Ledger
  import opened LedgerGraph

  // ---------- What a member keeps ----------

  /** The frozen part of a member; and a member that has left `Ready` never returns to it. */
  predicate MemberKept(m: Member, m': Member) {
    && m'.arrangement == m.arrangement && m'.taskId == m.taskId && m'.observation == m.observation && m'.command == m.command
    && m'.precondition == m.precondition && m'.recurring == m.recurring && (m'.state.Ready? ==> m.state.Ready?)
  }

  ghost predicate MembersKept(before: map<Id, Member>, after: map<Id, Member>) {
    forall i :: i in before ==> i in after && MemberKept(before[i], after[i])
  }

  lemma {:induction false} PutKeeps(base: map<Id, Member>, members: map<Id, Member>, rows: Rows)
    requires MembersKept(base, members)
    requires forall k :: 0 <= k < |rows| && rows[k].0 in base ==> MemberKept(base[rows[k].0], rows[k].1)
    ensures MembersKept(base, Put(members, rows))
    decreases |rows|
  {
    hide MemberKept;
    if rows != [] {
      forall k | 0 <= k < |rows[1..]| && rows[1..][k].0 in base ensures MemberKept(base[rows[1..][k].0], rows[1..][k].1) {
        assert rows[1..][k] == rows[k + 1];
      }
      PutKeeps(base, members[rows[0].0 := rows[0].1], rows[1..]);
    }
  }

  lemma NewRowsKeep(s: Ledger, env: Env, inputs: seq<Input>, c: Id, group: Id, room: map<Id, Member>, rows': Rows)
    requires PrepareAll(s, env, inputs, c, group).Success? && MembersKept(s.members, room)
    requires var rows := PrepareAll(s, env, inputs, c, group).value;
             |rows'| == |rows| && forall k :: 0 <= k < |rows| ==> rows'[k].0 == rows[k].0
    ensures MembersKept(s.members, Put(room, rows'))
  {
    PreparedRows(s, env, inputs, c, group);
    PutKeeps(s.members, room, rows');
  }

  lemma {:induction false} ReorderedRowsKeep(s: Ledger, env: Env, a: Arrangement, items: seq<(Id, seq<Id>)>, sourceId: SourceId)
    requires ReorderRows(s, env, a, items, sourceId).Success?
    ensures var rows := ReorderRows(s, env, a, items, sourceId).value;
            forall k :: 0 <= k < |rows| ==> rows[k].0 in s.members && MemberKept(s.members[rows[k].0], rows[k].1)
    decreases |items|
  {
    if items != [] { ReorderedRowsKeep(s, env, a, items[1..], sourceId); }
  }

  lemma AcceptKeepsMembers(s: Ledger, env: Env, sourceId: SourceId, fence: nat, c: Id, replaced: Option<nat>, p: Proposal)
    requires Accept(s, env, sourceId, fence, c, replaced, p).Success?
    ensures MembersKept(s.members, Accept(s, env, sourceId, fence, c, replaced, p).value.members)
  {
    hide GraphError, Activated;
    var s' := Accept(s, env, sourceId, fence, c, replaced, p).value;
    NewRowsKeep(s, env, p.members, c, s.sources[sourceId].group, s.members,
                ActivatedRows(env, Admit(s, env, sourceId, c, p).value.0, sourceId, s'.arrangements[c].revision));
  }

  lemma DraftKeepsMembers(s: Ledger, env: Env, sourceId: SourceId, c: Id, change: Change)
    requires sourceId in s.sources && c in s.arrangements && !change.ResolveAll? && DraftOf(s, env, sourceId, c, change).Success?
    ensures MembersKept(s.members, DraftOf(s, env, sourceId, c, change).value.members)
  {
    hide GraphError, Activated, Current, Prepare;
    var a, group := s.arrangements[c], s.sources[sourceId].group;
    match change
    case AnswerClarifications(_, inputs, _) =>
      NewRowsKeep(s, env, inputs, c, group, s.members, ActivatedRows(env, PrepareAll(s, env, inputs, c, group).value, sourceId, a.revision + 1));
    case AppendMembers(inputs, _) =>
      var rows := PrepareAll(s, env, inputs, c, group).value;
      NewRowsKeep(s, env, inputs, c, group, MakeRoom(s.members, a.memberIds, rows), ActivatedRows(env, rows, sourceId, a.revision + 1));
    case Reorder(items) =>
      ReorderedRowsKeep(s, env, a, items, sourceId);
      PutKeeps(s.members, s.members, ReorderRows(s, env, a, items, sourceId).value);
    case _ =>
  }

  lemma SourceStepsKeepMembers(s: Ledger, id: SourceId, fence: nat, action: SourceAction)
    requires OnSource(s, id, fence, action).Success?
    ensures OnSource(s, id, fence, action).value.members == s.members && OnSource(s, id, fence, action).value.applied == s.applied
  {
  }

  lemma AssessKeepsMembers(s: Ledger, env: Env, j: Judgement)
    requires Assess(s, env, j).Success?
    ensures MembersKept(s.members, Assess(s, env, j).value.members)
  {
    hide GraphError, Current;
  }

  lemma SingleStepsKeepMembers(s: Ledger, env: Env, c: Command)
    requires c.BecomeTemplate? || c.SupersedeMember? || c.CompleteMember?
    requires Execute(s, env, c).Success?
    ensures MembersKept(s.members, After(s, env, c).members)
  {
    hide Assess, Apply;
  }

  lemma ApplyKeepsMembers(s: Ledger, env: Env, id: Id, revision: nat, version: Version)
    requires Apply(s, env, id, revision, version).Success?
    ensures MembersKept(s.members, Apply(s, env, id, revision, version).value.members)
  {
    hide Current, WaitingDeps;
  }

  lemma GroupStepsKeepMembers(s: Ledger, env: Env, c: Command)
    requires c.CancelOne? || c.Retire? || c.ReconcileObservations?
    requires Execute(s, env, c).Success?
    ensures MembersKept(s.members, After(s, env, c).members)
  {
    hide Current;
  }

  /** No command changes a frozen command, or returns a member to `Ready`. */
  lemma StepKeepsMembers(s: Ledger, env: Env, c: Command)
    ensures MembersKept(s.members, After(s, env, c).members)
  {
    hide GraphError, Admit, DraftOf, Activated, Current, WaitingDeps, Acyclic, TaskEdges, OnSource, Apply, Assess, Reconcile,
         RetireObservation, CancelArrangement, Accept;
    if Execute(s, env, c).Success? {
      match c
      case AcceptProposal(source, fence, id, replaced, p) => AcceptKeepsMembers(s, env, source, fence, id, replaced, p);
      case ChangeArrangement(source, fence, id, revision, change) =>
        if change.ResolveAll? {
          AcceptKeepsMembers(s, env, source, fence, id, Some(s.arrangements[id].revision), change.proposal);
        } else {
          DraftKeepsMembers(s, env, source, id, change);
        }
      case InstantiateRecurring(id, inputs) =>
        var group := s.sources[s.arrangements[id].sourceId].group;
        NewRowsKeep(s, env, inputs, id, group, s.members, AsRecurring(PrepareAll(s, env, inputs, id, group).value));
      case SourceStep(id, fence, action) => SourceStepsKeepMembers(s, id, fence, action);
      case AssessOrder(j) => AssessKeepsMembers(s, env, j);
      case ApplyMember(id, revision, version) => ApplyKeepsMembers(s, env, id, revision, version);
      case CancelOne(_, _) => GroupStepsKeepMembers(s, env, c);
      case Retire(_, _, _, _) => GroupStepsKeepMembers(s, env, c);
      case ReconcileObservations(_) => GroupStepsKeepMembers(s, env, c);
      case ReserveSource(_, _, _, _) =>
      case _ => SingleStepsKeepMembers(s, env, c);
    }
  }

  // ---------- At most once, and only when ready ----------

  /** The frozen command may be applied now. */
  ghost predicate MayApply(s: Ledger, env: Env, id: Id) {
    && id in s.members
    && var m := s.members[id];
       m.state.Ready? && m.control.Running? && Current(env, m) && env.triggered(id) && !OpenAssessment(m)
       && m.arrangement in s.arrangements && s.arrangements[m.arrangement].state.Active?
       && forall d :: d in m.dependencies ==> d in s.members && IsFulfilled(s, env, d)
  }

  lemma {:induction false} NothingWaits(s: Ledger, env: Env, deps: seq<Id>)
    requires (forall d :: d in deps ==> d in s.members) && WaitingDeps(s, env, deps) == []
    ensures forall d :: d in deps ==> IsFulfilled(s, env, d)
    decreases |deps|
  {
    hide IsFulfilled;
    if deps != [] { NothingWaits(s, env, deps[1..]); }
  }

  /** Exactly one command ever hands a member's frozen command on, and then the member may be applied. */
  ghost predicate AppliesAt(s: Ledger, step: Step, id: Id) {
    step.command.ApplyMember? && step.command.member == id && MayApply(s, step.env, id)
    && After(s, step.env, step.command).applied == s.applied + [id]
    && id in After(s, step.env, step.command).members && After(s, step.env, step.command).members[id].state.Applied?
  }

  lemma ApplyingStep(s: Ledger, env: Env, id: Id, revision: nat, version: Version)
    ensures var r := Apply(s, env, id, revision, version);
            r.Success? && r.value.applied != s.applied
            ==> MayApply(s, env, id) && r.value.applied == s.applied + [id] && id in r.value.members && r.value.members[id].state.Applied?
  {
    hide IsFulfilled, Current;
    var r := Apply(s, env, id, revision, version);
    if r.Success? && r.value.applied != s.applied {
      NothingWaits(s, env, s.members[id].dependencies);
    }
  }

  lemma StepApplies(s: Ledger, step: Step)
    ensures After(s, step.env, step.command).applied == s.applied
            || (step.command.ApplyMember? && AppliesAt(s, step, step.command.member))
  {
    hide GraphError, Admit, DraftOf, Accepting, Current, IsFulfilled, MayApply, Apply, OnOpenSource;
    var env := step.env;
    match step.command
    case ApplyMember(id, revision, version) => ApplyingStep(s, env, id, revision, version);
    case SourceStep(id, fence, action) => if OnSource(s, id, fence, action).Success? { SourceStepsKeepMembers(s, id, fence, action); }
    case AcceptProposal(source, fence, id, replaced, p) => AcceptKeepsApplied(s, env, source, fence, id, replaced, p);
    case ChangeArrangement(source, fence, id, revision, change) => ChangeKeepsApplied(s, env, source, fence, id, revision, change);
    case _ =>
  }

  lemma AcceptKeepsApplied(s: Ledger, env: Env, sourceId: SourceId, fence: nat, c: Id, replaced: Option<nat>, p: Proposal)
    ensures var r := Accept(s, env, sourceId, fence, c, replaced, p); r.Success? ==> r.value.applied == s.applied
  {
    hide Admit;
  }

  lemma ChangeKeepsApplied(s: Ledger, env: Env, sourceId: SourceId, fence: nat, c: Id, revision: nat, change: Change)
    ensures var r := DoChange(s, env, sourceId, fence, c, revision, change); r.Success? ==> r.value.applied == s.applied
  {
    hide DraftOf, Accept;
    if change.ResolveAll? && c in s.arrangements { AcceptKeepsApplied(s, env, sourceId, fence, c, Some(s.arrangements[c].revision), change.proposal); }
  }

  ghost predicate AppliedOnce(s: Ledger) {
    Distinct(s.applied) && forall id :: id in s.applied ==> id in s.members && !s.members[id].state.Ready?
  }

  lemma StepAppliesOnce(s: Ledger, step: Step)
    requires AppliedOnce(s)
    ensures AppliedOnce(After(s, step.env, step.command))
  {
    hide After;
    StepApplies(s, step);
    StepKeepsMembers(s, step.env, step.command);
  }

  ghost predicate AppliedDuring(s: Ledger, run: seq<Step>, k: nat, id: Id) {
    k < |run| && AppliesAt(AfterAll(s, run[..k]), run[k], id)
  }

  /** In every run, whatever was applied was applied once, at a moment when all its dependencies were complete. */
  lemma {:induction false} RunAppliesOnce(s: Ledger, run: seq<Step>)
    requires AppliedOnce(s)
    ensures AppliedOnce(AfterAll(s, run))
    ensures forall id :: id in AfterAll(s, run).applied && id !in s.applied ==> exists k: nat :: AppliedDuring(s, run, k, id)
    decreases |run|
  {
    hide AppliedOnce, After, AppliesAt;
    if run != [] {
      var next := After(s, run[0].env, run[0].command);
      StepAppliesOnce(s, run[0]);
      RunAppliesOnce(next, run[1..]);
      StepApplies(s, run[0]);
      forall id | id in AfterAll(s, run).applied && id !in s.applied ensures exists k: nat :: AppliedDuring(s, run, k, id) {
        if id in next.applied {
          AppendedOne(s, run[0], id);
          assert run[..0] == [];
          assert AppliedDuring(s, run, 0, id);
        } else {
          var k: nat :| AppliedDuring(next, run[1..], k, id);
          assert run[..k + 1] == [run[0]] + run[1..][..k];
          assert AppliedDuring(s, run, k + 1, id);
        }
      }
    }
  }

  /** From the empty ledger: nothing is applied twice, and each application had all its dependencies complete. */
  lemma EveryRunAppliesOnce(run: seq<Step>)
    ensures Distinct(AfterAll(EmptyLedger, run).applied)
    ensures forall id :: id in AfterAll(EmptyLedger, run).applied ==> exists k: nat :: AppliedDuring(EmptyLedger, run, k, id)
  {
    hide After, AppliesAt, AppliedDuring;
    RunAppliesOnce(EmptyLedger, run);
  }

  lemma AppendedOne(s: Ledger, step: Step, id: Id)
    requires id in After(s, step.env, step.command).applied && id !in s.applied
    ensures AppliesAt(s, step, id)
  {
    hide After;
    StepApplies(s, step);
  }

  // ---------- Progress ----------

  ghost predicate WaitsInside(s: Ledger, env: Env, ids: set<Id>, id: Id)
    requires id in s.members
  {
    exists d :: d in ids && d in s.members && d in s.members[id].dependencies && !IsFulfilled(s, env, d)
  }

  lemma WaitingEdge(s: Ledger, ids: set<Id>, id: Id, d: Id)
    requires (forall x :: x in ids ==> x in s.members) && id in ids && d in ids && d in s.members[id].dependencies
    requires InGraph(s.members[id], s.arrangements) && !OpenAssessment(s.members[id])
    ensures Waits(TaskEdges(s.members, s.arrangements), set x | x in ids :: s.members[x].taskId, s.members[id].taskId)
  {
    hide InGraph;
    IsEdge(s.members, s.arrangements, id, d);
    var tasks := set x | x in ids :: s.members[x].taskId;
    assert s.members[d].taskId in tasks;
  }

  /** Among unfulfilled members in the graph with no open assessment, one waits on none of the others. */
  lemma SomeMemberIsFree(s: Ledger, env: Env, ids: set<Id>)
    requires AcyclicLedger(s) && ids != {}
    requires forall id :: id in ids ==> id in s.members && InGraph(s.members[id], s.arrangements) && !OpenAssessment(s.members[id])
    ensures exists id :: id in ids && !WaitsInside(s, env, ids, id)
  {
    hide IsFulfilled, InGraph;
    var edges := TaskEdges(s.members, s.arrangements);
    var tasks := set id | id in ids :: s.members[id].taskId;
    var one :| one in ids;
    assert s.members[one].taskId in tasks;
    SomeNodeIsFree(edges, tasks);
    var t :| t in tasks && !Waits(edges, tasks, t);
    var id :| id in ids && s.members[id].taskId == t;
    if WaitsInside(s, env, ids, id) {
      var d :| d in ids && d in s.members && d in s.members[id].dependencies && !IsFulfilled(s, env, d);
      WaitingEdge(s, ids, id, d);
    }
  }
}
