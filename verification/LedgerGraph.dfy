/**
  The effective task graph of the ledger stays acyclic under every command except one: pausing or
  resuming a member that was revoked brings its edges back unchecked.  Exactly when that closes a
  loop is stated by `SafeToRevive`.
*/
module LedgerGraph {
  import opened Wrappers
  import opened Graphs
  import opened Ordinals
  import opened Ledger

  ghost predicate AcyclicLedger(s: Ledger) {
    Acyclic(TaskEdges(s.members, s.arrangements))
  }

  // ---------- Steps that add no edge ----------

  /** `after` constrains tasks no more than `before` does. */
  ghost predicate Relaxes(before: map<Id, Member>, cs: map<Id, Arrangement>, after: map<Id, Member>, cs': map<Id, Arrangement>) {
    forall i :: i in after ==> i in before && Weaker(before[i], cs, after[i], cs')
  }

  predicate Weaker(m: Member, cs: map<Id, Arrangement>, m': Member, cs': map<Id, Arrangement>) {
    m'.taskId == m.taskId && (InGraph(m', cs') ==> InGraph(m, cs) && Deps(m') == Deps(m))
  }

  lemma RelaxedIsAcyclic(before: map<Id, Member>, cs: map<Id, Arrangement>, after: map<Id, Member>, cs': map<Id, Arrangement>)
    requires Relaxes(before, cs, after, cs') && Acyclic(TaskEdges(before, cs))
    ensures Acyclic(TaskEdges(after, cs'))
  {
    hide InGraph, Deps;
    forall e | e in TaskEdges(after, cs') ensures e in TaskEdges(before, cs) {
      var i, d :| i in after && InGraph(after[i], cs') && d in Deps(after[i]) && d in after && e == (after[i].taskId, after[d].taskId);
      assert Weaker(before[i], cs, after[i], cs') && Weaker(before[d], cs, after[d], cs');
    }
    SubgraphIsAcyclic(TaskEdges(after, cs'), TaskEdges(before, cs));
  }

  /** No cancelled arrangement comes back. */
  ghost predicate StaysCancelled(cs: map<Id, Arrangement>, cs': map<Id, Arrangement>) {
    forall c :: c in cs && cs[c].state.Cancelled? ==> c in cs' && cs'[c].state.Cancelled?
  }

  lemma LaterArrangementsRelax(m: Member, cs: map<Id, Arrangement>, cs': map<Id, Arrangement>)
    requires StaysCancelled(cs, cs')
    ensures Weaker(m, cs, m, cs')
  {
  }

  // ---------- New rows ----------

  /** Rows that say the same about the graph. */
  ghost predicate SameRows(rows: Rows, rows': Rows, cs: map<Id, Arrangement>, cs': map<Id, Arrangement>) {
    |rows| == |rows'| && forall k :: 0 <= k < |rows| ==> rows'[k].0 == rows[k].0 && Weaker(rows[k].1, cs, rows'[k].1, cs')
  }

  lemma {:induction false} PutRelaxes(before: map<Id, Member>, after: map<Id, Member>, rows: Rows, rows': Rows,
                                      cs: map<Id, Arrangement>, cs': map<Id, Arrangement>)
    requires Relaxes(before, cs, after, cs') && SameRows(rows, rows', cs, cs')
    ensures Relaxes(Put(before, rows), cs, Put(after, rows'), cs')
    decreases |rows|
  {
    hide Weaker;
    if rows != [] {
      assert rows'[0].0 == rows[0].0;
      assert SameRows(rows[1..], rows'[1..], cs, cs') by {
        forall k | 0 <= k < |rows[1..]| ensures rows'[1..][k].0 == rows[1..][k].0 && Weaker(rows[1..][k].1, cs, rows'[1..][k].1, cs') {
          assert rows[1..][k] == rows[k + 1] && rows'[1..][k] == rows'[k + 1];
        }
      }
      PutRelaxes(before[rows[0].0 := rows[0].1], after[rows'[0].0 := rows'[0].1], rows[1..], rows'[1..], cs, cs');
    }
  }

  lemma {:induction false} PreparedRows(s: Ledger, env: Env, inputs: seq<Input>, c: Id, group: Id)
    requires PrepareAll(s, env, inputs, c, group).Success?
    ensures var rows := PrepareAll(s, env, inputs, c, group).value;
            forall k :: 0 <= k < |rows| ==> Newborn(s, rows[k], c)
    decreases |inputs|
  {
    if inputs != [] {
      PreparedRows(s, env, inputs[1..], c, group);
    }
  }

  /** What every member is when it is recorded. */
  predicate Newborn(s: Ledger, row: (Id, Member), c: Id) {
    && row.0 !in s.members && row.1.arrangement == c && row.1.assessment.None? && row.1.control.Running?
    && (row.1.observation ==> row.1.dependencies == []) && !row.1.recurring
    && row.1.state == if row.1.observation then Observing else Ready
  }

  lemma ActivationAddsNoEdge(env: Env, id: Id, m: Member, sourceId: SourceId, revision: nat, cs: map<Id, Arrangement>, cs': map<Id, Arrangement>)
    requires m.assessment.None? && StaysCancelled(cs, cs')
    ensures Weaker(m, cs, Activated(env, id, m, sourceId, revision), cs')
  {
    LaterArrangementsRelax(m, cs, cs');
  }

  /** Rows whose graph was checked stay acyclic when they are recorded and activated. */
  lemma CheckedRowsAreAcyclic(s: Ledger, env: Env, room: map<Id, Member>, rows: Rows, sourceId: SourceId, revision: nat, cs': map<Id, Arrangement>)
    requires StaysCancelled(s.arrangements, cs') && forall k :: 0 <= k < |rows| ==> rows[k].1.assessment.None?
    requires GraphError(Put(room, rows), s.arrangements, env).None?
    ensures Acyclic(TaskEdges(Put(room, ActivatedRows(env, rows, sourceId, revision)), cs'))
  {
    hide Weaker, Activated, Acyclic, TaskEdges;
    var cs, act := s.arrangements, ActivatedRows(env, rows, sourceId, revision);
    forall i | i in room ensures Weaker(room[i], cs, room[i], cs') { LaterArrangementsRelax(room[i], cs, cs'); }
    forall k | 0 <= k < |rows| ensures Weaker(rows[k].1, cs, act[k].1, cs') {
      ActivationAddsNoEdge(env, rows[k].0, rows[k].1, sourceId, revision, cs, cs');
    }
    PutRelaxes(room, room, rows, act, cs, cs');
    RelaxedIsAcyclic(Put(room, rows), cs, Put(room, act), cs');
  }

  // ---------- Instructions and tasks ----------

  /** The graph of instructions that `accept` walks before it walks the graph of their tasks. */
  function InstructionEdges(members: map<Id, Member>, cs: map<Id, Arrangement>): Edges<Id> {
    set i, d | i in members && InGraph(members[i], cs) && d in members[i].dependencies && d in members :: (i, d)
  }

  lemma LoopOfTasks(members: map<Id, Member>, cs: map<Id, Arrangement>, w: seq<Id>)
    requires Loop(InstructionEdges(members, cs), w)
    ensures !Acyclic(RecordedEdges(members, cs))
  {
    hide InGraph;
    assert (w[1 - 1], w[1]) in InstructionEdges(members, cs);
    forall k | 0 <= k < |w| ensures w[k] in members {
      assert 0 < k ==> (w[k - 1], w[k]) in InstructionEdges(members, cs);
    }
    var tasks := seq(|w|, k requires 0 <= k < |w| => members[w[k]].taskId);
    forall k | 0 < k < |w| ensures (tasks[k - 1], tasks[k]) in RecordedEdges(members, cs) {
      assert (w[k - 1], w[k]) in InstructionEdges(members, cs);
    }
    assert Loop(RecordedEdges(members, cs), tasks);
  }

  /** Instructions that wait for each other in a circle belong to tasks that do. */
  lemma InstructionLoopIsTaskLoop(members: map<Id, Member>, cs: map<Id, Arrangement>)
    requires Acyclic(RecordedEdges(members, cs))
    ensures Acyclic(InstructionEdges(members, cs))
  {
    hide InstructionEdges, RecordedEdges;
    if w: seq<Id> :| Loop(InstructionEdges(members, cs), w) { LoopOfTasks(members, cs, w); }
  }

  // ---------- Commands that check the graph ----------

  lemma AcceptingIsAcyclic(s: Ledger, env: Env, sourceId: SourceId, fence: nat, c: Id, replaced: Option<nat>, p: Proposal)
    requires Accept(s, env, sourceId, fence, c, replaced, p).Success?
    ensures AcyclicLedger(Accept(s, env, sourceId, fence, c, replaced, p).value)
  {
    hide GraphError, Acyclic, TaskEdges;
    var s' := Accept(s, env, sourceId, fence, c, replaced, p).value;
    var admitted := Admit(s, env, sourceId, c, p).value;
    PreparedRows(s, env, p.members, c, s.sources[sourceId].group);
    CheckedRowsAreAcyclic(s, env, s.members, admitted.0, sourceId, s'.arrangements[c].revision, s'.arrangements);
  }

  lemma AnsweringIsAcyclic(s: Ledger, env: Env, sourceId: SourceId, c: Id, change: Change)
    requires sourceId in s.sources && c in s.arrangements && change.AnswerClarifications? && s.arrangements[c].state.Active?
    requires Answer(s, env, sourceId, c, change).Success?
    ensures AcyclicLedger(Changed(s, sourceId, c, Answer(s, env, sourceId, c, change).value))
  {
    hide GraphError, Acyclic, TaskEdges;
    var s' := Changed(s, sourceId, c, Answer(s, env, sourceId, c, change).value);
    var rows := PrepareAll(s, env, change.members, c, s.sources[sourceId].group).value;
    PreparedRows(s, env, change.members, c, s.sources[sourceId].group);
    CheckedRowsAreAcyclic(s, env, s.members, rows, sourceId, s.arrangements[c].revision + 1, s'.arrangements);
  }

  lemma AppendingIsAcyclic(s: Ledger, env: Env, sourceId: SourceId, c: Id, change: Change)
    requires sourceId in s.sources && c in s.arrangements && change.AppendMembers? && s.arrangements[c].state.Active?
    requires DoAppend(s, env, sourceId, c, change).Success?
    ensures AcyclicLedger(Changed(s, sourceId, c, DoAppend(s, env, sourceId, c, change).value))
  {
    hide GraphError, Acyclic, TaskEdges;
    var s' := Changed(s, sourceId, c, DoAppend(s, env, sourceId, c, change).value);
    var rows := PrepareAll(s, env, change.members, c, s.sources[sourceId].group).value;
    PreparedRows(s, env, change.members, c, s.sources[sourceId].group);
    CheckedRowsAreAcyclic(s, env, MakeRoom(s.members, s.arrangements[c].memberIds, rows), rows, sourceId,
                          s.arrangements[c].revision + 1, s'.arrangements);
  }

  lemma CheckedMembersAreAcyclic(s: Ledger, env: Env, members: map<Id, Member>, cs': map<Id, Arrangement>)
    requires GraphError(members, s.arrangements, env).None? && StaysCancelled(s.arrangements, cs')
    ensures Acyclic(TaskEdges(members, cs'))
  {
    hide Weaker;
    forall i | i in members ensures Weaker(members[i], s.arrangements, members[i], cs') {
      LaterArrangementsRelax(members[i], s.arrangements, cs');
    }
    RelaxedIsAcyclic(members, s.arrangements, members, cs');
  }

  lemma ReorderingIsAcyclic(s: Ledger, env: Env, sourceId: SourceId, c: Id, change: Change)
    requires sourceId in s.sources && c in s.arrangements && change.Reorder? && s.arrangements[c].state.Active?
    requires DoReorder(s, env, sourceId, c, change).Success?
    ensures AcyclicLedger(Changed(s, sourceId, c, DoReorder(s, env, sourceId, c, change).value))
  {
    hide GraphError, Acyclic, TaskEdges;
    var s' := Changed(s, sourceId, c, DoReorder(s, env, sourceId, c, change).value);
    CheckedMembersAreAcyclic(s, env, s'.members, s'.arrangements);
  }

  lemma InstantiatingIsAcyclic(s: Ledger, env: Env, c: Id, inputs: seq<Input>)
    requires Instantiate(s, env, c, inputs).Success?
    ensures AcyclicLedger(Instantiate(s, env, c, inputs).value)
  {
    hide GraphError, Acyclic, TaskEdges, Weaker;
    var s' := Instantiate(s, env, c, inputs).value;
    var rows := PrepareAll(s, env, inputs, c, s.sources[s.arrangements[c].sourceId].group).value;
    var cs, cs' := s.arrangements, s'.arrangements;
    forall i | i in s.members ensures Weaker(s.members[i], cs, s.members[i], cs') { LaterArrangementsRelax(s.members[i], cs, cs'); }
    forall k | 0 <= k < |rows| ensures Weaker(rows[k].1, cs, AsRecurring(rows)[k].1, cs') { RecurringAddsNoEdge(rows[k].1, cs, cs'); }
    PutRelaxes(s.members, s.members, rows, AsRecurring(rows), cs, cs');
    GraphIsChecked(Put(s.members, rows), cs, env);
    RelaxedIsAcyclic(Put(s.members, rows), cs, s'.members, cs');
  }

  lemma RecurringAddsNoEdge(m: Member, cs: map<Id, Arrangement>, cs': map<Id, Arrangement>)
    requires StaysCancelled(cs, cs')
    ensures Weaker(m, cs, m.(recurring := true), cs')
  {
  }

  lemma GraphIsChecked(members: map<Id, Member>, cs: map<Id, Arrangement>, env: Env)
    ensures GraphError(members, cs, env).None? ==> Acyclic(TaskEdges(members, cs))
  {
  }

  lemma AssessingIsAcyclic(s: Ledger, env: Env, j: Judgement)
    requires Assess(s, env, j).Success? && AcyclicLedger(s)
    ensures AcyclicLedger(Assess(s, env, j).value)
  {
    hide GraphError, Acyclic, TaskEdges;
    var s' := Assess(s, env, j).value;
    if j.decision.AskAgain? {
      RelaxedIsAcyclic(s.members, s.arrangements, s'.members, s'.arrangements);
    } else {
      GraphIsChecked(s'.members, s.arrangements, env);
    }
  }

  // ---------- Commands that only relax the graph ----------

  lemma ApplyingIsAcyclic(s: Ledger, env: Env, c: Command)
    requires AcyclicLedger(s) && Execute(s, env, c).Success?
    requires c.ApplyMember?
    ensures AcyclicLedger(After(s, env, c))
  {
    hide GraphError, Acyclic, TaskEdges, Current, WaitingDeps;
    var s' := After(s, env, c);
    RelaxedIsAcyclic(s.members, s.arrangements, s'.members, s'.arrangements);
  }

  /** A row that keeps its task and its dependencies, and stays out of the graph when it was. */
  lemma OneRowRelaxes(members: map<Id, Member>, cs: map<Id, Arrangement>, id: Id, m: Member)
    requires id in members && Weaker(members[id], cs, m, cs) && Acyclic(TaskEdges(members, cs))
    ensures Acyclic(TaskEdges(members[id := m], cs))
  {
    forall i | i in members ensures Weaker(members[i], cs, members[i], cs) { LaterArrangementsRelax(members[i], cs, cs); }
    hide Weaker;
    RelaxedIsAcyclic(members, cs, members[id := m], cs);
  }

  lemma MemberStepsAreAcyclic(s: Ledger, env: Env, c: Command)
    requires AcyclicLedger(s) && Execute(s, env, c).Success?
    requires c.ReserveSource? || c.BecomeTemplate? || c.SupersedeMember? || c.CompleteMember?
    ensures AcyclicLedger(After(s, env, c))
  {
    hide Acyclic, TaskEdges;
    match c
    case BecomeTemplate(id) => OneRowRelaxes(s.members, s.arrangements, id, s.members[id].(state := Template));
    case SupersedeMember(id) => OneRowRelaxes(s.members, s.arrangements, id, s.members[id].(state := Superseded));
    case CompleteMember(id, proof) =>
      if s.members[id].state.Applied? {
        OneRowRelaxes(s.members, s.arrangements, id, s.members[id].(state := Fulfilled, proof := Some(proof)));
      }
    case _ =>
  }

  lemma EndingIsAcyclic(s: Ledger, env: Env, c: Command)
    requires AcyclicLedger(s) && Execute(s, env, c).Success?
    requires c.CancelOne? || c.Retire?
    ensures AcyclicLedger(After(s, env, c))
  {
    hide GraphError, Acyclic, TaskEdges;
    var s' := After(s, env, c);
    RelaxedIsAcyclic(s.members, s.arrangements, s'.members, s'.arrangements);
  }

  lemma ReconcilingIsAcyclic(s: Ledger, env: Env, c: Command)
    requires AcyclicLedger(s) && Execute(s, env, c).Success?
    requires c.ReconcileObservations?
    ensures AcyclicLedger(After(s, env, c))
  {
    hide GraphError, Acyclic, TaskEdges, Current;
    var s' := After(s, env, c);
    RelaxedIsAcyclic(s.members, s.arrangements, s'.members, s'.arrangements);
  }

  lemma SourceStepsAreAcyclic(s: Ledger, id: SourceId, fence: nat, action: SourceAction)
    requires AcyclicLedger(s) && OnSource(s, id, fence, action).Success?
    ensures AcyclicLedger(OnSource(s, id, fence, action).value)
  {
    hide Acyclic, TaskEdges, Weaker;
    var s' := OnSource(s, id, fence, action).value;
    assert StaysCancelled(s.arrangements, s'.arrangements);
    forall i | i in s.members ensures Weaker(s.members[i], s.arrangements, s'.members[i], s'.arrangements) {
      LaterArrangementsRelax(s.members[i], s.arrangements, s'.arrangements);
    }
    RelaxedIsAcyclic(s.members, s.arrangements, s'.members, s'.arrangements);
  }

  // ---------- Pausing, resuming and cancelling members ----------

  predicate Revives(m: Member, cs: map<Id, Arrangement>) {
    !InGraph(m, cs) && InGraph(m.(control := Running), cs)
  }

  /** Bringing back the listed members one after the other meets no member whose prerequisites already lead to its own task. */
  ghost predicate SafeToRevive(members: map<Id, Member>, cs: map<Id, Arrangement>, ids: seq<Id>)
    requires forall id :: id in ids ==> id in members
    decreases |ids|
  {
    ids == []
    || var m := members[ids[0]];
       && (Revives(m, cs) ==> forall d :: d in Deps(m) && d in members ==> !Reaches(TaskEdges(members, cs), members[d].taskId, m.taskId))
       && SafeToRevive(members[ids[0] := m.(control := Running)], cs, ids[1..])
  }

  function ReviveAll(members: map<Id, Member>, ids: seq<Id>): map<Id, Member>
    requires forall id :: id in ids ==> id in members
    decreases |ids|
  {
    if ids == [] then members else ReviveAll(members[ids[0] := members[ids[0]].(control := Running)], ids[1..])
  }

  lemma {:induction false} RevivedRows(members: map<Id, Member>, ids: seq<Id>)
    requires forall id :: id in ids ==> id in members
    ensures ReviveAll(members, ids).Keys == members.Keys
    ensures forall i :: i in members ==> ReviveAll(members, ids)[i] == if i in ids then members[i].(control := Running) else members[i]
    decreases |ids|
  {
    if ids != [] { RevivedRows(members[ids[0] := members[ids[0]].(control := Running)], ids[1..]); }
  }

  function ParentsOf(members: map<Id, Member>, m: Member): set<Id> {
    set d | d in Deps(m) && d in members :: members[d].taskId
  }

  lemma EdgeOf(members: map<Id, Member>, cs: map<Id, Arrangement>, e: (Id, Id)) returns (i: Id, d: Id)
    requires e in TaskEdges(members, cs)
    ensures i in members && InGraph(members[i], cs) && d in Deps(members[i]) && d in members && e == (members[i].taskId, members[d].taskId)
  {
    i, d :| i in members && InGraph(members[i], cs) && d in Deps(members[i]) && d in members && e == (members[i].taskId, members[d].taskId);
  }

  lemma IsEdge(members: map<Id, Member>, cs: map<Id, Arrangement>, i: Id, d: Id)
    requires i in members && InGraph(members[i], cs) && d in Deps(members[i]) && d in members
    ensures (members[i].taskId, members[d].taskId) in TaskEdges(members, cs)
  {
  }

  lemma ControlInGraph(m: Member, cs: map<Id, Arrangement>)
    ensures var m' := m.(control := Running); Deps(m') == Deps(m) && (InGraph(m', cs) <==> InGraph(m, cs) || Revives(m, cs))
  {
  }

  lemma RevivingOne(members: map<Id, Member>, cs: map<Id, Arrangement>, id: Id)
    requires id in members
    ensures var m := members[id];
            TaskEdges(members[id := m.(control := Running)], cs)
            == TaskEdges(members, cs) + if Revives(m, cs) then Out(m.taskId, ParentsOf(members, m)) else {}
  {
    hide TaskEdges, Deps, InGraph, Revives;
    var m := members[id];
    var members' := members[id := m.(control := Running)];
    var added := if Revives(m, cs) then Out(m.taskId, ParentsOf(members, m)) else {};
    ControlInGraph(m, cs);
    forall e | e in TaskEdges(members', cs) ensures e in TaskEdges(members, cs) + added {
      var i, d := EdgeOf(members', cs, e);
      if InGraph(members[i], cs) { IsEdge(members, cs, i, d); }
    }
    forall e | e in TaskEdges(members, cs) ensures e in TaskEdges(members', cs) {
      var i, d := EdgeOf(members, cs, e);
      IsEdge(members', cs, i, d);
    }
    forall e | e in added ensures e in TaskEdges(members', cs) {
      var d :| d in Deps(m) && d in members && e == (m.taskId, members[d].taskId);
      IsEdge(members', cs, id, d);
    }
  }

  lemma {:induction false} RevivalOnlyAdds(members: map<Id, Member>, cs: map<Id, Arrangement>, ids: seq<Id>)
    requires forall id :: id in ids ==> id in members
    ensures TaskEdges(members, cs) <= TaskEdges(ReviveAll(members, ids), cs)
    decreases |ids|
  {
    if ids != [] {
      RevivingOne(members, cs, ids[0]);
      RevivalOnlyAdds(members[ids[0] := members[ids[0]].(control := Running)], cs, ids[1..]);
    }
  }

  lemma {:induction false} RevivalIsAcyclic(members: map<Id, Member>, cs: map<Id, Arrangement>, ids: seq<Id>)
    requires (forall id :: id in ids ==> id in members) && Acyclic(TaskEdges(members, cs))
    ensures Acyclic(TaskEdges(ReviveAll(members, ids), cs)) <==> SafeToRevive(members, cs, ids)
    decreases |ids|
  {
    hide Acyclic, TaskEdges, Reaches, Deps;
    if ids != [] {
      var m := members[ids[0]];
      var members' := members[ids[0] := m.(control := Running)];
      RevivingOne(members, cs, ids[0]);
      assert TaskEdges(members, cs) + {} == TaskEdges(members, cs);
      AddingEdgesStaysAcyclic(TaskEdges(members, cs), m.taskId, ParentsOf(members, m));
      if Acyclic(TaskEdges(members', cs)) {
        RevivalIsAcyclic(members', cs, ids[1..]);
      } else {
        RevivalOnlyAdds(members', cs, ids[1..]);
        if Acyclic(TaskEdges(ReviveAll(members', ids[1..]), cs)) {
          SubgraphIsAcyclic(TaskEdges(members', cs), TaskEdges(ReviveAll(members', ids[1..]), cs));
        }
      }
    }
  }

  function Selected(s: Ledger, c: Id, change: Change): seq<Id>
    requires c in s.arrangements && change.Steer?
  {
    Or(change.selected, s.arrangements[c].memberIds)
  }

  lemma SteeredRow(m: Member, cs: map<Id, Arrangement>, cs': map<Id, Arrangement>, steering: Steering)
    requires StaysCancelled(cs, cs')
    ensures steering.Cancel? ==> Weaker(m, cs, Steered(m, steering), cs')
    ensures !steering.Cancel? ==> Weaker(m.(control := Running), cs, Steered(m, steering), cs')
                                  && Weaker(Steered(m, steering), cs, m.(control := Running), cs')
  {
  }

  lemma CancellingRelaxes(members: map<Id, Member>, selected: seq<Id>, cs: map<Id, Arrangement>, cs': map<Id, Arrangement>)
    requires StaysCancelled(cs, cs')
    ensures Relaxes(members, cs, SteerAll(members, selected, Cancel), cs')
  {
    hide Weaker, Steered;
    forall i | i in members ensures Weaker(members[i], cs, SteerAll(members, selected, Cancel)[i], cs') {
      SteeredRow(members[i], cs, cs', Cancel);
      LaterArrangementsRelax(members[i], cs, cs');
    }
  }

  lemma SteeringRevives(members: map<Id, Member>, selected: seq<Id>, steering: Steering, cs: map<Id, Arrangement>, cs': map<Id, Arrangement>)
    requires StaysCancelled(cs, cs') && StaysCancelled(cs', cs) && !steering.Cancel? && forall id :: id in selected ==> id in members
    ensures Relaxes(ReviveAll(members, selected), cs, SteerAll(members, selected, steering), cs')
    ensures Relaxes(SteerAll(members, selected, steering), cs', ReviveAll(members, selected), cs)
  {
    RevivedRows(members, selected);
    hide Weaker, Steered, ReviveAll;
    forall i | i in members
      ensures Weaker(ReviveAll(members, selected)[i], cs, SteerAll(members, selected, steering)[i], cs')
      ensures Weaker(SteerAll(members, selected, steering)[i], cs', ReviveAll(members, selected)[i], cs)
    {
      SteeredRow(members[i], cs, cs', steering);
      SteeredRow(members[i], cs', cs, steering);
      LaterArrangementsRelax(members[i], cs, cs');
      LaterArrangementsRelax(members[i], cs', cs);
    }
  }

  /** A pause or a resume keeps the graph acyclic exactly when it is safe to revive the members it selects. */
  lemma SteeringIsAcyclic(s: Ledger, sourceId: SourceId, c: Id, change: Change)
    requires sourceId in s.sources && c in s.arrangements && change.Steer? && s.arrangements[c].state.Active?
    requires DoSteer(s, c, change).Success? && AcyclicLedger(s)
    ensures AcyclicLedger(Changed(s, sourceId, c, DoSteer(s, c, change).value))
            <==> (change.steering.Cancel? || SafeToRevive(s.members, s.arrangements, Selected(s, c, change)))
  {
    hide Acyclic, TaskEdges, SafeToRevive, SteerAll, Relaxes, ReviveAll;
    var s' := Changed(s, sourceId, c, DoSteer(s, c, change).value);
    var ids := Selected(s, c, change);
    if change.steering.Cancel? {
      CancellingRelaxes(s.members, ids, s.arrangements, s'.arrangements);
      RelaxedIsAcyclic(s.members, s.arrangements, s'.members, s'.arrangements);
    } else {
      RevivalIsAcyclic(s.members, s.arrangements, ids);
      SteeringRevives(s.members, ids, change.steering, s.arrangements, s'.arrangements);
      SameGraph(ReviveAll(s.members, ids), s.arrangements, s'.members, s'.arrangements);
    }
  }

  lemma SameGraph(a: map<Id, Member>, cs: map<Id, Arrangement>, b: map<Id, Member>, cs': map<Id, Arrangement>)
    requires Relaxes(a, cs, b, cs') && Relaxes(b, cs', a, cs)
    ensures Acyclic(TaskEdges(a, cs)) <==> Acyclic(TaskEdges(b, cs'))
  {
    hide Relaxes;
    if Acyclic(TaskEdges(a, cs)) { RelaxedIsAcyclic(a, cs, b, cs'); }
    if Acyclic(TaskEdges(b, cs')) { RelaxedIsAcyclic(b, cs', a, cs); }
  }

  // ---------- Every command, every run ----------

  /** A pause or resume that goes through is safe; other commands need no care. */
  ghost predicate Careful(s: Ledger, env: Env, c: Command) {
    c.ChangeArrangement? && c.change.Steer? && !c.change.steering.Cancel? && Execute(s, env, c).Success?
    ==> SafeToRevive(s.members, s.arrangements, Selected(s, c.arrangement, c.change))
  }

  lemma ChangingIsAcyclic(s: Ledger, env: Env, c: Command)
    requires AcyclicLedger(s) && c.ChangeArrangement? && Execute(s, env, c).Success?
    ensures AcyclicLedger(After(s, env, c)) <==> Careful(s, env, c)
  {
    hide AcyclicLedger, SafeToRevive, Answer, DoAppend, DoReorder, DoSteer, Accept, Changed;
    match c.change
    case ResolveAll(p) => AcceptingIsAcyclic(s, env, c.source, c.fence, c.arrangement, Some(s.arrangements[c.arrangement].revision), p);
    case AnswerClarifications(_, _, _) => AnsweringIsAcyclic(s, env, c.source, c.arrangement, c.change);
    case Steer(_, _) => SteeringIsAcyclic(s, c.source, c.arrangement, c.change);
    case AppendMembers(_, _) => AppendingIsAcyclic(s, env, c.source, c.arrangement, c.change);
    case Reorder(_) => ReorderingIsAcyclic(s, env, c.source, c.arrangement, c.change);
    case ChangePlan => PlanningIsAcyclic(s, c.source, c.arrangement);
  }

  lemma PlanningIsAcyclic(s: Ledger, sourceId: SourceId, c: Id)
    requires AcyclicLedger(s) && sourceId in s.sources && c in s.arrangements
    ensures AcyclicLedger(Changed(s, sourceId, c, Draft(s.members, s.arrangements[c], s.sources)))
  {
    hide Acyclic, TaskEdges;
    var s' := Changed(s, sourceId, c, Draft(s.members, s.arrangements[c], s.sources));
    RelaxedIsAcyclic(s.members, s.arrangements, s'.members, s'.arrangements);
  }

  /** One command from an acyclic graph leads to an acyclic graph exactly when it revives nothing unsafely. */
  lemma StepIsAcyclic(s: Ledger, env: Env, c: Command)
    requires AcyclicLedger(s)
    ensures AcyclicLedger(After(s, env, c)) <==> Careful(s, env, c)
  {
    hide AcyclicLedger, SafeToRevive, Accept, OnSource, Assess, DoChange, Instantiate, Apply, Reconcile, RetireObservation;
    if Execute(s, env, c).Success? {
      match c
      case SourceStep(id, fence, action) => SourceStepsAreAcyclic(s, id, fence, action);
      case AcceptProposal(source, fence, id, replaced, p) => AcceptingIsAcyclic(s, env, source, fence, id, replaced, p);
      case AssessOrder(j) => AssessingIsAcyclic(s, env, j);
      case ChangeArrangement(_, _, _, _, _) => ChangingIsAcyclic(s, env, c);
      case InstantiateRecurring(id, inputs) => InstantiatingIsAcyclic(s, env, id, inputs);
      case ApplyMember(_, _, _) => ApplyingIsAcyclic(s, env, c);
      case CancelOne(_, _) => EndingIsAcyclic(s, env, c);
      case Retire(_, _, _, _) => EndingIsAcyclic(s, env, c);
      case ReconcileObservations(_) => ReconcilingIsAcyclic(s, env, c);
      case _ => MemberStepsAreAcyclic(s, env, c);
    }
  }

  ghost predicate CarefulRun(s: Ledger, run: seq<Step>)
    decreases |run|
  {
    run == [] || (Careful(s, run[0].env, run[0].command) && CarefulRun(After(s, run[0].env, run[0].command), run[1..]))
  }

  /** Every run whose revivals are safe keeps the effective task graph acyclic. */
  lemma {:induction false} RunIsAcyclic(s: Ledger, run: seq<Step>)
    requires AcyclicLedger(s) && CarefulRun(s, run)
    ensures AcyclicLedger(AfterAll(s, run))
    decreases |run|
  {
    hide AcyclicLedger, Careful, After;
    if run != [] {
      StepIsAcyclic(s, run[0].env, run[0].command);
      RunIsAcyclic(After(s, run[0].env, run[0].command), run[1..]);
    }
  }

  lemma EmptyLedgerIsAcyclic()
    ensures AcyclicLedger(EmptyLedger)
  {
    forall w: seq<Id> ensures !Loop(TaskEdges(EmptyLedger.members, EmptyLedger.arrangements), w) {
      if |w| > 1 { assert (w[0], w[1]) !in TaskEdges(EmptyLedger.members, EmptyLedger.arrangements); }
    }
  }

  /** From the empty ledger: every run whose revivals are safe keeps the effective task graph acyclic. */
  lemma EveryCarefulRunIsAcyclic(run: seq<Step>)
    requires CarefulRun(EmptyLedger, run)
    ensures AcyclicLedger(AfterAll(EmptyLedger, run))
  {
    hide AcyclicLedger, CarefulRun;
    EmptyLedgerIsAcyclic();
    RunIsAcyclic(EmptyLedger, run);
  }
}
