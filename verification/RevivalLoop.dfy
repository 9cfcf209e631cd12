/**
  A run of the ledger that closes a loop.  m1 is applied, an order after m2 is proposed for it, and it is
  revoked; meanwhile m2 is put after m1; then m1 is resumed, and nothing checks the edges that come back.
*/
module RevivalLoop {
  import opened Wrappers
  import opened Graphs
  import opened Ordinals
  import opened Ledger
  import opened LedgerGraph

  const V := Version(1, 0, 0, 0)
  const NOW := Env((_: Id) => Some(Task("g", V, None)), (_: Id) => false, (_: Id) => true, (_: Input) => true)

  function Told(k: nat): SourceId {
    SourceId("u", k)
  }

  const INPUTS := [Input("m1", "t1", false, "m1", []), Input("m2", "t2", false, "m2", [])]
  const ACCEPT := AcceptProposal(Told(0), 1, "c", None, Proposal(INPUTS, [], None, false, false))
  const APPLY := ApplyMember("m1", 1, V)
  const PROPOSE := ChangeArrangement(Told(1), 1, "c", 1, Reorder([("m1", ["m2"])]))
  const REVOKE := ChangeArrangement(Told(2), 1, "c", 2, Steer(Cancel, Some(["m1"])))
  const PUT_AFTER := ChangeArrangement(Told(3), 1, "c", 3, Reorder([("m2", ["m1"])]))
  const RESUME := ChangeArrangement(Told(4), 1, "c", 4, Steer(Resume, Some(["m1"])))

  function Commands(): seq<Command> {
    [ReserveSource(Told(0), "g", [], None), ReserveSource(Told(1), "g", [], None), ReserveSource(Told(2), "g", [], None),
     ReserveSource(Told(3), "g", [], None), ReserveSource(Told(4), "g", [], None),
     ACCEPT, APPLY, PROPOSE, REVOKE, PUT_AFTER]
  }

  function LoopRun(): seq<Step> {
    seq(10, i requires 0 <= i < 10 => Step(NOW, Commands()[i]))
  }

  // ---------- The ledger after each command ----------

  /** `done` of the sources are accepted. */
  function SourceAt(k: nat, done: nat): Source {
    var accepted := k < done;
    Source(1, Coordination, if accepted then SourceState.Accepted else Reserved, false, "g", [], None, accepted && k == 0,
           if accepted then Some("c") else None, None, [], 0, false)
  }

  function SourcesAt(n: nat, done: nat): map<SourceId, Source> {
    map id: SourceId | id in Keys(n) :: SourceAt(id.revision, done)
  }

  function Keys(n: nat): set<SourceId> {
    set k: nat | k < n :: Told(k)
  }

  function ArrangementAt(revision: nat, told: nat): Arrangement {
    Arrangement(revision, Told(told), 1, "g", Active, ["m1", "m2"], false, [], None, None, false, false, false)
  }

  /** The frozen command is named by its instruction. */
  function MemberOf(id: Id, task: Id): Member {
    Member("c", task, false, id, V, [], false, false, Ready, Running, None, None, None)
  }

  function Stage(i: nat): Ledger
    requires i <= 10
  {
    var applied := MemberOf("m1", "t1").(state := Applied, effective := Some(V));
    var proposed := applied.(assessment := Some(Assessment(AssessmentId(false, Told(1), "m1"), 2, Pending, ["m2"])));
    var second := MemberOf("m2", "t2");
    if i <= 5 then Ledger(SourcesAt(i, 0), map[], map[], [])
    else if i == 6 then Ledger(SourcesAt(5, 1), map["c" := ArrangementAt(1, 0)], map["m1" := MemberOf("m1", "t1"), "m2" := second], [])
    else if i == 7 then Ledger(SourcesAt(5, 1), map["c" := ArrangementAt(1, 0)], map["m1" := applied, "m2" := second], ["m1"])
    else if i == 8 then Ledger(SourcesAt(5, 2), map["c" := ArrangementAt(2, 1)], map["m1" := proposed, "m2" := second], ["m1"])
    else if i == 9 then
      Ledger(SourcesAt(5, 3), map["c" := ArrangementAt(3, 2)], map["m1" := proposed.(control := Revoked), "m2" := second], ["m1"])
    else
      Ledger(SourcesAt(5, 4), map["c" := ArrangementAt(4, 3)],
             map["m1" := proposed.(control := Revoked), "m2" := second.(dependencies := ["m1"])], ["m1"])
  }

  ghost predicate Leads(i: nat)
    requires i < 10
  {
    After(Stage(i), NOW, Commands()[i]) == Stage(i + 1)
  }

  lemma OneMoreSource(n: nat, done: nat)
    ensures Told(n) !in SourcesAt(n, done)
    ensures SourcesAt(n, done)[Told(n) := SourceAt(n, done)] == SourcesAt(n + 1, done)
  {
    assert Keys(n + 1) == Keys(n) + {Told(n)};
  }

  lemma OneMoreAccepted(n: nat, done: nat)
    requires done < n
    ensures Told(done) in SourcesAt(n, done) && SourcesAt(n, done)[Told(done)] == SourceAt(done, done)
    ensures SourcesAt(n, done)[Told(done) := SourceAt(done, done + 1)] == SourcesAt(n, done + 1)
  {
  }

  lemma SourceIsReserved(i: nat)
    requires i < 5
    ensures After(Stage(i), NOW, ReserveSource(Told(i), "g", [], None)) == Stage(i + 1)
  {
    OneMoreSource(i, 0);
    hide SourcesAt;
  }

  // ---------- Graphs without loops ----------

  lemma NoEdgeIsAcyclic()
    ensures Acyclic<Id>({})
  {
    var none: Edges<Id> := {};
    forall w: seq<Id> ensures !Loop(none, w) {
      if |w| > 1 { assert (w[1 - 1], w[1]) !in none; }
    }
  }

  lemma OneEdgeIsAcyclic(a: Id, b: Id)
    requires a != b
    ensures Acyclic({(a, b)})
  {
    forall w: seq<Id> ensures !Loop({(a, b)}, w) {
      if |w| > 1 && (w[0], w[1]) in {(a, b)} && (w[|w| - 2], w[|w| - 1]) in {(a, b)} { assert w[0] != w[|w| - 1]; }
    }
  }

  // ---------- Each command ----------

  function TwoRows(): Rows {
    [("m1", MemberOf("m1", "t1")), ("m2", MemberOf("m2", "t2"))]
  }

  lemma TwoAdmitted()
    ensures Admit(Stage(5), NOW, Told(0), "c", ACCEPT.proposal) == Success((TwoRows(), None))
  {
    var s, p := Stage(5), ACCEPT.proposal;
    OneMoreAccepted(5, 0);
    hide SourcesAt;
    TwoPrepared(s);
    hide PrepareAll;
    TwoPut(map[]);
    FreeMembers(Put(s.members, TwoRows()), s.arrangements);
    hide GraphError, RecordedEdges, Put;
    assert Distinct(RowIds(TwoRows())) && Distinct(TaskIds(TwoRows()));
  }

  /** Members that wait for nothing. */
  lemma FreeMembers(members: map<Id, Member>, cs: map<Id, Arrangement>)
    requires forall i :: i in members ==> members[i].dependencies == [] && members[i].assessment.None?
    ensures GraphError(members, cs, NOW).None? && Acyclic(RecordedEdges(members, cs))
  {
    assert TaskEdges(members, cs) == {} && RecordedEdges(members, cs) == {};
    NoEdgeIsAcyclic();
  }

  lemma TwoAccepted(s: Ledger)
    requires s.sources == SourcesAt(5, 0) && s.arrangements == map[] && s.members == map[] && s.applied == []
    requires Told(0) in s.sources
    ensures Accepting(s, NOW, Told(0), "c", ACCEPT.proposal, TwoRows(), None) == Stage(6)
  {
    OneMoreAccepted(5, 0);
    hide SourcesAt;
    TwoPut(map[]);
    assert ActivatedRows(NOW, TwoRows(), Told(0), 1) == TwoRows();
    assert RowIds(TwoRows()) == ["m1", "m2"];
    hide ActivatedRows, RowIds, Put, TwoRows;
  }

  lemma Accepts()
    ensures After(Stage(5), NOW, ACCEPT) == Stage(6)
  {
    TwoAdmitted();
    Present(5, 0, 0);
    hide SourcesAt, Admit, Accepting, MemberOf, ArrangementAt, TwoRows;
    var s := Stage(5);
    TwoAccepted(s);
    assert s.sources[Told(0)] == SourceAt(0, 0) && s.arrangements == map[];
    hide Stage;
    assert Accept(s, NOW, Told(0), 1, "c", None, ACCEPT.proposal) == Success(Stage(6));
    hide Accept;
  }

  lemma OnePrepared(s: Ledger, input: Input)
    requires input.id !in s.members && input.dependencies == [] && !input.observation && input.command == input.id
    ensures Prepare(s, NOW, input, "c", "g") == Success(MemberOf(input.id, input.taskId))
  {
    assert NOW.task(input.taskId) == Some(Task("g", V, None));
  }

  lemma TwoPrepared(s: Ledger)
    requires s.members == map[]
    ensures PrepareAll(s, NOW, INPUTS, "c", "g") == Success(TwoRows())
  {
    var inputs := INPUTS;
    OnePrepared(s, inputs[0]);
    OnePrepared(s, inputs[1]);
    hide Prepare;
    var last, none: seq<Input> := inputs[1..], [];
    assert last == [inputs[1]] && last[1..] == none;
    var first, second, rest := ("m1", MemberOf("m1", "t1")), ("m2", MemberOf("m2", "t2")), PrepareAll(s, NOW, none, "c", "g").value;
    assert [second] + rest == [second] && [first] + [second] == [first, second];
    assert PrepareAll(s, NOW, last, "c", "g") == Success([second]);
  }

  lemma TwoPut(members: map<Id, Member>)
    ensures Put(members, TwoRows()) == members["m1" := MemberOf("m1", "t1")]["m2" := MemberOf("m2", "t2")]
  {
    var rows := TwoRows();
    assert rows[1..] == [("m2", MemberOf("m2", "t2"))] && rows[1..][1..] == [];
  }

  lemma OnePut(members: map<Id, Member>, row: (Id, Member))
    ensures Put(members, [row]) == members[row.0 := row.1]
  {
    var none: Rows := [];
    assert [row][1..] == none;
  }

  lemma Applies()
    ensures After(Stage(6), NOW, APPLY) == Stage(7)
  {
    Present(5, 1, 0);
    hide SourcesAt;
    var s := Stage(6);
    var m, a, none: seq<Id> := s.members["m1"], s.arrangements["c"], [];
    assert a == ArrangementAt(1, 0) && s.sources[a.sourceId] == SourceAt(0, 1) && m.dependencies == none && Current(NOW, m);
    hide Current, IsFulfilled;
    assert WaitingDeps(s, NOW, none) == none && NOW.triggered("m1");
    hide WaitingDeps;
    var m' := m.(state := Applied, effective := Some(V));
    assert Stage(7) == s.(members := s.members["m1" := m'], applied := ["m1"]);
    hide Stage;
    assert s.applied + ["m1"] == ["m1"];
    assert Apply(s, NOW, "m1", 1, V) == Success(Stage(7));
    hide Apply;
  }

  lemma Present(n: nat, done: nat, k: nat)
    requires k < n
    ensures Told(k) in SourcesAt(n, done) && SourcesAt(n, done)[Told(k)] == SourceAt(k, done)
  {
  }

  lemma OneReordered(s: Ledger, items: seq<(Id, seq<Id>)>, sourceId: SourceId, m: Member)
    requires "c" in s.arrangements && |items| == 1 && items[0].0 in s.arrangements["c"].memberIds && items[0].0 in s.members
    requires ReorderRow(NOW, items[0].0, s.members[items[0].0], items[0].1, sourceId, s.arrangements["c"].revision + 1) == Success(m)
    ensures ReorderRows(s, NOW, s.arrangements["c"], items, sourceId) == Success([(items[0].0, m)])
  {
    hide ReorderRow;
    var none: seq<(Id, seq<Id>)> := [];
    assert items[1..] == none;
    var row, rest := (items[0].0, m), ReorderRows(s, NOW, s.arrangements["c"], none, sourceId).value;
    assert [row] + rest == [row];
  }

  lemma ChangedTo(s: Ledger, told: nat, revision: nat, members: map<Id, Member>)
    requires 0 < told < 5 && s.sources == SourcesAt(5, told) && s.arrangements == map["c" := ArrangementAt(revision, told - 1)]
    ensures Told(told) in s.sources && s.sources[Told(told)] == SourceAt(told, told)
    ensures Changed(s, Told(told), "c", Draft(members, s.arrangements["c"], s.sources))
            == Ledger(SourcesAt(5, told + 1), map["c" := ArrangementAt(revision + 1, told)], members, s.applied)
  {
    OneMoreAccepted(5, told);
    hide SourcesAt;
    var before, after := ArrangementAt(revision, told - 1), ArrangementAt(revision + 1, told);
    assert map["c" := before]["c" := after] == map["c" := after];
    assert SourceAt(told, told).(state := SourceState.Accepted, arrangement := Some("c")) == SourceAt(told, told + 1);
  }

  /** A change of members only. */
  lemma ChangeGoes(s: Ledger, told: nat, revision: nat, change: Change, members: map<Id, Member>)
    requires 0 < told < 5 && s.sources == SourcesAt(5, told) && s.arrangements == map["c" := ArrangementAt(revision, told - 1)]
    requires Told(told) in s.sources
    requires !change.ResolveAll? && DraftOf(s, NOW, Told(told), "c", change) == Success(Draft(members, s.arrangements["c"], s.sources))
    ensures Execute(s, NOW, ChangeArrangement(Told(told), 1, "c", revision, change))
            == Success(Ledger(SourcesAt(5, told + 1), map["c" := ArrangementAt(revision + 1, told)], members, s.applied))
  {
    ChangedTo(s, told, revision, members);
    hide SourcesAt, DraftOf, Changed;
  }

  lemma Reordering(s: Ledger, sourceId: SourceId, items: seq<(Id, seq<Id>)>, m: Member)
    requires sourceId in s.sources && "c" in s.arrangements
    requires |items| == 1 && items[0].0 in s.arrangements["c"].memberIds && items[0].0 in s.members
    requires ReorderRow(NOW, items[0].0, s.members[items[0].0], items[0].1, sourceId, s.arrangements["c"].revision + 1) == Success(m)
    requires GraphError(s.members[items[0].0 := m], s.arrangements, NOW).None?
    ensures DraftOf(s, NOW, sourceId, "c", Reorder(items)) == Success(Draft(s.members[items[0].0 := m], s.arrangements["c"], s.sources))
  {
    OneReordered(s, items, sourceId, m);
    OnePut(s.members, (items[0].0, m));
    hide ReorderRow, ReorderRows, Put, GraphError;
  }

  /** One member waits for another, and that for nothing. */
  lemma OneWaits(members: map<Id, Member>, cs: map<Id, Arrangement>, a: Id, b: Id)
    requires members.Keys == {a, b} && a != b && InGraph(members[a], cs) && Deps(members[a]) == [b]
    requires members[a].taskId != members[b].taskId && !(InGraph(members[b], cs) && Deps(members[b]) != [])
    ensures TaskEdges(members, cs) == {(members[a].taskId, members[b].taskId)} && GraphError(members, cs, NOW).None?
  {
    OneWaitEdge(members, cs, a, b);
    OneEdgeIsAcyclic(members[a].taskId, members[b].taskId);
    OneWaitIsPresent(members, cs, a, b);
    hide TaskEdges, DepsPresent, DepsInScope;
  }

  lemma OneWaitEdge(members: map<Id, Member>, cs: map<Id, Arrangement>, a: Id, b: Id)
    requires members.Keys == {a, b} && a != b && InGraph(members[a], cs) && Deps(members[a]) == [b]
    requires !(InGraph(members[b], cs) && Deps(members[b]) != [])
    ensures TaskEdges(members, cs) == {(members[a].taskId, members[b].taskId)}
  {
    hide InGraph;
    assert Deps(members[a])[0] == b;
    IsEdge(members, cs, a, b);
    hide Deps;
  }

  lemma OneWaitIsPresent(members: map<Id, Member>, cs: map<Id, Arrangement>, a: Id, b: Id)
    requires members.Keys == {a, b} && Deps(members[a]) == [b] && !(InGraph(members[b], cs) && Deps(members[b]) != [])
    ensures DepsPresent(members, cs) && DepsInScope(members, cs, NOW)
  {
    hide InGraph, Deps;
  }

  lemma Shape(i: nat)
    requires 7 <= i <= 10
    ensures Stage(i) == Ledger(SourcesAt(5, i - 6), map["c" := ArrangementAt(i - 6, i - 7)], Stage(i).members, ["m1"])
  {
    hide SourcesAt;
  }

  lemma Steering(s: Ledger, selected: seq<Id>, steering: Steering, members: map<Id, Member>)
    requires "c" in s.arrangements && members.Keys == s.members.Keys
    requires forall id :: id in selected ==> id in s.arrangements["c"].memberIds && id in s.members
    requires forall id :: id in members ==> members[id] == if id in selected then Steered(s.members[id], steering) else s.members[id]
    requires steering.Cancel? || steering.Resume?
    ensures forall sourceId :: sourceId in s.sources ==>
              DraftOf(s, NOW, sourceId, "c", Steer(steering, Some(selected))) == Success(Draft(members, s.arrangements["c"], s.sources))
  {
    assert SteerAll(s.members, selected, steering) == members;
    hide SteerAll;
  }

  lemma ProposesDraft()
    ensures var s := Stage(7);
            DraftOf(s, NOW, Told(1), "c", Reorder([("m1", ["m2"])])) == Success(Draft(Stage(8).members, s.arrangements["c"], s.sources))
  {
    var s, m := Stage(7), Stage(8).members["m1"];
    OneMoreAccepted(5, 1);
    hide SourcesAt;
    assert ReorderRow(NOW, "m1", s.members["m1"], ["m2"], Told(1), 2) == Success(m);
    hide ReorderRow;
    assert s.members["m1" := m] == Stage(8).members;
    OneWaits(s.members["m1" := m], s.arrangements, "m1", "m2");
    Present(5, 1, 1);
    Shape(7);
    hide GraphError, TaskEdges, DraftOf, Stage, ArrangementAt, MemberOf;
    Reordering(s, Told(1), [("m1", ["m2"])], m);
  }

  lemma Proposes()
    ensures After(Stage(7), NOW, PROPOSE) == Stage(8)
  {
    var s, change := Stage(7), PROPOSE.change;
    Present(5, 1, 1);
    ProposesDraft();
    Shape(7);
    Shape(8);
    hide DraftOf, SourcesAt, Stage, Execute, MemberOf, ArrangementAt;
    assert DraftOf(s, NOW, Told(1), "c", change) == Success(Draft(Stage(8).members, s.arrangements["c"], s.sources));
    ChangeGoes(s, 1, 1, change, Stage(8).members);
  }

  lemma RevokesDraft()
    ensures var s := Stage(8);
            DraftOf(s, NOW, Told(2), "c", Steer(Cancel, Some(["m1"]))) == Success(Draft(Stage(9).members, s.arrangements["c"], s.sources))
  {
    var s, selected := Stage(8), ["m1"];
    assert selected[0] == "m1";
    Steering(s, selected, Cancel, Stage(9).members);
  }

  lemma Revokes()
    ensures After(Stage(8), NOW, REVOKE) == Stage(9)
  {
    var s, change := Stage(8), REVOKE.change;
    Present(5, 2, 2);
    RevokesDraft();
    Shape(8);
    Shape(9);
    hide DraftOf, SourcesAt, Stage, Execute, MemberOf, ArrangementAt;
    assert DraftOf(s, NOW, Told(2), "c", change) == Success(Draft(Stage(9).members, s.arrangements["c"], s.sources));
    ChangeGoes(s, 2, 2, change, Stage(9).members);
  }

  lemma PutsSecondAfterFirstDraft()
    ensures var s := Stage(9);
            DraftOf(s, NOW, Told(3), "c", Reorder([("m2", ["m1"])])) == Success(Draft(Stage(10).members, s.arrangements["c"], s.sources))
  {
    var s, m := Stage(9), Stage(10).members["m2"];
    OneMoreAccepted(5, 3);
    hide SourcesAt;
    assert ReorderRow(NOW, "m2", s.members["m2"], ["m1"], Told(3), 4) == Success(m);
    hide ReorderRow;
    assert s.members["m2" := m] == Stage(10).members;
    OneWaits(s.members["m2" := m], s.arrangements, "m2", "m1");
    Present(5, 3, 3);
    Shape(9);
    hide GraphError, TaskEdges, DraftOf, Stage, MemberOf;
    Reordering(s, Told(3), [("m2", ["m1"])], m);
  }

  lemma PutsSecondAfterFirst()
    ensures After(Stage(9), NOW, PUT_AFTER) == Stage(10)
  {
    var s, change := Stage(9), PUT_AFTER.change;
    Present(5, 3, 3);
    PutsSecondAfterFirstDraft();
    Shape(9);
    Shape(10);
    hide DraftOf, SourcesAt, Stage, Execute, MemberOf, ArrangementAt;
    assert DraftOf(s, NOW, Told(3), "c", change) == Success(Draft(Stage(10).members, s.arrangements["c"], s.sources));
    ChangeGoes(s, 3, 3, change, Stage(10).members);
  }

  lemma Leading(i: nat)
    requires i < 10
    ensures Leads(i)
  {
    Said();
    hide Stage, After, Commands, ACCEPT, APPLY, PROPOSE, REVOKE, PUT_AFTER;
    if i < 5 {
      SourceIsReserved(i);
    } else {
      match i
      case 5 => Accepts();
      case 6 => Applies();
      case 7 => Proposes();
      case 8 => Revokes();
      case _ => PutsSecondAfterFirst();
    }
  }

  lemma Said()
    ensures forall i: nat :: i < 5 ==> Commands()[i] == ReserveSource(Told(i), "g", [], None)
    ensures var cs := Commands(); cs[5] == ACCEPT && cs[6] == APPLY && cs[7] == PROPOSE && cs[8] == REVOKE && cs[9] == PUT_AFTER
  {
  }

  lemma FirstStage()
    ensures Stage(0) == EmptyLedger
  {
    assert Keys(0) == {};
    assert SourcesAt(0, 0) == map[];
  }

  lemma RunLeads()
    ensures AfterAll(EmptyLedger, LoopRun()) == Stage(10)
  {
    FirstStage();
    hide Stage, After;
    var run := LoopRun();
    assert run[0..] == run;
    for i := 0 to 10
      invariant AfterAll(EmptyLedger, run) == AfterAll(Stage(i), run[i..])
    {
      Leading(i);
      assert run[i..][0] == run[i] && run[i..][1..] == run[i + 1..];
    }
    assert run[10..] == [];
  }

  // ---------- The loop ----------

  lemma BeforeResuming()
    ensures AcyclicLedger(Stage(10))
  {
    var s := Stage(10);
    OneWaits(s.members, s.arrangements, "m2", "m1");
  }

  lemma Resumes()
    ensures Execute(Stage(10), NOW, RESUME)
            == Success(Ledger(SourcesAt(5, 5), map["c" := ArrangementAt(5, 4)],
                              Stage(10).members["m1" := Stage(10).members["m1"].(control := Running)], ["m1"]))
  {
    var s, selected := Stage(10), ["m1"];
    var members := s.members["m1" := s.members["m1"].(control := Running)];
    assert selected[0] == "m1";
    Steering(s, selected, Resume, members);
    Present(5, 4, 4);
    hide DraftOf, SourcesAt;
    ChangeGoes(s, 4, 4, Steer(Resume, Some(selected)), members);
    hide Execute;
  }

  lemma TwoWait(s: Ledger)
    requires s.members == Stage(10).members["m1" := Stage(10).members["m1"].(control := Running)]
    requires s.arrangements == map["c" := ArrangementAt(5, 4)]
    ensures !AcyclicLedger(s)
  {
    assert Deps(s.members["m1"])[0] == "m2" && Deps(s.members["m2"])[0] == "m1";
    IsEdge(s.members, s.arrangements, "m1", "m2");
    IsEdge(s.members, s.arrangements, "m2", "m1");
    hide TaskEdges;
    assert Loop(TaskEdges(s.members, s.arrangements), ["t1", "t2", "t1"]);
  }

  /** Resuming m1 is accepted and leaves t1 waiting on t2 and t2 on t1. */
  lemma ResumingCanCloseALoop()
    ensures var s := AfterAll(EmptyLedger, LoopRun());
            AcyclicLedger(s) && Execute(s, NOW, RESUME).Success? && !AcyclicLedger(After(s, NOW, RESUME))
  {
    RunLeads();
    BeforeResuming();
    Resumes();
    hide LoopRun, AcyclicLedger, Execute;
    TwoWait(After(Stage(10), NOW, RESUME));
  }
}
