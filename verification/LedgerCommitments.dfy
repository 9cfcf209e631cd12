/**
  What was agreed is what is carried out: the order that a proposal or a reordering asks of a member is the order in which its
  command is handed on, however the run goes on, and commands are handed on after those they depend on.
*/
module LedgerCommitments {
  import opened Wrappers
  import opened Graphs
  import opened Ordinals
  import opened Ledger
  import opened LedgerGraph
  import opened LedgerRuns

  // ---------- The order asked of a member ----------

  /** These dependencies were asked for: they hold, or are proposed and hold the member back until they are assessed. */
  predicate Wants(m: Member, after: seq<Id>) {
    (m.assessment.Some? ==> m.assessment.value.after == after) && (!OpenAssessment(m) ==> m.dependencies == after)
  }

  predicate IsAsked(members: map<Id, Member>, id: Id, after: seq<Id>) {
    id in members && Wants(members[id], after)
  }

  lemma {:induction false} PutAsks(members: map<Id, Member>, rows: Rows, id: Id, after: seq<Id>)
    requires forall k :: 0 <= k < |rows| && rows[k].0 == id ==> Wants(rows[k].1, after)
    requires IsAsked(members, id, after) || exists k :: 0 <= k < |rows| && rows[k].0 == id
    ensures IsAsked(Put(members, rows), id, after)
    decreases |rows|
  {
    hide Wants;
    if rows != [] {
      var next := members[rows[0].0 := rows[0].1];
      assert rows[0].0 == id ==> Wants(rows[0].1, after);
      if !IsAsked(next, id, after) {
        var k :| 0 <= k < |rows| && rows[k].0 == id;
        assert rows[1..][k - 1] == rows[k];
      }
      forall k | 0 <= k < |rows[1..]| && rows[1..][k].0 == id ensures Wants(rows[1..][k].1, after) { assert rows[1..][k] == rows[k + 1]; }
      PutAsks(next, rows[1..], id, after);
    }
  }

  /** The instructions that a command records. */
  function InputsOf(c: Command): seq<Input> {
    match c
    case AcceptProposal(_, _, _, _, p) => p.members
    case ChangeArrangement(_, _, _, _, change) =>
      (match change
       case AnswerClarifications(_, members, _) => members
       case ResolveAll(p) => p.members
       case AppendMembers(members, _) => members
       case _ => [])
    case InstantiateRecurring(_, inputs) => inputs
    case _ => []
  }

  /** The order that a command asks of existing members. */
  function ItemsOf(c: Command): seq<(Id, seq<Id>)> {
    if c.ChangeArrangement? && c.change.Reorder? then c.change.items else []
  }

  predicate Reorders(c: Command, id: Id) {
    exists k :: 0 <= k < |ItemsOf(c)| && ItemsOf(c)[k].0 == id
  }

  // ---------- Recording ----------

  /** A new member as its input has it: its task and the version it was frozen against, its command, its order. */
  predicate Records(env: Env, input: Input, m: Member, arrangement: Id) {
    && m.arrangement == arrangement && m.taskId == input.taskId && m.observation == input.observation && m.command == input.command
    && env.task(input.taskId).Some? && m.precondition == env.task(input.taskId).value.version && Wants(m, input.dependencies)
    && m.control.Running? && (m.state.Ready? <==> !input.observation) && (OpenAssessment(m) ==> env.running(input.taskId))
  }

  lemma {:induction false} PreparedRecord(s: Ledger, env: Env, inputs: seq<Input>, c: Id, group: Id)
    requires PrepareAll(s, env, inputs, c, group).Success?
    ensures var rows := PrepareAll(s, env, inputs, c, group).value;
            |rows| == |inputs| && forall k :: 0 <= k < |rows| ==> rows[k].0 == inputs[k].id && inputs[k].id !in s.members
                                                                  && Records(env, inputs[k], rows[k].1, c) && rows[k].1.assessment.None?
    decreases |inputs|
  {
    if inputs != [] { PreparedRecord(s, env, inputs[1..], c, group); }
  }

  lemma ActivatedRecord(env: Env, input: Input, id: Id, m: Member, c: Id, sourceId: SourceId, revision: nat)
    requires Records(env, input, m, c) && m.assessment.None? && (m.startedInputs ==> env.running(m.taskId))
    ensures Records(env, input, Activated(env, id, m, sourceId, revision), c)
  {
    hide Current;
  }

  lemma {:induction false} PutWrites(members: map<Id, Member>, rows: Rows, k: nat)
    requires k < |rows| && forall j :: k < j < |rows| ==> rows[j].0 != rows[k].0
    ensures rows[k].0 in Put(members, rows) && Put(members, rows)[rows[k].0] == rows[k].1
    decreases |rows|
  {
    var next, rest := members[rows[0].0 := rows[0].1], rows[1..];
    if k == 0 {
      forall j | 0 <= j < |rest| ensures rest[j].0 != rows[0].0 { assert rest[j] == rows[j + 1]; }
      PutLeaves(next, rest, rows[0].0);
    } else {
      forall j | k - 1 < j < |rest| ensures rest[j].0 != rest[k - 1].0 { assert rest[j] == rows[j + 1]; }
      PutWrites(next, rest, k - 1);
    }
  }

  lemma {:induction false} PutLeaves(members: map<Id, Member>, rows: Rows, id: Id)
    requires id in members && forall j :: 0 <= j < |rows| ==> rows[j].0 != id
    ensures id in Put(members, rows) && Put(members, rows)[id] == members[id]
    decreases |rows|
  {
    if rows != [] {
      forall j | 0 <= j < |rows[1..]| ensures rows[1..][j].0 != id { assert rows[1..][j] == rows[j + 1]; }
      PutLeaves(members[rows[0].0 := rows[0].1], rows[1..], id);
    }
  }

  function ArrangementOf(c: Command): Id {
    match c
    case AcceptProposal(_, _, id, _, _) => id
    case ChangeArrangement(_, _, id, _, _) => id
    case InstantiateRecurring(id, _) => id
    case _ => ""
  }

  /** The input is the last of the command for its instruction. */
  predicate NamesLast(c: Command, k: nat) {
    k < |InputsOf(c)| && forall j :: k < j < |InputsOf(c)| ==> InputsOf(c)[j].id != InputsOf(c)[k].id
  }

  /** The rows that record new members, by the command that makes them. */
  lemma NewRows(s: Ledger, env: Env, inputs: seq<Input>, c: Id, group: Id, room: map<Id, Member>, rows': Rows, k: nat)
    requires PrepareAll(s, env, inputs, c, group).Success? && k < |inputs| && forall j :: k < j < |inputs| ==> inputs[j].id != inputs[k].id
    requires var rows := PrepareAll(s, env, inputs, c, group).value;
             |rows'| == |rows| && k < |rows'| && (forall j :: 0 <= j < |rows| ==> rows'[j].0 == rows[j].0) && Records(env, inputs[k], rows'[k].1, c)
    ensures inputs[k].id in Put(room, rows') && Records(env, inputs[k], Put(room, rows')[inputs[k].id], c)
    ensures Put(room, rows')[inputs[k].id] == rows'[k].1 && inputs[k].id in RowIds(PrepareAll(s, env, inputs, c, group).value)
  {
    var rows := PrepareAll(s, env, inputs, c, group).value;
    PreparedRecord(s, env, inputs, c, group);
    hide Records, PrepareAll;
    assert RowIds(rows)[k] == inputs[k].id;
    PutWrites(room, rows', k);
  }

  lemma {:induction false} PreparedStarts(s: Ledger, env: Env, inputs: seq<Input>, c: Id, group: Id)
    requires PrepareAll(s, env, inputs, c, group).Success?
    ensures forall j :: 0 <= j < |PrepareAll(s, env, inputs, c, group).value| ==>
              var m := PrepareAll(s, env, inputs, c, group).value[j].1; (m.startedInputs ==> env.running(m.taskId)) && !m.recurring
    decreases |inputs|
  {
    if inputs != [] { PreparedStarts(s, env, inputs[1..], c, group); }
  }

  lemma ActivatedInputs(s: Ledger, env: Env, inputs: seq<Input>, c: Id, group: Id, room: map<Id, Member>, sourceId: SourceId, revision: nat, k: nat)
    requires PrepareAll(s, env, inputs, c, group).Success? && k < |inputs| && forall j :: k < j < |inputs| ==> inputs[j].id != inputs[k].id
    ensures var rows := PrepareAll(s, env, inputs, c, group).value;
            var members := Put(room, ActivatedRows(env, rows, sourceId, revision));
            inputs[k].id in members && Records(env, inputs[k], members[inputs[k].id], c) && inputs[k].id in RowIds(rows)
            && !members[inputs[k].id].recurring
  {
    var rows := PrepareAll(s, env, inputs, c, group).value;
    PreparedRecord(s, env, inputs, c, group);
    PreparedStarts(s, env, inputs, c, group);
    hide PrepareAll, Records, Current;
    ActivatedRecord(env, inputs[k], rows[k].0, rows[k].1, c, sourceId, revision);
    NewRows(s, env, inputs, c, group, room, ActivatedRows(env, rows, sourceId, revision), k);
  }

  /** What a command records of an instruction is what the command says, as a member of its arrangement. */
  ghost predicate RecordedAs(s': Ledger, env: Env, c: Command, input: Input) {
    var id := ArrangementOf(c);
    input.id in s'.members && Records(env, input, s'.members[input.id], id) && id in s'.arrangements
    && input.id in s'.arrangements[id].memberIds && s'.members[input.id].recurring == c.InstantiateRecurring?
  }

  lemma AskedIsRecorded(s: Ledger, env: Env, c: Command, k: nat)
    requires Execute(s, env, c).Success? && NamesLast(c, k)
    ensures RecordedAs(After(s, env, c), env, c, InputsOf(c)[k]) && InputsOf(c)[k].id !in s.members
  {
    hide GraphError, Admit, DraftOf, Accept, PrepareAll, Records, Put;
    match c
    case AcceptProposal(source, fence, id, replaced, p) => AcceptRecords(s, env, source, fence, id, replaced, p, k);
    case ChangeArrangement(source, fence, id, revision, change) =>
      if change.ResolveAll? {
        AcceptRecords(s, env, source, fence, id, Some(s.arrangements[id].revision), change.proposal, k);
      } else {
        DraftRecords(s, env, source, id, change, k);
      }
    case InstantiateRecurring(id, inputs) => RoundRecords(s, env, id, inputs, k);
    case _ =>
  }

  lemma AcceptRecords(s: Ledger, env: Env, sourceId: SourceId, fence: nat, c: Id, replaced: Option<nat>, p: Proposal, k: nat)
    requires Accept(s, env, sourceId, fence, c, replaced, p).Success?
    requires k < |p.members| && forall j :: k < j < |p.members| ==> p.members[j].id != p.members[k].id
    ensures var s', input := Accept(s, env, sourceId, fence, c, replaced, p).value, p.members[k];
            input.id !in s.members && input.id in s'.members && Records(env, input, s'.members[input.id], c) && c in s'.arrangements
            && input.id in s'.arrangements[c].memberIds && !s'.members[input.id].recurring
  {
    hide GraphError, PrepareAll, Records, Put, Activated;
    var s', group := Accept(s, env, sourceId, fence, c, replaced, p).value, s.sources[sourceId].group;
    PreparedRecord(s, env, p.members, c, group);
    ActivatedInputs(s, env, p.members, c, group, s.members, sourceId, s'.arrangements[c].revision, k);
  }

  lemma DraftRecords(s: Ledger, env: Env, sourceId: SourceId, c: Id, change: Change, k: nat)
    requires sourceId in s.sources && c in s.arrangements && !change.ResolveAll? && DraftOf(s, env, sourceId, c, change).Success?
    requires var inputs := InputsOf(ChangeArrangement(sourceId, 0, c, 0, change));
             k < |inputs| && forall j :: k < j < |inputs| ==> inputs[j].id != inputs[k].id
    ensures var d, input := DraftOf(s, env, sourceId, c, change).value, InputsOf(ChangeArrangement(sourceId, 0, c, 0, change))[k];
            input.id !in s.members && input.id in d.members && Records(env, input, d.members[input.id], c)
            && input.id in d.arrangement.memberIds && !d.members[input.id].recurring
  {
    hide GraphError, PrepareAll, Records, Put, Activated;
    var a, group := s.arrangements[c], s.sources[sourceId].group;
    match change
    case AnswerClarifications(_, inputs, _) =>
      PreparedRecord(s, env, inputs, c, group);
      ActivatedInputs(s, env, inputs, c, group, s.members, sourceId, a.revision + 1, k);
    case AppendMembers(inputs, _) =>
      PreparedRecord(s, env, inputs, c, group);
      ActivatedInputs(s, env, inputs, c, group, MakeRoom(s.members, a.memberIds, PrepareAll(s, env, inputs, c, group).value), sourceId,
                      a.revision + 1, k);
    case _ =>
  }

  lemma RoundRecords(s: Ledger, env: Env, c: Id, inputs: seq<Input>, k: nat)
    requires Instantiate(s, env, c, inputs).Success? && k < |inputs| && forall j :: k < j < |inputs| ==> inputs[j].id != inputs[k].id
    ensures var s', input := Instantiate(s, env, c, inputs).value, inputs[k];
            input.id !in s.members && input.id in s'.members && Records(env, input, s'.members[input.id], c) && c in s'.arrangements
            && input.id in s'.arrangements[c].memberIds && s'.members[input.id].recurring
  {
    hide GraphError, PrepareAll, Put;
    var group := s.sources[s.arrangements[c].sourceId].group;
    var rows := PrepareAll(s, env, inputs, c, group).value;
    PreparedRecord(s, env, inputs, c, group);
    assert Records(env, inputs[k], AsRecurring(rows)[k].1, c);
    hide Records;
    NewRows(s, env, inputs, c, group, s.members, AsRecurring(rows), k);
  }

  // ---------- Reordering ----------

  lemma {:induction false} ReorderedAsks(s: Ledger, env: Env, a: Arrangement, items: seq<(Id, seq<Id>)>, sourceId: SourceId)
    requires ReorderRows(s, env, a, items, sourceId).Success?
    ensures var rows := ReorderRows(s, env, a, items, sourceId).value;
            |rows| == |items| && forall k :: 0 <= k < |rows| ==> rows[k].0 == items[k].0 && Wants(rows[k].1, items[k].1)
    decreases |items|
  {
    hide Current;
    if items != [] { ReorderedAsks(s, env, a, items[1..], sourceId); }
  }

  /** A reordering asks its order of each member it names, of a started one as a proposal that holds it back. */
  lemma ReorderingAsks(s: Ledger, env: Env, c: Command, k: nat)
    requires Execute(s, env, c).Success? && k < |ItemsOf(c)| && forall j :: k < j < |ItemsOf(c)| ==> ItemsOf(c)[j].0 != ItemsOf(c)[k].0
    ensures IsAsked(After(s, env, c).members, ItemsOf(c)[k].0, ItemsOf(c)[k].1)
  {
    hide GraphError, ReorderRows, Put, Accept;
    var rows := ReorderRows(s, env, s.arrangements[c.arrangement], c.change.items, c.source).value;
    ReorderedAsks(s, env, s.arrangements[c.arrangement], c.change.items, c.source);
    forall j | k < j < |rows| ensures rows[j].0 != rows[k].0 { assert ItemsOf(c)[j].0 != ItemsOf(c)[k].0; }
    PutWrites(s.members, rows, k);
  }

  // ---------- No other command changes what was asked ----------

  lemma NewRowsLeave(s: Ledger, env: Env, inputs: seq<Input>, c: Id, group: Id, room: map<Id, Member>, rows': Rows, id: Id, after: seq<Id>)
    requires PrepareAll(s, env, inputs, c, group).Success? && IsAsked(room, id, after) && id in s.members
    requires var rows := PrepareAll(s, env, inputs, c, group).value;
             |rows'| == |rows| && forall k :: 0 <= k < |rows| ==> rows'[k].0 == rows[k].0
    ensures IsAsked(Put(room, rows'), id, after)
  {
    PreparedRows(s, env, inputs, c, group);
    PutLeaves(room, rows', id);
  }

  lemma AcceptLeaves(s: Ledger, env: Env, sourceId: SourceId, fence: nat, c: Id, replaced: Option<nat>, p: Proposal, id: Id, after: seq<Id>)
    requires Accept(s, env, sourceId, fence, c, replaced, p).Success? && IsAsked(s.members, id, after)
    ensures IsAsked(Accept(s, env, sourceId, fence, c, replaced, p).value.members, id, after)
  {
    hide GraphError, Activated, Put, PrepareAll, Wants;
    var s' := Accept(s, env, sourceId, fence, c, replaced, p).value;
    NewRowsLeave(s, env, p.members, c, s.sources[sourceId].group, s.members,
                 ActivatedRows(env, Admit(s, env, sourceId, c, p).value.0, sourceId, s'.arrangements[c].revision), id, after);
  }

  lemma DraftLeaves(s: Ledger, env: Env, sourceId: SourceId, c: Id, change: Change, id: Id, after: seq<Id>)
    requires sourceId in s.sources && c in s.arrangements && !change.ResolveAll? && DraftOf(s, env, sourceId, c, change).Success?
    requires IsAsked(s.members, id, after) && (change.Reorder? ==> forall k :: 0 <= k < |change.items| ==> change.items[k].0 != id)
    ensures IsAsked(DraftOf(s, env, sourceId, c, change).value.members, id, after)
  {
    hide GraphError, Activated, Current, PrepareAll, Put, ReorderRows;
    var a, group := s.arrangements[c], s.sources[sourceId].group;
    match change
    case AnswerClarifications(_, inputs, _) =>
      NewRowsLeave(s, env, inputs, c, group, s.members,
                   ActivatedRows(env, PrepareAll(s, env, inputs, c, group).value, sourceId, a.revision + 1), id, after);
    case AppendMembers(inputs, _) =>
      var rows := PrepareAll(s, env, inputs, c, group).value;
      NewRowsLeave(s, env, inputs, c, group, MakeRoom(s.members, a.memberIds, rows), ActivatedRows(env, rows, sourceId, a.revision + 1), id, after);
    case Reorder(items) =>
      ReorderedAsks(s, env, a, items, sourceId);
      PutLeaves(s.members, ReorderRows(s, env, a, items, sourceId).value, id);
    case _ =>
  }

  lemma JudgementLeaves(s: Ledger, env: Env, j: Judgement, id: Id, after: seq<Id>)
    requires IsAsked(s.members, id, after) && Assess(s, env, j).Success?
    ensures IsAsked(Assess(s, env, j).value.members, id, after)
  {
    hide GraphError, Current;
  }

  lemma GroupStepsLeave(s: Ledger, env: Env, c: Command, id: Id, after: seq<Id>)
    requires (c.CancelOne? || c.Retire? || c.ReconcileObservations?) && Execute(s, env, c).Success? && IsAsked(s.members, id, after)
    ensures IsAsked(After(s, env, c).members, id, after)
  {
    hide Current;
  }

  lemma OtherStepsLeave(s: Ledger, env: Env, c: Command, id: Id, after: seq<Id>)
    requires !c.AcceptProposal? && !c.ChangeArrangement? && !c.InstantiateRecurring? && !c.SourceStep?
    requires Execute(s, env, c).Success? && IsAsked(s.members, id, after)
    ensures IsAsked(After(s, env, c).members, id, after)
  {
    hide GraphError, Current, WaitingDeps;
    match c
    case AssessOrder(j) => hide Assess; JudgementLeaves(s, env, j, id, after);
    case CancelOne(_, _) => GroupStepsLeave(s, env, c, id, after);
    case Retire(_, _, _, _) => GroupStepsLeave(s, env, c, id, after);
    case ReconcileObservations(_) => GroupStepsLeave(s, env, c, id, after);
    case _ => hide Assess, CancelArrangement, RetireObservation, Reconcile;
  }

  lemma StepLeaves(s: Ledger, env: Env, c: Command, id: Id, after: seq<Id>)
    requires IsAsked(s.members, id, after) && !Reorders(c, id)
    ensures IsAsked(After(s, env, c).members, id, after)
  {
    hide GraphError, Admit, DraftOf, Accept, OnSource, PrepareAll, Wants, Put;
    match c
    case AcceptProposal(source, fence, x, replaced, p) =>
      if Execute(s, env, c).Success? { AcceptLeaves(s, env, source, fence, x, replaced, p, id, after); }
    case ChangeArrangement(source, fence, x, revision, change) =>
      if Execute(s, env, c).Success? {
        if change.ResolveAll? {
          AcceptLeaves(s, env, source, fence, x, Some(s.arrangements[x].revision), change.proposal, id, after);
        } else {
          assert change.Reorder? ==> forall k :: 0 <= k < |change.items| ==> change.items[k].0 != ItemsOf(c)[k].0 || ItemsOf(c)[k].0 != id;
          DraftLeaves(s, env, source, x, change, id, after);
        }
      }
    case InstantiateRecurring(x, inputs) =>
      if Execute(s, env, c).Success? {
        var group := s.sources[s.arrangements[x].sourceId].group;
        NewRowsLeave(s, env, inputs, x, group, s.members, AsRecurring(PrepareAll(s, env, inputs, x, group).value), id, after);
      }
    case SourceStep(x, fence, action) =>
      if Execute(s, env, c).Success? { SourceStepsKeepMembers(s, x, fence, action); }
    case _ => if Execute(s, env, c).Success? { OtherStepsLeave(s, env, c, id, after); }
  }

  // ---------- Whole runs ----------

  predicate NeverReordered(run: seq<Step>, id: Id) {
    forall k :: 0 <= k < |run| ==> !Reorders(run[k].command, id)
  }

  /** If the step hands the member on, everything it was asked to come after is complete. */
  ghost predicate KeepsTheOrder(s: Ledger, step: Step, id: Id, after: seq<Id>) {
    AppliesAt(s, step, id) ==> forall d :: d in after ==> d in s.members && IsFulfilled(s, step.env, d)
  }

  lemma AskedInOrder(s: Ledger, step: Step, id: Id, after: seq<Id>)
    requires IsAsked(s.members, id, after)
    ensures KeepsTheOrder(s, step, id, after)
  {
    hide After, Current, IsFulfilled;
  }

  lemma {:induction false} RunKeepsTheOrder(s: Ledger, run: seq<Step>, id: Id, after: seq<Id>)
    requires IsAsked(s.members, id, after) && NeverReordered(run, id)
    ensures IsAsked(AfterAll(s, run).members, id, after)
    ensures forall k :: 0 <= k < |run| ==> KeepsTheOrder(AfterAll(s, run[..k]), run[k], id, after)
    decreases |run|
  {
    hide After, KeepsTheOrder, IsAsked;
    if run != [] {
      var next, rest := After(s, run[0].env, run[0].command), run[1..];
      StepLeaves(s, run[0].env, run[0].command, id, after);
      AskedInOrder(s, run[0], id, after);
      forall k | 0 <= k < |rest| ensures !Reorders(rest[k].command, id) { assert rest[k] == run[k + 1]; }
      RunKeepsTheOrder(next, rest, id, after);
      forall k | 0 <= k < |run| ensures KeepsTheOrder(AfterAll(s, run[..k]), run[k], id, after) {
        if k == 0 {
          assert run[..0] == [];
        } else {
          assert run[k] == rest[k - 1] && run[..k][0] == run[0] && run[..k][1..] == rest[..k - 1];
        }
      }
    }
  }

  /** An accepted, answered, appended or recurring instruction is handed on, until a reordering names it, only when everything its
      input asked it to come after is complete. */
  lemma AcceptedOrderIsKept(s: Ledger, env: Env, c: Command, k: nat, run: seq<Step>)
    requires Execute(s, env, c).Success? && NamesLast(c, k) && NeverReordered(run, InputsOf(c)[k].id)
    ensures var s', input := After(s, env, c), InputsOf(c)[k];
            forall j :: 0 <= j < |run| ==> KeepsTheOrder(AfterAll(s', run[..j]), run[j], input.id, input.dependencies)
  {
    AskedIsRecorded(s, env, c, k);
    hide After, KeepsTheOrder;
    RunKeepsTheOrder(After(s, env, c), run, InputsOf(c)[k].id, InputsOf(c)[k].dependencies);
  }

  /** After a reordering the same holds of the order it asked for, until the next one. */
  lemma ReorderedOrderIsKept(s: Ledger, env: Env, c: Command, k: nat, run: seq<Step>)
    requires Execute(s, env, c).Success? && k < |ItemsOf(c)| && forall j :: k < j < |ItemsOf(c)| ==> ItemsOf(c)[j].0 != ItemsOf(c)[k].0
    requires NeverReordered(run, ItemsOf(c)[k].0)
    ensures var s', id, after := After(s, env, c), ItemsOf(c)[k].0, ItemsOf(c)[k].1;
            forall j :: 0 <= j < |run| ==> KeepsTheOrder(AfterAll(s', run[..j]), run[j], id, after)
  {
    ReorderingAsks(s, env, c, k);
    hide After, KeepsTheOrder;
    RunKeepsTheOrder(After(s, env, c), run, ItemsOf(c)[k].0, ItemsOf(c)[k].1);
  }

  // ---------- Handed on in order ----------

  /** A member with an effective version only observes, or its command was handed on. */
  predicate EffectOk(applied: seq<Id>, id: Id, m: Member) {
    m.observation || m.effective.None? || id in applied
  }

  ghost predicate EffectsOk(applied: seq<Id>, members: map<Id, Member>) {
    forall id :: id in members ==> EffectOk(applied, id, members[id])
  }

  lemma {:induction false} PutEffects(applied: seq<Id>, members: map<Id, Member>, rows: Rows)
    requires EffectsOk(applied, members) && forall k :: 0 <= k < |rows| ==> EffectOk(applied, rows[k].0, rows[k].1)
    ensures EffectsOk(applied, Put(members, rows))
    decreases |rows|
  {
    hide EffectOk;
    if rows != [] {
      forall k | 0 <= k < |rows[1..]| ensures EffectOk(applied, rows[1..][k].0, rows[1..][k].1) { assert rows[1..][k] == rows[k + 1]; }
      PutEffects(applied, members[rows[0].0 := rows[0].1], rows[1..]);
    }
  }

  lemma {:induction false} PreparedEffects(s: Ledger, env: Env, inputs: seq<Input>, c: Id, group: Id)
    requires PrepareAll(s, env, inputs, c, group).Success?
    ensures var rows := PrepareAll(s, env, inputs, c, group).value;
            forall k :: 0 <= k < |rows| ==> rows[k].1.observation || rows[k].1.effective.None?
    decreases |inputs|
  {
    if inputs != [] { PreparedEffects(s, env, inputs[1..], c, group); }
  }

  lemma ActivatedEffects(s: Ledger, env: Env, inputs: seq<Input>, c: Id, group: Id, room: map<Id, Member>, sourceId: SourceId, revision: nat)
    requires PrepareAll(s, env, inputs, c, group).Success? && EffectsOk(s.applied, room)
    ensures EffectsOk(s.applied, Put(room, ActivatedRows(env, PrepareAll(s, env, inputs, c, group).value, sourceId, revision)))
  {
    PreparedEffects(s, env, inputs, c, group);
    hide PrepareAll, EffectsOk, Current;
    PutEffects(s.applied, room, ActivatedRows(env, PrepareAll(s, env, inputs, c, group).value, sourceId, revision));
  }

  lemma {:induction false} ReorderedEffects(s: Ledger, env: Env, a: Arrangement, items: seq<(Id, seq<Id>)>, sourceId: SourceId)
    requires ReorderRows(s, env, a, items, sourceId).Success? && EffectsOk(s.applied, s.members)
    ensures var rows := ReorderRows(s, env, a, items, sourceId).value;
            forall k :: 0 <= k < |rows| ==> EffectOk(s.applied, rows[k].0, rows[k].1)
    decreases |items|
  {
    hide Current;
    if items != [] { ReorderedEffects(s, env, a, items[1..], sourceId); }
  }

  lemma AcceptEffects(s: Ledger, env: Env, sourceId: SourceId, fence: nat, c: Id, replaced: Option<nat>, p: Proposal)
    requires Accept(s, env, sourceId, fence, c, replaced, p).Success? && EffectsOk(s.applied, s.members)
    ensures EffectsOk(s.applied, Accept(s, env, sourceId, fence, c, replaced, p).value.members)
  {
    hide GraphError, Activated, Put, PrepareAll, EffectsOk;
    var s' := Accept(s, env, sourceId, fence, c, replaced, p).value;
    ActivatedEffects(s, env, p.members, c, s.sources[sourceId].group, s.members, sourceId, s'.arrangements[c].revision);
  }

  lemma DraftEffects(s: Ledger, env: Env, sourceId: SourceId, c: Id, change: Change)
    requires sourceId in s.sources && c in s.arrangements && !change.ResolveAll? && DraftOf(s, env, sourceId, c, change).Success?
    requires EffectsOk(s.applied, s.members)
    ensures EffectsOk(s.applied, DraftOf(s, env, sourceId, c, change).value.members)
  {
    hide GraphError, Activated, Current, PrepareAll, Put, ReorderRows;
    var a, group := s.arrangements[c], s.sources[sourceId].group;
    match change
    case AnswerClarifications(_, inputs, _) => ActivatedEffects(s, env, inputs, c, group, s.members, sourceId, a.revision + 1);
    case AppendMembers(inputs, _) =>
      var room := MakeRoom(s.members, a.memberIds, PrepareAll(s, env, inputs, c, group).value);
      ActivatedEffects(s, env, inputs, c, group, room, sourceId, a.revision + 1);
    case Reorder(items) =>
      ReorderedEffects(s, env, a, items, sourceId);
      PutEffects(s.applied, s.members, ReorderRows(s, env, a, items, sourceId).value);
    case _ =>
  }

  lemma ApplyEffects(s: Ledger, env: Env, id: Id, revision: nat, version: Version)
    requires Apply(s, env, id, revision, version).Success? && EffectsOk(s.applied, s.members)
    ensures var s' := Apply(s, env, id, revision, version).value; EffectsOk(s'.applied, s'.members)
  {
    hide Current, WaitingDeps;
  }

  lemma OtherEffects(s: Ledger, env: Env, c: Command)
    requires !c.AcceptProposal? && !c.ChangeArrangement? && !c.InstantiateRecurring? && !c.SourceStep? && !c.ApplyMember?
    requires Execute(s, env, c).Success? && EffectsOk(s.applied, s.members)
    ensures EffectsOk(s.applied, After(s, env, c).members) && After(s, env, c).applied == s.applied
  {
    hide GraphError, Current, WaitingDeps;
  }

  lemma StepEffects(s: Ledger, env: Env, c: Command)
    requires EffectsOk(s.applied, s.members)
    ensures EffectsOk(After(s, env, c).applied, After(s, env, c).members)
  {
    hide GraphError, Admit, DraftOf, Accept, OnSource, PrepareAll, Put, Apply, EffectOk;
    if Execute(s, env, c).Success? {
      match c
      case AcceptProposal(source, fence, x, replaced, p) =>
        AcceptEffects(s, env, source, fence, x, replaced, p);
        AcceptKeepsApplied(s, env, source, fence, x, replaced, p);
      case ChangeArrangement(source, fence, x, revision, change) =>
        ChangeKeepsApplied(s, env, source, fence, x, revision, change);
        if change.ResolveAll? {
          AcceptEffects(s, env, source, fence, x, Some(s.arrangements[x].revision), change.proposal);
        } else {
          DraftEffects(s, env, source, x, change);
        }
      case InstantiateRecurring(x, inputs) => RoundEffects(s, env, x, inputs);
      case SourceStep(x, fence, action) => SourceStepsKeepMembers(s, x, fence, action);
      case ApplyMember(id, revision, version) => ApplyEffects(s, env, id, revision, version);
      case _ => OtherEffects(s, env, c);
    }
  }

  lemma RoundEffects(s: Ledger, env: Env, c: Id, inputs: seq<Input>)
    requires Instantiate(s, env, c, inputs).Success? && EffectsOk(s.applied, s.members)
    ensures var s' := Instantiate(s, env, c, inputs).value; EffectsOk(s.applied, s'.members) && s'.applied == s.applied
  {
    hide GraphError, PrepareAll, Put;
    var group := s.sources[s.arrangements[c].sourceId].group;
    PreparedEffects(s, env, inputs, c, group);
    hide EffectsOk;
    PutEffects(s.applied, s.members, AsRecurring(PrepareAll(s, env, inputs, c, group).value));
  }

  lemma {:induction false} RunEffects(s: Ledger, run: seq<Step>)
    requires EffectsOk(s.applied, s.members)
    ensures EffectsOk(AfterAll(s, run).applied, AfterAll(s, run).members)
    decreases |run|
  {
    hide After, EffectsOk;
    if run != [] {
      StepEffects(s, run[0].env, run[0].command);
      RunEffects(After(s, run[0].env, run[0].command), run[1..]);
    }
  }

  /** The dependency was handed on itself, unless it only observes, and it is its completion that its task shows, of the goal that its
      command set, in an arrangement that is still active. */
  ghost predicate Done(s: Ledger, env: Env, d: Id) {
    && d in s.members
    && var m := s.members[d];
       && m.control.Running? && m.arrangement in s.arrangements && s.arrangements[m.arrangement].state.Active?
       && env.task(m.taskId).Some? && env.task(m.taskId).value.completion.Some? && m.proof.Some? && m.effective.Some?
       && var task, completion := env.task(m.taskId).value, env.task(m.taskId).value.completion.value;
          && completion.commandId == m.proof.value.commandId && SameGoal(task.version, m.proof.value.version)
          && SameGoal(task.version, m.effective.value) && m.effective.value.context <= m.proof.value.version.context
          && (m.observation || (d in s.applied && d in completion.instructionIds))
  }

  lemma FulfilledIsDone(s: Ledger, env: Env, d: Id)
    requires EffectsOk(s.applied, s.members) && d in s.members && IsFulfilled(s, env, d)
    ensures Done(s, env, d)
  {
    assert EffectOk(s.applied, d, s.members[d]);
  }

  /** In every run commands are handed on after those they depend on, and after the tasks of those have completed by them. */
  lemma AppliedInOrder(run: seq<Step>, step: Step, id: Id)
    requires AppliesAt(AfterAll(EmptyLedger, run), step, id)
    ensures var s := AfterAll(EmptyLedger, run); forall d :: d in s.members[id].dependencies ==> Done(s, step.env, d)
  {
    hide After;
    var s := AfterAll(EmptyLedger, run);
    RunEffects(EmptyLedger, run);
    hide Done, IsFulfilled, Current, EffectsOk, AfterAll;
    forall d | d in s.members[id].dependencies ensures Done(s, step.env, d) { FulfilledIsDone(s, step.env, d); }
  }
}
