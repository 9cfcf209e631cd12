/**
  The ledger as the object that coordination-ledger.js updates in place.  Every command is proved
  against its function on `Ledger`; the graph check is the depth-first search of `Graphs.Search`.
*/
module LedgerStore {
  import opened Wrappers
  import opened Graphs
  import opened Ordinals
  import opened L = Ledger
  import LedgerGraph

  // ---------- The graph check ----------

  function DepsFor(m: Member, recorded: bool): seq<Id> {
    if recorded then m.dependencies else Deps(m)
  }

  /** The edges of the members handled so far. */
  function EdgesFor(members: map<Id, Member>, cs: map<Id, Arrangement>, ids: set<Id>, recorded: bool): Edges<Id> {
    set i, d | i in ids && i in members && InGraph(members[i], cs) && d in DepsFor(members[i], recorded) && d in members
      :: (members[i].taskId, members[d].taskId)
  }

  function TasksOf(members: map<Id, Member>, ids: seq<Id>): set<Id> {
    set d | d in ids && d in members :: members[d].taskId
  }

  lemma AddedEdges(edges: map<Id, set<Id>>, t: Id, parents: set<Id>)
    ensures EdgesIn(edges[t := Parents(edges, t) + parents]) == EdgesIn(edges) + Out(t, parents)
  {
    var edges' := edges[t := Parents(edges, t) + parents];
    forall e | e in EdgesIn(edges) + Out(t, parents) ensures e in EdgesIn(edges') {
      assert e.0 in edges' && e.1 in edges'[e.0];
    }
  }

  lemma OneMoreMember(members: map<Id, Member>, cs: map<Id, Arrangement>, ids: set<Id>, id: Id, recorded: bool)
    requires id in members
    ensures var m := members[id];
            EdgesFor(members, cs, ids + {id}, recorded)
            == EdgesFor(members, cs, ids, recorded) + if InGraph(m, cs) then Out(m.taskId, TasksOf(members, DepsFor(m, recorded))) else {}
  {
    hide InGraph, DepsFor;
  }

  method BuildEdges(members: map<Id, Member>, cs: map<Id, Arrangement>, recorded: bool) returns (edges: map<Id, set<Id>>)
    ensures EdgesIn(edges) == if recorded then RecordedEdges(members, cs) else TaskEdges(members, cs)
  {
    hide InGraph, DepsFor, EdgesIn, TasksOf, EdgesFor;
    var left: set<Id>, handled: set<Id> := members.Keys, {};
    edges := map[];
    NoEdges(members, cs, recorded);
    while left != {}
      invariant left <= members.Keys && handled == members.Keys - left
      invariant EdgesIn(edges) == EdgesFor(members, cs, handled, recorded)
      decreases left
    {
      var id := Pick(left);
      var m := members[id];
      OneMoreMember(members, cs, handled, id, recorded);
      left, handled := left - {id}, handled + {id};
      if InGraph(m, cs) {
        var parents := TasksOf(members, DepsFor(m, recorded));
        AddedEdges(edges, m.taskId, parents);
        edges := edges[m.taskId := Parents(edges, m.taskId) + parents];
      }
    }
    assert handled == members.Keys;
    AllEdges(members, cs, recorded);
  }

  lemma NoEdges(members: map<Id, Member>, cs: map<Id, Arrangement>, recorded: bool)
    ensures EdgesIn<Id>(map[]) == EdgesFor(members, cs, {}, recorded)
  {
  }

  lemma AllEdges(members: map<Id, Member>, cs: map<Id, Arrangement>, recorded: bool)
    ensures EdgesFor(members, cs, members.Keys, recorded) == if recorded then RecordedEdges(members, cs) else TaskEdges(members, cs)
  {
    hide InGraph, Deps;
  }

  method CheckGraph(members: map<Id, Member>, cs: map<Id, Arrangement>, env: Env) returns (error: Option<string>)
    ensures error == GraphError(members, cs, env)
  {
    if !DepsPresent(members, cs) { return Some("DYNAMIC_COORDINATION_DEPENDENCY_MISSING"); }
    if !DepsInScope(members, cs, env) { return Some("DYNAMIC_COORDINATION_SCOPE"); }
    var edges := BuildEdges(members, cs, false);
    var search := new Search(edges);
    var ok := search.VisitAll();
    return if ok then None else Some("DYNAMIC_COORDINATION_CYCLE");
  }

  // ---------- The store ----------

  class Store {
    var sources: map<SourceId, Source>
    var arrangements: map<Id, Arrangement>
    var members: map<Id, Member>
    var applied: seq<Id>

    constructor ()
      ensures Rows() == EmptyLedger
    {
      sources, arrangements, members, applied := map[], map[], map[], [];
    }

    function Rows(): Ledger
      reads this
    {
      Ledger(sources, arrangements, members, applied)
    }

    /** `error` is the thrown code, if any, and `expected` the outcome that the command function names. */
    twostate predicate Did(new expected: Result<Ledger>, new error: Option<string>)
      reads this
    {
      match expected
      case Success(s) => error.None? && Rows() == s
      case Failure(code) => error == Some(code) && Rows() == old(Rows())
    }

    method Reserve(id: SourceId, group: Id, original: Text, reservation: Option<(Id, nat)>) returns (error: Option<string>)
      modifies this
      ensures Did(L.Reserve(old(Rows()), id, group, original, reservation), error)
    {
      if id in sources {
        var previous := sources[id];
        if previous.original != original || previous.group != group { return Some("DYNAMIC_COORDINATION_SOURCE_CONFLICT"); }
        if reservation.Some? && previous.reservation != reservation { return Some("DYNAMIC_COORDINATION_SOURCE_STALE"); }
        return None;
      }
      sources := sources[id := Source(1, Coordination, Reserved, false, group, original, reservation, false, None, None, [], 0, false)];
      return None;
    }

    method SourceStep(id: SourceId, fence: nat, action: SourceAction) returns (error: Option<string>)
      modifies this
      ensures Did(OnSource(old(Rows()), id, fence, action), error)
    {
      if id !in sources { return Some("DYNAMIC_NOT_FOUND"); }
      var source := sources[id];
      if source.fence != fence || source.owner != Coordination { return Some("DYNAMIC_COORDINATION_SOURCE_STALE"); }
      if action.FreezeHandoff? {
        if source.state != SourceState.Rejected { return Some("DYNAMIC_COORDINATION_SOURCE_STALE"); }
        if exists c :: c in arrangements && arrangements[c].sourceId == id { return Some("DYNAMIC_COORDINATION_HANDOFF_UNSAFE"); }
        sources := sources[id := source.(frozen := true)];
        return None;
      }
      if action.CompleteHandoff? {
        if !source.frozen || !action.proofMatches { return Some("DYNAMIC_COORDINATION_HANDOFF_UNSAFE"); }
        sources := sources[id := source.(fence := source.fence + 1, owner := LegacyTopic, settled := false)];
        return None;
      }
      if source.frozen || source.state.Accepted? { return Some("DYNAMIC_COORDINATION_SOURCE_STALE"); }
      error := OpenSourceStep(id, source, action);
    }

    method OpenSourceStep(id: SourceId, found: Source, action: SourceAction) returns (error: Option<string>)
      requires !action.FreezeHandoff? && !action.CompleteHandoff?
      modifies this
      ensures Did(OnOpenSource(old(Rows()), id, found, action), error)
    {
      var source := found;
      if action.Reconsider? {
        var c := action.arrangement;
        if c !in arrangements { return Some("DYNAMIC_NOT_FOUND"); }
        var a := arrangements[c];
        if !source.state.Questioned? || source.resolvedBy.Some? || source.reconsidered || source.arrangement != Some(c)
           || a.sourceId != id || !a.state.NeedsClarification? || a.revision != action.expectedRevision || !action.messageMatches {
          return Some("DYNAMIC_COORDINATION_SOURCE_STALE");
        }
        if a.memberIds != [] || source.settled || !action.nothingStarted
           || (exists m :: m in members && members[m].arrangement == c)
           || exists other :: other in sources && other != id && sources[other].arrangement == Some(c) {
          return Some("DYNAMIC_COORDINATION_CONTEXT_RECONSIDERATION_UNSAFE");
        }
        source := source.(fence := source.fence + 1, state := Reserved, reconsidered := true);
      } else if action.Retry? {
        if !source.state.Reserved? || source.resolvedBy.Some? || !action.tokenMatches || source.attempts == 0 {
          return Some("DYNAMIC_COORDINATION_SOURCE_STALE");
        }
        source := source.(attempts := 0);
      } else if action.Failed? {
        source := source.(attempts := source.attempts + 1);
      } else if action.Reject? {
        source := source.(state := SourceState.Rejected);
      } else {
        var c := action.arrangement;
        if !source.state.Reserved? && !source.state.Questioned? { return Some("DYNAMIC_COORDINATION_SOURCE_STALE"); }
        if c in arrangements && (arrangements[c].sourceId != id || !arrangements[c].state.NeedsClarification?) {
          return Some("DYNAMIC_COORDINATION_EXISTS");
        }
        var a := Arrangement(1, id, source.fence, source.group, NeedsClarification, [], false, [], None, None, false, false, false);
        if c in arrangements { a := arrangements[c].(sourceFence := source.fence, group := source.group, memberIds := []); }
        arrangements := arrangements[c := a];
        source := source.(state := Questioned, arrangement := Some(c));
      }
      sources := sources[id := source];
      return None;
    }

    // ---------- New members ----------

    method PrepareRows(env: Env, inputs: seq<Input>, c: Id, group: Id) returns (rows: Result<Rows>)
      ensures rows == PrepareAll(Rows(), env, inputs, c, group)
    {
      var done, i := [], 0;
      while i < |inputs|
        invariant 0 <= i <= |inputs|
        invariant var rest := PrepareAll(Rows(), env, inputs[i..], c, group);
                  var whole := PrepareAll(Rows(), env, inputs, c, group);
                  if rest.Failure? then whole == rest else whole.Success? && whole.value == done + rest.value
      {
        hide Prepare;
        assert inputs[i..][0] == inputs[i] && inputs[i..][1..] == inputs[i + 1..];
        var member := Prepare(Rows(), env, inputs[i], c, group);
        if member.Failure? { return Failure(member.code); }
        done := done + [(inputs[i].id, member.value)];
        i := i + 1;
      }
      assert inputs[i..] == [] && done + [] == done;
      return Success(done);
    }

    method PutRows(rows: Rows)
      modifies this`members
      ensures members == Put(old(members), rows)
    {
      var i := 0;
      while i < |rows|
        invariant 0 <= i <= |rows|
        invariant Put(members, rows[i..]) == Put(old(members), rows)
      {
        assert rows[i..][0] == rows[i] && rows[i..][1..] == rows[i + 1..];
        members := members[rows[i].0 := rows[i].1];
        i := i + 1;
      }
    }

    method OrderFor(order: Option<seq<Entry>>, source: Source, sourceId: SourceId, ids: seq<Id>, pending: seq<Id>)
        returns (r: Result<Option<seq<Slot>>>)
      ensures r == FrozenOrder(order, source, sourceId, ids, pending)
    {
      if order.None? { return Success(None); }
      var slots := FreezeSourceOrder(order.value, source.original, sourceId, ids, pending);
      return if slots.Failure? then Failure(slots.code) else Success(Some(slots.value));
    }

    // ---------- Accepting ----------

    method AdmitProposal(env: Env, sourceId: SourceId, c: Id, p: Proposal) returns (r: Result<(Rows, Option<seq<Slot>>)>)
      requires sourceId in sources
      ensures r == Admit(Rows(), env, sourceId, c, p)
    {
      hide GraphError, RecordedEdges, PrepareAll, FrozenOrder, Put;
      var source := sources[sourceId];
      if 100 < |p.members| { return Failure("DYNAMIC_COORDINATION_MEMBERS_INVALID"); }
      var prepared := PrepareRows(env, p.members, c, source.group);
      if prepared.Failure? { return Failure(prepared.code); }
      var rows := prepared.value;
      var merged := Put(members, rows);
      var error := CheckGraph(merged, arrangements, env);
      if error.Some? { return Failure(error.value); }
      if 100 < |p.pending| || !Distinct(p.pending) { return Failure("DYNAMIC_COORDINATION_MEMBERS_INVALID"); }
      var order := OrderFor(p.order, source, sourceId, RowIds(rows), p.pending);
      if order.Failure? { return Failure(order.code); }
      if (rows == [] && p.pending == [] && !p.readOnly) || !Distinct(RowIds(rows)) || !Distinct(TaskIds(rows)) {
        return Failure("DYNAMIC_COORDINATION_MEMBERS_INVALID");
      }
      var edges := BuildEdges(merged, arrangements, true);
      var search := new Search(edges);
      var ok := search.VisitAll();
      return if ok then Success((rows, order.value)) else Failure("DYNAMIC_COORDINATION_CYCLE");
    }

    method AcceptProposal(env: Env, sourceId: SourceId, fence: nat, c: Id, replaced: Option<nat>, p: Proposal) returns (error: Option<string>)
      modifies this
      ensures Did(Accept(old(Rows()), env, sourceId, fence, c, replaced, p), error)
    {
      hide Admit, Activated, Put;
      if sourceId !in sources { return Some("DYNAMIC_NOT_FOUND"); }
      var source, replacing := sources[sourceId], c in arrangements;
      if source.fence != fence || source.owner != Coordination || source.state != Reserved || source.frozen {
        return Some("DYNAMIC_COORDINATION_SOURCE_STALE");
      }
      if replacing && (arrangements[c].state != NeedsClarification || replaced != Some(arrangements[c].revision)) {
        return Some("DYNAMIC_COORDINATION_EXISTS");
      }
      var admitted := AdmitProposal(env, sourceId, c, p);
      if admitted.Failure? { return Some(admitted.code); }
      var rows, revision := admitted.value.0, if replacing then arrangements[c].revision + 1 else 1;
      if replacing {
        var prior := arrangements[c].sourceId;
        if prior !in sources { return Some("DYNAMIC_NOT_FOUND"); }
        sources := sources[prior := sources[prior].(state := SourceState.Accepted, resolvedBy := Some(sourceId), arrangement := Some(c), settled := true)];
      }
      PutRows(ActivatedRows(env, rows, sourceId, revision));
      arrangements := arrangements[c := Arrangement(revision, sourceId, source.fence, source.group, Active, RowIds(rows), p.allTogether, p.pending,
                                                    if p.pending == [] then None else Some(sourceId), admitted.value.1, false, p.pending != [], false)];
      sources := sources[sourceId := source.(state := SourceState.Accepted, arrangement := Some(c), settled := p.pending == [], pending := p.pending)];
      return None;
    }

    // ---------- Applying and assessing ----------

    method ApplyMember(env: Env, id: Id, expectedRevision: nat, version: Version) returns (error: Option<string>)
      modifies this
      ensures Did(Apply(old(Rows()), env, id, expectedRevision, version), error)
    {
      hide IsFulfilled, Current;
      if id !in members || members[id].arrangement !in arrangements { return Some("DYNAMIC_NOT_FOUND"); }
      var m := members[id];
      var a := arrangements[m.arrangement];
      if a.sourceId !in sources { return Some("DYNAMIC_NOT_FOUND"); }
      var source := sources[a.sourceId];
      if source.frozen || source.owner != Coordination || source.fence != a.sourceFence { return Some("DYNAMIC_COORDINATION_SOURCE_STALE"); }
      if a.revision != expectedRevision || a.state != ArrangementState.Active { return Some("DYNAMIC_COORDINATION_REVISION_STALE"); }
      if m.observation { return Some("DYNAMIC_COORDINATION_OBSERVATION_READ_ONLY"); }
      if OpenAssessment(m) || m.state == Applied { return None; }
      if m.state != Ready || !Current(env, m) { return Some("DYNAMIC_COORDINATION_VERSION_STALE"); }
      if exists d :: d in m.dependencies && d !in members { return Some("DYNAMIC_NOT_FOUND"); }
      if a.allTogether && a.pending != [] { return None; }
      if WaitingDeps(Rows(), env, m.dependencies) != [] { return None; }
      if m.control != Running || !env.triggered(id) { return None; }
      applied := applied + [id];
      members := members[id := m.(state := Applied, effective := Some(version))];
      return None;
    }

    method AssessOrder(env: Env, j: Judgement) returns (error: Option<string>)
      modifies this
      ensures Did(Assess(old(Rows()), env, j), error)
    {
      hide GraphError, Current;
      if j.member !in members || members[j.member].arrangement !in arrangements { return Some("DYNAMIC_NOT_FOUND"); }
      var m := members[j.member];
      var a := arrangements[m.arrangement];
      if m.taskId != j.ownedTask || m.assessment.None? || m.assessment.value.id != j.assessment || !m.assessment.value.state.Pending?
         || !a.state.Active? || !m.control.Running? || a.revision < m.assessment.value.revision || !Current(env, m) {
        return Some("DYNAMIC_COORDINATION_ASSESSMENT_STALE");
      }
      if !j.evidence { return Some("DYNAMIC_COORDINATION_ASSESSMENT_EVIDENCE_REQUIRED"); }
      if j.decision.SafePoint? && !j.safePoint { return Some("DYNAMIC_COORDINATION_SAFE_POINT_UNPROVEN"); }
      var assessment := m.assessment.value;
      if j.decision.AskAgain? {
        m := m.(assessment := Some(assessment.(state := Unclear)));
      } else {
        m := m.(assessment := Some(assessment.(state := Assessed)), dependencies := assessment.after);
        error := CheckGraph(members[j.member := m], arrangements, env);
        if error.Some? { return; }
      }
      members := members[j.member := m];
      return None;
    }

    // ---------- Changing ----------

    method AnswerDraft(env: Env, sourceId: SourceId, c: Id, change: Change) returns (r: Result<Draft>)
      requires sourceId in sources && c in arrangements && change.AnswerClarifications?
      ensures r == Answer(Rows(), env, sourceId, c, change)
    {
      hide GraphError, PrepareAll, Put, RowIds, Distinct, GoodAssignments, Answered;
      var a, ids := arrangements[c], change.ids;
      if ids == [] || !Distinct(ids) || exists id :: id in ids && id !in a.pending { return Failure("DYNAMIC_COORDINATION_CLARIFICATION_STALE"); }
      var prepared := PrepareRows(env, change.members, c, sources[sourceId].group);
      if prepared.Failure? { return Failure(prepared.code); }
      var rows := prepared.value;
      if rows == [] { return Failure("DYNAMIC_COORDINATION_MEMBERS_INVALID"); }
      if a.order.Some? && !GoodAssignments(change.assignments, ids, RowIds(rows)) { return Failure("DYNAMIC_COORDINATION_CLARIFICATION_STALE"); }
      var error := CheckGraph(Put(members, rows), arrangements, env);
      if error.Some? { return Failure(error.value); }
      if a.pendingSource.None? || a.pendingSource.value !in sources { return Failure("DYNAMIC_NOT_FOUND"); }
      var draft := AnsweredDraft(env, sourceId, a, change, rows);
      return Success(draft);
    }

    /** The slots, the members, the questions left and the source that asked them. */
    method AnsweredDraft(env: Env, sourceId: SourceId, arrangement: Arrangement, change: Change, rows: L.Rows) returns (d: Draft)
      requires change.AnswerClarifications? && arrangement.pendingSource.Some? && arrangement.pendingSource.value in sources
      ensures d == Answered(Rows(), env, sourceId, arrangement, change, rows)
    {
      hide Put, ActivatedRows, RowIds, Assign;
      var a := arrangement;
      if a.order.Some? { a := a.(order := Some(Assign(a.order.value, change.ids, change.assignments))); }
      a := a.(memberIds := a.memberIds + RowIds(rows), pending := Without(a.pending, change.ids));
      var original := sources[a.pendingSource.value].(pending := a.pending, settled := a.pending == []);
      if original.settled { original := original.(resolvedBy := Some(sourceId)); }
      return Draft(Put(members, ActivatedRows(env, rows, sourceId, a.revision + 1)), a, sources[a.pendingSource.value := original]);
    }

    method SteerDraft(c: Id, change: Change) returns (r: Result<Draft>)
      requires c in arrangements && change.Steer?
      ensures r == DoSteer(Rows(), c, change)
    {
      var a := arrangements[c];
      var selected := Or(change.selected, a.memberIds);
      if exists id :: id in selected && id !in a.memberIds { return Failure("DYNAMIC_COORDINATION_SCOPE"); }
      if exists id :: id in selected && id !in members { return Failure("DYNAMIC_NOT_FOUND"); }
      if change.steering.Cancel? && change.selected.None? { a := a.(state := Cancelled); }
      return Success(Draft(SteerAll(members, selected, change.steering), a, sources));
    }

    method AppendDraft(env: Env, sourceId: SourceId, c: Id, change: Change) returns (r: Result<Draft>)
      requires sourceId in sources && c in arrangements && change.AppendMembers?
      ensures r == DoAppend(Rows(), env, sourceId, c, change)
    {
      hide GraphError, PrepareAll, Put, Activated, FrozenOrder, MakeRoom, Append;
      var a := arrangements[c];
      var prepared := PrepareRows(env, change.members, c, sources[sourceId].group);
      if prepared.Failure? { return Failure(prepared.code); }
      var rows := prepared.value;
      if rows == [] { return Failure("DYNAMIC_COORDINATION_MEMBERS_INVALID"); }
      var appended := OrderFor(change.order, sources[sourceId], sourceId, RowIds(rows), []);
      if appended.Failure? { return Failure(appended.code); }
      var room := MakeRoom(members, a.memberIds, rows);
      var error := CheckGraph(Put(room, rows), arrangements, env);
      if error.Some? { return Failure(error.value); }
      if a.order.Some? {
        if appended.value.Some? && !a.gap {
          a := a.(order := Some(Append(a.order.value, appended.value.value)));
        } else {
          a := a.(gap := true);
        }
      }
      return Success(Draft(Put(room, ActivatedRows(env, rows, sourceId, a.revision + 1)), a.(memberIds := a.memberIds + RowIds(rows)), sources));
    }

    method ReorderDraft(env: Env, sourceId: SourceId, c: Id, change: Change) returns (r: Result<Draft>)
      requires c in arrangements && change.Reorder?
      ensures r == DoReorder(Rows(), env, sourceId, c, change)
    {
      hide GraphError, Put, ReorderRow;
      var a, items, done, i := arrangements[c], change.items, [], 0;
      while i < |items|
        invariant 0 <= i <= |items|
        invariant var rest := ReorderRows(Rows(), env, a, items[i..], sourceId);
                  var whole := ReorderRows(Rows(), env, a, items, sourceId);
                  if rest.Failure? then whole == rest else whole.Success? && whole.value == done + rest.value
      {
        assert items[i..][0] == items[i] && items[i..][1..] == items[i + 1..];
        if items[i].0 !in a.memberIds { return Failure("DYNAMIC_COORDINATION_SCOPE"); }
        if items[i].0 !in members { return Failure("DYNAMIC_NOT_FOUND"); }
        var row := ReorderRow(env, items[i].0, members[items[i].0], items[i].1, sourceId, a.revision + 1);
        if row.Failure? { return Failure(row.code); }
        done := done + [(items[i].0, row.value)];
        i := i + 1;
      }
      assert items[i..] == [] && done + [] == done;
      var error := CheckGraph(Put(members, done), arrangements, env);
      if error.Some? { return Failure(error.value); }
      return Success(Draft(Put(members, done), a, sources));
    }

    method ChangeArrangement(env: Env, sourceId: SourceId, fence: nat, c: Id, expectedRevision: nat, change: Change) returns (error: Option<string>)
      modifies this
      ensures Did(DoChange(old(Rows()), env, sourceId, fence, c, expectedRevision, change), error)
    {
      hide Accept, Answer, DoAppend, DoSteer, DoReorder;
      if sourceId !in sources || c !in arrangements { return Some("DYNAMIC_NOT_FOUND"); }
      var source, a := sources[sourceId], arrangements[c];
      if source.fence != fence || source.state != Reserved || source.frozen || source.owner != Coordination
         || a.group != source.group || a.revision != expectedRevision {
        return Some("DYNAMIC_COORDINATION_REVISION_STALE");
      }
      if change.ResolveAll? {
        if a.state != NeedsClarification { return Some("DYNAMIC_COORDINATION_REVISION_STALE"); }
        error := AcceptProposal(env, sourceId, fence, c, Some(a.revision), change.proposal);
        return;
      }
      if a.state != ArrangementState.Active { return Some("DYNAMIC_COORDINATION_REVISION_STALE"); }
      var draft: Result<Draft> := Success(Draft(members, a, sources));
      if change.AnswerClarifications? {
        draft := AnswerDraft(env, sourceId, c, change);
      } else if change.Steer? {
        draft := SteerDraft(c, change);
      } else if change.AppendMembers? {
        draft := AppendDraft(env, sourceId, c, change);
      } else if change.Reorder? {
        draft := ReorderDraft(env, sourceId, c, change);
      }
      if draft.Failure? { return Some(draft.code); }
      a := draft.value.arrangement;
      members := draft.value.members;
      arrangements := arrangements[c := a.(revision := a.revision + 1, sourceId := sourceId, sourceFence := source.fence)];
      sources := draft.value.sources[sourceId := source.(state := SourceState.Accepted, arrangement := Some(c))];
      return None;
    }

    // ---------- Ending, observing and recurring ----------

    method CancelOne(c: Id, expectedRevision: nat) returns (error: Option<string>)
      modifies this
      ensures Did(CancelArrangement(old(Rows()), c, expectedRevision), error)
    {
      if c !in arrangements { return Some("DYNAMIC_NOT_FOUND"); }
      var a := arrangements[c];
      if a.revision != expectedRevision { return Some("DYNAMIC_COORDINATION_REVISION_STALE"); }
      members := map i | i in members :: if i in a.memberIds && members[i].state.Ready? then members[i].(state := Withdrawn) else members[i];
      arrangements := arrangements[c := a.(revision := a.revision + 1, state := Cancelled)];
      return None;
    }

    method Retire(c: Id, sourceId: SourceId, expectedRevision: nat, quiet: bool) returns (error: Option<string>)
      modifies this
      ensures Did(RetireObservation(old(Rows()), c, sourceId, expectedRevision, quiet), error)
    {
      hide Retirable;
      if c !in arrangements { return Some("DYNAMIC_NOT_FOUND"); }
      var a := arrangements[c];
      if a.sourceId != sourceId { return Some("DYNAMIC_COORDINATION_SCOPE_FORBIDDEN"); }
      if a.retired { return None; }
      if a.revision != expectedRevision || a.state != ArrangementState.Active { return Some("DYNAMIC_COORDINATION_REVISION_STALE"); }
      if sourceId !in sources || exists i :: i in a.memberIds && i !in members { return Some("DYNAMIC_NOT_FOUND"); }
      if !Retirable(sources[sourceId], a, c, members, quiet) { return Some("DYNAMIC_COORDINATION_OBSERVATION_RETIREMENT_FORBIDDEN"); }
      members := map i | i in members :: if i in a.memberIds then members[i].(control := Revoked) else members[i];
      arrangements := arrangements[c := a.(revision := a.revision + 1, state := Cancelled, retired := true)];
      return None;
    }

    method ReconcileObservations(env: Env, c: Id) returns (error: Option<string>)
      modifies this
      ensures Did(Reconcile(old(Rows()), env, c), error)
    {
      hide Reconciled;
      if c !in arrangements { return Some("DYNAMIC_NOT_FOUND"); }
      var ids := arrangements[c].memberIds;
      members := map i | i in members :: if i in ids then Reconciled(env, members[i]) else members[i];
      return None;
    }

    method InstantiateRecurring(env: Env, c: Id, inputs: seq<Input>) returns (error: Option<string>)
      modifies this
      ensures Did(Instantiate(old(Rows()), env, c, inputs), error)
    {
      hide GraphError, PrepareAll, Put;
      if c !in arrangements || arrangements[c].sourceId !in sources { return Some("DYNAMIC_NOT_FOUND"); }
      var a := arrangements[c];
      var source := sources[a.sourceId];
      if a.state != ArrangementState.Active || source.frozen || source.owner != Coordination || source.fence != a.sourceFence {
        return Some("DYNAMIC_COORDINATION_SOURCE_STALE");
      }
      var rows := PrepareRows(env, inputs, c, source.group);
      if rows.Failure? { return Some(rows.code); }
      error := CheckGraph(Put(members, rows.value), arrangements, env);
      if error.Some? { return; }
      PutRows(AsRecurring(rows.value));
      arrangements := arrangements[c := a.(memberIds := a.memberIds + RowIds(rows.value))];
      return None;
    }
  }
}
