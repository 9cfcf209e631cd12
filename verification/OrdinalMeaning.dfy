/**
  Which instruction an ordinal means: the one in the slot that carries the ordinal, which is the part of the
  message that the accepted proposal numbered so; without a frozen order, the member at that place among
  those that no recurring plan added.
*/
module OrdinalMeaning {
  import opened Wrappers
  import opened Graphs
  import opened Ordinals
  import opened Ledger
  import opened LedgerGraph
  import opened LedgerRuns
  import opened LedgerSources
  import opened LedgerOrdinals

  // ---------- In one directory ----------

  /** The slot that carries `n` names `id` alone, and `id` is a member. */
  ghost predicate SlotMeans(d: Directory, n: int, id: Id)
    requires d.order.Some?
  {
    exists i :: 0 <= i < |d.order.value| && d.order.value[i].ordinal == n && d.order.value[i].instructionIds == [id] && id in d.memberIds
  }

  lemma {:induction false} FoundSlot(order: seq<Slot>, i: nat)
    requires i < |order| && forall j :: 0 <= j < |order| && j != i ==> order[j].ordinal != order[i].ordinal
    ensures FindSlot(order, order[i].ordinal) == Some(order[i])
    decreases i
  {
    if 0 < i {
      assert order[0].ordinal != order[i].ordinal;
      FoundSlot(order[1..], i - 1);
    }
  }

  lemma {:induction false} FoundInOrder(order: seq<Slot>, n: int)
    ensures FindSlot(order, n).Some? ==> exists i :: 0 <= i < |order| && order[i].ordinal == n && FindSlot(order, n).value == order[i]
    decreases |order|
  {
    if order != [] && order[0].ordinal != n {
      FoundInOrder(order[1..], n);
      if FindSlot(order, n).Some? {
        var i :| 0 <= i < |order[1..]| && order[1..][i].ordinal == n && FindSlot(order, n).value == order[1..][i];
        assert order[i + 1].ordinal == n;
      }
    }
  }

  /** With a frozen order, an ordinal means an instruction exactly when the slot that carries it names that one. */
  lemma OrdinalMeansItsSlot(d: Directory, sources: set<SourceId>, n: int, id: Id)
    requires d.order.Some? && WellOrdered(d.order.value, sources)
    ensures Resolve(d, n) == Success(id) <==> SlotMeans(d, n, id)
  {
    var order := d.order.value;
    FoundInOrder(order, n);
    if i :| 0 <= i < |order| && order[i].ordinal == n {
      FoundSlot(order, i);
      assert n == i + 1;
    }
  }

  /** How many of the first `i` members no recurring plan added. */
  function OriginalsBefore(memberIds: seq<Id>, recurring: set<Id>, i: nat): nat
    requires i <= |memberIds|
  {
    |set j | 0 <= j < i && memberIds[j] !in recurring|
  }

  /** The `n`-th member that no recurring plan added. */
  ghost predicate NthOriginal(memberIds: seq<Id>, recurring: set<Id>, n: int, id: Id) {
    exists i :: 0 <= i < |memberIds| && memberIds[i] == id && id !in recurring && OriginalsBefore(memberIds, recurring, i) == n - 1
  }

  lemma {:induction false} OriginalsSplit(a: seq<Id>, b: seq<Id>, recurring: set<Id>)
    ensures Originals(a + b, recurring) == Originals(a, recurring) + Originals(b, recurring)
    decreases |a|
  {
    if a == [] {
      assert a + b == b;
    } else {
      assert (a + b)[1..] == a[1..] + b;
      OriginalsSplit(a[1..], b, recurring);
    }
  }

  lemma {:induction false} OriginalsAreCounted(memberIds: seq<Id>, recurring: set<Id>, i: nat)
    requires i <= |memberIds|
    ensures |Originals(memberIds[..i], recurring)| == OriginalsBefore(memberIds, recurring, i)
    decreases i
  {
    var now := set j | 0 <= j < i && memberIds[j] !in recurring;
    if i == 0 {
      assert now == {};
    } else {
      OriginalsAreCounted(memberIds, recurring, i - 1);
      var before := set j | 0 <= j < i - 1 && memberIds[j] !in recurring;
      assert memberIds[..i] == memberIds[..i - 1] + [memberIds[i - 1]];
      OriginalsSplit(memberIds[..i - 1], [memberIds[i - 1]], recurring);
      assert now == if memberIds[i - 1] in recurring then before else before + {i - 1};
    }
  }

  lemma OriginalAt(memberIds: seq<Id>, recurring: set<Id>, i: nat)
    requires i < |memberIds| && memberIds[i] !in recurring
    ensures var k := OriginalsBefore(memberIds, recurring, i);
            k < |Originals(memberIds, recurring)| && Originals(memberIds, recurring)[k] == memberIds[i]
  {
    OriginalsAreCounted(memberIds, recurring, i);
    assert memberIds == memberIds[..i] + memberIds[i..];
    OriginalsSplit(memberIds[..i], memberIds[i..], recurring);
  }

  lemma {:induction false} OriginalIsAMember(memberIds: seq<Id>, recurring: set<Id>, k: nat)
    requires k < |Originals(memberIds, recurring)|
    ensures NthOriginal(memberIds, recurring, k + 1, Originals(memberIds, recurring)[k])
    decreases |memberIds|
  {
    var n := |memberIds| - 1;
    var front, last := memberIds[..n], memberIds[n];
    assert memberIds == front + [last];
    OriginalsSplit(front, [last], recurring);
    if k < |Originals(front, recurring)| {
      OriginalIsAMember(front, recurring, k);
      var i :| 0 <= i < n && front[i] == Originals(front, recurring)[k] && front[i] !in recurring && OriginalsBefore(front, recurring, i) == k;
      assert memberIds[i] == front[i];
      assert (set j | 0 <= j < i && memberIds[j] !in recurring) == (set j | 0 <= j < i && front[j] !in recurring);
    } else {
      OriginalsAreCounted(memberIds, recurring, n);
    }
  }

  /** Without a frozen order, and with no question ever left open, an ordinal counts the members that no recurring plan added. */
  lemma OrdinalCountsOriginals(d: Directory, n: int, id: Id)
    requires d.order.None? && !d.partial
    ensures Resolve(d, n) == Success(id) <==> NthOriginal(d.memberIds, d.recurring, n, id)
  {
    var ids := Originals(d.memberIds, d.recurring);
    if i :| 0 <= i < |d.memberIds| && d.memberIds[i] == id && id !in d.recurring && OriginalsBefore(d.memberIds, d.recurring, i) == n - 1 {
      OriginalAt(d.memberIds, d.recurring, i);
    }
    if 1 <= n <= |ids| { OriginalIsAMember(d.memberIds, d.recurring, n - 1); }
  }

  // ---------- When a proposal is accepted ----------

  function InputIds(inputs: seq<Input>): seq<Id> {
    seq(|inputs|, i requires 0 <= i < |inputs| => inputs[i].id)
  }

  lemma {:induction false} PreparedIds(s: Ledger, env: Env, inputs: seq<Input>, c: Id, group: Id)
    requires PrepareAll(s, env, inputs, c, group).Success?
    ensures RowIds(PrepareAll(s, env, inputs, c, group).value) == InputIds(inputs)
    decreases |inputs|
  {
    hide Prepare;
    if inputs != [] {
      PreparedIds(s, env, inputs[1..], c, group);
      var rest := PrepareAll(s, env, inputs[1..], c, group).value;
      assert forall k :: 0 <= k < |rest| ==> rest[k].0 == RowIds(rest)[k] == InputIds(inputs[1..])[k];
    }
  }

  /** A part of the message that became a member has the slot of its ordinal. */
  lemma FrozenMeaning(entries: seq<Entry>, original: Text, sourceId: SourceId, members: seq<Id>, pending: seq<Id>, e: Entry, d: Directory)
    requires Freeze(entries, original, sourceId, members, pending).Success? && e in entries
    requires d.order == Some(Freeze(entries, original, sourceId, members, pending).value)
    ensures e.target.MemberAt? && e.target.index < |members| && 0 <= e.target.index && members[e.target.index] in d.memberIds
            ==> Resolve(d, e.ordinal) == Success(members[e.target.index])
    ensures e.target.Clarification? ==> Resolve(d, e.ordinal).Failure?
  {
    var order := d.order.value;
    FreezeIsSorted(entries, original, sourceId, members, pending);
    EntryIsSorted(entries, sourceId, members, e);
    FrozenIsWellOrdered(entries, original, sourceId, members, pending);
    hide Freeze, Sort, WellOrdered, Resolve, Slots;
    assert order[e.ordinal - 1] == SlotOf(e, sourceId, members);
    if e.target.MemberAt? {
      var id := MemberOf(members, e.target.index);
      OrdinalMeansItsSlot(d, {sourceId}, e.ordinal, id);
    } else if id :| Resolve(d, e.ordinal) == Success(id) {
      OrdinalMeansItsSlot(d, {sourceId}, e.ordinal, id);
      OnlySlot(order, {sourceId}, e.ordinal);
    }
  }

  lemma FreezeIsSorted(entries: seq<Entry>, original: Text, sourceId: SourceId, members: seq<Id>, pending: seq<Id>)
    requires Freeze(entries, original, sourceId, members, pending).Success?
    ensures var sorted := Sort(Slots(entries, sourceId, members));
            Freeze(entries, original, sourceId, members, pending).value == sorted && InOrder(sorted)
  {
  }

  lemma OnlySlot(order: seq<Slot>, sources: set<SourceId>, n: int)
    requires WellOrdered(order, sources)
    ensures forall i :: 0 <= i < |order| && order[i].ordinal == n ==> i == n - 1
  {
  }

  /** What the ordinals of an arrangement mean when it has just been accepted. */
  ghost predicate MeansProposal(s: Ledger, c: Id, p: Proposal) {
    && (p.order.Some? ==> forall e :: e in p.order.value ==>
          if e.target.MemberAt? then 0 <= e.target.index < |p.members| && Meaning(s, c, e.ordinal, p.members[e.target.index].id)
          else forall id :: !Meaning(s, c, e.ordinal, id))
    && (p.order.None? && p.pending == [] ==> forall k :: 0 <= k < |p.members| ==> Meaning(s, c, k + 1, p.members[k].id))
    && (p.order.None? && p.pending != [] ==> forall n, id :: !Meaning(s, c, n, id))
  }

  /** The members that an acceptance records belong to no recurring plan. */
  lemma {:induction false} RecordedRow(members: map<Id, Member>, rows: Rows, id: Id)
    requires id in RowIds(rows)
    ensures id in Put(members, rows) && exists k :: 0 <= k < |rows| && rows[k] == (id, Put(members, rows)[id])
    decreases |rows|
  {
    var rest := rows[1..];
    if id in RowIds(rest) {
      RecordedRow(members[rows[0].0 := rows[0].1], rest, id);
      var k :| 0 <= k < |rest| && rest[k] == (id, Put(members, rows)[id]);
      assert rows[k + 1] == rest[k];
    } else {
      assert RowIds(rows) == [rows[0].0] + RowIds(rest);
      LastWritten(members[rows[0].0 := rows[0].1], rest, id);
    }
  }

  lemma {:induction false} LastWritten(members: map<Id, Member>, rows: Rows, id: Id)
    requires id in members && id !in RowIds(rows)
    ensures id in Put(members, rows) && Put(members, rows)[id] == members[id]
    decreases |rows|
  {
    if rows != [] {
      assert RowIds(rows)[0] == rows[0].0;
      assert RowIds(rows) == [rows[0].0] + RowIds(rows[1..]);
      LastWritten(members[rows[0].0 := rows[0].1], rows[1..], id);
    }
  }

  lemma NewMembersAreOriginal(s: Ledger, env: Env, rows: Rows, sourceId: SourceId, revision: nat, c: Id)
    requires forall k :: 0 <= k < |rows| ==> Newborn(s, rows[k], c)
    ensures var members := Put(s.members, ActivatedRows(env, rows, sourceId, revision));
            forall id :: id in RowIds(rows) ==> id in members && !members[id].recurring
  {
    var act := ActivatedRows(env, rows, sourceId, revision);
    assert RowIds(act) == RowIds(rows);
    forall id | id in RowIds(rows) ensures id in Put(s.members, act) && !Put(s.members, act)[id].recurring {
      RecordedRow(s.members, act, id);
      var k :| 0 <= k < |act| && act[k] == (id, Put(s.members, act)[id]);
      assert Newborn(s, rows[k], c);
      ActivationStaysOriginal(env, rows[k].0, rows[k].1, sourceId, revision);
    }
  }

  lemma ActivationStaysOriginal(env: Env, id: Id, m: Member, sourceId: SourceId, revision: nat)
    ensures Activated(env, id, m, sourceId, revision).recurring == m.recurring
  {
  }

  lemma {:induction false} AllOriginals(ids: seq<Id>, recurring: set<Id>)
    requires forall id :: id in ids ==> id !in recurring
    ensures Originals(ids, recurring) == ids
    decreases |ids|
  {
    if ids != [] { AllOriginals(ids[1..], recurring); }
  }

  /** After an acceptance the ordinal of every numbered part means the member that part became, and an open question's means none;
      without numbers the k-th ordinal means the k-th member, unless a question is open. */
  lemma AcceptedMeans(s: Ledger, env: Env, sourceId: SourceId, fence: nat, c: Id, replaced: Option<nat>, p: Proposal)
    requires Accept(s, env, sourceId, fence, c, replaced, p).Success?
    ensures MeansProposal(Accept(s, env, sourceId, fence, c, replaced, p).value, c, p)
  {
    var s' := Accept(s, env, sourceId, fence, c, replaced, p).value;
    var rows := Admit(s, env, sourceId, c, p).value.0;
    var source := s.sources[sourceId];
    AcceptedDirectory(s, env, sourceId, fence, c, replaced, p);
    PreparedIds(s, env, p.members, c, source.group);
    hide Accept, Admit, PrepareAll, Resolve, Freeze, DirectoryOf;
    var d, ids := DirectoryOf(s', s'.arrangements[c]), InputIds(p.members);
    if p.order.Some? {
      forall e | e in p.order.value
        ensures if e.target.MemberAt? then 0 <= e.target.index < |p.members| && Meaning(s', c, e.ordinal, p.members[e.target.index].id)
                else forall id :: !Meaning(s', c, e.ordinal, id)
      {
        FrozenMeaning(p.order.value, source.original, sourceId, ids, p.pending, e, d);
        EntryIsValid(p.order.value, source.original, sourceId, ids, p.pending, e);
      }
    } else if p.pending == [] {
      AllOriginals(ids, d.recurring);
      forall k | 0 <= k < |p.members| ensures Meaning(s', c, k + 1, p.members[k].id) { PlainOrdinal(d, k); }
    } else {
      NoOrdinal(d);
    }
  }

  lemma PlainOrdinal(d: Directory, k: nat)
    requires d.order.None? && !d.partial && k < |Originals(d.memberIds, d.recurring)|
    ensures Resolve(d, k + 1) == Success(Originals(d.memberIds, d.recurring)[k])
  {
  }

  lemma NoOrdinal(d: Directory)
    requires d.order.None? && d.partial
    ensures forall n :: Resolve(d, n).Failure?
  {
  }

  lemma EntryIsValid(entries: seq<Entry>, original: Text, sourceId: SourceId, members: seq<Id>, pending: seq<Id>, e: Entry)
    requires Freeze(entries, original, sourceId, members, pending).Success? && e in entries
    ensures ValidEntry(e, original, members, pending)
  {
  }

  lemma AcceptedDirectory(s: Ledger, env: Env, sourceId: SourceId, fence: nat, c: Id, replaced: Option<nat>, p: Proposal)
    requires Accept(s, env, sourceId, fence, c, replaced, p).Success?
    ensures var s' := Accept(s, env, sourceId, fence, c, replaced, p).value;
            && c in s'.arrangements && PrepareAll(s, env, p.members, c, s.sources[sourceId].group).Success?
            && var d := DirectoryOf(s', s'.arrangements[c]);
               var ids := RowIds(PrepareAll(s, env, p.members, c, s.sources[sourceId].group).value);
               && d.memberIds == ids && (d.partial <==> p.pending != []) && (forall id :: id in ids ==> id !in d.recurring)
               && (p.order.Some? <==> d.order.Some?)
               && (p.order.Some? ==> Freeze(p.order.value, s.sources[sourceId].original, sourceId, ids, p.pending) == Success(d.order.value))
  {
    hide GraphError, PrepareAll, Activated, Freeze, Put, RecordedEdges;
    var s' := Accept(s, env, sourceId, fence, c, replaced, p).value;
    var rows := PrepareAll(s, env, p.members, c, s.sources[sourceId].group).value;
    PreparedRows(s, env, p.members, c, s.sources[sourceId].group);
    NewMembersAreOriginal(s, env, rows, sourceId, s'.arrangements[c].revision, c);
  }

  // ---------- When an arrangement changes ----------

  lemma {:induction false} AssignedAlone(assignments: seq<Assignment>, k: nat)
    requires k < |assignments|
    requires forall j :: 0 <= j < |assignments| && j != k ==> assignments[j].clarificationId != assignments[k].clarificationId
    ensures AssignedTo(assignments, assignments[k].clarificationId) == [assignments[k].instructionId]
    decreases k
  {
    var rest := assignments[1..];
    if 0 < k {
      assert assignments[0].clarificationId != assignments[k].clarificationId;
      AssignedAlone(rest, k - 1);
    } else {
      NoneAssigned(rest, assignments[0].clarificationId);
    }
  }

  lemma {:induction false} NoneAssigned(assignments: seq<Assignment>, clarificationId: Id)
    requires forall j :: 0 <= j < |assignments| ==> assignments[j].clarificationId != clarificationId
    ensures AssignedTo(assignments, clarificationId) == []
    decreases |assignments|
  {
    if assignments != [] { NoneAssigned(assignments[1..], clarificationId); }
  }

  /** A question answered by one instruction: its ordinal means that instruction from now on. */
  lemma AnsweredMeans(s: Ledger, env: Env, sourceId: SourceId, c: Id, change: Change, i: nat, k: nat)
    requires AllOrdersOk(s) && sourceId in s.sources && c in s.arrangements && change.AnswerClarifications?
    requires Answer(s, env, sourceId, c, change).Success?
    requires s.arrangements[c].order.Some? && i < |s.arrangements[c].order.value| && k < |change.assignments|
    requires s.arrangements[c].order.value[i].clarification == Some(change.assignments[k].clarificationId)
    requires forall j :: 0 <= j < |change.assignments| && j != k ==> change.assignments[j].clarificationId != change.assignments[k].clarificationId
    ensures Meaning(Changed(s, sourceId, c, Answer(s, env, sourceId, c, change).value), c, i + 1, change.assignments[k].instructionId)
  {
    hide GraphError, PrepareAll, Put, Activated, WellOrdered, Resolve, Distinct;
    var a, d := s.arrangements[c], Answer(s, env, sourceId, c, change).value;
    var order, x := a.order.value, change.assignments[k];
    AnswerIsSteady(s, env, sourceId, c, change);
    AssignedAlone(change.assignments, k);
    assert x in change.assignments;
    var order' := d.arrangement.order.value;
    assert order'[i] == order[i].(instructionIds := [x.instructionId]);
    assert order[i].ordinal == i + 1 by { OnlySlots(order', AcceptedSources(s.sources) + {sourceId}); }
    var s' := Changed(s, sourceId, c, d);
    OrdinalMeansItsSlot(DirectoryOf(s', s'.arrangements[c]), AcceptedSources(s.sources) + {sourceId}, i + 1, x.instructionId);
  }

  lemma OnlySlots(order: seq<Slot>, sources: set<SourceId>)
    requires WellOrdered(order, sources)
    ensures forall i :: 0 <= i < |order| ==> order[i].ordinal == i + 1
  {
  }

  /** A part of a later message, appended to a numbered arrangement: it is counted on from the earlier ones. */
  lemma AppendedMeans(s: Ledger, env: Env, sourceId: SourceId, c: Id, change: Change, e: Entry)
    requires AllOrdersOk(s) && sourceId in s.sources && c in s.arrangements && change.AppendMembers? && !s.sources[sourceId].state.Accepted?
    requires DoAppend(s, env, sourceId, c, change).Success?
    requires s.arrangements[c].order.Some? && !s.arrangements[c].gap && change.order.Some? && e in change.order.value
    ensures e.target.MemberAt? && 0 <= e.target.index < |change.members|
    ensures Meaning(Changed(s, sourceId, c, DoAppend(s, env, sourceId, c, change).value), c,
                    |s.arrangements[c].order.value| + e.ordinal, change.members[e.target.index].id)
  {
    hide GraphError, PrepareAll, Put, Activated, MakeRoom, WellOrdered, Resolve, Distinct, Freeze, Sort;
    var a, source, d := s.arrangements[c], s.sources[sourceId], DoAppend(s, env, sourceId, c, change).value;
    var rows := PrepareAll(s, env, change.members, c, source.group).value;
    var ids, entries := RowIds(rows), change.order.value;
    AppendIsSteady(s, env, sourceId, c, change);
    PreparedIds(s, env, change.members, c, source.group);
    EntryIsValid(entries, source.original, sourceId, ids, [], e);
    FreezeIsSorted(entries, source.original, sourceId, ids, []);
    EntryIsSorted(entries, sourceId, ids, e);
    var order, appended := a.order.value, Freeze(entries, source.original, sourceId, ids, []).value;
    var order' := d.arrangement.order.value;
    assert order' == Append(order, appended);
    assert order'[|order| + e.ordinal - 1].instructionIds == [ids[e.target.index]];
    OnlySlots(order', AcceptedSources(s.sources) + {sourceId});
    var s' := Changed(s, sourceId, c, d);
    OrdinalMeansItsSlot(DirectoryOf(s', s'.arrangements[c]), AcceptedSources(s.sources) + {sourceId}, |order| + e.ordinal, ids[e.target.index]);
  }

  // ---------- For ever ----------

  /** In every run: what a part of the accepted message was numbered, it is called after every continuation. */
  lemma NumberedPartsKeepTheirNames(before: seq<Step>, env: Env, source: SourceId, fence: nat, c: Id, replaced: Option<nat>, p: Proposal,
                                    later: seq<Step>, e: Entry)
    requires Execute(AfterAll(EmptyLedger, before), env, AcceptProposal(source, fence, c, replaced, p)).Success?
    requires p.order.Some? && e in p.order.value && e.target.MemberAt?
    ensures var run := before + [Step(env, AcceptProposal(source, fence, c, replaced, p))];
            0 <= e.target.index < |p.members| && Meaning(AfterAll(EmptyLedger, run + later), c, e.ordinal, p.members[e.target.index].id)
  {
    hide Accept, Meaning;
    var step := Step(env, AcceptProposal(source, fence, c, replaced, p));
    var s := AfterAll(EmptyLedger, before);
    RunsCompose(EmptyLedger, before, [step]);
    assert [step][1..] == [];
    AcceptedMeans(s, env, source, fence, c, replaced, p);
    OrdinalsAreNeverRepointed(before + [step], later, c, e.ordinal, p.members[e.target.index].id);
  }
}
