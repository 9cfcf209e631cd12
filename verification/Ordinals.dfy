/**
  "The third one": the frozen order of the parts of a source message, and the choice of an
  instruction by its ordinal (coordination-changes.js).  Texts are sequences of UTF-16 code units.
*/
module Ordinals {
  import opened Wrappers
  import opened Graphs

  type Id = string
  type Text = seq<nat>

  /** A source id is the digest of its unit and revision; digests are taken as injective. */
  datatype SourceId = SourceId(unitId: Id, revision: nat)

  /** What a part of the message became: one of the new members, or a question still open. */
  datatype Target = MemberAt(index: int) | Clarification(id: Id)

  datatype Entry = Entry(ordinal: int, start: int, end: int, quote: Text, target: Target)

  datatype Slot = Slot(ordinal: int, start: int, end: int, quote: Text, sourceId: SourceId,
                       instructionIds: seq<Id>, clarification: Option<Id>)

  datatype Key = MemberKey(id: Id) | PendingKey(id: Id)

  // ---------- Freezing the order ----------

  predicate ValidEntry(e: Entry, original: Text, members: seq<Id>, pending: seq<Id>) {
    && 1 <= e.ordinal && 0 <= e.start < e.end <= |original| && original[e.start..e.end] == e.quote
    && (match e.target
        case MemberAt(i) => 0 <= i < |members|
        case Clarification(id) => id in pending)
  }

  function MemberOf(members: seq<Id>, index: int): Id {
    if 0 <= index < |members| then members[index] else ""
  }

  function KeyOf(e: Entry, members: seq<Id>): Key {
    match e.target
    case MemberAt(i) => MemberKey(MemberOf(members, i))
    case Clarification(id) => PendingKey(id)
  }

  function SlotOf(e: Entry, sourceId: SourceId, members: seq<Id>): Slot {
    match e.target
    case MemberAt(i) => Slot(e.ordinal, e.start, e.end, e.quote, sourceId, [MemberOf(members, i)], None)
    case Clarification(id) => Slot(e.ordinal, e.start, e.end, e.quote, sourceId, [], Some(id))
  }

  function Insert(s: Slot, sorted: seq<Slot>): (r: seq<Slot>)
    ensures multiset(r) == multiset(sorted) + multiset{s}
  {
    if sorted == [] then [s]
    else
      assert sorted == [sorted[0]] + sorted[1..];
      if s.ordinal <= sorted[0].ordinal then [s] + sorted
      else [sorted[0]] + Insert(s, sorted[1..])
  }

  /** The stable sort by ordinal. */
  function Sort(slots: seq<Slot>): (r: seq<Slot>)
    ensures multiset(r) == multiset(slots) && |r| == |slots|
  {
    if slots == [] then []
    else
      assert slots == [slots[0]] + slots[1..];
      var r := Insert(slots[0], Sort(slots[1..]));
      assert |multiset(r)| == |r| && |multiset(slots)| == |slots|;
      r
  }

  predicate InOrder(slots: seq<Slot>) {
    forall i :: 0 <= i < |slots| ==> slots[i].ordinal == i + 1 && (0 < i ==> slots[i - 1].end <= slots[i].start)
  }

  /** Every entry is valid and no two have the same target. */
  predicate Usable(entries: seq<Entry>, original: Text, members: seq<Id>, pending: seq<Id>) {
    && (forall i :: 0 <= i < |entries| ==> ValidEntry(entries[i], original, members, pending))
    && Distinct(Keys(entries, members))
  }

  function Keys(entries: seq<Entry>, members: seq<Id>): seq<Key>
  {
    seq(|entries|, i requires 0 <= i < |entries| => KeyOf(entries[i], members))
  }

  function Slots(entries: seq<Entry>, sourceId: SourceId, members: seq<Id>): seq<Slot>
  {
    seq(|entries|, i requires 0 <= i < |entries| => SlotOf(entries[i], sourceId, members))
  }

  const Invalid := "COORDINATION_SOURCE_ORDER_INVALID"

  function Freeze(entries: seq<Entry>, original: Text, sourceId: SourceId, members: seq<Id>, pending: seq<Id>): Result<seq<Slot>> {
    if |entries| != |members| + |pending| || 200 < |entries| || !Usable(entries, original, members, pending) then Failure(Invalid)
    else
      var sorted := Sort(Slots(entries, sourceId, members));
      if InOrder(sorted) then Success(sorted) else Failure(Invalid)
  }

  method FreezeSourceOrder(entries: seq<Entry>, original: Text, sourceId: SourceId, members: seq<Id>, pending: seq<Id>)
      returns (r: Result<seq<Slot>>)
    ensures r == Freeze(entries, original, sourceId, members, pending)
  {
    hide ValidEntry, KeyOf, SlotOf, Sort, Usable, Keys, Slots;
    NothingFrozen(sourceId, original, members, pending);
    if |entries| != |members| + |pending| || 200 < |entries| { return Failure(Invalid); }
    var targets: set<Key>, result: seq<Slot>, i := {}, [], 0;
    while i < |entries|
      invariant 0 <= i <= |entries| && |result| == i
      invariant Usable(entries[..i], original, members, pending)
      invariant forall k :: k in targets <==> k in Keys(entries[..i], members)
      invariant result == Slots(entries[..i], sourceId, members)
    {
      var entry := entries[i];
      if !ValidEntry(entry, original, members, pending) {
        InvalidEntry(entries, original, members, pending, i);
        return Failure(Invalid);
      }
      OneMoreEntry(entries, original, sourceId, members, pending, i);
      var target := KeyOf(entry, members);
      if target in targets {
        RepeatedTarget(entries, original, members, pending, i);
        return Failure(Invalid);
      }
      targets := targets + {target};
      result := result + [SlotOf(entry, sourceId, members)];
      i := i + 1;
    }
    assert entries[..|entries|] == entries;
    result := Sort(result);
    i := 0;
    while i < |result|
      invariant 0 <= i <= |result|
      invariant forall k :: 0 <= k < i ==> result[k].ordinal == k + 1 && (0 < k ==> result[k - 1].end <= result[k].start)
    {
      if result[i].ordinal != i + 1 || (0 < i && result[i].start < result[i - 1].end) { return Failure(Invalid); }
      i := i + 1;
    }
    return Success(result);
  }

  lemma NothingFrozen(sourceId: SourceId, original: Text, members: seq<Id>, pending: seq<Id>)
    ensures Usable([], original, members, pending) && Keys([], members) == [] && Slots([], sourceId, members) == []
  {
  }

  lemma OneMoreEntry(entries: seq<Entry>, original: Text, sourceId: SourceId, members: seq<Id>, pending: seq<Id>, i: nat)
    requires i < |entries|
    ensures Keys(entries[..i + 1], members) == Keys(entries[..i], members) + [KeyOf(entries[i], members)]
    ensures Slots(entries[..i + 1], sourceId, members) == Slots(entries[..i], sourceId, members) + [SlotOf(entries[i], sourceId, members)]
    ensures (Usable(entries[..i], original, members, pending) && ValidEntry(entries[i], original, members, pending)
             && KeyOf(entries[i], members) !in Keys(entries[..i], members)) ==> Usable(entries[..i + 1], original, members, pending)
  {
    hide ValidEntry, KeyOf, SlotOf;
    assert forall k :: 0 <= k < i ==> entries[..i + 1][k] == entries[..i][k];
    assert Keys(entries[..i + 1], members) == Keys(entries[..i], members) + [KeyOf(entries[i], members)];
  }

  lemma InvalidEntry(entries: seq<Entry>, original: Text, members: seq<Id>, pending: seq<Id>, i: nat)
    requires i < |entries| && !ValidEntry(entries[i], original, members, pending)
    ensures !Usable(entries, original, members, pending)
  {
  }

  lemma RepeatedTarget(entries: seq<Entry>, original: Text, members: seq<Id>, pending: seq<Id>, i: nat)
    requires i < |entries| && KeyOf(entries[i], members) in Keys(entries[..i], members)
    ensures !Usable(entries, original, members, pending)
  {
    var j :| 0 <= j < i && Keys(entries[..i], members)[j] == KeyOf(entries[i], members);
    assert Keys(entries, members)[j] == Keys(entries, members)[i];
  }

  // ---------- What a frozen order is ----------

  /** The accepted entries: all valid, targets distinct, ordinals exactly 1..n, quotes ascending and disjoint. */
  ghost predicate Arranged(entries: seq<Entry>, original: Text, members: seq<Id>, pending: seq<Id>) {
    && |entries| == |members| + |pending| && |entries| <= 200 && Usable(entries, original, members, pending)
    && (forall n :: 1 <= n <= |entries| ==> HasOrdinal(entries, n))
    && (forall e, f :: e in entries && f in entries && f.ordinal == e.ordinal + 1 ==> e.end <= f.start)
  }

  predicate HasOrdinal(entries: seq<Entry>, n: int) {
    exists i :: 0 <= i < |entries| && entries[i].ordinal == n
  }

  predicate Numbered(slots: seq<Slot>, n: int) {
    exists i :: 0 <= i < |slots| && slots[i].ordinal == n
  }

  predicate Sorted(slots: seq<Slot>) {
    forall i, j :: 0 <= i < j < |slots| ==> slots[i].ordinal <= slots[j].ordinal
  }

  lemma {:induction false} InsertionKeepsSorted(s: Slot, sorted: seq<Slot>)
    requires Sorted(sorted)
    ensures Sorted(Insert(s, sorted))
    decreases |sorted|
  {
    if sorted != [] && sorted[0].ordinal < s.ordinal {
      InsertionKeepsSorted(s, sorted[1..]);
      var rest := Insert(s, sorted[1..]);
      forall x | x in rest ensures sorted[0].ordinal <= x.ordinal {
        assert x in multiset(rest);
        assert x == s || x in sorted[1..];
      }
    }
  }

  lemma {:induction false} SortSorts(slots: seq<Slot>)
    ensures Sorted(Sort(slots))
    decreases |slots|
  {
    if slots != [] {
      SortSorts(slots[1..]);
      InsertionKeepsSorted(slots[0], Sort(slots[1..]));
    }
  }

  lemma SortKeepsElements(slots: seq<Slot>)
    ensures forall x :: x in Sort(slots) <==> x in slots
  {
    forall x ensures x in Sort(slots) <==> x in slots {
      assert x in multiset(Sort(slots)) <==> x in multiset(slots);
    }
  }

  /** n ascending numbers among which are all of 1..n are 1..n. */
  lemma {:induction false} AscendingCover(s: seq<Slot>)
    requires Sorted(s)
    requires forall n :: 1 <= n <= |s| ==> Numbered(s, n)
    ensures forall i :: 0 <= i < |s| ==> s[i].ordinal == i + 1
    decreases |s|
  {
    if s != [] {
      var last := |s| - 1;
      assert Numbered(s, |s|);
      var top :| 0 <= top < |s| && s[top].ordinal == |s|;
      var front := s[..last];
      forall n | 1 <= n <= |front| ensures Numbered(front, n) {
        assert Numbered(s, n);
        var i :| 0 <= i < |s| && s[i].ordinal == n;
        assert s[top].ordinal <= s[last].ordinal;
        assert front[i] == s[i];
      }
      AscendingCover(front);
      forall i | 0 <= i < last ensures s[i].ordinal == i + 1 { assert front[i] == s[i]; }
    }
  }

  /** A source order is accepted exactly when its entries are arranged. */
  lemma FreezeIsExact(entries: seq<Entry>, original: Text, sourceId: SourceId, members: seq<Id>, pending: seq<Id>)
    ensures Freeze(entries, original, sourceId, members, pending).Success? <==> Arranged(entries, original, members, pending)
  {
    hide Usable, Sort;
    if |entries| == |members| + |pending| && |entries| <= 200 && Usable(entries, original, members, pending) {
      var slots := Slots(entries, sourceId, members);
      SortSorts(slots);
      SortKeepsElements(slots);
      if InOrder(Sort(slots)) {
        OrderedIsArranged(entries, original, sourceId, members, pending);
      }
      if Arranged(entries, original, members, pending) {
        ArrangedIsOrdered(entries, original, sourceId, members, pending);
      }
    }
  }

  lemma OrderedIsArranged(entries: seq<Entry>, original: Text, sourceId: SourceId, members: seq<Id>, pending: seq<Id>)
    requires InOrder(Sort(Slots(entries, sourceId, members)))
    ensures forall n :: 1 <= n <= |entries| ==> HasOrdinal(entries, n)
    ensures forall e, f :: e in entries && f in entries && f.ordinal == e.ordinal + 1 ==> e.end <= f.start
  {
    var slots := Slots(entries, sourceId, members);
    SortKeepsElements(slots);
    assert |Sort(slots)| == |entries|;
    hide Sort, SlotOf;
    forall n | 1 <= n <= |entries| ensures HasOrdinal(entries, n) {
      assert Sort(slots)[n - 1] in slots;
      var i :| 0 <= i < |slots| && slots[i] == Sort(slots)[n - 1];
      SlotHasOrdinal(entries[i], sourceId, members);
      assert entries[i].ordinal == n;
    }
    assert forall i :: 0 < i < |Sort(slots)| ==> Sort(slots)[i - 1].end <= Sort(slots)[i].start;
    hide InOrder;
    forall e, f | e in entries && f in entries && f.ordinal == e.ordinal + 1 ensures e.end <= f.start {
      EntryIsSorted(entries, sourceId, members, e);
      EntryIsSorted(entries, sourceId, members, f);
      SlotHasRange(e, sourceId, members);
      SlotHasRange(f, sourceId, members);
    }
  }

  lemma ArrangedIsOrdered(entries: seq<Entry>, original: Text, sourceId: SourceId, members: seq<Id>, pending: seq<Id>)
    requires Arranged(entries, original, members, pending)
    ensures InOrder(Sort(Slots(entries, sourceId, members)))
  {
    hide Usable;
    var slots := Slots(entries, sourceId, members);
    var sorted := Sort(slots);
    SortSorts(slots);
    SortKeepsElements(slots);
    hide Sort;
    forall n | 1 <= n <= |sorted| ensures Numbered(sorted, n) {
      assert HasOrdinal(entries, n);
      var i :| 0 <= i < |entries| && entries[i].ordinal == n;
      assert slots[i] in sorted;
    }
    AscendingCover(sorted);
    forall i | 0 < i < |sorted| ensures sorted[i - 1].end <= sorted[i].start {
      assert sorted[i - 1] in slots && sorted[i] in slots;
      var a :| 0 <= a < |slots| && slots[a] == sorted[i - 1];
      var b :| 0 <= b < |slots| && slots[b] == sorted[i];
      assert entries[a] in entries && entries[b] in entries;
    }
  }

  lemma EntryIsSorted(entries: seq<Entry>, sourceId: SourceId, members: seq<Id>, e: Entry)
    requires e in entries && InOrder(Sort(Slots(entries, sourceId, members)))
    ensures var sorted := Sort(Slots(entries, sourceId, members));
            1 <= e.ordinal <= |sorted| && sorted[e.ordinal - 1] == SlotOf(e, sourceId, members)
  {
    hide SlotOf;
    var slots := Slots(entries, sourceId, members);
    SortKeepsElements(slots);
    hide Sort;
    var i :| 0 <= i < |entries| && entries[i] == e;
    assert slots[i] in Sort(slots);
    var k :| 0 <= k < |Sort(slots)| && Sort(slots)[k] == slots[i];
    SlotHasOrdinal(e, sourceId, members);
  }

  lemma SlotHasRange(e: Entry, sourceId: SourceId, members: seq<Id>)
    ensures var slot := SlotOf(e, sourceId, members); slot.start == e.start && slot.end == e.end
  {
  }

  lemma SlotHasOrdinal(e: Entry, sourceId: SourceId, members: seq<Id>)
    ensures SlotOf(e, sourceId, members).ordinal == e.ordinal
  {
  }

  function SlotKey(s: Slot): Key {
    if s.clarification.Some? then PendingKey(s.clarification.value)
    else MemberKey(if s.instructionIds == [] then "" else s.instructionIds[0])
  }

  lemma {:induction false} AtMostItsLength<T>(s: seq<T>)
    ensures |set x | x in s| <= |s|
    decreases |s|
  {
    if s != [] {
      AtMostItsLength(s[1..]);
      assert (set x | x in s) == {s[0]} + set x | x in s[1..];
    }
  }

  function Expected(members: seq<Id>, pending: seq<Id>): (keys: seq<Key>)
    ensures |keys| == |members| + |pending|
    ensures forall k :: k in keys <==> match k case MemberKey(id) => id in members case PendingKey(id) => id in pending
  {
    var left := seq(|members|, i requires 0 <= i < |members| => MemberKey(members[i]));
    var right := seq(|pending|, i requires 0 <= i < |pending| => PendingKey(pending[i]));
    assert forall id :: id in members ==> MemberKey(id) in left by {
      forall id | id in members ensures MemberKey(id) in left {
        var i :| 0 <= i < |members| && members[i] == id;
        assert left[i] == MemberKey(id);
      }
    }
    assert forall id :: id in pending ==> PendingKey(id) in right by {
      forall id | id in pending ensures PendingKey(id) in right {
        var i :| 0 <= i < |pending| && pending[i] == id;
        assert right[i] == PendingKey(id);
      }
    }
    left + right
  }

  function SlotKeys(slots: seq<Slot>): seq<Key> {
    seq(|slots|, i requires 0 <= i < |slots| => SlotKey(slots[i]))
  }

  /** Every new member and every open question has exactly one slot, and nothing else has one. */
  lemma EachPartHasOneSlot(entries: seq<Entry>, original: Text, sourceId: SourceId, members: seq<Id>, pending: seq<Id>)
    requires Freeze(entries, original, sourceId, members, pending).Success?
    ensures var keys := SlotKeys(Freeze(entries, original, sourceId, members, pending).value);
            && Distinct(keys)
            && forall k :: k in keys <==> match k case MemberKey(id) => id in members case PendingKey(id) => id in pending
  {
    hide Usable, Sort, Expected, Distinct;
    var slots, keys := Slots(entries, sourceId, members), Keys(entries, members);
    var expected := Expected(members, pending);
    assert SlotKeys(slots) == keys;
    SortKeepsElements(slots);
    KeysOfSorted(slots, Sort(slots));
    UsableKeysAreDistinct(entries, original, members, pending);
    KeysAreExpected(entries, original, members, pending);
    forall k | k in expected ensures k in keys { AllKeysAreUsed(keys, expected, k); }
  }

  lemma UsableKeysAreDistinct(entries: seq<Entry>, original: Text, members: seq<Id>, pending: seq<Id>)
    requires Usable(entries, original, members, pending)
    ensures Distinct(Keys(entries, members))
  {
  }

  lemma KeysOfSorted(slots: seq<Slot>, sorted: seq<Slot>)
    requires InOrder(sorted) && forall s :: s in sorted <==> s in slots
    ensures forall k :: k in SlotKeys(sorted) <==> k in SlotKeys(slots)
    ensures Distinct(SlotKeys(slots)) ==> Distinct(SlotKeys(sorted))
  {
    forall k ensures k in SlotKeys(sorted) <==> k in SlotKeys(slots) {
      if k in SlotKeys(sorted) {
        var i :| 0 <= i < |sorted| && SlotKeys(sorted)[i] == k;
        var a := IndexOf(slots, sorted[i]);
        assert SlotKeys(slots)[a] == k;
      }
      if k in SlotKeys(slots) {
        var a :| 0 <= a < |slots| && SlotKeys(slots)[a] == k;
        var i := IndexOf(sorted, slots[a]);
        assert SlotKeys(sorted)[i] == k;
      }
    }
    if Distinct(SlotKeys(slots)) {
      forall i, j | 0 <= i < j < |sorted| ensures SlotKeys(sorted)[i] != SlotKeys(sorted)[j] {
        var a := IndexOf(slots, sorted[i]);
        var b := IndexOf(slots, sorted[j]);
        assert SlotKeys(slots)[a] == SlotKeys(sorted)[i] && SlotKeys(slots)[b] == SlotKeys(sorted)[j];
        assert a != b;
      }
    }
  }

  lemma IndexOf(slots: seq<Slot>, s: Slot) returns (i: nat)
    requires s in slots
    ensures i < |slots| && slots[i] == s
  {
    i :| 0 <= i < |slots| && slots[i] == s;
  }

  lemma KeysAreExpected(entries: seq<Entry>, original: Text, members: seq<Id>, pending: seq<Id>)
    requires Usable(entries, original, members, pending)
    ensures forall k :: k in Keys(entries, members) ==> k in Expected(members, pending)
  {
    forall k | k in Keys(entries, members) ensures k in Expected(members, pending) {
      var a :| 0 <= a < |entries| && KeyOf(entries[a], members) == k;
      assert ValidEntry(entries[a], original, members, pending);
    }
  }

  lemma AllKeysAreUsed(keys: seq<Key>, all: seq<Key>, x: Key)
    requires Distinct(keys) && |keys| == |all| && x in all && forall k :: k in keys ==> k in all
    ensures x in keys
  {
    var expected := set k | k in all;
    AtMostItsLength(all);
    if x !in keys {
      assert |expected - {x}| == |expected| - 1;
      Pigeonhole(keys, expected - {x});
    }
  }

  // ---------- Orders that grow ----------

  /** Ordinals 1..n, and per source quotes in ascending disjoint ranges; only the given sources occur. */
  ghost predicate WellOrdered(order: seq<Slot>, sources: set<SourceId>) {
    && (forall i :: 0 <= i < |order| ==> order[i].ordinal == i + 1 && order[i].sourceId in sources)
    && (forall i :: 0 <= i < |order| ==> 0 <= order[i].start < order[i].end)
    && (forall i, j :: 0 <= i < j < |order| && order[i].sourceId == order[j].sourceId ==> order[i].end <= order[j].start)
  }

  lemma {:induction false} Ascending(order: seq<Slot>, i: nat, j: nat)
    requires InOrder(order) && i < j < |order| && forall k :: 0 <= k < |order| ==> order[k].start < order[k].end
    ensures order[i].end <= order[j].start
    decreases j
  {
    if i + 1 < j { Ascending(order, i, j - 1); }
  }

  lemma FrozenIsWellOrdered(entries: seq<Entry>, original: Text, sourceId: SourceId, members: seq<Id>, pending: seq<Id>)
    requires Freeze(entries, original, sourceId, members, pending).Success?
    ensures var r := Freeze(entries, original, sourceId, members, pending).value;
            && WellOrdered(r, {sourceId})
            && forall s :: s in r ==> s.end <= |original| && original[s.start..s.end] == s.quote
                                      && (s.clarification.Some? <==> s.instructionIds == [])
                                      && (s.clarification.Some? ==> s.clarification.value in pending)
  {
    var slots := Slots(entries, sourceId, members);
    var r := Sort(slots);
    SortKeepsElements(slots);
    hide Sort;
    forall s | s in r
      ensures s.sourceId == sourceId && 0 <= s.start < s.end <= |original| && original[s.start..s.end] == s.quote
              && (s.clarification.Some? <==> s.instructionIds == []) && (s.clarification.Some? ==> s.clarification.value in pending)
    {
      var a :| 0 <= a < |slots| && slots[a] == s;
      assert ValidEntry(entries[a], original, members, pending);
    }
    forall i, j | 0 <= i < j < |r| ensures r[i].end <= r[j].start {
      assert forall k :: 0 <= k < |r| ==> r[k] in r;
      Ascending(r, i, j);
    }
  }

  /** The slots of an appended source follow the earlier ones. */
  function Append(order: seq<Slot>, appended: seq<Slot>): seq<Slot> {
    order + seq(|appended|, i requires 0 <= i < |appended| => appended[i].(ordinal := |order| + appended[i].ordinal))
  }

  lemma AppendedIsWellOrdered(order: seq<Slot>, sources: set<SourceId>, appended: seq<Slot>, sourceId: SourceId)
    requires WellOrdered(order, sources) && WellOrdered(appended, {sourceId}) && sourceId !in sources
    ensures WellOrdered(Append(order, appended), sources + {sourceId})
  {
    var all, n := Append(order, appended), |order|;
    forall i, j | 0 <= i < j < |all| && all[i].sourceId == all[j].sourceId ensures all[i].end <= all[j].start {
      if j < n {
        assert order[i].end <= order[j].start;
      } else {
        assert all[j].sourceId == sourceId && n <= i;
        assert appended[i - n].end <= appended[j - n].start;
      }
    }
  }

  datatype Assignment = Assignment(clarificationId: Id, instructionId: Id)

  function AssignedTo(assignments: seq<Assignment>, clarificationId: Id): seq<Id> {
    if assignments == [] then []
    else
      var rest := AssignedTo(assignments[1..], clarificationId);
      if assignments[0].clarificationId == clarificationId then [assignments[0].instructionId] + rest else rest
  }

  /** The slots of answered questions take the instructions that answer them. */
  function Assign(order: seq<Slot>, ids: seq<Id>, assignments: seq<Assignment>): seq<Slot> {
    seq(|order|, i requires 0 <= i < |order| =>
          if order[i].clarification.Some? && order[i].clarification.value in ids
          then order[i].(instructionIds := AssignedTo(assignments, order[i].clarification.value))
          else order[i])
  }

  // ---------- Choosing an instruction by its ordinal ----------

  /** What ordinals are looked up in; `recurring` are the members that a recurring plan added. */
  datatype Directory = Directory(order: Option<seq<Slot>>, gap: bool, partial: bool, memberIds: seq<Id>, recurring: set<Id>)

  function FindSlot(order: seq<Slot>, n: int): Option<Slot> {
    if order == [] then None
    else if order[0].ordinal == n then Some(order[0]) else FindSlot(order[1..], n)
  }

  function Originals(memberIds: seq<Id>, recurring: set<Id>): seq<Id> {
    if memberIds == [] then []
    else if memberIds[0] in recurring then Originals(memberIds[1..], recurring)
    else [memberIds[0]] + Originals(memberIds[1..], recurring)
  }

  function Resolve(d: Directory, n: int): Result<Id> {
    if n < 1 then Failure("COORDINATION_CHANGE_SELECTOR_INVALID")
    else if d.order.Some? then
      match FindSlot(d.order.value, n)
      case None => Failure(if d.gap then "COORDINATION_CHANGE_ORDINAL_NEEDS_CLARIFICATION" else "COORDINATION_CHANGE_MEMBER_MISSING")
      case Some(slot) =>
        if |slot.instructionIds| != 1 then Failure("COORDINATION_CHANGE_ORDINAL_NEEDS_CLARIFICATION")
        else if slot.instructionIds[0] !in d.memberIds then Failure("COORDINATION_CHANGE_MEMBER_MISSING")
        else Success(slot.instructionIds[0])
    else if d.partial then Failure("COORDINATION_CHANGE_ORDINAL_NEEDS_CLARIFICATION")
    else
      var ids := Originals(d.memberIds, d.recurring);
      if |ids| < n then Failure("COORDINATION_CHANGE_MEMBER_MISSING") else Success(ids[n - 1])
  }

  /** A later directory of the same arrangement: members are appended, and filled slots stay as they are. */
  ghost predicate Continues(d: Directory, d': Directory) {
    && d.memberIds <= d'.memberIds
    && (forall id :: id in d.memberIds ==> (id in d.recurring <==> id in d'.recurring))
    && (d.order.Some? <==> d'.order.Some?)
    && (d.order.Some? ==> OrderContinues(d.order.value, d'.order.value))
    && (d.order.None? && !d.partial ==> !d'.partial)
  }

  ghost predicate OrderContinues(order: seq<Slot>, order': seq<Slot>) {
    |order| <= |order'|
    && forall i :: 0 <= i < |order| ==> order'[i].ordinal == order[i].ordinal && (order[i].instructionIds != [] ==> order'[i] == order[i])
  }

  lemma {:induction false} SlotsStay(order: seq<Slot>, order': seq<Slot>, n: int)
    requires OrderContinues(order, order') && FindSlot(order, n).Some? && FindSlot(order, n).value.instructionIds != []
    ensures FindSlot(order', n) == FindSlot(order, n)
    decreases |order|
  {
    if order[0].ordinal != n {
      assert OrderContinues(order[1..], order'[1..]) by {
        forall i | 0 <= i < |order[1..]|
          ensures order'[1..][i].ordinal == order[1..][i].ordinal
                  && (order[1..][i].instructionIds != [] ==> order'[1..][i] == order[1..][i])
        {
          assert order[1..][i] == order[i + 1] && order'[1..][i] == order'[i + 1];
        }
      }
      SlotsStay(order[1..], order'[1..], n);
    }
  }

  lemma {:induction false} OriginalsStay(ids: seq<Id>, ids': seq<Id>, recurring: set<Id>, recurring': set<Id>)
    requires ids <= ids' && forall id :: id in ids ==> (id in recurring <==> id in recurring')
    ensures Originals(ids, recurring) <= Originals(ids', recurring')
    decreases |ids|
  {
    if ids != [] { OriginalsStay(ids[1..], ids'[1..], recurring, recurring'); }
  }

  /** Once an ordinal means an instruction it keeps meaning that instruction. */
  lemma OrdinalStays(d: Directory, d': Directory, n: int)
    requires Continues(d, d') && Resolve(d, n).Success?
    ensures Resolve(d', n) == Resolve(d, n)
  {
    if d.order.Some? {
      SlotsStay(d.order.value, d'.order.value, n);
    } else {
      OriginalsStay(d.memberIds, d'.memberIds, d.recurring, d'.recurring);
    }
  }
}
