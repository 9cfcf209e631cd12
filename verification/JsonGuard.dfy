/**
  The guards of the canonical encoder (artifact-json.js): over a heap of arrays and objects that may
  share parts or contain themselves, encoding succeeds exactly on values that unfold to a finite JSON
  value, and then yields the canonical text of that value.
*/
module JsonGuard {
  import opened Wrappers
  import opened CanonicalJson

  type Ref = nat

  datatype Value =
    | NullValue
    | BoolValue(value: bool)
    | NumberValue(finite: bool, text: Text)
    | StringValue(units: Text)
    | Unsupported
    | Pointer(ref: Ref)

  /** `plain`: the prototype of the object is that of object literals, or none. */
  datatype Cell = ArrayCell(items: seq<Value>) | ObjectCell(plain: bool, fields: seq<(Text, Value)>)

  type Heap = map<Ref, Cell>

  const Invalid := "INVALID_JSON_VALUE"

  function EncodeValue(h: Heap, v: Value, seen: set<Ref>): Result<Text>
    decreases h.Keys - seen, 0, 0
  {
    match v
    case NullValue => Success(Encode(Null))
    case BoolValue(b) => Success(Encode(Bool(b)))
    case NumberValue(finite, text) => if finite then Success(text) else Failure(Invalid)
    case StringValue(units) => Success(Quote(units))
    case Unsupported => Failure(Invalid)
    case Pointer(r) =>
      if r !in h || r in seen then Failure(Invalid)
      else
        match h[r]
        case ArrayCell(items) =>
          (match EncodeItems(h, items, seen + {r})
           case Failure(code) => Failure(code)
           case Success(parts) => Success([91] + Join(parts) + [93]))
        case ObjectCell(plain, fields) =>
          if !plain then Failure("INVALID_JSON_OBJECT")
          else
            (match EncodeFields(h, Sort(fields), seen + {r})
             case Failure(code) => Failure(code)
             case Success(parts) => Success([123] + Join(FieldTexts(parts)) + [125]))
  }

  function EncodeItems(h: Heap, items: seq<Value>, seen: set<Ref>): Result<seq<Text>>
    decreases h.Keys - seen, 1, |items|
  {
    if items == [] then Success([])
    else
      match EncodeValue(h, items[0], seen)
      case Failure(code) => Failure(code)
      case Success(first) =>
        match EncodeItems(h, items[1..], seen)
        case Failure(code) => Failure(code)
        case Success(rest) => Success([first] + rest)
  }

  function EncodeFields(h: Heap, fields: seq<(Text, Value)>, seen: set<Ref>): Result<seq<(Text, Text)>>
    decreases h.Keys - seen, 1, |fields|
  {
    if fields == [] then Success([])
    else
      match EncodeValue(h, fields[0].1, seen)
      case Failure(code) => Failure(code)
      case Success(first) =>
        match EncodeFields(h, fields[1..], seen)
        case Failure(code) => Failure(code)
        case Success(rest) => Success([(fields[0].0, first)] + rest)
  }

  /** `v` unfolds to `j`. */
  ghost predicate Unfolds(h: Heap, v: Value, j: Json)
    decreases j
  {
    match v
    case NullValue => j == Null
    case BoolValue(b) => j == Bool(b)
    case NumberValue(finite, text) => finite && j == Number(text)
    case StringValue(units) => j == String(units)
    case Unsupported => false
    case Pointer(r) =>
      r in h
      && match h[r]
         case ArrayCell(items) => j.Array? && |items| == |j.items| && forall i :: 0 <= i < |items| ==> Unfolds(h, items[i], j.items[i])
         case ObjectCell(plain, fields) =>
           plain && j.Object? && |fields| == |j.fields|
           && forall i :: 0 <= i < |fields| ==> fields[i].0 == j.fields[i].0 && Unfolds(h, fields[i].1, j.fields[i].1)
  }

  lemma {:induction false} UnfoldingIsUnique(h: Heap, v: Value, a: Json, b: Json)
    requires Unfolds(h, v, a) && Unfolds(h, v, b)
    ensures a == b
    decreases a
  {
    if v.Pointer? {
      match h[v.ref]
      case ArrayCell(items) =>
        forall i | 0 <= i < |items| ensures a.items[i] == b.items[i] { UnfoldingIsUnique(h, items[i], a.items[i], b.items[i]); }
        assert a.items == b.items;
      case ObjectCell(_, fields) =>
        forall i | 0 <= i < |fields| ensures a.fields[i] == b.fields[i] {
          UnfoldingIsUnique(h, fields[i].1, a.fields[i].1, b.fields[i].1);
        }
        assert a.fields == b.fields;
    }
  }

  // ---------- A value never unfolds into itself ----------

  function Weight(j: Json): nat
    decreases j
  {
    match j
    case Array(items) => 1 + Sum(seq(|items|, i requires 0 <= i < |items| => Weight(items[i])))
    case Object(fields) => 1 + Sum(seq(|fields|, i requires 0 <= i < |fields| => Weight(fields[i].1)))
    case _ => 0
  }

  function Sum(ns: seq<nat>): nat {
    if ns == [] then 0 else ns[0] + Sum(ns[1..])
  }

  lemma {:induction false} SumIsLarger(ns: seq<nat>, i: nat)
    requires i < |ns|
    ensures ns[i] <= Sum(ns)
    decreases |ns|
  {
    if 0 < i { SumIsLarger(ns[1..], i - 1); }
  }

  lemma PartsWeighLess(j: Json)
    ensures j.Array? ==> forall i :: 0 <= i < |j.items| ==> Weight(j.items[i]) < Weight(j)
    ensures j.Object? ==> forall i :: 0 <= i < |j.fields| ==> Weight(j.fields[i].1) < Weight(j)
  {
    if j.Array? {
      forall i | 0 <= i < |j.items| ensures Weight(j.items[i]) < Weight(j) {
        SumIsLarger(seq(|j.items|, i requires 0 <= i < |j.items| => Weight(j.items[i])), i);
      }
    } else if j.Object? {
      forall i | 0 <= i < |j.fields| ensures Weight(j.fields[i].1) < Weight(j) {
        SumIsLarger(seq(|j.fields|, i requires 0 <= i < |j.fields| => Weight(j.fields[i].1)), i);
      }
    }
  }

  /** Everything on the path to a value unfolds to something heavier. */
  ghost predicate Above(h: Heap, seen: set<Ref>, path: map<Ref, Json>, weight: nat) {
    forall r :: r in seen ==> r in path && Unfolds(h, Pointer(r), path[r]) && weight < Weight(path[r])
  }

  // ---------- Finite values are encoded ----------

  lemma {:induction false} FiniteIsEncoded(h: Heap, v: Value, j: Json, seen: set<Ref>, path: map<Ref, Json>)
    requires Unfolds(h, v, j) && Above(h, seen, path, Weight(j))
    ensures EncodeValue(h, v, seen) == Success(Encode(j))
    decreases j, 1, 0
  {
    if v.Pointer? {
      var r := v.ref;
      if r in seen { UnfoldingIsUnique(h, v, j, path[r]); }
      PartsWeighLess(j);
      var path' := path[r := j];
      match h[r]
      case ArrayCell(items) =>
        ItemsAreEncoded(h, j, items, 0, seen + {r}, path');
        assert EncodedItems(j)[0..] == EncodedItems(j) && items[0..] == items;
        Unfold(j);
      case ObjectCell(_, fields) =>
        FieldsAreEncoded(h, j, fields, 0, seen + {r}, path');
        SortCommutes(Pairs(fields, j), First);
        SortCommutes(Pairs(fields, j), EncodeSecond);
        PairsAreFields(h, fields, j);
        assert Map(Sort(Pairs(fields, j)), First)[0..] == Sort(fields) && Map(Sort(Pairs(fields, j)), EncodeSecond)[0..] == Sort(Encoded(j));
        Unfold(j);
    }
  }

  lemma {:induction false} ItemsAreEncoded(h: Heap, j: Json, items: seq<Value>, i: nat, seen: set<Ref>, path: map<Ref, Json>)
    requires j.Array? && |items| == |j.items| && i <= |items|
    requires forall k :: 0 <= k < |items| ==> Unfolds(h, items[k], j.items[k])
    requires forall k :: 0 <= k < |items| ==> Above(h, seen, path, Weight(j.items[k]))
    ensures EncodeItems(h, items[i..], seen) == Success(EncodedItems(j)[i..])
    decreases j, 0, |items| - i
  {
    hide EncodeValue, Unfolds, Encode, Weight, Above;
    if i < |items| {
      FiniteIsEncoded(h, items[i], j.items[i], seen, path);
      ItemsAreEncoded(h, j, items, i + 1, seen, path);
      assert items[i..][1..] == items[i + 1..];
      assert EncodedItems(j)[i..] == [Encode(j.items[i])] + EncodedItems(j)[i + 1..];
    }
  }

  /** The fields of an object beside the fields it unfolds to. */
  function Pairs(fields: seq<(Text, Value)>, j: Json): seq<(Text, (Value, Json))>
    requires j.Object? && |fields| == |j.fields|
  {
    seq(|fields|, i requires 0 <= i < |fields| => (fields[i].0, (fields[i].1, j.fields[i].1)))
  }

  lemma PairsAreFields(h: Heap, fields: seq<(Text, Value)>, j: Json)
    requires j.Object? && |fields| == |j.fields| && forall i :: 0 <= i < |fields| ==> fields[i].0 == j.fields[i].0
    ensures Map(Pairs(fields, j), First) == fields && Map(Pairs(fields, j), EncodeSecond) == Encoded(j)
  {
    hide Encode;
    var pairs := Pairs(fields, j);
    forall i | 0 <= i < |fields| ensures Map(pairs, First)[i] == fields[i] && Map(pairs, EncodeSecond)[i] == Encoded(j)[i] {
      assert fields[i] == (fields[i].0, fields[i].1);
      assert First(pairs[i].1) == fields[i].1 && EncodeSecond(pairs[i].1) == Encode(j.fields[i].1);
    }
  }

  function First(p: (Value, Json)): Value {
    p.0
  }

  function EncodeSecond(p: (Value, Json)): Text {
    Encode(p.1)
  }

  lemma SortedPair(h: Heap, fields: seq<(Text, Value)>, j: Json, i: nat) returns (k: nat)
    requires j.Object? && |fields| == |j.fields| && i < |Sort(Pairs(fields, j))|
    ensures k < |fields|
    ensures var sorted := Sort(Pairs(fields, j));
            Map(sorted, First)[i] == (sorted[i].0, fields[k].1) && Map(sorted, EncodeSecond)[i] == (sorted[i].0, Encode(j.fields[k].1))
  {
    hide Encode, Sort;
    var sorted := Sort(Pairs(fields, j));
    SortedElement(Pairs(fields, j), sorted[i]);
    k :| 0 <= k < |fields| && Pairs(fields, j)[k] == sorted[i];
    assert First(sorted[i].1) == fields[k].1 && EncodeSecond(sorted[i].1) == Encode(j.fields[k].1);
  }

  lemma {:induction false} FieldsAreEncoded(h: Heap, j: Json, fields: seq<(Text, Value)>, i: nat, seen: set<Ref>, path: map<Ref, Json>)
    requires j.Object? && |fields| == |j.fields| && i <= |Sort(Pairs(fields, j))|
    requires forall k :: 0 <= k < |fields| ==> Unfolds(h, fields[k].1, j.fields[k].1)
    requires forall k :: 0 <= k < |fields| ==> Above(h, seen, path, Weight(j.fields[k].1))
    ensures var sorted := Sort(Pairs(fields, j));
            EncodeFields(h, Map(sorted, First)[i..], seen) == Success(Map(sorted, EncodeSecond)[i..])
    decreases j, 0, |Sort(Pairs(fields, j))| - i
  {
    hide EncodeValue, Unfolds, Encode, Sort, Pairs, Weight;
    var sorted := Sort(Pairs(fields, j));
    var values, texts := Map(sorted, First), Map(sorted, EncodeSecond);
    if i < |sorted| {
      var k := SortedPair(h, fields, j, i);
      FiniteIsEncoded(h, fields[k].1, j.fields[k].1, seen, path);
      FieldsAreEncoded(h, j, fields, i + 1, seen, path);
      OneMoreField(h, values, i, seen, texts[i].1, texts[i + 1..]);
      assert texts[i..] == [texts[i]] + texts[i + 1..];
    } else {
      assert values[i..] == [] && texts[i..] == [];
    }
  }

  lemma OneMoreField(h: Heap, fields: seq<(Text, Value)>, i: nat, seen: set<Ref>, first: Text, rest: seq<(Text, Text)>)
    requires i < |fields| && EncodeValue(h, fields[i].1, seen) == Success(first) && EncodeFields(h, fields[i + 1..], seen) == Success(rest)
    ensures EncodeFields(h, fields[i..], seen) == Success([(fields[i].0, first)] + rest)
  {
    assert fields[i..][0] == fields[i] && fields[i..][1..] == fields[i + 1..];
  }

  // ---------- Encoded values are finite ----------

  lemma {:induction false} EncodedIsFinite(h: Heap, v: Value, seen: set<Ref>) returns (j: Json)
    requires EncodeValue(h, v, seen).Success?
    ensures Unfolds(h, v, j)
    decreases h.Keys - seen, 0, 0
  {
    match v
    case NullValue => j := Null;
    case BoolValue(b) => j := Bool(b);
    case NumberValue(_, text) => j := Number(text);
    case StringValue(units) => j := String(units);
    case Pointer(r) =>
      match h[r] {
        case ArrayCell(items) =>
          var parts := ItemsAreFinite(h, items, seen + {r});
          j := Array(parts);
        case ObjectCell(_, fields) =>
          FieldsAreFinite(h, Sort(fields), seen + {r});
          forall i | 0 <= i < |fields| ensures Finite(h, fields[i].1) {
            SortedElement(fields, fields[i]);
            var k :| 0 <= k < |Sort(fields)| && Sort(fields)[k] == fields[i];
          }
          var js := CollectFields(h, fields);
          j := Object(js);
      }
  }

  lemma {:induction false} ItemsAreFinite(h: Heap, items: seq<Value>, seen: set<Ref>) returns (js: seq<Json>)
    requires EncodeItems(h, items, seen).Success?
    ensures |js| == |items| && forall i :: 0 <= i < |items| ==> Unfolds(h, items[i], js[i])
    decreases h.Keys - seen, 1, |items|
  {
    if items == [] {
      js := [];
    } else {
      var first := EncodedIsFinite(h, items[0], seen);
      var rest := ItemsAreFinite(h, items[1..], seen);
      js := [first] + rest;
      forall i | 0 <= i < |items| ensures Unfolds(h, items[i], js[i]) {
        if 0 < i { assert items[i] == items[1..][i - 1]; }
      }
    }
  }

  ghost predicate Finite(h: Heap, v: Value) {
    exists j :: Unfolds(h, v, j)
  }

  lemma {:induction false} FieldsAreFinite(h: Heap, fields: seq<(Text, Value)>, seen: set<Ref>)
    requires EncodeFields(h, fields, seen).Success?
    ensures forall i :: 0 <= i < |fields| ==> Finite(h, fields[i].1)
    decreases h.Keys - seen, 1, |fields|
  {
    if fields != [] {
      var first := EncodedIsFinite(h, fields[0].1, seen);
      FieldsAreFinite(h, fields[1..], seen);
      forall i | 0 <= i < |fields| ensures Finite(h, fields[i].1) {
        if 0 < i { assert fields[i] == fields[1..][i - 1]; }
      }
    }
  }

  lemma {:induction false} CollectFields(h: Heap, fields: seq<(Text, Value)>) returns (js: seq<(Text, Json)>)
    requires forall i :: 0 <= i < |fields| ==> Finite(h, fields[i].1)
    ensures |js| == |fields| && forall i :: 0 <= i < |fields| ==> js[i].0 == fields[i].0 && Unfolds(h, fields[i].1, js[i].1)
    decreases |fields|
  {
    if fields == [] {
      js := [];
    } else {
      var first :| Unfolds(h, fields[0].1, first);
      forall i | 0 <= i < |fields[1..]| ensures Finite(h, fields[1..][i].1) { assert fields[1..][i] == fields[i + 1]; }
      var rest := CollectFields(h, fields[1..]);
      js := [(fields[0].0, first)] + rest;
      forall i | 0 <= i < |fields| ensures js[i].0 == fields[i].0 && Unfolds(h, fields[i].1, js[i].1) {
        if 0 < i { assert fields[i] == fields[1..][i - 1]; }
      }
    }
  }

  /** The encoder accepts exactly the values that unfold to a finite JSON value, and prints that value's canonical text. */
  lemma EncoderIsExact(h: Heap, v: Value)
    ensures EncodeValue(h, v, {}).Success? <==> Finite(h, v)
    ensures forall j :: Unfolds(h, v, j) ==> EncodeValue(h, v, {}) == Success(Encode(j))
  {
    if EncodeValue(h, v, {}).Success? { var j := EncodedIsFinite(h, v, {}); }
    forall j | Unfolds(h, v, j) ensures EncodeValue(h, v, {}) == Success(Encode(j)) { FiniteIsEncoded(h, v, j, {}, map[]); }
  }

  // ---------- Cycles ----------

  predicate Holds(h: Heap, a: Ref, b: Ref) {
    a in h
    && match h[a]
       case ArrayCell(items) => Pointer(b) in items
       case ObjectCell(_, fields) => exists i :: 0 <= i < |fields| && fields[i].1 == Pointer(b)
  }

  /** Each array or object of the walk holds the next one. */
  predicate Nested(h: Heap, walk: seq<Ref>) {
    forall i :: 0 < i < |walk| ==> Holds(h, walk[i - 1], walk[i])
  }

  lemma HeldIsLighter(h: Heap, a: Ref, b: Ref, j: Json) returns (part: Json)
    requires Holds(h, a, b) && Unfolds(h, Pointer(a), j)
    ensures Unfolds(h, Pointer(b), part) && Weight(part) < Weight(j)
  {
    PartsWeighLess(j);
    match h[a]
    case ArrayCell(items) =>
      var i :| 0 <= i < |items| && items[i] == Pointer(b);
      part := j.items[i];
    case ObjectCell(_, fields) =>
      var i :| 0 <= i < |fields| && fields[i].1 == Pointer(b);
      part := j.fields[i].1;
  }

  lemma {:induction false} NestedIsLighter(h: Heap, walk: seq<Ref>, i: nat, k: nat, j: Json) returns (part: Json)
    requires Nested(h, walk) && i <= k < |walk| && Unfolds(h, Pointer(walk[i]), j)
    ensures Unfolds(h, Pointer(walk[k]), part) && Weight(part) <= Weight(j) && (i < k ==> Weight(part) < Weight(j))
    decreases k
  {
    hide Unfolds, Weight, Holds;
    part := j;
    if i < k {
      var before := NestedIsLighter(h, walk, i, k - 1, j);
      assert Holds(h, walk[k - 1], walk[k]);
      part := HeldIsLighter(h, walk[k - 1], walk[k], before);
    }
  }

  /** A value is refused when a cycle can be reached from it, through arrays and objects alike. */
  lemma CyclesAreRefused(h: Heap, walk: seq<Ref>, i: nat, k: nat)
    requires Nested(h, walk) && i < k < |walk| && walk[i] == walk[k]
    ensures EncodeValue(h, Pointer(walk[0]), {}).Failure?
  {
    hide Unfolds, Weight, Nested;
    EncoderIsExact(h, Pointer(walk[0]));
    if j :| Unfolds(h, Pointer(walk[0]), j) {
      var first := NestedIsLighter(h, walk, 0, i, j);
      var again := NestedIsLighter(h, walk, i, k, first);
      UnfoldingIsUnique(h, Pointer(walk[i]), first, again);
    }
  }
}
