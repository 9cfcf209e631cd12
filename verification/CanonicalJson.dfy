/**
  Canonical JSON (artifact-json.js): the text of a value does not depend on the order in which the
  keys of its objects were written, and two values with the same text are the same up to that order.
  Texts are sequences of UTF-16 code units.
*/
module CanonicalJson {
  import opened Wrappers

  type Unit = u: int | 0 <= u < 0x10000
  type Text = seq<Unit>

  /** A finite number is given by the text ECMAScript prints for it; only 0 and -0 share theirs. */
  datatype Json =
    | Null
    | Bool(value: bool)
    | Number(text: Text)
    | String(units: Text)
    | Array(items: seq<Json>)
    | Object(fields: seq<(Text, Json)>)

  // ---------- Strings: section 7 of RFC 8259 ----------

  const QUOTE: Unit := 34
  const BACKSLASH: Unit := 92
  const COMMA: Unit := 44
  const COLON: Unit := 58

  function Hex(d: nat): (c: Unit)
    requires d < 16
  {
    if d < 10 then 48 + d else 87 + d
  }

  function Unhex(c: Unit): (d: nat)
    ensures d < 16
  {
    if 48 <= c < 58 then c - 48 else if 97 <= c < 103 then c - 87 else 0
  }

  predicate High(u: Unit) { 0xD800 <= u < 0xDC00 }

  predicate Low(u: Unit) { 0xDC00 <= u < 0xE000 }

  function Escape(u: Unit): Text {
    var a := u / 16;
    var b := a / 16;
    [BACKSLASH, 117, Hex(b / 16), Hex(b % 16), Hex(a % 16), Hex(u % 16)]
  }

  /** One code unit that is not half of a pair. */
  function QuoteUnit(u: Unit): Text {
    if u == QUOTE || u == BACKSLASH then [BACKSLASH, u]
    else if u == 8 then [BACKSLASH, 98]
    else if u == 9 then [BACKSLASH, 116]
    else if u == 10 then [BACKSLASH, 110]
    else if u == 12 then [BACKSLASH, 102]
    else if u == 13 then [BACKSLASH, 114]
    else if u < 32 || High(u) || Low(u) then Escape(u)
    else [u]
  }

  function QuoteBody(s: Text): Text {
    if s == [] then []
    else if StartsWithPair(s) then [s[0], s[1]] + QuoteBody(s[2..])
    else QuoteUnit(s[0]) + QuoteBody(s[1..])
  }

  function Quote(s: Text): Text {
    [QUOTE] + QuoteBody(s) + [QUOTE]
  }

  /** Reads the rest of a quoted string: its code units, and what follows the closing quote. */
  function Unquote(t: Text): Option<(Text, Text)>
    decreases |t|
  {
    if t == [] then None
    else if t[0] == QUOTE then Some(([], t[1..]))
    else if t[0] != BACKSLASH then Then(t[0], Unquote(t[1..]))
    else if |t| < 2 then None
    else if t[1] == 117 then if |t| < 6 then None else Then(FromHex(t[2], t[3], t[4], t[5]), Unquote(t[6..]))
    else Then(Unescape(t[1]), Unquote(t[2..]))
  }

  function FromHex(a: Unit, b: Unit, c: Unit, d: Unit): Unit {
    Unhex(a) * 4096 + Unhex(b) * 256 + Unhex(c) * 16 + Unhex(d)
  }

  function Unescape(c: Unit): Unit {
    if c == 98 then 8 else if c == 116 then 9 else if c == 110 then 10 else if c == 102 then 12 else if c == 114 then 13 else c
  }

  function Then(u: Unit, rest: Option<(Text, Text)>): Option<(Text, Text)> {
    if rest.None? then None else Some(([u] + rest.value.0, rest.value.1))
  }

  lemma HexRoundTrip(u: Unit)
    ensures var e := Escape(u); FromHex(e[2], e[3], e[4], e[5]) == u
  {
    var a := u / 16;
    var b := a / 16;
    assert u == 16 * a + u % 16 && a == 16 * b + a % 16 && b == 16 * (b / 16) + b % 16;
    HexDigit(b / 16);
    HexDigit(b % 16);
    HexDigit(a % 16);
    HexDigit(u % 16);
  }

  lemma HexDigit(d: nat)
    requires d < 16
    ensures Unhex(Hex(d)) == d
  {
  }

  lemma UnitRoundTrip(u: Unit, t: Text)
    ensures Unquote(QuoteUnit(u) + t) == Then(u, Unquote(t))
  {
    hide Then, FromHex, Hex;
    var q := QuoteUnit(u);
    if |q| == 6 {
      HexRoundTrip(u);
      assert (q + t)[6..] == t;
    } else if |q| == 2 {
      assert (q + t)[2..] == t;
    } else {
      assert (q + t)[1..] == t;
    }
  }

  lemma PlainUnit(u: Unit, t: Text)
    requires u != QUOTE && u != BACKSLASH
    ensures Unquote([u] + t) == Then(u, Unquote(t))
  {
    hide Then;
    assert ([u] + t)[1..] == t;
  }

  predicate StartsWithPair(s: Text) {
    |s| > 1 && High(s[0]) && Low(s[1])
  }

  lemma QuotedPair(s: Text, t: Text)
    requires StartsWithPair(s)
    ensures QuoteBody(s) + [QUOTE] + t == [s[0]] + ([s[1]] + (QuoteBody(s[2..]) + [QUOTE] + t))
    ensures s == [s[0]] + ([s[1]] + s[2..])
  {
  }

  lemma QuotedUnit(s: Text, t: Text)
    requires s != [] && !StartsWithPair(s)
    ensures QuoteBody(s) + [QUOTE] + t == QuoteUnit(s[0]) + (QuoteBody(s[1..]) + [QUOTE] + t)
    ensures s == [s[0]] + s[1..]
  {
    hide QuoteUnit;
    Assoc(QuoteUnit(s[0]), QuoteBody(s[1..]), [QUOTE]);
    Assoc(QuoteUnit(s[0]), QuoteBody(s[1..]) + [QUOTE], t);
  }

  lemma {:induction false} StringRoundTrip(s: Text, t: Text)
    ensures Unquote(QuoteBody(s) + [QUOTE] + t) == Some((s, t))
    decreases |s|
  {
    hide Unquote, QuoteUnit;
    if s == [] {
      assert QuoteBody(s) + [QUOTE] + t == [QUOTE] + t;
      EmptyString(t);
    } else if StartsWithPair(s) {
      var rest := QuoteBody(s[2..]) + [QUOTE] + t;
      StringRoundTrip(s[2..], t);
      PlainUnit(s[1], rest);
      PlainUnit(s[0], [s[1]] + rest);
      QuotedPair(s, t);
    } else {
      var rest := QuoteBody(s[1..]) + [QUOTE] + t;
      StringRoundTrip(s[1..], t);
      UnitRoundTrip(s[0], rest);
      QuotedUnit(s, t);
    }
  }

  lemma EmptyString(t: Text)
    ensures Unquote([QUOTE] + t) == Some(([], t))
  {
    assert ([QUOTE] + t)[1..] == t;
  }

  /** Quoted strings followed by anything are told apart by their text. */
  lemma QuoteIsPrefixFree(s: Text, s': Text, x: Text, y: Text)
    requires Quote(s) + x == Quote(s') + y
    ensures s == s' && x == y
  {
    hide QuoteBody;
    StringRoundTrip(s, x);
    StringRoundTrip(s', y);
    assert (Quote(s) + x)[1..] == QuoteBody(s) + [QUOTE] + x;
    assert (Quote(s') + y)[1..] == QuoteBody(s') + [QUOTE] + y;
  }

  // ---------- Key order: section 3.2.3 of RFC 8785 ----------

  /** Comparison by code units. */
  predicate Below(a: Text, b: Text)
    decreases |a|
  {
    b != [] && (a == [] || a[0] < b[0] || (a[0] == b[0] && Below(a[1..], b[1..])))
  }

  function Insert<T>(x: (Text, T), sorted: seq<(Text, T)>): seq<(Text, T)> {
    if sorted == [] then [x]
    else if Below(sorted[0].0, x.0) then [sorted[0]] + Insert(x, sorted[1..])
    else [x] + sorted
  }

  function Sort<T>(fields: seq<(Text, T)>): seq<(Text, T)> {
    if fields == [] then [] else Insert(fields[0], Sort(fields[1..]))
  }

  lemma {:induction false} BelowIsTotal(a: Text, b: Text)
    ensures a == b || Below(a, b) || Below(b, a)
    ensures !(Below(a, b) && Below(b, a)) && !Below(a, a)
    decreases |a|
  {
    if a != [] && b != [] {
      BelowIsTotal(a[1..], b[1..]);
      BelowIsTotal(a[1..], a[1..]);
      assert a == [a[0]] + a[1..] && b == [b[0]] + b[1..];
    } else if a != [] {
      BelowIsTotal(a[1..], a[1..]);
    }
  }

  lemma {:induction false} BelowIsTransitive(a: Text, b: Text, c: Text)
    requires Below(a, b) && Below(b, c)
    ensures Below(a, c)
    decreases |a|
  {
    if a != [] && a[0] == b[0] == c[0] { BelowIsTransitive(a[1..], b[1..], c[1..]); }
  }

  predicate KeysAscend<T>(fields: seq<(Text, T)>) {
    forall i, j :: 0 <= i < j < |fields| ==> Below(fields[i].0, fields[j].0)
  }

  predicate KeysDiffer<T>(fields: seq<(Text, T)>) {
    forall i, j :: 0 <= i < j < |fields| ==> fields[i].0 != fields[j].0
  }

  lemma {:induction false} InsertedElement<T>(x: (Text, T), sorted: seq<(Text, T)>, y: (Text, T))
    ensures y in Insert(x, sorted) <==> y == x || y in sorted
    ensures |Insert(x, sorted)| == |sorted| + 1
    decreases |sorted|
  {
    if sorted != [] {
      InsertedElement(x, sorted[1..], y);
      assert sorted == [sorted[0]] + sorted[1..];
    }
  }

  lemma {:induction false} InsertAscends<T>(x: (Text, T), sorted: seq<(Text, T)>)
    requires KeysAscend(sorted) && forall k :: 0 <= k < |sorted| ==> sorted[k].0 != x.0
    ensures KeysAscend(Insert(x, sorted))
    decreases |sorted|
  {
    if sorted != [] {
      BelowIsTotal(sorted[0].0, x.0);
      if Below(sorted[0].0, x.0) {
        InsertAscends(x, sorted[1..]);
        var rest := Insert(x, sorted[1..]);
        forall j | 0 <= j < |rest| ensures Below(sorted[0].0, rest[j].0)
        {
          InsertedElement(x, sorted[1..], rest[j]);
          if rest[j] != x {
            var k :| 0 <= k < |sorted[1..]| && sorted[1..][k] == rest[j];
            assert sorted[k + 1] == rest[j];
          }
        }
      } else {
        forall j | 0 <= j < |sorted| ensures Below(x.0, sorted[j].0) {
          if 0 < j { BelowIsTransitive(x.0, sorted[0].0, sorted[j].0); }
        }
      }
    }
  }

  lemma {:induction false} SortedElement<T>(fields: seq<(Text, T)>, y: (Text, T))
    ensures y in Sort(fields) <==> y in fields
    ensures |Sort(fields)| == |fields|
    decreases |fields|
  {
    if fields != [] {
      SortedElement(fields[1..], y);
      InsertedElement(fields[0], Sort(fields[1..]), y);
      assert fields == [fields[0]] + fields[1..];
    }
  }

  /** The fields of an object come out in ascending order of their keys. */
  lemma {:induction false} SortAscends<T>(fields: seq<(Text, T)>)
    requires KeysDiffer(fields)
    ensures KeysAscend(Sort(fields))
    decreases |fields|
  {
    if fields != [] {
      var rest := Sort(fields[1..]);
      SortAscends(fields[1..]);
      forall k | 0 <= k < |rest| ensures rest[k].0 != fields[0].0 {
        SortedElement(fields[1..], rest[k]);
        var i :| 0 <= i < |fields[1..]| && fields[1..][i] == rest[k];
        assert fields[i + 1] == rest[k];
      }
      InsertAscends(fields[0], rest);
    }
  }

  lemma {:induction false} AscendingIsUnique<T>(f: seq<(Text, T)>, g: seq<(Text, T)>)
    requires KeysAscend(f) && KeysAscend(g)
    requires (forall i :: 0 <= i < |f| ==> f[i] in g) && forall j :: 0 <= j < |g| ==> g[j] in f
    ensures f == g
    decreases |f|
  {
    if f == [] {
      if g != [] { NotEmpty(f, g); }
    } else {
      assert f[0] in g;
      var k :| 0 <= k < |g| && g[k] == f[0];
      assert g[0] in f;
      var l :| 0 <= l < |f| && f[l] == g[0];
      BelowIsTotal(f[0].0, g[0].0);
      assert f[0] == g[0];
      TailsMatch(f, g);
      TailsMatch(g, f);
      AscendingIsUnique(f[1..], g[1..]);
    }
  }

  lemma NotEmpty<T>(f: seq<T>, g: seq<T>)
    requires g != [] && forall j :: 0 <= j < |g| ==> g[j] in f
    ensures f != []
  {
    assert g[0] in f;
  }

  lemma TailsMatch<T>(f: seq<(Text, T)>, g: seq<(Text, T)>)
    requires KeysAscend(f) && f != [] && g != [] && f[0] == g[0] && forall i :: 0 <= i < |f| ==> f[i] in g
    ensures forall i :: 0 <= i < |f[1..]| ==> f[1..][i] in g[1..]
  {
    forall i | 0 <= i < |f[1..]| ensures f[1..][i] in g[1..] {
      assert f[i + 1] in g;
      var k :| 0 <= k < |g| && g[k] == f[i + 1];
      BelowIsTotal(f[0].0, f[i + 1].0);
      assert k != 0 && g[1..][k - 1] == f[i + 1];
    }
  }

  // ---------- The text of a value ----------

  function Join(parts: seq<Text>): Text {
    if parts == [] then [] else if |parts| == 1 then parts[0] else parts[0] + [COMMA] + Join(parts[1..])
  }

  function FieldText(f: (Text, Text)): Text {
    Quote(f.0) + [COLON] + f.1
  }

  function FieldTexts(fields: seq<(Text, Text)>): seq<Text> {
    seq(|fields|, i requires 0 <= i < |fields| => FieldText(fields[i]))
  }

  function Encode(j: Json): Text
    decreases j
  {
    match j
    case Null => [110, 117, 108, 108]
    case Bool(b) => if b then [116, 114, 117, 101] else [102, 97, 108, 115, 101]
    case Number(text) => text
    case String(units) => Quote(units)
    case Array(items) => [91] + Join(seq(|items|, i requires 0 <= i < |items| => Encode(items[i]))) + [93]
    case Object(fields) =>
      [123] + Join(FieldTexts(Sort(seq(|fields|, i requires 0 <= i < |fields| => (fields[i].0, Encode(fields[i].1)))))) + [125]
  }

  predicate NumberUnit(u: Unit) {
    48 <= u < 58 || u in [43, 45, 46, 101]
  }

  predicate NumberText(t: Text) {
    t != [] && (t[0] == 45 || 48 <= t[0] < 58) && forall i :: 0 <= i < |t| ==> NumberUnit(t[i])
  }

  /** A JSON value of the host language: numbers have number texts and the keys of an object differ. */
  ghost predicate WellFormed(j: Json)
    decreases j
  {
    match j
    case Number(text) => NumberText(text)
    case Array(items) => forall i :: 0 <= i < |items| ==> WellFormed(items[i])
    case Object(fields) => KeysDiffer(fields) && forall i :: 0 <= i < |fields| ==> WellFormed(fields[i].1)
    case _ => true
  }

  /** Equal up to the order of keys. */
  ghost predicate Same(a: Json, b: Json)
    decreases a
  {
    match a
    case Array(items) => b.Array? && |items| == |b.items| && forall i :: 0 <= i < |items| ==> Same(items[i], b.items[i])
    case Object(fields) =>
      && b.Object?
      && (forall i :: 0 <= i < |fields| ==> HasKey(b.fields, fields[i].0))
      && (forall i :: 0 <= i < |b.fields| ==> HasKey(fields, b.fields[i].0))
      && (forall i, k :: 0 <= i < |fields| && 0 <= k < |b.fields| && fields[i].0 == b.fields[k].0 ==> Same(fields[i].1, b.fields[k].1))
    case _ => a == b
  }

  predicate HasKey<T>(fields: seq<(Text, T)>, key: Text) {
    exists i :: 0 <= i < |fields| && fields[i].0 == key
  }

  // ---------- Normal form ----------

  /** The same value with the keys of every object in ascending order. */
  function Canon(j: Json): Json
    decreases j
  {
    match j
    case Array(items) => Array(seq(|items|, i requires 0 <= i < |items| => Canon(items[i])))
    case Object(fields) => Object(Sort(CanonFields(j)))
    case _ => j
  }

  function CanonFields(j: Json): seq<(Text, Json)>
    requires j.Object?
    decreases j, 0
  {
    seq(|j.fields|, i requires 0 <= i < |j.fields| => (j.fields[i].0, Canon(j.fields[i].1)))
  }

  /** Every field of `f` is a field of `g`. */
  ghost predicate Matching(f: seq<(Text, Json)>, g: seq<(Text, Json)>) {
    && (forall i :: 0 <= i < |f| ==> HasKey(g, f[i].0))
    && (forall i, k :: 0 <= i < |f| && 0 <= k < |g| && f[i].0 == g[k].0 ==> f[i].1 == g[k].1)
  }

  lemma SortedMatch(f: seq<(Text, Json)>, g: seq<(Text, Json)>)
    requires Matching(f, g)
    ensures forall i :: 0 <= i < |Sort(f)| ==> Sort(f)[i] in Sort(g)
  {
    forall i | 0 <= i < |Sort(f)| ensures Sort(f)[i] in Sort(g) {
      var y := Sort(f)[i];
      SortedElement(f, y);
      var a :| 0 <= a < |f| && f[a] == y;
      assert HasKey(g, f[a].0);
      var k :| 0 <= k < |g| && g[k].0 == f[a].0;
      assert g[k] == y;
      SortedElement(g, y);
    }
  }

  lemma EqualSortsMatch(f: seq<(Text, Json)>, g: seq<(Text, Json)>)
    requires Sort(f) == Sort(g) && KeysDiffer(g)
    ensures Matching(f, g)
  {
    forall i | 0 <= i < |f| ensures f[i] in g {
      SortedElement(f, f[i]);
      SortedElement(g, f[i]);
    }
    forall i, k | 0 <= i < |f| && 0 <= k < |g| && f[i].0 == g[k].0 ensures f[i].1 == g[k].1 {
      assert f[i] in g;
      var l :| 0 <= l < |g| && g[l] == f[i];
      assert l == k;
    }
  }

  /** Two values are equal up to the order of keys exactly when their normal forms are equal. */
  lemma {:induction false} SameIsCanonical(a: Json, b: Json)
    requires WellFormed(a) && WellFormed(b)
    ensures Same(a, b) <==> Canon(a) == Canon(b)
    decreases a
  {
    if a.Array? && b.Array? {
      forall i | 0 <= i < |a.items| && i < |b.items| ensures Same(a.items[i], b.items[i]) <==> Canon(a.items[i]) == Canon(b.items[i]) {
        SameIsCanonical(a.items[i], b.items[i]);
      }
      ArraysAreSame(a, b);
    } else if a.Object? && b.Object? {
      forall i, k | 0 <= i < |a.fields| && 0 <= k < |b.fields|
        ensures Same(a.fields[i].1, b.fields[k].1) <==> Canon(a.fields[i].1) == Canon(b.fields[k].1)
      {
        SameIsCanonical(a.fields[i].1, b.fields[k].1);
      }
      ObjectsAreSame(a, b);
    }
  }

  lemma ArraysAreSame(a: Json, b: Json)
    requires a.Array? && b.Array?
    requires forall i :: 0 <= i < |a.items| && i < |b.items| ==> (Same(a.items[i], b.items[i]) <==> Canon(a.items[i]) == Canon(b.items[i]))
    ensures Same(a, b) <==> Canon(a) == Canon(b)
  {
    var x, y := Canon(a).items, Canon(b).items;
    if x == y {
      forall i | 0 <= i < |a.items| ensures Same(a.items[i], b.items[i]) { assert x[i] == y[i]; }
    }
  }

  /** Values under the same key are the same exactly when their normal forms are equal. */
  ghost predicate ValuesAgree(a: Json, b: Json)
    requires a.Object? && b.Object?
  {
    forall i, k :: 0 <= i < |a.fields| && 0 <= k < |b.fields|
      ==> (Same(a.fields[i].1, b.fields[k].1) <==> Canon(a.fields[i].1) == Canon(b.fields[k].1))
  }

  lemma SameObjectsMatch(a: Json, b: Json)
    requires a.Object? && b.Object? && ValuesAgree(a, b)
    ensures Same(a, b) <==> Matching(CanonFields(a), CanonFields(b)) && Matching(CanonFields(b), CanonFields(a))
  {
    var f, g := CanonFields(a), CanonFields(b);
    KeysCarryOver(a.fields, f);
    KeysCarryOver(b.fields, g);
    if Matching(f, g) && Matching(g, f) {
      forall i | 0 <= i < |a.fields| ensures HasKey(b.fields, a.fields[i].0) { assert HasKey(g, f[i].0); }
      forall i | 0 <= i < |b.fields| ensures HasKey(a.fields, b.fields[i].0) { assert HasKey(f, g[i].0); }
      forall i, k | 0 <= i < |a.fields| && 0 <= k < |b.fields| && a.fields[i].0 == b.fields[k].0
        ensures Same(a.fields[i].1, b.fields[k].1) { assert f[i].1 == g[k].1; }
    }
  }

  lemma ObjectsAreSame(a: Json, b: Json)
    requires a.Object? && b.Object? && KeysDiffer(a.fields) && KeysDiffer(b.fields) && ValuesAgree(a, b)
    ensures Same(a, b) <==> Canon(a) == Canon(b)
  {
    hide Sort, KeysAscend, Same, Matching, ValuesAgree;
    var f, g := CanonFields(a), CanonFields(b);
    SameObjectsMatch(a, b);
    assert KeysDiffer(f) && KeysDiffer(g);
    SortAscends(f);
    SortAscends(g);
    if Matching(f, g) && Matching(g, f) {
      SortedMatch(f, g);
      SortedMatch(g, f);
      AscendingIsUnique(Sort(f), Sort(g));
    }
    if Sort(f) == Sort(g) {
      EqualSortsMatch(f, g);
      EqualSortsMatch(g, f);
    }
  }

  lemma KeysCarryOver(fields: seq<(Text, Json)>, f: seq<(Text, Json)>)
    requires |f| == |fields| && forall i :: 0 <= i < |f| ==> f[i].0 == fields[i].0
    ensures forall key :: HasKey(f, key) <==> HasKey(fields, key)
  {
    forall key ensures HasKey(f, key) <==> HasKey(fields, key) {
      if HasKey(f, key) {
        var i :| 0 <= i < |f| && f[i].0 == key;
        assert fields[i].0 == key;
      }
      if HasKey(fields, key) {
        var i :| 0 <= i < |fields| && fields[i].0 == key;
        assert f[i].0 == key;
      }
    }
  }

  // ---------- The text determines the normal form ----------

  /** Printing the fields of objects as they stand. */
  function Print(j: Json): Text
    decreases j
  {
    match j
    case Array(items) => [91] + Join(seq(|items|, i requires 0 <= i < |items| => Print(items[i]))) + [93]
    case Object(fields) =>
      [123] + Join(FieldTexts(seq(|fields|, i requires 0 <= i < |fields| => (fields[i].0, Print(fields[i].1))))) + [125]
    case _ => Encode(j)
  }

  function Map<T, U>(fields: seq<(Text, T)>, f: T -> U): seq<(Text, U)> {
    seq(|fields|, i requires 0 <= i < |fields| => (fields[i].0, f(fields[i].1)))
  }

  lemma {:induction false} InsertCommutes<T, U>(x: (Text, T), sorted: seq<(Text, T)>, f: T -> U)
    ensures Map(Insert(x, sorted), f) == Insert((x.0, f(x.1)), Map(sorted, f))
    decreases |sorted|
  {
    if sorted != [] {
      var m := Map(sorted, f);
      assert m[1..] == Map(sorted[1..], f);
      if Below(sorted[0].0, x.0) {
        InsertCommutes(x, sorted[1..], f);
        assert Map([sorted[0]] + Insert(x, sorted[1..]), f) == [m[0]] + Map(Insert(x, sorted[1..]), f);
      } else {
        assert Map([x] + sorted, f) == [(x.0, f(x.1))] + m;
      }
    } else {
      assert Map([x], f) == [(x.0, f(x.1))];
    }
  }

  lemma {:induction false} SortCommutes<T, U>(fields: seq<(Text, T)>, f: T -> U)
    ensures Map(Sort(fields), f) == Sort(Map(fields, f))
    decreases |fields|
  {
    if fields != [] {
      SortCommutes(fields[1..], f);
      InsertCommutes(fields[0], Sort(fields[1..]), f);
      assert Map(fields, f)[1..] == Map(fields[1..], f);
    }
  }

  function Encoded(j: Json): seq<(Text, Text)>
    requires j.Object?
  {
    seq(|j.fields|, i requires 0 <= i < |j.fields| => (j.fields[i].0, Encode(j.fields[i].1)))
  }

  function Printed(j: Json): seq<(Text, Text)>
    requires j.Object?
  {
    seq(|j.fields|, i requires 0 <= i < |j.fields| => (j.fields[i].0, Print(j.fields[i].1)))
  }

  function EncodedItems(j: Json): seq<Text>
    requires j.Array?
  {
    seq(|j.items|, i requires 0 <= i < |j.items| => Encode(j.items[i]))
  }

  function PrintedItems(j: Json): seq<Text>
    requires j.Array?
  {
    seq(|j.items|, i requires 0 <= i < |j.items| => Print(j.items[i]))
  }

  lemma Unfold(j: Json)
    ensures j.Array? ==> Encode(j) == [91] + Join(EncodedItems(j)) + [93] && Print(j) == [91] + Join(PrintedItems(j)) + [93]
    ensures j.Object? ==> Encode(j) == [123] + Join(FieldTexts(Sort(Encoded(j)))) + [125] && Print(j) == [123] + Join(FieldTexts(Printed(j))) + [125]
  {
    if j.Array? {
      assert EncodedItems(j) == seq(|j.items|, i requires 0 <= i < |j.items| => Encode(j.items[i]));
      assert PrintedItems(j) == seq(|j.items|, i requires 0 <= i < |j.items| => Print(j.items[i]));
    } else if j.Object? {
      assert Encoded(j) == seq(|j.fields|, i requires 0 <= i < |j.fields| => (j.fields[i].0, Encode(j.fields[i].1)));
      assert Printed(j) == seq(|j.fields|, i requires 0 <= i < |j.fields| => (j.fields[i].0, Print(j.fields[i].1)));
    }
  }

  /** The canonical text is the print of the normal form. */
  lemma {:induction false} EncodeIsPrint(j: Json)
    ensures Encode(j) == Print(Canon(j))
    decreases j
  {
    Unfold(j);
    Unfold(Canon(j));
    match j
    case Array(items) =>
      forall i | 0 <= i < |items| ensures EncodedItems(j)[i] == PrintedItems(Canon(j))[i] { EncodeIsPrint(items[i]); }
      assert EncodedItems(j) == PrintedItems(Canon(j));
    case Object(fields) =>
      forall i | 0 <= i < |fields| ensures Encoded(j)[i] == Map(CanonFields(j), Print)[i] { EncodeIsPrint(fields[i].1); }
      assert Encoded(j) == Map(CanonFields(j), Print);
      SortCommutes(CanonFields(j), Print);
      assert Printed(Canon(j)) == Map(Sort(CanonFields(j)), Print);
    case _ =>
  }

  /** What may follow a value inside a text. */
  predicate Delimited(x: Text) {
    x == [] || x[0] in [COMMA, 93, 125]
  }

  function Kind(j: Json): nat {
    match j
    case Null => 0
    case Bool(b) => if b then 1 else 2
    case Number(_) => 3
    case String(_) => 4
    case Array(_) => 5
    case Object(_) => 6
  }

  function KindOf(u: Unit): nat {
    if u == 110 then 0 else if u == 116 then 1 else if u == 102 then 2 else if u == QUOTE then 4 else if u == 91 then 5
    else if u == 123 then 6 else if NumberUnit(u) then 3 else 7
  }

  lemma FirstUnit(j: Json)
    requires WellFormed(j)
    ensures Print(j) != [] && KindOf(Print(j)[0]) == Kind(j)
  {
  }

  function NumberLength(t: Text): nat {
    if t == [] || !NumberUnit(t[0]) then 0 else 1 + NumberLength(t[1..])
  }

  lemma {:induction false} NumberEnds(s: Text, x: Text)
    requires Delimited(x) && forall i :: 0 <= i < |s| ==> NumberUnit(s[i])
    ensures NumberLength(s + x) == |s|
    decreases |s|
  {
    if s == [] {
      assert s + x == x;
    } else {
      assert (s + x)[1..] == s[1..] + x;
      NumberEnds(s[1..], x);
    }
  }

  lemma NumberIsPrefixFree(s: Text, t: Text, x: Text, y: Text)
    requires NumberText(s) && NumberText(t) && Delimited(x) && Delimited(y) && s + x == t + y
    ensures s == t && x == y
  {
    NumberEnds(s, x);
    NumberEnds(t, y);
    Cancel(s, t, x, y);
  }

  lemma Cancel(s: Text, t: Text, x: Text, y: Text)
    requires |s| == |t| && s + x == t + y
    ensures s == t && x == y
  {
    assert s == (s + x)[..|s|] && t == (t + y)[..|t|];
    assert x == (s + x)[|s|..] && y == (t + y)[|t|..];
  }

  /** What follows the i-th part in a joined text that ends with `close` and `x`. */
  function Tail(parts: seq<Text>, i: nat, close: Unit, x: Text): Text
    requires i < |parts|
  {
    if i + 1 < |parts| then [COMMA] + Join(parts[i + 1..]) + [close] + x else [close] + x
  }

  lemma JoinedText(parts: seq<Text>, i: nat, close: Unit, x: Text)
    requires i < |parts|
    ensures Join(parts[i..]) + [close] + x == parts[i] + Tail(parts, i, close, x)
  {
    var rest := parts[i..];
    assert rest[0] == parts[i] && rest[1..] == parts[i + 1..];
    if i + 1 < |parts| {
      assert Join(rest) == parts[i] + [COMMA] + Join(parts[i + 1..]);
      assert parts[i] + [COMMA] + Join(parts[i + 1..]) + [close] + x == parts[i] + ([COMMA] + Join(parts[i + 1..]) + [close] + x);
    }
  }

  /** After equal parts both texts go on, or both end. */
  lemma SameTail(p: seq<Text>, q: seq<Text>, i: nat, close: Unit, x: Text, y: Text)
    requires i < |p| && i < |q| && close != COMMA && Tail(p, i, close, x) == Tail(q, i, close, y)
    ensures i + 1 < |p| <==> i + 1 < |q|
    ensures Join(p[i + 1..]) + [close] + x == Join(q[i + 1..]) + [close] + y
  {
    assert Tail(p, i, close, x)[0] == Tail(q, i, close, y)[0];
    if i + 1 < |p| {
      assert Tail(p, i, close, x)[1..] == Join(p[i + 1..]) + [close] + x;
      assert Tail(q, i, close, y)[1..] == Join(q[i + 1..]) + [close] + y;
    } else {
      assert Join(p[i + 1..]) + [close] + x == [close] + x && Join(q[i + 1..]) + [close] + y == [close] + y;
    }
  }

  /** The first unit of what is left of a joined text. */
  lemma TextStarts(parts: seq<Text>, i: nat, close: Unit, x: Text)
    requires i <= |parts| && (i < |parts| ==> parts[i] != [])
    ensures var t := Join(parts[i..]) + [close] + x;
            t != [] && t[0] == (if i < |parts| then parts[i][0] else close) && (i == |parts| ==> t == [close] + x)
  {
    hide Tail;
    if i < |parts| {
      JoinedText(parts, i, close, x);
    } else {
      assert parts[i..] == [];
    }
  }

  lemma {:induction false} ItemsArePrefixFree(a: Json, b: Json, i: nat, x: Text, y: Text)
    requires a.Array? && b.Array? && WellFormed(a) && WellFormed(b) && i <= |a.items| && i <= |b.items|
    requires Join(PrintedItems(a)[i..]) + [93] + x == Join(PrintedItems(b)[i..]) + [93] + y
    ensures a.items[i..] == b.items[i..] && x == y
    decreases a, 0, |a.items| - i
  {
    hide Join, Print, Tail;
    var p, q := PrintedItems(a), PrintedItems(b);
    if i < |p| { FirstUnit(a.items[i]); }
    if i < |q| { FirstUnit(b.items[i]); }
    TextStarts(p, i, 93, x);
    TextStarts(q, i, 93, y);
    assert i < |p| <==> i < |q|;
    if i < |p| {
      JoinedText(p, i, 93, x);
      JoinedText(q, i, 93, y);
      TailIsDelimited(p, i, 93, x);
      TailIsDelimited(q, i, 93, y);
      PrintIsPrefixFree(a.items[i], b.items[i], Tail(p, i, 93, x), Tail(q, i, 93, y));
      SameTail(p, q, i, 93, x, y);
      ItemsArePrefixFree(a, b, i + 1, x, y);
      assert a.items[i..] == [a.items[i]] + a.items[i + 1..] && b.items[i..] == [b.items[i]] + b.items[i + 1..];
    } else {
      Cancel([93], [93], x, y);
    }
  }

  lemma TailIsDelimited(parts: seq<Text>, i: nat, close: Unit, x: Text)
    requires i < |parts| && close in [93, 125]
    ensures Delimited(Tail(parts, i, close, x))
  {
  }

  lemma {:induction false} FieldsArePrefixFree(a: Json, b: Json, i: nat, x: Text, y: Text)
    requires a.Object? && b.Object? && WellFormed(a) && WellFormed(b) && i <= |a.fields| && i <= |b.fields|
    requires Join(FieldTexts(Printed(a))[i..]) + [125] + x == Join(FieldTexts(Printed(b))[i..]) + [125] + y
    ensures a.fields[i..] == b.fields[i..] && x == y
    decreases a, 0, |a.fields| - i
  {
    hide Join, Print, Tail, Quote;
    var p, q := FieldTexts(Printed(a)), FieldTexts(Printed(b));
    if i < |p| { FieldStarts(Printed(a)[i], Tail(p, i, 125, x)); }
    if i < |q| { FieldStarts(Printed(b)[i], Tail(q, i, 125, y)); }
    TextStarts(p, i, 125, x);
    TextStarts(q, i, 125, y);
    assert i < |p| <==> i < |q|;
    if i < |p| {
      var v, w := a.fields[i], b.fields[i];
      var s, t := Tail(p, i, 125, x), Tail(q, i, 125, y);
      JoinedText(p, i, 125, x);
      JoinedText(q, i, 125, y);
      TailIsDelimited(p, i, 125, x);
      TailIsDelimited(q, i, 125, y);
      QuoteIsPrefixFree(v.0, w.0, [COLON] + (Print(v.1) + s), [COLON] + (Print(w.1) + t));
      Cancel([COLON], [COLON], Print(v.1) + s, Print(w.1) + t);
      PrintIsPrefixFree(v.1, w.1, s, t);
      SameTail(p, q, i, 125, x, y);
      FieldsArePrefixFree(a, b, i + 1, x, y);
      assert a.fields[i..] == [v] + a.fields[i + 1..] && b.fields[i..] == [w] + b.fields[i + 1..];
    } else {
      Cancel([125], [125], x, y);
    }
  }

  lemma FieldStarts(f: (Text, Text), x: Text)
    ensures FieldText(f) + x == Quote(f.0) + ([COLON] + (f.1 + x)) && FieldText(f) != [] && FieldText(f)[0] == QUOTE
  {
    hide QuoteBody;
  }

  lemma Opened(open: Unit, close: Unit, p: Text, q: Text, x: Text, y: Text)
    requires [open] + p + [close] + x == [open] + q + [close] + y
    ensures p + [close] + x == q + [close] + y
  {
    assert [open] + p + [close] + x == [open] + (p + [close] + x) && [open] + q + [close] + y == [open] + (q + [close] + y);
    Cancel([open], [open], p + [close] + x, q + [close] + y);
  }

  lemma SameKind(a: Json, b: Json, x: Text, y: Text)
    requires WellFormed(a) && WellFormed(b) && Print(a) + x == Print(b) + y
    ensures Kind(a) == Kind(b)
  {
    hide Print;
    FirstUnit(a);
    FirstUnit(b);
    assert Print(a)[0] == (Print(a) + x)[0] && Print(b)[0] == (Print(b) + y)[0];
  }

  /** Printed values followed by a delimiter, or by nothing, are told apart by their text. */
  lemma {:induction false} PrintIsPrefixFree(a: Json, b: Json, x: Text, y: Text)
    requires WellFormed(a) && WellFormed(b) && Delimited(x) && Delimited(y) && Print(a) + x == Print(b) + y
    ensures a == b && x == y
    decreases a, 1
  {
    hide Join, Quote, FieldTexts;
    SameKind(a, b, x, y);
    match a
    case Array(_) =>
      Unfold(a);
      Unfold(b);
      hide Print;
      Opened(91, 93, Join(PrintedItems(a)), Join(PrintedItems(b)), x, y);
      assert PrintedItems(a)[0..] == PrintedItems(a) && PrintedItems(b)[0..] == PrintedItems(b);
      ItemsArePrefixFree(a, b, 0, x, y);
      assert a.items == a.items[0..] && b.items == b.items[0..];
    case Object(_) =>
      Unfold(a);
      Unfold(b);
      hide Print;
      Opened(123, 125, Join(FieldTexts(Printed(a))), Join(FieldTexts(Printed(b))), x, y);
      assert FieldTexts(Printed(a))[0..] == FieldTexts(Printed(a)) && FieldTexts(Printed(b))[0..] == FieldTexts(Printed(b));
      FieldsArePrefixFree(a, b, 0, x, y);
      assert a.fields == a.fields[0..] && b.fields == b.fields[0..];
    case Number(s) => NumberIsPrefixFree(s, b.text, x, y);
    case String(s) => QuoteIsPrefixFree(s, b.units, x, y);
    case _ => Cancel(Print(a), Print(b), x, y);
  }

  // ---------- The main results ----------

  lemma {:induction false} CanonIsWellFormed(j: Json)
    requires WellFormed(j)
    ensures WellFormed(Canon(j))
    decreases j
  {
    match j
    case Array(items) => forall i | 0 <= i < |items| ensures WellFormed(Canon(items[i])) { CanonIsWellFormed(items[i]); }
    case Object(fields) =>
      forall i | 0 <= i < |fields| ensures WellFormed(CanonFields(j)[i].1) { CanonIsWellFormed(fields[i].1); }
      var sorted := Sort(CanonFields(j));
      SortAscends(CanonFields(j));
      forall i | 0 <= i < |sorted| ensures WellFormed(sorted[i].1) { SortedElement(CanonFields(j), sorted[i]); }
      forall i, k | 0 <= i < k < |sorted| ensures sorted[i].0 != sorted[k].0 { BelowIsTotal(sorted[i].0, sorted[k].0); }
    case _ =>
  }

  /** Two values have the same canonical text exactly when they are equal up to the order of keys. */
  lemma CanonicalTextIsExact(a: Json, b: Json)
    requires WellFormed(a) && WellFormed(b)
    ensures Encode(a) == Encode(b) <==> Same(a, b)
  {
    hide Encode, Print, Canon, Same;
    EncodeIsPrint(a);
    EncodeIsPrint(b);
    SameIsCanonical(a, b);
    CanonIsWellFormed(a);
    CanonIsWellFormed(b);
    if Encode(a) == Encode(b) {
      assert Print(Canon(a)) + [] == Print(Canon(b)) + [];
      PrintIsPrefixFree(Canon(a), Canon(b), [], []);
    }
  }
}
