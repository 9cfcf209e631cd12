/** What the readers read: lines come back however they were ended, and a reply's header is its name, its kind and its size. */
module ReaderFormats {
  import opened Wrappers
  import opened Readers

  // ---------- Lines ----------

  predicate OneLine(line: Bytes) {
    NEWLINE !in line
  }

  /** A line as it is written: ended by a newline, with a carriage return before it or not. */
  datatype Written = Written(line: Bytes, crlf: bool)

  /** A carriage return at the end of a line is its own only when another one ends it. */
  predicate Writable(w: Written) {
    OneLine(w.line) && (!w.crlf ==> w.line == [] || w.line[|w.line| - 1] != RETURN)
  }

  function TextOf(written: seq<Written>): Bytes {
    if written == [] then []
    else written[0].line + (if written[0].crlf then [RETURN, NEWLINE] else [NEWLINE]) + TextOf(written[1..])
  }

  function LinesOf(written: seq<Written>): seq<Bytes> {
    seq(|written|, i requires 0 <= i < |written| => written[i].line)
  }

  /** What is left of a written line when its newline is cut off. */
  function BeforeNewline(w: Written): Bytes {
    if w.crlf then w.line + [RETURN] else w.line
  }

  lemma ReturnIsDropped(w: Written)
    requires Writable(w)
    ensures WithoutReturn(BeforeNewline(w)) == w.line && OneLine(BeforeNewline(w))
  {
    assert w.crlf ==> BeforeNewline(w)[..|w.line|] == w.line;
  }

  lemma FirstCut(before: Bytes, rest: Bytes)
    requires OneLine(before)
    ensures Split(before + [NEWLINE] + rest) == [WithoutReturn(before)] + Split(rest)
  {
    var t, n := before + [NEWLINE] + rest, |before|;
    hide WithoutReturn;
    NewlineAfterHeader(t, n, 0);
    assert t[..n] == before && t[n + 1..] == rest;
  }

  lemma FirstWritten(w: Written, rest: seq<Written>, last: Bytes)
    ensures TextOf([w] + rest) + last == BeforeNewline(w) + [NEWLINE] + (TextOf(rest) + last)
    ensures LinesOf([w] + rest) == [w.line] + LinesOf(rest)
  {
    assert ([w] + rest)[1..] == rest;
  }

  lemma OnlyLast(last: Bytes)
    requires OneLine(last)
    ensures Split(last) == [last]
  {
    NewlineAfterHeader(last, |last|, 0);
  }

  /** Lines come back as they were written, whatever ended each of them, and so does an unfinished last line. */
  lemma {:induction false} LinesComeBack(written: seq<Written>, last: Bytes)
    requires (forall i :: 0 <= i < |written| ==> Writable(written[i])) && OneLine(last)
    ensures Split(TextOf(written) + last) == LinesOf(written) + [last]
    decreases |written|
  {
    if written == [] {
      OnlyLast(last);
      assert [] + last == last;
    } else {
      var w, rest := written[0], written[1..];
      hide Split, WithoutReturn, OneLine, TextOf, LinesOf, BeforeNewline;
      assert written == [w] + rest;
      FirstWritten(w, rest, last);
      ReturnIsDropped(w);
      FirstCut(BeforeNewline(w), TextOf(rest) + last);
      LinesComeBack(rest, last);
    }
  }

  // ---------- Headers ----------

  const ZERO: nat := 48

  predicate IsDigit(u: nat) {
    ZERO <= u < ZERO + 10
  }

  /** Lower case hexadecimal. */
  predicate IsHex(u: nat) {
    IsDigit(u) || 97 <= u < 103
  }

  /** The decimal digits of a number. */
  function Digits(n: nat): Bytes {
    (if n < 10 then [] else Digits(n / 10)) + [ZERO + n % 10]
  }

  lemma OneMoreDigit(front: Bytes, q: nat, r: nat)
    requires r < 10 && Decimal(front) == Some(q)
    ensures Decimal(front + [ZERO + r]) == Some(q * 10 + r)
  {
    var t := front + [ZERO + r];
    DecimalEnd(t);
    hide Decimal;
    assert t[..|t| - 1] == front && t[|t| - 1] == ZERO + r;
  }

  lemma DecimalEnd(t: Bytes)
    requires t != [] && IsDigit(t[|t| - 1]) && Decimal(t[..|t| - 1]).Some?
    ensures Decimal(t) == Some(Decimal(t[..|t| - 1]).value * 10 + t[|t| - 1] - ZERO)
  {
  }

  predicate AllDigits(t: Bytes) {
    forall i :: 0 <= i < |t| ==> IsDigit(t[i])
  }

  lemma DigitsEnd(n: nat)
    ensures n == n / 10 * 10 + n % 10 && n % 10 < 10 && (n < 10 ==> n / 10 == 0) && (10 <= n ==> n / 10 < n)
    ensures Digits(n) == (if n < 10 then [] else Digits(n / 10)) + [ZERO + n % 10]
  {
  }

  lemma OneMoreIsDigits(front: Bytes, r: nat)
    requires AllDigits(front) && r < 10
    ensures AllDigits(front + [ZERO + r])
  {
  }

  lemma {:induction false} DigitsComeBack(n: nat)
    ensures Decimal(Digits(n)) == Some(n) && Digits(n) != [] && AllDigits(Digits(n))
    decreases n
  {
    var q, r := n / 10, n % 10;
    DigitsEnd(n);
    assert Decimal([]) == Some(0);
    hide Digits, Decimal, AllDigits;
    var front := if n < 10 then [] else Digits(q);
    if n < 10 {
      assert AllDigits([]) by { NoDigits(); }
    } else {
      DigitsComeBack(q);
    }
    OneMoreDigit(front, q, r);
    OneMoreIsDigits(front, r);
  }

  lemma NoDigits()
    ensures AllDigits([])
  {
  }

  lemma {:induction false} OnlyDigits(t: Bytes)
    ensures Decimal(t).Some? <==> AllDigits(t)
    decreases |t|
  {
    if t != [] {
      var front := t[..|t| - 1];
      OnlyDigits(front);
      assert forall i :: 0 <= i < |front| ==> front[i] == t[i];
    }
  }

  /** The name of the object, the word blob, and the digits of the size. */
  ghost predicate Names(header: Bytes, hex: Bytes, digits: Bytes) {
    && Ascii(header) == hex + [32, 98, 108, 111, 98, 32] + digits
    && 40 <= |hex| <= 64 && (forall i :: 0 <= i < |hex| ==> IsHex(hex[i]))
    && digits != [] && AllDigits(digits)
  }

  lemma {:induction false} HexEnds(t: Bytes, n: nat)
    requires n <= |t| && (forall i :: 0 <= i < n ==> IsHex(t[i])) && (n < |t| ==> !IsHex(t[n]))
    ensures HexLength(t) == n
    decreases |t|
  {
    if t != [] && 0 < n { HexEnds(t[1..], n - 1); }
  }

  lemma {:induction false} HexBegins(t: Bytes)
    ensures forall i :: 0 <= i < HexLength(t) ==> IsHex(t[i])
    decreases |t|
  {
    if t != [] && HexDigit(t[0]) {
      HexBegins(t[1..]);
      forall i | 0 <= i < HexLength(t) ensures IsHex(t[i]) { assert 0 < i ==> t[i] == t[1..][i - 1]; }
    }
  }

  /** A header says a size exactly when it is made of those three parts, and the size is what its digits say. */
  lemma HeaderIsExact(header: Bytes, size: nat)
    ensures HeaderSize(header) == Some(size) <==> exists hex, digits :: Names(header, hex, digits) && Decimal(digits) == Some(size)
  {
    var t, n := Ascii(header), HexLength(Ascii(header));
    if HeaderSize(header) == Some(size) {
      var hex, digits := t[..n], t[n + 6..];
      HexBegins(t);
      OnlyDigits(digits);
      assert t == hex + t[n..n + 6] + digits;
      assert Names(header, hex, digits);
    }
    if hex, digits :| Names(header, hex, digits) && Decimal(digits) == Some(size) {
      assert t[..|hex|] == hex && t[|hex|] == 32 && t[|hex|..|hex| + 6] == BLOB && t[|hex| + 6..] == digits;
      forall i | 0 <= i < |hex| ensures IsHex(t[i]) { assert t[i] == hex[i]; }
      HexEnds(t, |hex|);
    }
  }

  /** A header that is written comes back. */
  lemma WrittenHeaderComesBack(hex: Bytes, size: nat)
    requires 40 <= |hex| <= 64 && forall i :: 0 <= i < |hex| ==> IsHex(hex[i])
    ensures HeaderSize(hex + BLOB + Digits(size)) == Some(size)
  {
    var header, digits := hex + BLOB + Digits(size), Digits(size);
    DigitsComeBack(size);
    hide Digits, Decimal, Ascii, HeaderSize, HexLength;
    ThreeParts(hex, BLOB, digits);
    assert forall i :: 0 <= i < |BLOB| ==> BLOB[i] < 128;
    SevenBits(header);
    assert Names(header, hex, digits);
    HeaderIsExact(header, size);
  }
}
