/**
  Has every character been read?  Three programs ask it of the pages that were shown: the greedy walk
  of conversation-router.js, the prefix length of coordination-context.js and the sorted, merged
  ranges of its manifest.  Each answers by the same set of covered positions.
*/
module Coverage {
  import opened Wrappers

  type Text = seq<nat>

  datatype Range = Range(start: int, end: int)

  predicate Covers(ranges: seq<Range>, p: int) {
    exists i :: 0 <= i < |ranges| && ranges[i].start <= p < ranges[i].end
  }

  ghost predicate AllCovered(ranges: seq<Range>, from: int, to: int) {
    forall p :: from <= p < to ==> Covers(ranges, p)
  }

  /** The covered beginning ends at `length`. */
  ghost predicate CoveredPrefix(ranges: seq<Range>, length: int) {
    0 <= length && AllCovered(ranges, 0, length) && !Covers(ranges, length)
  }

  /** `slice` of the host language: negative indices count from the end, and both are clamped. */
  function Slice(text: Text, start: int, end: int): Text {
    var a, b := Clamp(start, |text|), Clamp(end, |text|);
    if a <= b then text[a..b] else []
  }

  function Clamp(i: int, n: nat): (c: nat)
    ensures c <= n
  {
    if i < 0 then (if n + i < 0 then 0 else n + i) else if i <= n then i else n
  }

  // ---------- Pages ----------

  /** A page as it was shown. */
  datatype Page = Page(sourceId: string, offset: int, nextOffset: int, totalLength: int, text: Text)

  predicate RouterPage(page: Page, sourceId: string, text: Text) {
    page.sourceId == sourceId && 0 <= page.offset && page.nextOffset <= |text| && page.totalLength == |text|
    && Slice(text, page.offset, page.nextOffset) == page.text
  }

  predicate SectionPage(page: Page, text: Text) {
    page.offset < page.nextOffset && Slice(text, page.offset, page.nextOffset) == page.text
  }

  function RouterRanges(pages: seq<Page>, sourceId: string, text: Text): seq<Range> {
    if pages == [] then []
    else (if RouterPage(pages[0], sourceId, text) then [Range(pages[0].offset, pages[0].nextOffset)] else [])
         + RouterRanges(pages[1..], sourceId, text)
  }

  function SectionRanges(pages: seq<Page>, text: Text): seq<Range> {
    if pages == [] then []
    else (if SectionPage(pages[0], text) then [Range(pages[0].offset, pages[0].nextOffset)] else []) + SectionRanges(pages[1..], text)
  }

  // ---------- The greedy walk ----------

  /** The furthest end among the ranges that begin at or before `offset`, or `offset` itself. */
  method Furthest(ranges: seq<Range>, offset: int) returns (next: int)
    ensures offset <= next
    ensures next == offset <==> !Covers(ranges, offset)
    ensures forall p :: offset <= p < next ==> Covers(ranges, p)
    ensures offset < next ==> exists i :: 0 <= i < |ranges| && ranges[i].end == next
  {
    next := offset;
    var i := 0;
    ghost var best := -1;
    while i < |ranges|
      invariant 0 <= i <= |ranges| && offset <= next
      invariant if next == offset then !Covers(ranges[..i], offset)
                else 0 <= best < i && ranges[best].start <= offset && ranges[best].end == next
    {
      if ranges[i].start <= offset && next < ranges[i].end {
        next := ranges[i].end;
        best := i;
      }
      i := i + 1;
    }
    assert ranges[..i] == ranges;
    if offset < next {
      assert ranges[best].start <= offset < ranges[best].end;
      forall p | offset <= p < next ensures Covers(ranges, p) { assert ranges[best].start <= p < ranges[best].end; }
    }
  }

  /** The page shows the position with what the text has there, and nothing that the text does not have. */
  predicate Shows(page: Page, text: Text, p: int) {
    && 0 <= page.offset <= p < page.nextOffset <= |text| && |page.text| == page.nextOffset - page.offset
    && forall q :: page.offset <= q < page.nextOffset ==> page.text[q - page.offset] == text[q]
  }

  /** A page of the source that knows its whole length shows the position. */
  predicate SeenAt(pages: seq<Page>, sourceId: string, text: Text, p: int) {
    exists i :: 0 <= i < |pages| && pages[i].sourceId == sourceId && pages[i].totalLength == |text| && Shows(pages[i], text, p)
  }

  lemma SliceShows(page: Page, text: Text, p: int)
    requires page.offset <= p < page.nextOffset <= |text| && 0 <= page.offset
    ensures Slice(text, page.offset, page.nextOffset) == page.text <==> Shows(page, text, p)
  {
    var shown := text[page.offset..page.nextOffset];
    assert Slice(text, page.offset, page.nextOffset) == shown;
    if Shows(page, text, p) {
      forall k | 0 <= k < |shown| ensures shown[k] == page.text[k] { assert page.text[page.offset + k - page.offset] == text[page.offset + k]; }
    }
  }

  /** The positions that the router counts are those that a page has shown. */
  lemma {:induction false} RouterCounts(pages: seq<Page>, sourceId: string, text: Text, p: int)
    ensures Covers(RouterRanges(pages, sourceId, text), p) <==> SeenAt(pages, sourceId, text, p)
    decreases |pages|
  {
    if pages != [] {
      var page, rest := pages[0], RouterRanges(pages[1..], sourceId, text);
      RouterCounts(pages[1..], sourceId, text, p);
      OneRange(Range(page.offset, page.nextOffset), rest, p);
      if 0 <= page.offset <= p < page.nextOffset <= |text| { SliceShows(page, text, p); }
      hide Covers, Shows, Slice;
      FirstSeen(pages, sourceId, text, p);
      ShownIsInside(page, text, p);
    }
  }

  lemma ShownIsInside(page: Page, text: Text, p: int)
    ensures Shows(page, text, p) ==> 0 <= page.offset <= p < page.nextOffset <= |text|
  {
  }

  lemma FirstSeen(pages: seq<Page>, sourceId: string, text: Text, p: int)
    requires pages != []
    ensures SeenAt(pages, sourceId, text, p) <==>
              (pages[0].sourceId == sourceId && pages[0].totalLength == |text| && Shows(pages[0], text, p)) || SeenAt(pages[1..], sourceId, text, p)
  {
    hide Shows;
    var rest := pages[1..];
    if i :| 0 <= i < |rest| && rest[i].sourceId == sourceId && rest[i].totalLength == |text| && Shows(rest[i], text, p) {
      assert pages[i + 1] == rest[i];
    }
    if i :| 0 <= i < |pages| && pages[i].sourceId == sourceId && pages[i].totalLength == |text| && Shows(pages[i], text, p) {
      assert 0 < i ==> rest[i - 1] == pages[i];
    }
  }

  /** All of a source has been seen: what the first message shows of it, and every later position on some page. */
  method AssertVisible(pages: seq<Page>, sourceId: string, text: Text, initiallyVisible: bool) returns (ok: bool)
    ensures ok <==> forall p :: 0 <= p < |text| ==> (initiallyVisible && p < 1000) || SeenAt(pages, sourceId, text, p)
    ensures ok <==> AllCovered(RouterRanges(pages, sourceId, text), Shown(text, initiallyVisible), |text|)
  {
    ok := Walk(RouterRanges(pages, sourceId, text), Shown(text, initiallyVisible), |text|);
    hide Covers, SeenAt;
    forall p ensures Covers(RouterRanges(pages, sourceId, text), p) <==> SeenAt(pages, sourceId, text, p) {
      RouterCounts(pages, sourceId, text, p);
    }
  }

  /** How much of a source the first message shows. */
  function Shown(text: Text, initiallyVisible: bool): nat {
    if !initiallyVisible then 0 else if |text| < 1000 then |text| else 1000
  }

  method Walk(ranges: seq<Range>, first: nat, length: nat) returns (ok: bool)
    ensures ok <==> AllCovered(ranges, first, length)
  {
    var offset: int := first;
    while offset < length
      invariant first <= offset && AllCovered(ranges, first, offset)
      decreases length - offset
    {
      var next := Furthest(ranges, offset);
      if next == offset { return false; }
      offset := next;
    }
    return true;
  }

  function LastEnd(ranges: seq<Range>): (m: int)
    ensures forall i :: 0 <= i < |ranges| ==> ranges[i].end <= m
  {
    if ranges == [] then 0
    else
      var rest := LastEnd(ranges[1..]);
      if rest < ranges[0].end then ranges[0].end else rest
  }

  /** The length of the covered beginning: everything before it is covered, and it is not. */
  method VisibleLength(ranges: seq<Range>) returns (length: int)
    ensures CoveredPrefix(ranges, length)
  {
    length := 0;
    while true
      invariant 0 <= length && forall p :: 0 <= p < length ==> Covers(ranges, p)
      decreases LastEnd(ranges) - length
    {
      var next := Furthest(ranges, length);
      if next == length { return; }
      length := next;
    }
  }

  // ---------- The manifest ----------

  datatype Part = Part(offset: nat, text: Text)

  predicate PartOf(part: Part, text: Text) {
    part.offset <= |text| && Slice(text, part.offset, part.offset + |part.text|) == part.text
  }

  function PartRanges(parts: seq<Part>): seq<Range> {
    if parts == [] then []
    else (if parts[0].text != [] then [Range(parts[0].offset, parts[0].offset + |parts[0].text|)] else []) + PartRanges(parts[1..])
  }

  function InsertRange(r: Range, sorted: seq<Range>): (s: seq<Range>)
    ensures multiset(s) == multiset(sorted) + multiset{r}
  {
    if sorted == [] then [r]
    else
      assert sorted == [sorted[0]] + sorted[1..];
      if r.start <= sorted[0].start then [r] + sorted else [sorted[0]] + InsertRange(r, sorted[1..])
  }

  function SortRanges(ranges: seq<Range>): (s: seq<Range>)
    ensures multiset(s) == multiset(ranges)
  {
    if ranges == [] then []
    else
      assert ranges == [ranges[0]] + ranges[1..];
      InsertRange(ranges[0], SortRanges(ranges[1..]))
  }

  predicate StartsAscend(ranges: seq<Range>) {
    forall i, j :: 0 <= i < j < |ranges| ==> ranges[i].start <= ranges[j].start
  }

  lemma {:induction false} InsertKeepsOrder(r: Range, sorted: seq<Range>)
    requires StartsAscend(sorted)
    ensures StartsAscend(InsertRange(r, sorted))
    decreases |sorted|
  {
    if sorted != [] && sorted[0].start < r.start {
      InsertKeepsOrder(r, sorted[1..]);
      var rest := InsertRange(r, sorted[1..]);
      forall x | x in rest ensures sorted[0].start <= x.start {
        assert x in multiset(rest);
        assert x == r || x in sorted[1..];
      }
    }
  }

  lemma {:induction false} SortOrders(ranges: seq<Range>)
    ensures StartsAscend(SortRanges(ranges))
    decreases |ranges|
  {
    if ranges != [] {
      SortOrders(ranges[1..]);
      InsertKeepsOrder(ranges[0], SortRanges(ranges[1..]));
    }
  }

  lemma SortCovers(ranges: seq<Range>, p: int)
    ensures Covers(SortRanges(ranges), p) <==> Covers(ranges, p)
  {
    if Covers(ranges, p) { SameCover(ranges, SortRanges(ranges), p); }
    if Covers(SortRanges(ranges), p) { SameCover(SortRanges(ranges), ranges, p); }
  }

  lemma SameCover(a: seq<Range>, b: seq<Range>, p: int)
    requires multiset(a) == multiset(b) && Covers(a, p)
    ensures Covers(b, p)
  {
    var i :| 0 <= i < |a| && a[i].start <= p < a[i].end;
    assert a[i] in multiset(b);
    var j :| 0 <= j < |b| && b[j] == a[i];
  }

  /** Merged ranges: not empty, ascending, with a gap between neighbours. */
  predicate Separated(ranges: seq<Range>) {
    && (forall i :: 0 <= i < |ranges| ==> ranges[i].start < ranges[i].end)
    && forall i, j :: 0 <= i < j < |ranges| ==> ranges[i].end < ranges[j].start
  }

  predicate Within(ranges: seq<Range>, length: nat) {
    forall i :: 0 <= i < |ranges| ==> 0 <= ranges[i].start < ranges[i].end <= length
  }

  /** The merged ranges after one more range, which begins no earlier than the last of them. */
  function MergeOne(merged: seq<Range>, range: Range): seq<Range> {
    var n := |merged| - 1;
    if merged != [] && range.start <= merged[n].end
    then merged[n := Range(merged[n].start, if merged[n].end < range.end then range.end else merged[n].end)]
    else merged + [range]
  }

  lemma MergeOneCovers(merged: seq<Range>, range: Range, p: int)
    requires merged != [] ==> merged[|merged| - 1].start <= range.start
    ensures Covers(MergeOne(merged, range), p) <==> Covers(merged, p) || range.start <= p < range.end
  {
    var n, merged' := |merged| - 1, MergeOne(merged, range);
    if Covers(merged, p) {
      var i :| 0 <= i < |merged| && merged[i].start <= p < merged[i].end;
      assert merged'[i].start <= p < merged'[i].end;
    }
    if range.start <= p < range.end {
      assert merged'[|merged'| - 1].start <= p < merged'[|merged'| - 1].end;
    }
    if Covers(merged', p) {
      var i :| 0 <= i < |merged'| && merged'[i].start <= p < merged'[i].end;
      if i < |merged| && merged'[i] == merged[i] {
        assert merged[i].start <= p < merged[i].end;
      } else if merged != [] && range.start <= merged[n].end && p < merged[n].end {
        assert merged[n].start <= p < merged[n].end;
      }
    }
  }

  lemma OneMoreRange(ranges: seq<Range>, i: nat, p: int)
    requires i < |ranges|
    ensures Covers(ranges[..i + 1], p) <==> Covers(ranges[..i], p) || ranges[i].start <= p < ranges[i].end
  {
    var more, fewer := ranges[..i + 1], ranges[..i];
    if Covers(more, p) {
      var k :| 0 <= k < |more| && more[k].start <= p < more[k].end;
      if k < i { assert fewer[k] == more[k]; }
    }
    if Covers(fewer, p) {
      var k :| 0 <= k < |fewer| && fewer[k].start <= p < fewer[k].end;
      assert more[k] == fewer[k];
    }
    if ranges[i].start <= p < ranges[i].end { assert more[i] == ranges[i]; }
  }

  /** The first `i` ranges are merged, and the others begin no earlier than the last merged one. */
  ghost predicate MergedSoFar(ranges: seq<Range>, length: nat, i: nat, merged: seq<Range>)
    requires i <= |ranges|
  {
    && Separated(merged) && Within(merged, length) && (forall p :: Covers(merged, p) <==> Covers(ranges[..i], p))
    && (merged != [] ==> forall k :: i <= k < |ranges| ==> merged[|merged| - 1].start <= ranges[k].start)
  }

  lemma MergeStep(ranges: seq<Range>, length: nat, i: nat, merged: seq<Range>)
    requires StartsAscend(ranges) && Within(ranges, length) && i < |ranges| && MergedSoFar(ranges, length, i, merged)
    ensures MergedSoFar(ranges, length, i + 1, MergeOne(merged, ranges[i]))
  {
    hide Covers;
    var range := ranges[i];
    forall p ensures Covers(MergeOne(merged, range), p) <==> Covers(ranges[..i + 1], p) {
      MergeOneCovers(merged, range, p);
      OneMoreRange(ranges, i, p);
    }
    MergeOneSeparates(merged, range, length);
  }

  lemma MergeOneSeparates(merged: seq<Range>, range: Range, length: nat)
    requires Separated(merged) && Within(merged, length) && 0 <= range.start < range.end <= length
    requires merged != [] ==> merged[|merged| - 1].start <= range.start
    ensures var merged' := MergeOne(merged, range);
            Separated(merged') && Within(merged', length) && merged' != [] && merged'[|merged'| - 1].start <= range.start
  {
  }

  method Merge(ranges: seq<Range>, length: nat) returns (merged: seq<Range>)
    requires StartsAscend(ranges) && Within(ranges, length)
    ensures Separated(merged) && Within(merged, length) && forall p :: Covers(merged, p) <==> Covers(ranges, p)
  {
    hide StartsAscend, Within, MergedSoFar;
    merged := [];
    var i := 0;
    NothingMerged(ranges, length);
    while i < |ranges|
      invariant 0 <= i <= |ranges| && MergedSoFar(ranges, length, i, merged)
    {
      MergeStep(ranges, length, i, merged);
      var range, n := ranges[i], |merged| - 1;
      if merged != [] && range.start <= merged[n].end {
        merged := merged[n := Range(merged[n].start, if merged[n].end < range.end then range.end else merged[n].end)];
      } else {
        merged := merged + [range];
      }
      i := i + 1;
    }
    AllMerged(ranges, length, merged);
  }

  lemma NothingMerged(ranges: seq<Range>, length: nat)
    ensures MergedSoFar(ranges, length, 0, [])
  {
    NothingCovered();
    assert ranges[..0] == [];
  }

  lemma AllMerged(ranges: seq<Range>, length: nat, merged: seq<Range>)
    requires MergedSoFar(ranges, length, |ranges|, merged)
    ensures Separated(merged) && Within(merged, length) && forall p :: Covers(merged, p) <==> Covers(ranges, p)
  {
    hide Covers;
    assert ranges[..|ranges|] == ranges;
  }

  lemma NothingCovered()
    ensures forall p :: !Covers([], p)
  {
  }

  function Sum(ranges: seq<Range>): int {
    if ranges == [] then 0 else ranges[0].end - ranges[0].start + Sum(ranges[1..])
  }

  function Covered(ranges: seq<Range>, length: nat): set<int> {
    set p: int | 0 <= p < length && Covers(ranges, p)
  }

  function Interval(a: int, b: int): (s: set<int>)
    ensures forall p :: p in s <==> a <= p < b
    decreases b - a
  {
    if b <= a then {} else Interval(a, b - 1) + {b - 1}
  }

  lemma {:induction false} IntervalCounts(a: int, b: int)
    requires a <= b
    ensures |Interval(a, b)| == b - a
    decreases b - a
  {
    if a < b { IntervalCounts(a, b - 1); }
  }

  /** The lengths of separated ranges add up to the number of positions they cover. */
  lemma {:induction false} SumCounts(ranges: seq<Range>, length: nat)
    requires Separated(ranges) && Within(ranges, length)
    ensures Sum(ranges) == |Covered(ranges, length)|
    decreases |ranges|
  {
    if ranges == [] {
      assert Covered(ranges, length) == {};
    } else {
      SumCounts(ranges[1..], length);
      FirstIsApart(ranges, length);
      hide Covered, Separated, Within;
    }
  }

  /** The first of separated ranges adds its length. */
  lemma FirstIsApart(ranges: seq<Range>, length: nat)
    requires Separated(ranges) && Within(ranges, length) && ranges != []
    ensures |Covered(ranges, length)| == ranges[0].end - ranges[0].start + |Covered(ranges[1..], length)|
  {
    var first, rest := ranges[0], ranges[1..];
    assert 0 <= first.start < first.end <= length;
    IntervalCounts(first.start, first.end);
    var here, later := Interval(first.start, first.end), Covered(rest, length);
    forall p: int ensures (p in Covered(ranges, length) <==> p in here || p in later) && !(p in here && p in later) {
      FirstOrRest(ranges, p);
      if p in here { RestIsLater(ranges, p); }
    }
    hide Covered, Covers, Separated, Within, Interval;
    assert Covered(ranges, length) == here + later;
    assert here !! later;
  }

  lemma RestIsLater(ranges: seq<Range>, p: int)
    requires Separated(ranges) && ranges != [] && p < ranges[0].end
    ensures !Covers(ranges[1..], p)
  {
  }

  lemma FirstOrRest(ranges: seq<Range>, p: int)
    requires ranges != []
    ensures Covers(ranges, p) <==> ranges[0].start <= p < ranges[0].end || Covers(ranges[1..], p)
  {
    var rest := ranges[1..];
    if Covers(ranges, p) {
      var k :| 0 <= k < |ranges| && ranges[k].start <= p < ranges[k].end;
      if 0 < k { assert rest[k - 1] == ranges[k]; }
    }
    if Covers(rest, p) {
      var k :| 0 <= k < |rest| && rest[k].start <= p < rest[k].end;
      assert ranges[k + 1] == rest[k];
    }
  }

  lemma {:induction false} PartsAreWithin(parts: seq<Part>, text: Text)
    requires forall i :: 0 <= i < |parts| ==> PartOf(parts[i], text)
    ensures Within(PartRanges(parts), |text|)
    decreases |parts|
  {
    if parts != [] { PartsAreWithin(parts[1..], text); }
  }

  lemma SortWithin(ranges: seq<Range>, length: nat)
    requires Within(ranges, length)
    ensures Within(SortRanges(ranges), length)
  {
    var sorted := SortRanges(ranges);
    forall i | 0 <= i < |sorted| ensures 0 <= sorted[i].start < sorted[i].end <= length {
      assert sorted[i] in multiset(ranges);
      var k :| 0 <= k < |ranges| && ranges[k] == sorted[i];
    }
  }

  datatype Entry = Entry(readRanges: seq<Range>, readChars: int, nextOffset: int, complete: bool)

  /** The manifest entry of a material: nothing when a page does not match the text. */
  method BuildEntry(parts: seq<Part>, text: Text) returns (entry: Option<Entry>)
    ensures entry.Some? <==> forall i :: 0 <= i < |parts| ==> PartOf(parts[i], text)
    ensures entry.Some? ==>
              && Separated(entry.value.readRanges)
              && (forall p :: Covers(entry.value.readRanges, p) <==> Covers(PartRanges(parts), p))
              && entry.value.readChars == |Covered(PartRanges(parts), |text|)|
              && (entry.value.complete <==> AllCovered(PartRanges(parts), 0, |text|))
              && CoveredPrefix(PartRanges(parts), entry.value.nextOffset)
  {
    var i := 0;
    while i < |parts|
      invariant 0 <= i <= |parts| && forall k :: 0 <= k < i ==> PartOf(parts[k], text)
    {
      if !PartOf(parts[i], text) { return None; }
      i := i + 1;
    }
    var ranges := PartRanges(parts);
    PartsAreWithin(parts, text);
    SortOrders(ranges);
    SortWithin(ranges, |text|);
    forall p ensures Covers(SortRanges(ranges), p) <==> Covers(ranges, p) { SortCovers(ranges, p); }
    var merged := Merge(SortRanges(ranges), |text|);
    SumCounts(merged, |text|);
    assert Covered(merged, |text|) == Covered(ranges, |text|);
    var nextOffset := if merged != [] && merged[0].start == 0 then merged[0].end else 0;
    PrefixOfMerged(merged, |text|);
    return Some(Entry(merged, Sum(merged), nextOffset, nextOffset == |text|));
  }

  /** The first merged range, when it begins at 0, is the whole covered beginning. */
  lemma PrefixOfMerged(merged: seq<Range>, length: nat)
    requires Separated(merged) && Within(merged, length)
    ensures var next := if merged != [] && merged[0].start == 0 then merged[0].end else 0;
            CoveredPrefix(merged, next) && next <= length && (next == length <==> AllCovered(merged, 0, length))
  {
    if merged != [] && merged[0].start == 0 {
      forall p | 0 <= p < merged[0].end ensures Covers(merged, p) { assert merged[0].start <= p < merged[0].end; }
    }
  }

  // ---------- The three agree ----------

  /** Honest pages: inside the text, and with the text of the source; a read at its end gives an empty one. */
  predicate HonestPage(page: Page, sourceId: string, text: Text) {
    page.sourceId == sourceId && 0 <= page.offset <= page.nextOffset <= |text| && page.totalLength == |text|
    && page.text == text[page.offset..page.nextOffset]
  }

  function PartOfPage(page: Page): Part {
    Part(if 0 <= page.offset then page.offset else 0, page.text)
  }

  function PartsOf(pages: seq<Page>): seq<Part> {
    seq(|pages|, i requires 0 <= i < |pages| => PartOfPage(pages[i]))
  }

  predicate PagePasses(page: Page, sourceId: string, text: Text) {
    && RouterPage(page, sourceId, text) && PartOf(PartOfPage(page), text)
    && (SectionPage(page, text) <==> page.offset < page.nextOffset)
    && PartOfPage(page).offset == page.offset && page.offset + |page.text| == page.nextOffset && PartOfPage(page).text == page.text
  }

  lemma HonestPagePasses(page: Page, sourceId: string, text: Text)
    requires HonestPage(page, sourceId, text)
    ensures PagePasses(page, sourceId, text)
  {
  }

  ghost predicate AllPass(pages: seq<Page>, sourceId: string, text: Text) {
    forall i :: 0 <= i < |pages| ==> PagePasses(pages[i], sourceId, text)
  }

  /** The router keeps empty ranges, which cover nothing. */
  lemma {:induction false} RouterSeesSection(pages: seq<Page>, sourceId: string, text: Text, p: int)
    requires AllPass(pages, sourceId, text)
    ensures Covers(RouterRanges(pages, sourceId, text), p) <==> Covers(SectionRanges(pages, text), p)
    decreases |pages|
  {
    if pages != [] {
      assert PagePasses(pages[0], sourceId, text);
      RouterSeesSection(pages[1..], sourceId, text, p);
      var page, router, section := pages[0], RouterRanges(pages[1..], sourceId, text), SectionRanges(pages[1..], text);
      hide Covers, RouterPage, SectionPage, PartOf, PartOfPage, AllPass;
      OneRange(Range(page.offset, page.nextOffset), router, p);
      OneRange(Range(page.offset, page.nextOffset), section, p);
    }
  }

  lemma OneRange(range: Range, rest: seq<Range>, p: int)
    ensures Covers([range] + rest, p) <==> range.start <= p < range.end || Covers(rest, p)
    ensures [] + rest == rest
  {
    FirstOrRest([range] + rest, p);
    assert ([range] + rest)[1..] == rest;
  }

  lemma OnePart(part: Part, rest: seq<Part>)
    ensures PartRanges([part] + rest) == (if part.text != [] then [Range(part.offset, part.offset + |part.text|)] else []) + PartRanges(rest)
  {
    assert ([part] + rest)[1..] == rest;
  }

  lemma {:induction false} SectionSeesParts(pages: seq<Page>, sourceId: string, text: Text)
    requires AllPass(pages, sourceId, text)
    ensures SectionRanges(pages, text) == PartRanges(PartsOf(pages))
    decreases |pages|
  {
    if pages != [] {
      assert PagePasses(pages[0], sourceId, text);
      SectionSeesParts(pages[1..], sourceId, text);
      assert PartsOf(pages) == [PartOfPage(pages[0])] + PartsOf(pages[1..]);
      OnePart(PartOfPage(pages[0]), PartsOf(pages[1..]));
      hide RouterPage, SectionPage, PartOf, PartOfPage, AllPass, PartRanges, PartsOf;
    } else {
      assert PartsOf(pages) == [];
    }
  }

  /** On honest pages the three programs see the same positions. */
  lemma SamePositions(pages: seq<Page>, sourceId: string, text: Text)
    requires forall i :: 0 <= i < |pages| ==> HonestPage(pages[i], sourceId, text)
    ensures forall p :: Covers(RouterRanges(pages, sourceId, text), p) <==> Covers(SectionRanges(pages, text), p)
    ensures SectionRanges(pages, text) == PartRanges(PartsOf(pages))
    ensures forall i :: 0 <= i < |pages| ==> PartOf(PartsOf(pages)[i], text)
  {
    hide HonestPage, RouterRanges, SectionRanges, PartRanges, PartOf, Covers;
    forall i | 0 <= i < |pages| ensures PagePasses(pages[i], sourceId, text) { HonestPagePasses(pages[i], sourceId, text); }
    forall p ensures Covers(RouterRanges(pages, sourceId, text), p) <==> Covers(SectionRanges(pages, text), p) {
      RouterSeesSection(pages, sourceId, text, p);
    }
    SectionSeesParts(pages, sourceId, text);
    forall i | 0 <= i < |pages| ensures PartOf(PartsOf(pages)[i], text) { assert PagePasses(pages[i], sourceId, text); }
  }

  /** On honest pages the three programs accept together, and exactly when every position is covered. */
  method AllAgree(pages: seq<Page>, sourceId: string, text: Text) returns (seen: bool, length: int, entry: Option<Entry>)
    requires forall i :: 0 <= i < |pages| ==> HonestPage(pages[i], sourceId, text)
    ensures seen <==> AllCovered(SectionRanges(pages, text), 0, |text|)
    ensures seen <==> length == |text|
    ensures entry.Some? && (seen <==> entry.value.complete) && length == entry.value.nextOffset
  {
    hide Covers;
    SamePositions(pages, sourceId, text);
    seen := AssertVisible(pages, sourceId, text, false);
    length := VisibleLength(SectionRanges(pages, text));
    entry := BuildEntry(PartsOf(pages), text);
    PartsAreWithin(PartsOf(pages), text);
    SamePrefix(SectionRanges(pages, text), length, entry.value.nextOffset);
    PrefixOrAll(SectionRanges(pages, text), length, |text|);
  }

  lemma PrefixOrAll(ranges: seq<Range>, length: int, total: nat)
    requires Within(ranges, total) && CoveredPrefix(ranges, length)
    ensures length <= total && (length == total <==> AllCovered(ranges, 0, total))
  {
    NotBeyond(ranges, total);
    hide Covers;
    assert Covers(ranges, total) || length <= total;
    assert Covers(ranges, length) || total <= length || !AllCovered(ranges, 0, total);
  }

  lemma SamePrefix(ranges: seq<Range>, a: int, b: int)
    requires CoveredPrefix(ranges, a) && CoveredPrefix(ranges, b)
    ensures a == b
  {
    hide Covers;
  }

  lemma NotBeyond(ranges: seq<Range>, length: nat)
    requires Within(ranges, length)
    ensures forall p :: length <= p ==> !Covers(ranges, p)
  {
  }

  // ---------- Pages that reach beyond the text ----------

  /** Such a page begins inside the text or at its end and claims a next offset beyond it. */
  ghost predicate ReachesBeyond(pages: seq<Page>, text: Text) {
    exists i :: 0 <= i < |pages| && SectionPage(pages[i], text) && pages[i].offset <= |text| < pages[i].nextOffset
  }

  lemma {:induction false} BeyondIsCovered(pages: seq<Page>, text: Text)
    ensures Covers(SectionRanges(pages, text), |text|) <==> ReachesBeyond(pages, text)
    decreases |pages|
  {
    if pages != [] {
      BeyondIsCovered(pages[1..], text);
      var page, rest := pages[0], SectionRanges(pages[1..], text);
      OneRange(Range(page.offset, page.nextOffset), rest, |text|);
      hide Covers, SectionPage;
      FirstReaches(pages, text);
    }
  }

  lemma FirstReaches(pages: seq<Page>, text: Text)
    requires pages != []
    ensures ReachesBeyond(pages, text) <==>
              (SectionPage(pages[0], text) && pages[0].offset <= |text| < pages[0].nextOffset) || ReachesBeyond(pages[1..], text)
  {
    hide SectionPage;
    if i :| 0 <= i < |pages[1..]| && SectionPage(pages[1..][i], text) && pages[1..][i].offset <= |text| < pages[1..][i].nextOffset {
      assert SectionPage(pages[i + 1], text);
    }
  }

  /** The measured length exceeds the text exactly when the whole text is covered and a page reaches beyond it. */
  lemma LengthExceedsText(pages: seq<Page>, text: Text, length: int)
    requires CoveredPrefix(SectionRanges(pages, text), length)
    ensures |text| < length <==> AllCovered(SectionRanges(pages, text), 0, |text|) && ReachesBeyond(pages, text)
  {
    hide Covers, ReachesBeyond;
    BeyondIsCovered(pages, text);
  }

  /** The router's own check on a page, `nextOffset <= |text|`, keeps the length within the text. */
  lemma LengthStaysWithin(pages: seq<Page>, text: Text, length: int)
    requires forall i :: 0 <= i < |pages| ==> pages[i].nextOffset <= |text|
    requires CoveredPrefix(SectionRanges(pages, text), length)
    ensures length <= |text|
  {
    LengthExceedsText(pages, text, length);
  }

  /** A page with all of the text that claims to reach beyond it: the measured length is what it claims. */
  lemma LengthCanExceedText(text: Text, beyond: nat)
    requires |text| < beyond
    ensures CoveredPrefix(SectionRanges([Page("s", 0, beyond, |text|, text)], text), beyond)
  {
    var page := Page("s", 0, beyond, |text|, text);
    assert Slice(text, 0, beyond) == text;
    assert SectionRanges([page], text) == [Range(0, beyond)];
    forall p | 0 <= p < beyond ensures Covers([Range(0, beyond)], p) { assert [Range(0, beyond)][0].start <= p < [Range(0, beyond)][0].end; }
  }

  // ---------- Sections ----------

  /** A position of a section is shown by a page that begins at or after its beginning. */
  predicate SectionShown(pages: seq<Page>, text: Text, p: int) {
    exists i :: 0 <= i < |pages| && Shows(pages[i], text, p)
  }

  /** A page that counts from the end claims the position; its text is what `slice` gives for such an offset, which may be nothing. */
  predicate ClaimedFromTheEnd(pages: seq<Page>, text: Text, p: int) {
    exists i :: 0 <= i < |pages| && pages[i].offset < 0 && p < pages[i].nextOffset && Slice(text, pages[i].offset, pages[i].nextOffset) == pages[i].text
  }

  lemma FirstSection(pages: seq<Page>, text: Text, p: int)
    requires pages != []
    ensures SectionShown(pages, text, p) <==> Shows(pages[0], text, p) || SectionShown(pages[1..], text, p)
    ensures ClaimedFromTheEnd(pages, text, p) <==>
              (pages[0].offset < 0 && p < pages[0].nextOffset && Slice(text, pages[0].offset, pages[0].nextOffset) == pages[0].text)
              || ClaimedFromTheEnd(pages[1..], text, p)
  {
    hide Shows, Slice;
    var rest := pages[1..];
    assert forall i :: 0 <= i < |rest| ==> pages[i + 1] == rest[i];
    if i :| 0 <= i < |pages| && Shows(pages[i], text, p) { assert 0 < i ==> rest[i - 1] == pages[i]; }
    if i :| 0 <= i < |rest| && Shows(rest[i], text, p) { assert pages[i + 1] == rest[i]; }
    if i :| 0 <= i < |pages| && pages[i].offset < 0 && p < pages[i].nextOffset && Slice(text, pages[i].offset, pages[i].nextOffset) == pages[i].text {
      assert 0 < i ==> rest[i - 1] == pages[i];
    }
    if i :| 0 <= i < |rest| && rest[i].offset < 0 && p < rest[i].nextOffset && Slice(text, rest[i].offset, rest[i].nextOffset) == rest[i].text {
      assert pages[i + 1] == rest[i];
    }
  }

  /** On pages that end within the text, the section check counts a position exactly when a page shows it or one that counts from the
      end claims it. */
  lemma {:induction false} SectionCounts(pages: seq<Page>, text: Text, p: int)
    requires 0 <= p < |text| && forall i :: 0 <= i < |pages| ==> pages[i].nextOffset <= |text|
    ensures Covers(SectionRanges(pages, text), p) <==> SectionShown(pages, text, p) || ClaimedFromTheEnd(pages, text, p)
    decreases |pages|
  {
    if pages != [] {
      var page, rest := pages[0], SectionRanges(pages[1..], text);
      forall i | 0 <= i < |pages[1..]| ensures pages[1..][i].nextOffset <= |text| { assert pages[1..][i] == pages[i + 1]; }
      SectionCounts(pages[1..], text, p);
      OneRange(Range(page.offset, page.nextOffset), rest, p);
      if 0 <= page.offset <= p < page.nextOffset { SliceShows(page, text, p); }
      ShownIsInside(page, text, p);
      hide Covers, Shows, Slice, SectionShown, ClaimedFromTheEnd;
      FirstSection(pages, text, p);
    }
  }

  /** One empty page can make all of a text but its last character count as read. */
  lemma UnseenCanCount(text: Text)
    requires |text| > 1
    ensures var pages := [Page("s", -1, |text| - 1, |text|, [])];
            CoveredPrefix(SectionRanges(pages, text), |text| - 1) && forall p :: !SectionShown(pages, text, p)
  {
    var n := |text| - 1;
    assert Slice(text, -1, n) == [];
    assert SectionRanges([Page("s", -1, n, |text|, [])], text) == [Range(-1, n)];
    forall p | 0 <= p < n ensures Covers([Range(-1, n)], p) { assert [Range(-1, n)][0].start <= p < [Range(-1, n)][0].end; }
  }

  predicate PartsShown(parts: seq<Part>, text: Text, p: int) {
    exists i :: 0 <= i < |parts| && PartShows(parts[i], text, p)
  }

  lemma FirstPartShown(parts: seq<Part>, text: Text, p: int)
    requires parts != []
    ensures PartsShown(parts, text, p) <==> PartShows(parts[0], text, p) || PartsShown(parts[1..], text, p)
  {
    hide PartShows;
    var rest := parts[1..];
    if i :| 0 <= i < |parts| && PartShows(parts[i], text, p) { assert 0 < i ==> rest[i - 1] == parts[i]; }
    if i :| 0 <= i < |rest| && PartShows(rest[i], text, p) { assert parts[i + 1] == rest[i]; }
  }

  /** Accepted parts show what they cover, and cover nothing else. */
  lemma {:induction false} PartsShow(parts: seq<Part>, text: Text, p: int)
    requires forall i :: 0 <= i < |parts| ==> PartOf(parts[i], text)
    ensures Covers(PartRanges(parts), p) <==> PartsShown(parts, text, p)
    decreases |parts|
  {
    if parts != [] {
      var part, rest := parts[0], parts[1..];
      OnePartShows(part, text, p);
      OneRange(Range(part.offset, part.offset + |part.text|), PartRanges(rest), p);
      FirstPartShown(parts, text, p);
      hide Covers, PartShows, PartsShown;
      assert forall i :: 0 <= i < |rest| ==> rest[i] == parts[i + 1];
      PartsShow(rest, text, p);
    }
  }

  predicate PartShows(part: Part, text: Text, p: int) {
    && part.offset <= p < part.offset + |part.text| <= |text|
    && forall q :: part.offset <= q < part.offset + |part.text| ==> part.text[q - part.offset] == text[q]
  }

  lemma OnePartShows(part: Part, text: Text, p: int)
    requires PartOf(part, text)
    ensures PartShows(part, text, p) <==> part.offset <= p < part.offset + |part.text|
  {
    if part.offset <= p < part.offset + |part.text| {
      assert part.offset + |part.text| <= |text|;
      assert text[part.offset..part.offset + |part.text|] == part.text;
    }
  }
}
