/**
  Paged queries of agent-query-resources.js against the coverage check of agent-work.js: following the
  offsets reads everything, and the check accepts the records of a query, in any order, exactly when
  they cover the whole result.
*/
module Pagination {
  import opened Wrappers

  // ---------- Pages of a list or of a text ----------

  /** What a page says of itself: where it begins and ends, and where the next one begins. */
  datatype Record = Record(offset: nat, end: nat, next: Option<nat>)

  function Min(a: nat, b: nat): nat {
    if a < b then a else b
  }

  function PageRecord(total: nat, offset: nat, limit: nat): Record {
    Record(offset, Min(offset + limit, total), if offset + limit < total then Some(offset + limit) else None)
  }

  function PageOf<T>(content: seq<T>, offset: nat, limit: nat): seq<T> {
    content[Min(offset, |content|)..Min(offset + limit, |content|)]
  }

  /** Reads page after page, each with a limit of the caller's choice, until there is no next offset. */
  method Follow<T>(content: seq<T>, limits: nat -> nat) returns (whole: seq<T>, records: seq<Record>)
    requires forall i :: 0 < limits(i)
    ensures whole == content
    ensures forall i :: 0 <= i < |records| ==> Honest(records[i], |content|)
    ensures Paced(records, limits)
    ensures Complete(records)
  {
    hide Paced, NextAt, CoversAt, Reaches;
    whole, records := [], [];
    var offset := Some(0);
    assert Paced([], limits) && NextAt([], limits, 0) by { NotYetPaced(limits); }
    while offset.Some?
      invariant Paced(records, limits) && (offset.Some? ==> NextAt(records, limits, offset.value))
      invariant offset.Some? ==> offset.value <= |content| && whole == content[..offset.value]
                                 && (offset.value < |content| || |content| == 0)
      invariant offset.None? ==> whole == content && Reaches(records, |content|)
      invariant forall i :: 0 <= i < |records| ==> Honest(records[i], |content|)
      invariant offset.Some? ==> forall p :: 0 <= p < offset.value ==> CoversAt(records, p)
      invariant offset.None? ==> forall p :: 0 <= p < |content| ==> CoversAt(records, p)
      decreases if offset.Some? then |content| + 1 - offset.value else 0
    {
      var limit := limits(|records|);
      var page := PageOf(content, offset.value, limit);
      var record := PageRecord(|content|, offset.value, limit);
      assert content[..offset.value] + page == content[..record.end];
      whole := whole + page;
      AddedRecord(records, record);
      PacedOn(records, limits, offset.value, record);
      records := records + [record];
      offset := record.next;
    }
    CompleteIsExact(records, |content|);
  }

  /** Where the page after these begins: at the end of the last one, which is full. */
  predicate NextAt(records: seq<Record>, limits: nat -> nat, offset: nat) {
    records != [] ==> var last := records[|records| - 1]; offset == last.end == last.offset + limits(|records| - 1)
  }

  /** No page is longer than its limit, and each but the last is as long and is followed by the next. */
  predicate Paced(records: seq<Record>, limits: nat -> nat) {
    (forall i :: 0 <= i < |records| ==> records[i].end <= records[i].offset + limits(i))
    && forall i :: 0 <= i < |records| ==> 0 < i ==> NextAt(records[..i], limits, records[i].offset)
  }

  lemma NotYetPaced(limits: nat -> nat)
    ensures Paced([], limits) && NextAt([], limits, 0)
  {
  }

  lemma PacedOn(records: seq<Record>, limits: nat -> nat, offset: nat, record: Record)
    requires Paced(records, limits) && NextAt(records, limits, offset) && record.offset == offset && record.end <= offset + limits(|records|)
    ensures Paced(records + [record], limits)
    ensures record.end == offset + limits(|records|) ==> NextAt(records + [record], limits, record.end)
  {
    var more := records + [record];
    forall i | 0 <= i < |more| && 0 < i ensures NextAt(more[..i], limits, more[i].offset) {
      assert i < |records| ==> more[..i] == records[..i];
      assert i == |records| ==> more[..i] == records;
    }
  }

  // ---------- The check ----------

  function InsertRecord(r: Record, sorted: seq<Record>): (s: seq<Record>)
    ensures forall x :: x in s <==> x == r || x in sorted
  {
    if sorted == [] then [r]
    else
      assert sorted == [sorted[0]] + sorted[1..];
      if r.offset <= sorted[0].offset then [r] + sorted else [sorted[0]] + InsertRecord(r, sorted[1..])
  }

  /** The stable sort by offset. */
  function SortRecords(records: seq<Record>): (s: seq<Record>)
    ensures forall x :: x in s <==> x in records
  {
    if records == [] then []
    else
      assert records == [records[0]] + records[1..];
      InsertRecord(records[0], SortRecords(records[1..]))
  }

  function Walk(sorted: seq<Record>, cursor: nat): bool
    decreases |sorted|
  {
    if sorted == [] then false
    else
      var page := sorted[0];
      if page.end < page.offset || cursor < page.offset then false
      else
        var cursor' := if cursor < page.end then page.end else cursor;
        if page.next.None? && page.end == cursor' then true
        else if page.next != Some(page.end) || page.end == page.offset then false
        else Walk(sorted[1..], cursor')
  }

  predicate Complete(records: seq<Record>) {
    Walk(SortRecords(records), 0)
  }

  method CheckComplete(records: seq<Record>) returns (ok: bool)
    ensures ok == Complete(records)
  {
    var pages, cursor: nat, i := SortRecords(records), 0, 0;
    while i < |pages|
      invariant 0 <= i <= |pages| && Walk(pages[i..], cursor) == Complete(records)
    {
      var page := pages[i];
      assert pages[i..][0] == page && pages[i..][1..] == pages[i + 1..];
      if page.end < page.offset || cursor < page.offset { return false; }
      if cursor < page.end { cursor := page.end; }
      if page.next.None? && page.end == cursor { return true; }
      if page.next != Some(page.end) || page.end == page.offset { return false; }
      i := i + 1;
    }
    return false;
  }

  // ---------- What it accepts ----------

  /** A record as lists, reads and searches make them over `total` items; one that begins beyond the end may say anything. */
  predicate Honest(r: Record, total: nat) {
    r.offset <= total ==> r.offset <= r.end <= total && (r.offset < total ==> r.offset < r.end)
                          && r.next == if r.end < total then Some(r.end) else None
  }

  predicate CoversAt(records: seq<Record>, p: int) {
    exists i :: 0 <= i < |records| && records[i].offset <= p < records[i].end
  }

  predicate Reaches(records: seq<Record>, total: nat) {
    exists i :: 0 <= i < |records| && records[i].offset <= total
  }

  lemma AddedRecord(records: seq<Record>, record: Record)
    ensures forall p :: CoversAt(records, p) ==> CoversAt(records + [record], p)
    ensures forall p :: record.offset <= p < record.end ==> CoversAt(records + [record], p)
    ensures forall total :: record.offset <= total ==> Reaches(records + [record], total)
  {
    var more := records + [record];
    assert more[|records|] == record;
    forall p | CoversAt(records, p) ensures CoversAt(more, p) {
      var i :| 0 <= i < |records| && records[i].offset <= p < records[i].end;
      assert more[i] == records[i];
    }
  }

  predicate Ascend(records: seq<Record>) {
    forall i, j :: 0 <= i < j < |records| ==> records[i].offset <= records[j].offset
  }

  lemma {:induction false} InsertAscends(r: Record, sorted: seq<Record>)
    requires Ascend(sorted)
    ensures Ascend(InsertRecord(r, sorted))
    decreases |sorted|
  {
    if sorted != [] && sorted[0].offset < r.offset {
      InsertAscends(r, sorted[1..]);
      var rest := InsertRecord(r, sorted[1..]);
      forall j | 0 <= j < |rest| ensures sorted[0].offset <= rest[j].offset { assert rest[j] == r || rest[j] in sorted[1..]; }
    }
  }

  lemma {:induction false} SortAscends(records: seq<Record>)
    ensures Ascend(SortRecords(records))
    decreases |records|
  {
    if records != [] {
      SortAscends(records[1..]);
      InsertAscends(records[0], SortRecords(records[1..]));
    }
  }

  lemma SortKeeps(records: seq<Record>, total: nat)
    ensures forall p :: CoversAt(SortRecords(records), p) <==> CoversAt(records, p)
    ensures Reaches(SortRecords(records), total) <==> Reaches(records, total)
  {
    var sorted := SortRecords(records);
    forall p ensures CoversAt(sorted, p) <==> CoversAt(records, p) {
      SameCover(records, sorted, p, total);
      SameCover(sorted, records, p, total);
    }
    SameCover(records, sorted, 0, total);
    SameCover(sorted, records, 0, total);
  }

  lemma SameCover(a: seq<Record>, b: seq<Record>, p: int, total: nat)
    requires forall x :: x in a ==> x in b
    ensures CoversAt(a, p) ==> CoversAt(b, p)
    ensures Reaches(a, total) ==> Reaches(b, total)
  {
    if CoversAt(a, p) {
      var i :| 0 <= i < |a| && a[i].offset <= p < a[i].end;
      assert a[i] in b;
    }
    if Reaches(a, total) {
      var i :| 0 <= i < |a| && a[i].offset <= total;
      assert a[i] in b;
    }
  }

  /** From a cursor up to which everything is covered, the walk accepts exactly when the rest is covered too. */
  lemma {:induction false} WalkIsExact(sorted: seq<Record>, cursor: nat, total: nat)
    requires Ascend(sorted) && (forall i :: 0 <= i < |sorted| ==> Honest(sorted[i], total)) && cursor <= total
    requires cursor == total ==> total == 0
    ensures Walk(sorted, cursor) <==> Reaches(sorted, total) && forall p :: cursor <= p < total ==> CoversAt(sorted, p)
    decreases |sorted|
  {
    if sorted != [] {
      var page, rest := sorted[0], sorted[1..];
      if cursor < page.offset {
        if cursor < total { Uncovered(sorted, cursor); }
      } else {
        var cursor' := if cursor < page.end then page.end else cursor;
        if page.next.Some? {
          WalkIsExact(rest, cursor', total);
          FirstOrRest(sorted, total);
          CoveringReaches(rest, cursor', total);
        } else {
          AllCovered(sorted, cursor, total);
        }
      }
    }
  }

  lemma CoveringReaches(records: seq<Record>, p: nat, total: nat)
    requires p <= total
    ensures CoversAt(records, p) ==> Reaches(records, total)
  {
  }

  lemma Uncovered(sorted: seq<Record>, cursor: nat)
    requires Ascend(sorted) && sorted != [] && cursor < sorted[0].offset
    ensures !CoversAt(sorted, cursor)
  {
  }

  lemma AllCovered(sorted: seq<Record>, cursor: nat, total: nat)
    requires sorted != [] && sorted[0].offset <= cursor <= total == sorted[0].end
    ensures Reaches(sorted, total) && forall p :: cursor <= p < total ==> CoversAt(sorted, p)
  {
  }

  lemma FirstOrRest(sorted: seq<Record>, total: nat)
    requires sorted != []
    ensures forall p :: CoversAt(sorted, p) <==> sorted[0].offset <= p < sorted[0].end || CoversAt(sorted[1..], p)
    ensures Reaches(sorted, total) <==> sorted[0].offset <= total || Reaches(sorted[1..], total)
  {
    var rest := sorted[1..];
    forall p ensures CoversAt(sorted, p) <==> sorted[0].offset <= p < sorted[0].end || CoversAt(rest, p) {
      if CoversAt(sorted, p) {
        var i :| 0 <= i < |sorted| && sorted[i].offset <= p < sorted[i].end;
        if 0 < i { assert rest[i - 1] == sorted[i]; }
      }
      if CoversAt(rest, p) {
        var i :| 0 <= i < |rest| && rest[i].offset <= p < rest[i].end;
        assert sorted[i + 1] == rest[i];
      }
    }
    if Reaches(rest, total) {
      var i :| 0 <= i < |rest| && rest[i].offset <= total;
      assert sorted[i + 1] == rest[i];
    }
    if Reaches(sorted, total) {
      var i :| 0 <= i < |sorted| && sorted[i].offset <= total;
      if 0 < i { assert rest[i - 1] == sorted[i]; }
    }
  }

  /** Honest records pass, in any order, exactly when they cover everything and one of them begins within the result. */
  lemma CompleteIsExact(records: seq<Record>, total: nat)
    requires forall i :: 0 <= i < |records| ==> Honest(records[i], total)
    ensures Complete(records) <==> Reaches(records, total) && forall p :: 0 <= p < total ==> CoversAt(records, p)
  {
    var sorted := SortRecords(records);
    SortAscends(records);
    SortKeeps(records, total);
    forall i | 0 <= i < |sorted| ensures Honest(sorted[i], total) {
      assert sorted[i] in records;
      var k :| 0 <= k < |records| && records[k] == sorted[i];
    }
    WalkIsExact(sorted, 0, total);
  }

  // ---------- Searching ----------

  /** A file as the lines that do or do not match, and its size in bytes. */
  datatype Searched = Searched(lines: seq<bool>, bytes: nat)

  /** A match names its file and its line, both counted from 0. */
  datatype Match = Match(file: nat, line: nat)

  function MatchesIn(lines: seq<bool>, file: nat, n: nat): seq<Match>
    requires n <= |lines|
  {
    if n == 0 then [] else MatchesIn(lines, file, n - 1) + if lines[n - 1] then [Match(file, n - 1)] else []
  }

  /** Every match of the files from `a` up to `b`, in order. */
  function AllMatches(files: seq<Searched>, a: nat, b: nat): seq<Match>
    requires a <= b <= |files|
    decreases b - a
  {
    if a == b then [] else AllMatches(files, a, b - 1) + MatchesIn(files[b - 1].lines, b - 1, |files[b - 1].lines|)
  }

  datatype SearchPage = SearchPage(matches: seq<Match>, record: Record, truncated: Option<nat>)

  /** The bytes of the files from `a` up to `b`. */
  function BytesOf(files: seq<Searched>, a: nat, b: nat): nat
    requires a <= b <= |files|
    decreases b - a
  {
    if a == b then 0 else BytesOf(files, a, b - 1) + files[b - 1].bytes
  }

  /** The files from `offset` up to `end` are enough for a page. */
  predicate Full(files: seq<Searched>, offset: nat, end: nat, limit: nat)
    requires offset <= end <= |files|
  {
    limit <= |AllMatches(files, offset, end)| || 4 * 1024 * 1024 <= BytesOf(files, offset, end) || 200 <= end - offset
  }

  predicate IsMatch(files: seq<Searched>, m: Match) {
    m.file < |files| && m.line < |files[m.file].lines| && files[m.file].lines[m.line]
  }

  ghost predicate LosesMatch(files: seq<Searched>, file: nat, matches: seq<Match>) {
    exists line: nat :: IsMatch(files, Match(file, line)) && Match(file, line) !in matches
  }

  /**
    One page of a search: it ends with the first file that makes it full, or with the last one.  It loses nothing but
    matches of the file it names as truncated, which is its last and did lose one.
  */
  method Search(files: seq<Searched>, offset: nat, limit: nat) returns (page: SearchPage)
    requires 0 < limit
    ensures Honest(page.record, |files|) && page.record.offset == offset
    ensures offset < |files| ==>
              && offset < page.record.end && (page.record.end == |files| || Full(files, offset, page.record.end, limit))
              && forall e :: offset < e < page.record.end ==> !Full(files, offset, e, limit)
    ensures offset <= |files| ==>
              var all := AllMatches(files, offset, page.record.end);
              && page.matches == (if |all| <= limit then all else all[..limit])
              && (page.truncated.None? <==> |all| <= limit)
    ensures |files| < offset ==> page.truncated.None? && page.matches == []
    ensures page.truncated.Some? ==>
              && offset <= page.truncated.value && page.truncated.value + 1 == page.record.end <= |files|
              && LosesMatch(files, page.truncated.value, page.matches)
  {
    var matches: seq<Match>, index, bytes, truncated := [], offset, 0, None;
    while index < |files|
      invariant offset <= index && (|files| < offset ==> matches == [])
      invariant offset <= |files| ==> index <= |files| && matches == AllMatches(files, offset, index) && bytes == BytesOf(files, offset, index)
      invariant offset <= |files| ==> forall e :: offset < e <= index ==> !Full(files, offset, e, limit)
      invariant truncated.None? && |matches| <= limit
    {
      var file, i := files[index], 0;
      ghost var before := matches;
      while i < |file.lines|
        invariant 0 <= i <= |file.lines| && truncated.None?
        invariant matches == before + MatchesIn(file.lines, index, i) && |matches| <= limit
      {
        if file.lines[i] {
          if |matches| == limit {
            truncated := Some(index);
            break;
          }
          matches := matches + [Match(index, i)];
        }
        i := i + 1;
      }
      bytes := bytes + file.bytes;
      if truncated.Some? {
        TruncatedPage(files, offset, index, i, limit, matches);
        index := index + 1;
        break;
      }
      index := index + 1;
      if limit <= |matches| || 4 * 1024 * 1024 <= bytes || 200 <= index - offset { break; }
    }
    page := SearchPage(matches, Record(offset, index, if index < |files| then Some(index) else None), truncated);
  }

  /** A page that is full in the middle of a file holds the first matches, and more follow in that file alone. */
  lemma TruncatedPage(files: seq<Searched>, offset: nat, index: nat, i: nat, limit: nat, matches: seq<Match>)
    requires offset <= index < |files| && i < |files[index].lines| && files[index].lines[i] && |matches| == limit
    requires matches == AllMatches(files, offset, index) + MatchesIn(files[index].lines, index, i)
    ensures var all := AllMatches(files, offset, index + 1); limit < |all| && matches == all[..limit]
    ensures LosesMatch(files, index, matches)
  {
    MoreMatches(files[index].lines, index, i);
    var before, here, lost := AllMatches(files, offset, index), MatchesIn(files[index].lines, index, i), Match(index, i);
    ListedAreMatches(files, offset, index);
    LinesAreBefore(files[index].lines, index, i);
    assert lost !in before && lost !in here;
    assert IsMatch(files, lost);
  }

  lemma {:induction false} LinesAreBefore(lines: seq<bool>, file: nat, n: nat)
    requires n <= |lines|
    ensures forall m :: m in MatchesIn(lines, file, n) ==> m.file == file && m.line < n && lines[m.line]
    decreases n
  {
    if 0 < n { LinesAreBefore(lines, file, n - 1); }
  }

  /** Only matches of the files from `a` up to `b` are listed. */
  lemma {:induction false} ListedAreMatches(files: seq<Searched>, a: nat, b: nat)
    requires a <= b <= |files|
    ensures forall m :: m in AllMatches(files, a, b) ==> IsMatch(files, m) && a <= m.file < b
    decreases b
  {
    if a < b {
      ListedAreMatches(files, a, b - 1);
      LinesAreBefore(files[b - 1].lines, b - 1, |files[b - 1].lines|);
    }
  }

  /** What follows a matching line is lost: there are more matches than were taken. */
  lemma {:induction false} MoreMatches(lines: seq<bool>, file: nat, i: nat)
    requires i < |lines| && lines[i]
    ensures MatchesIn(lines, file, i) <= MatchesIn(lines, file, |lines|)
    ensures |MatchesIn(lines, file, i)| < |MatchesIn(lines, file, |lines|)|
    decreases |lines|
  {
    MatchesGrow(lines, file, i + 1, |lines|);
  }

  lemma {:induction false} MatchesGrow(lines: seq<bool>, file: nat, m: nat, n: nat)
    requires m <= n <= |lines|
    ensures MatchesIn(lines, file, m) <= MatchesIn(lines, file, n)
    decreases n
  {
    if m < n { MatchesGrow(lines, file, m, n - 1); }
  }

  lemma {:induction false} LineIsListed(lines: seq<bool>, file: nat, line: nat, n: nat)
    requires line < n <= |lines| && lines[line]
    ensures Match(file, line) in MatchesIn(lines, file, n)
    decreases n
  {
    if line < n - 1 { LineIsListed(lines, file, line, n - 1); }
  }

  lemma {:induction false} MatchIsListed(files: seq<Searched>, a: nat, b: nat, m: Match)
    requires a <= m.file < b <= |files| && m.line < |files[m.file].lines| && files[m.file].lines[m.line]
    ensures m in AllMatches(files, a, b)
    decreases b
  {
    var front, last := AllMatches(files, a, b - 1), MatchesIn(files[b - 1].lines, b - 1, |files[b - 1].lines|);
    assert AllMatches(files, a, b) == front + last;
    if m.file < b - 1 {
      MatchIsListed(files, a, b - 1, m);
    } else {
      LineIsListed(files[m.file].lines, m.file, m.line, |files[m.file].lines|);
    }
  }

  /** A match of the page's files is on the page, or the page names its file as truncated. */
  lemma PageHasMatch(files: seq<Searched>, a: nat, b: nat, limit: nat, truncated: Option<nat>, m: Match)
    requires IsMatch(files, m) && a <= m.file < b <= |files|
    requires truncated.None? ==> |AllMatches(files, a, b)| <= limit
    requires truncated.Some? ==> truncated.value + 1 == b && |AllMatches(files, a, b - 1)| <= limit
    ensures var all := AllMatches(files, a, b);
            truncated == Some(m.file) || m in if |all| <= limit then all else all[..limit]
  {
    MatchIsListed(files, a, b, m);
    if truncated.Some? && m.file < b - 1 {
      MatchIsListed(files, a, b - 1, m);
      var all, front := AllMatches(files, a, b), AllMatches(files, a, b - 1);
      assert front <= all && front <= all[..if |all| <= limit then |all| else limit];
    }
  }

  /** What a search has found and named so far, of the files before `n`. */
  ghost predicate Answered(files: seq<Searched>, found: seq<Match>, truncated: set<nat>, n: nat) {
    && (forall m :: m in found ==> IsMatch(files, m) && m.file < n)
    && (forall f :: f in truncated ==> f < n && LosesMatch(files, f, found))
    && forall m :: IsMatch(files, m) && m.file < n ==> m in found || m.file in truncated
  }

  lemma NextAnswers(files: seq<Searched>, found: seq<Match>, truncated: set<nat>, a: nat, b: nat, matches: seq<Match>, cut: Option<nat>)
    requires Answered(files, found, truncated, a) && a <= b
    requires forall m :: m in matches ==> IsMatch(files, m) && a <= m.file < b
    requires forall m :: IsMatch(files, m) && a <= m.file < b ==> m in matches || cut == Some(m.file)
    requires cut.Some? ==> a <= cut.value < b && LosesMatch(files, cut.value, matches)
    ensures Answered(files, found + matches, truncated + (if cut.Some? then {cut.value} else {}), b)
  {
    var more := found + matches;
    forall f | f in truncated ensures LosesMatch(files, f, more) {
      var line: nat :| IsMatch(files, Match(f, line)) && Match(f, line) !in found;
      assert Match(f, line) !in more;
    }
    if cut.Some? {
      var line: nat :| IsMatch(files, Match(cut.value, line)) && Match(cut.value, line) !in matches;
      assert Match(cut.value, line) !in more;
    }
  }

  /** Following a search to its end: its records pass the check, what it found are matches, and a match it did not find is
      in a file it names as truncated; each of those did lose one. */
  method FollowSearch(files: seq<Searched>, limits: nat -> nat) returns (found: seq<Match>, truncated: set<nat>, records: seq<Record>)
    requires forall i :: 0 < limits(i)
    ensures Complete(records)
    ensures forall m :: m in found ==> IsMatch(files, m)
    ensures forall m :: IsMatch(files, m) ==> m in found || m.file in truncated
    ensures forall f :: f in truncated ==> LosesMatch(files, f, found)
  {
    hide IsMatch, LosesMatch, Full, AllMatches;
    found, truncated, records := [], {}, [];
    var offset := Some(0);
    while offset.Some?
      invariant offset.Some? ==> offset.value < |files| || |files| == 0 == offset.value
      invariant forall i :: 0 <= i < |records| ==> Honest(records[i], |files|)
      invariant offset.None? ==> Reaches(records, |files|)
      invariant forall p :: 0 <= p < (if offset.Some? then offset.value else |files|) ==> CoversAt(records, p)
      invariant Answered(files, found, truncated, if offset.Some? then offset.value else |files|)
      decreases if offset.Some? then |files| + 1 - offset.value else 0
    {
      var at := offset.value;
      var limit := limits(|records|);
      var page := Search(files, at, limit);
      ListedAreMatches(files, at, page.record.end);
      forall m | IsMatch(files, m) && at <= m.file < page.record.end ensures m in page.matches || page.truncated == Some(m.file) {
        FullBefore(files, at, page.record.end, limit);
        PageHasMatch(files, at, page.record.end, limit, page.truncated, m);
      }
      NextAnswers(files, found, truncated, at, page.record.end, page.matches, page.truncated);
      found := found + page.matches;
      truncated := truncated + if page.truncated.Some? then {page.truncated.value} else {};
      AddedRecord(records, page.record);
      records := records + [page.record];
      offset := page.record.next;
    }
    FilesBound(files);
    CompleteIsExact(records, |files|);
  }

  lemma FilesBound(files: seq<Searched>)
    ensures forall m :: IsMatch(files, m) ==> m.file < |files|
  {
  }

  lemma FullBefore(files: seq<Searched>, a: nat, b: nat, limit: nat)
    requires a < b <= |files| && forall e :: a < e < b ==> !Full(files, a, e, limit)
    ensures |AllMatches(files, a, b - 1)| <= limit
  {
    if a < b - 1 { assert !Full(files, a, b - 1, limit); }
  }
}
