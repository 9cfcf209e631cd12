/**
  Searching the files of a frozen tree in batches (execution-candidate.js): the answer is the one of
  testing every file alone, whatever Git replies and however the files are batched.
*/
module Batches {
  import opened Wrappers
  import opened Readers

  /** An object name is the hash of its blob; hashes are taken as injective. */
  datatype Entry = Entry(path: string, size: nat, blob: Bytes)

  datatype Found = Found(paths: seq<string>) | Invalid

  /** The line that introduces a blob: its name, the word blob and its size. */
  datatype Git = Git(header: Entry -> Bytes, reply: seq<Entry> -> Bytes)

  const OVERHEAD := 128

  function Total(batch: seq<Entry>): nat {
    if batch == [] then 0 else batch[0].size + OVERHEAD + Total(batch[1..])
  }

  lemma {:induction false} TotalOfSplit(a: seq<Entry>, b: seq<Entry>)
    ensures Total(a + b) == Total(a) + Total(b)
    decreases |a|
  {
    if a == [] {
      assert a + b == b;
    } else {
      assert (a + b)[1..] == a[1..] + b;
      TotalOfSplit(a[1..], b);
    }
  }

  /** The paths of the files that match, testing them one by one. */
  function Matching(files: seq<Entry>, matches: Bytes -> bool): seq<string> {
    if files == [] then []
    else (if matches(files[0].blob) then [files[0].path] else []) + Matching(files[1..], matches)
  }

  lemma {:induction false} MatchingOfSplit(a: seq<Entry>, b: seq<Entry>, matches: Bytes -> bool)
    ensures Matching(a + b, matches) == Matching(a, matches) + Matching(b, matches)
    decreases |a|
  {
    if a == [] {
      assert a + b == b;
    } else {
      assert (a + b)[1..] == a[1..] + b;
      MatchingOfSplit(a[1..], b, matches);
    }
  }

  // ---------- Choosing a batch ----------

  /** A batch is one file, or fits the limit with the overhead of every file counted. */
  predicate Fits(batch: seq<Entry>) {
    |batch| == 1 || (|batch| > 1 && Total(batch) <= LIMIT)
  }

  lemma OneMore(files: seq<Entry>, start: nat, end: nat)
    requires start <= end < |files|
    ensures Total(files[start..end + 1]) == Total(files[start..end]) + files[end].size + OVERHEAD
  {
    assert files[start..end + 1] == files[start..end] + [files[end]];
    TotalOfSplit(files[start..end], [files[end]]);
  }

  method NextBatch(files: seq<Entry>, start: nat) returns (end: nat)
    requires start < |files|
    ensures start < end <= |files| && Fits(files[start..end])
    ensures end < |files| ==> LIMIT < Total(files[start..end + 1])
  {
    end := start + 1;
    var size := files[start].size + OVERHEAD;
    assert files[start..end] == [files[start]];
    while end < |files| && size + files[end].size + OVERHEAD <= LIMIT
      invariant start < end <= |files| && size == Total(files[start..end]) && Fits(files[start..end])
    {
      OneMore(files, start, end);
      size := size + files[end].size + OVERHEAD;
      end := end + 1;
    }
    if end < |files| {
      OneMore(files, start, end);
    }
  }

  // ---------- Reading a batch ----------

  /** The reply to a batch as Git prints it. */
  function Printed(batch: seq<Entry>, header: Entry -> Bytes): Bytes {
    if batch == [] then []
    else header(batch[0]) + [NEWLINE] + batch[0].blob + [NEWLINE] + Printed(batch[1..], header)
  }

  /** Headers are ASCII lines, and sizes are the sizes of the blobs. */
  ghost predicate Honest(git: Git, files: seq<Entry>) {
    && (forall batch :: git.reply(batch) == Printed(batch, git.header))
    && (forall i :: 0 <= i < |files| ==> files[i].size == |files[i].blob|)
    && (forall i, k :: 0 <= i < |files| && 0 <= k < |git.header(files[i])| ==> git.header(files[i])[k] < 128 && git.header(files[i])[k] != NEWLINE)
  }

  /** Reads one framed blob at `cursor`; nothing unless it is the blob that `file` names. */
  function ReadOne(bytes: Bytes, cursor: nat, file: Entry, header: Entry -> Bytes): (next: Option<nat>)
    requires cursor <= |bytes|
    ensures next.Some? ==> cursor + file.size + 1 < next.value <= |bytes| && bytes[next.value - 1 - file.size..next.value - 1] == file.blob
  {
    var newline := NewlineFrom(bytes, cursor);
    if newline == |bytes| || Ascii(bytes[cursor..newline]) != header(file) then None
    else
      var start := newline + 1;
      var end := start + file.size;
      if |bytes| <= end || bytes[start..end] != file.blob || bytes[end] != NEWLINE then None else Some(end + 1)
  }

  /** The line that ends at `n` introduces the file, and its blob and a newline follow. */
  predicate Framed(bytes: Bytes, file: Entry, header: Entry -> Bytes, n: nat) {
    && n + file.size + 1 < |bytes| && NEWLINE !in bytes[..n] && bytes[n] == NEWLINE && Ascii(bytes[..n]) == header(file)
    && bytes[n + 1..n + 1 + file.size] == file.blob && bytes[n + 1 + file.size] == NEWLINE
  }

  /** The reply is the header line and the blob of each file in turn, each ended by a newline, and nothing else. */
  predicate Answers(bytes: Bytes, batch: seq<Entry>, header: Entry -> Bytes)
    decreases |batch|
  {
    if batch == [] then bytes == []
    else
      var n := NewlineFrom(bytes, 0);
      Framed(bytes, batch[0], header, n) && n + 2 + batch[0].size <= |bytes| && Answers(bytes[n + 2 + batch[0].size..], batch[1..], header)
  }

  /** A framed blob is the same one in the whole and in what is left of it. */
  lemma FramedInTail(bytes: Bytes, cursor: nat, file: Entry, header: Entry -> Bytes, n: nat)
    requires cursor <= |bytes| && n + file.size + 1 < |bytes| - cursor
    ensures var tail, m := bytes[cursor..], cursor + n;
            && tail[..n] == bytes[cursor..m] && tail[n] == bytes[m] && tail[n + 1..n + 1 + file.size] == bytes[m + 1..m + 1 + file.size]
            && tail[n + 1 + file.size] == bytes[m + 1 + file.size] && tail[n + 2 + file.size..] == bytes[m + 2 + file.size..]
  {
    At(bytes, cursor, n);
    At(bytes, cursor, n + 1 + file.size);
    Slices(bytes, cursor, 0, n);
    Slices(bytes, cursor, n + 1, n + 1 + file.size);
  }

  lemma ReadingFrames(bytes: Bytes, cursor: nat, file: Entry, header: Entry -> Bytes)
    requires cursor <= |bytes|
    ensures var next, tail := ReadOne(bytes, cursor, file, header), bytes[cursor..];
            var n: nat := NewlineFrom(bytes, cursor) - cursor;
            && (next.Some? <==> Framed(tail, file, header, n)) && (next.Some? ==> tail[n + 2 + file.size..] == bytes[next.value..])
  {
    var m := NewlineFrom(bytes, cursor);
    var n: nat := m - cursor;
    assert NEWLINE !in bytes[cursor..m];
    if n + file.size + 1 < |bytes| - cursor { FramedInTail(bytes, cursor, file, header, n); }
    hide Ascii, NewlineFrom;
  }

  lemma ReadingAnswers(bytes: Bytes, cursor: nat, batch: seq<Entry>, header: Entry -> Bytes)
    requires cursor <= |bytes| && batch != []
    ensures var next := ReadOne(bytes, cursor, batch[0], header);
            Answers(bytes[cursor..], batch, header) <==> next.Some? && Answers(bytes[next.value..], batch[1..], header)
  {
    hide ReadOne, Framed, NewlineFrom, Answers;
    var next, tail := ReadOne(bytes, cursor, batch[0], header), bytes[cursor..];
    var n: nat := NewlineFrom(bytes, cursor) - cursor;
    TailNewline(bytes, cursor);
    ReadingFrames(bytes, cursor, batch[0], header);
    AnswersFirst(tail, batch, header, n);
    if Framed(tail, batch[0], header, n) { FramedFits(tail, batch[0], header, n); }
  }

  lemma AnswersFirst(bytes: Bytes, batch: seq<Entry>, header: Entry -> Bytes, n: nat)
    requires batch != [] && n == NewlineFrom(bytes, 0)
    ensures Answers(bytes, batch, header)
            <==> Framed(bytes, batch[0], header, n) && n + 2 + batch[0].size <= |bytes|
                 && Answers(bytes[n + 2 + batch[0].size..], batch[1..], header)
  {
    hide Framed, NewlineFrom;
  }

  lemma FramedFits(bytes: Bytes, file: Entry, header: Entry -> Bytes, n: nat)
    requires Framed(bytes, file, header, n)
    ensures n + 2 + file.size <= |bytes|
  {
  }

  lemma TailNewline(bytes: Bytes, cursor: nat)
    requires cursor <= |bytes|
    ensures NewlineFrom(bytes[cursor..], 0) == NewlineFrom(bytes, cursor) - cursor
  {
    var tail, n := bytes[cursor..], NewlineFrom(bytes, cursor) - cursor;
    forall k | 0 <= k < n ensures tail[k] != NEWLINE { assert tail[k] == bytes[cursor + k]; }
    NewlineAfterHeader(tail, n, 0);
  }

  /** Matches are looked for in what was received, which is what the files name. */
  method SearchBatch(batch: seq<Entry>, git: Git, matches: Bytes -> bool) returns (r: Found)
    ensures r.Found? ==> r.paths == Matching(batch, matches)
    ensures r.Found? <==> Answers(git.reply(batch), batch, git.header)
    ensures Honest(git, batch) ==> r.Found?
  {
    hide Honest, ReadOne, Printed, Answers;
    var bytes, found := git.reply(batch), [];
    var cursor: nat, i: nat := 0, 0;
    assert batch[0..] == batch && bytes[0..] == bytes;
    if Honest(git, batch) { HonestReply(git, batch); }
    while i < |batch|
      invariant 0 <= i <= |batch| && cursor <= |bytes|
      invariant found == Matching(batch[..i], matches)
      invariant Answers(bytes, batch, git.header) <==> Answers(bytes[cursor..], batch[i..], git.header)
      invariant Honest(git, batch) ==> bytes[cursor..] == Printed(batch[i..], git.header)
    {
      assert batch[i..][0] == batch[i] && batch[i..][1..] == batch[i + 1..];
      ReadingAnswers(bytes, cursor, batch[i..], git.header);
      var next := ReadOne(bytes, cursor, batch[i], git.header);
      if Honest(git, batch) { PrintedIsRead(bytes, cursor, batch, i, git); }
      if next.None? { return Invalid; }
      assert batch[..i + 1] == batch[..i] + [batch[i]];
      MatchingOfSplit(batch[..i], [batch[i]], matches);
      var content := bytes[next.value - 1 - batch[i].size..next.value - 1];
      if matches(content) { found := found + [batch[i].path]; }
      cursor, i := next.value, i + 1;
    }
    assert batch[..i] == batch && batch[i..] == [];
    NothingPrinted(git.header);
    NothingAnswers(bytes[cursor..], git.header);
    if cursor != |bytes| { return Invalid; }
    return Found(found);
  }

  lemma NothingAnswers(bytes: Bytes, header: Entry -> Bytes)
    ensures Answers(bytes, [], header) <==> bytes == []
  {
  }

  lemma HonestReply(git: Git, batch: seq<Entry>)
    requires Honest(git, batch)
    ensures git.reply(batch) == Printed(batch, git.header)
  {
  }

  lemma NothingPrinted(header: Entry -> Bytes)
    ensures Printed([], header) == []
  {
  }

  lemma {:induction false} HeaderEnds(bytes: Bytes, cursor: nat, n: nat)
    requires cursor <= n < |bytes| && bytes[n] == NEWLINE && forall k :: cursor <= k < n ==> bytes[k] != NEWLINE
    ensures NewlineFrom(bytes, cursor) == n
    decreases n - cursor
  {
    if cursor < n { HeaderEnds(bytes, cursor + 1, n); }
  }

  /** A framed blob at `cursor` is read. */
  lemma FramedIsRead(bytes: Bytes, cursor: nat, file: Entry, header: Entry -> Bytes, rest: Bytes)
    requires cursor <= |bytes| && bytes[cursor..] == header(file) + [NEWLINE] + file.blob + [NEWLINE] + rest && file.size == |file.blob|
    requires forall k :: 0 <= k < |header(file)| ==> header(file)[k] < 128 && header(file)[k] != NEWLINE
    ensures var next := ReadOne(bytes, cursor, file, header);
            next.Some? && bytes[next.value..] == rest
  {
    var h, b, n := header(file), file.blob, |header(file)|;
    var tail := bytes[cursor..];
    FrameParts(h, b, rest);
    HeaderIsRead(bytes, cursor, h, tail);
    Slices(bytes, cursor, 0, n);
    Slices(bytes, cursor, n + 1, n + 1 + |b|);
    SevenBits(h);
    At(bytes, cursor, n + 1 + |b|);
    hide NewlineFrom, Ascii;
    assert cursor + (n + 1 + |b| + 1) == cursor + n + 1 + |b| + 1;
  }

  lemma HeaderIsRead(bytes: Bytes, cursor: nat, h: Bytes, tail: Bytes)
    requires cursor <= |bytes| && bytes[cursor..] == tail && |h| < |tail| && tail[..|h|] == h && tail[|h|] == NEWLINE
    requires forall k :: 0 <= k < |h| ==> h[k] != NEWLINE
    ensures NewlineFrom(bytes, cursor) == cursor + |h|
  {
    forall k | cursor <= k < cursor + |h| ensures bytes[k] != NEWLINE { assert bytes[k] == tail[k - cursor] == h[k - cursor]; }
    assert bytes[cursor + |h|] == tail[|h|];
    HeaderEnds(bytes, cursor, cursor + |h|);
  }

  lemma At(bytes: Bytes, cursor: nat, i: nat)
    requires cursor <= |bytes| && i < |bytes| - cursor
    ensures bytes[cursor + i] == bytes[cursor..][i] && bytes[cursor + (i + 1)..] == bytes[cursor..][i + 1..]
  {
  }

  lemma Slices(bytes: Bytes, cursor: nat, a: nat, b: nat)
    requires cursor <= |bytes| && a <= b <= |bytes| - cursor
    ensures bytes[cursor + a..cursor + b] == bytes[cursor..][a..b]
  {
  }

  lemma FrameParts(h: Bytes, b: Bytes, rest: Bytes)
    ensures var t := h + [NEWLINE] + b + [NEWLINE] + rest;
            && t[..|h|] == h && t[|h|] == NEWLINE && t[|h| + 1..|h| + 1 + |b|] == b
            && t[|h| + 1 + |b|] == NEWLINE && t[|h| + 1 + |b| + 1..] == rest
            && forall k :: 0 <= k < |h| ==> t[k] == h[k]
  {
  }

  lemma PrintedIsRead(bytes: Bytes, cursor: nat, batch: seq<Entry>, i: nat, git: Git)
    requires Honest(git, batch) && i < |batch| && cursor <= |bytes| && bytes[cursor..] == Printed(batch[i..], git.header)
    ensures var next := ReadOne(bytes, cursor, batch[i], git.header);
            next.Some? && cursor < next.value <= |bytes| && bytes[next.value..] == Printed(batch[i + 1..], git.header)
  {
    hide ReadOne;
    assert batch[i..][0] == batch[i] && batch[i..][1..] == batch[i + 1..];
    FramedIsRead(bytes, cursor, batch[i], git.header, Printed(batch[i + 1..], git.header));
  }

  lemma HonestPart(git: Git, files: seq<Entry>, start: nat, end: nat)
    requires Honest(git, files) && start <= end <= |files|
    ensures Honest(git, files[start..end])
  {
    var part := files[start..end];
    assert forall i :: 0 <= i < |part| ==> part[i] == files[start + i];
  }

  // ---------- The search ----------

  function Joined(batches: seq<seq<Entry>>): seq<Entry> {
    if batches == [] then [] else Joined(batches[..|batches| - 1]) + batches[|batches| - 1]
  }

  lemma NothingAsked(selected: seq<Entry>, matches: Bytes -> bool)
    ensures Joined([]) == selected[..0] && Matching(selected[..0], matches) == []
  {
  }

  lemma OneMoreBatch(batches: seq<seq<Entry>>, batch: seq<Entry>)
    ensures Joined(batches + [batch]) == Joined(batches) + batch
  {
    assert (batches + [batch])[..|batches|] == batches;
  }

  /** `batches` is the list of batches asked for: it cuts the selected files, all of them when the search succeeds. */
  method SearchFiles(selected: seq<Entry>, git: Git, matches: Bytes -> bool) returns (r: Found, ghost batches: seq<seq<Entry>>)
    ensures r.Found? ==> r.paths == Matching(selected, matches)
    ensures Honest(git, selected) ==> r.Found?
    ensures forall k :: 0 <= k < |batches| ==> Fits(batches[k])
    ensures Joined(batches) <= selected && (r.Found? ==> Joined(batches) == selected)
  {
    hide Honest, Matching, Fits, Total, Joined;
    var start, found := 0, [];
    batches := [];
    NothingAsked(selected, matches);
    while start < |selected|
      invariant 0 <= start <= |selected| && found == Matching(selected[..start], matches)
      invariant forall k :: 0 <= k < |batches| ==> Fits(batches[k])
      invariant Joined(batches) == selected[..start]
    {
      var end := NextBatch(selected, start);
      var batch := selected[start..end];
      assert selected[..end] == selected[..start] + batch;
      OneMoreBatch(batches, batch);
      batches := batches + [batch];
      if Honest(git, selected) { HonestPart(git, selected, start, end); }
      var part := SearchBatch(batch, git, matches);
      if part.Invalid? { return Invalid, batches; }
      MatchingOfSplit(selected[..start], batch, matches);
      found := found + part.paths;
      start := end;
    }
    assert selected[..start] == selected;
    r := Found(found);
  }
}
