/**
  Readers of framed streams: lines of a child process (dws-runner.js), replies of `git cat-file
  --batch` arriving in chunks (agent-query-resources.js), and batched replies searched for a text
  (execution-candidate.js).  None of them depends on where the stream or the request is cut.
*/
module Readers {
  import opened Wrappers

  type Bytes = seq<nat>

  const NEWLINE: nat := 10
  const RETURN: nat := 13

  function Concat(chunks: seq<Bytes>): Bytes {
    if chunks == [] then [] else Concat(chunks[..|chunks| - 1]) + chunks[|chunks| - 1]
  }

  /** The first index of a newline from `i` on, or the length. */
  function NewlineFrom(t: Bytes, i: nat): (n: nat)
    requires i <= |t|
    ensures i <= n <= |t| && (n < |t| ==> t[n] == NEWLINE) && forall k :: i <= k < n ==> t[k] != NEWLINE
    decreases |t| - i
  {
    if i == |t| || t[i] == NEWLINE then i else NewlineFrom(t, i + 1)
  }

  // ---------- Lines ----------

  function WithoutReturn(line: Bytes): Bytes {
    if line != [] && line[|line| - 1] == RETURN then line[..|line| - 1] else line
  }

  /** The text cut at every newline, each taking a carriage return just before it with it. */
  function Split(t: Bytes): (lines: seq<Bytes>)
    ensures |lines| > 0
    decreases |t|
  {
    var n := NewlineFrom(t, 0);
    if n == |t| then [t] else [WithoutReturn(t[..n])] + Split(t[n + 1..])
  }

  function NonEmpty(lines: seq<Bytes>): seq<Bytes> {
    if lines == [] then [] else (if lines[0] == [] then [] else [lines[0]]) + NonEmpty(lines[1..])
  }

  lemma FirstLine(a: Bytes, b: Bytes)
    requires NewlineFrom(a, 0) < |a|
    ensures var n := NewlineFrom(a, 0);
            Split(a) == [WithoutReturn(a[..n])] + Split(a[n + 1..])
            && Split(a + b) == [WithoutReturn(a[..n])] + Split(a[n + 1..] + b)
  {
    hide WithoutReturn;
    var n := NewlineFrom(a, 0);
    FirstNewline(a, b, 0);
    assert (a + b)[..n] == a[..n] && (a + b)[n + 1..] == a[n + 1..] + b;
  }

  /** Cutting a text in two cuts only its last line in two. */
  lemma {:induction false} SplitOfConcat(a: Bytes, b: Bytes)
    ensures Split(a + b) == Split(a)[..|Split(a)| - 1] + Split(Split(a)[|Split(a)| - 1] + b)
    decreases |a|
  {
    var n := NewlineFrom(a, 0);
    if n < |a| {
      var line, rest := WithoutReturn(a[..n]), a[n + 1..];
      FirstLine(a, b);
      SplitOfConcat(rest, b);
      hide Split, WithoutReturn;
      JoinedAfter(line, Split(rest), Split(Split(rest)[|Split(rest)| - 1] + b));
    }
  }

  lemma JoinedAfter(line: Bytes, lines: seq<Bytes>, cut: seq<Bytes>)
    requires lines != []
    ensures var all := [line] + lines;
            all[|all| - 1] == lines[|lines| - 1] && [line] + (lines[..|lines| - 1] + cut) == all[..|all| - 1] + cut
  {
  }

  lemma {:induction false} FirstNewline(a: Bytes, b: Bytes, i: nat)
    requires i <= |a| && NewlineFrom(a, i) < |a|
    ensures NewlineFrom(a + b, i) == NewlineFrom(a, i)
    decreases |a| - i
  {
    assert (a + b)[i] == a[i];
    if a[i] != NEWLINE { FirstNewline(a, b, i + 1); }
  }

  lemma {:induction false} NonEmptyOfConcat(a: seq<Bytes>, b: seq<Bytes>)
    ensures NonEmpty(a + b) == NonEmpty(a) + NonEmpty(b)
    decreases |a|
  {
    if a == [] {
      assert a + b == b;
    } else {
      assert (a + b)[1..] == a[1..] + b;
      NonEmptyOfConcat(a[1..], b);
    }
  }

  class LineReader {
    var buffer: Bytes
    var lines: seq<Bytes>

    constructor ()
      ensures Read([])
    {
      buffer, lines := [], [];
    }

    /** What has been delivered and what is kept, after all of `text` has arrived. */
    ghost predicate Read(text: Bytes)
      reads this
    {
      var all := Split(text);
      lines == NonEmpty(all[..|all| - 1]) && buffer == all[|all| - 1]
    }

    method OnData(chunk: Bytes, ghost text: Bytes)
      requires Read(text)
      modifies this
      ensures Read(text + chunk)
    {
      hide Split;
      ghost var before := Split(text);
      SplitOfConcat(text, chunk);
      var cut := Split(buffer + chunk);
      ghost var after := Split(text + chunk);
      assert after[..|after| - 1] == before[..|before| - 1] + cut[..|cut| - 1] && after[|after| - 1] == cut[|cut| - 1];
      NonEmptyOfConcat(before[..|before| - 1], cut[..|cut| - 1]);
      buffer := cut[|cut| - 1];
      Deliver(cut[..|cut| - 1]);
    }

    method Deliver(cut: seq<Bytes>)
      modifies this`lines
      ensures lines == old(lines) + NonEmpty(cut)
    {
      var i := 0;
      while i < |cut|
        invariant 0 <= i <= |cut| && lines + NonEmpty(cut[i..]) == old(lines) + NonEmpty(cut)
      {
        assert cut[i..][1..] == cut[i + 1..];
        if cut[i] != [] { lines := lines + [cut[i]]; }
        i := i + 1;
      }
    }

    method OnEnd(ghost text: Bytes)
      requires Read(text)
      modifies this
      ensures lines == NonEmpty(Split(text))
    {
      ghost var all := Split(text);
      assert all == all[..|all| - 1] + [all[|all| - 1]];
      NonEmptyOfConcat(all[..|all| - 1], [all[|all| - 1]]);
      if buffer != [] { lines := lines + [buffer]; }
    }
  }

  /** However a text is cut into chunks, its lines come out the same. */
  method ReadLines(chunks: seq<Bytes>) returns (lines: seq<Bytes>)
    ensures lines == NonEmpty(Split(Concat(chunks)))
  {
    var reader := new LineReader();
    var i := 0;
    while i < |chunks|
      invariant 0 <= i <= |chunks| && reader.Read(Concat(chunks[..i]))
    {
      assert chunks[..i + 1][..i] == chunks[..i];
      reader.OnData(chunks[i], Concat(chunks[..i]));
      i := i + 1;
    }
    assert chunks[..i] == chunks;
    reader.OnEnd(Concat(chunks));
    lines := reader.lines;
  }

  // ---------- One reply of a batch process ----------

  const LIMIT: nat := 4 * 1024 * 1024
  const BLOB: Bytes := [32, 98, 108, 111, 98, 32]

  /** Decoding as ASCII drops the high bit of every byte. */
  function Ascii(t: Bytes): Bytes {
    seq(|t|, i requires 0 <= i < |t| => t[i] % 128)
  }

  predicate HexDigit(u: nat) {
    48 <= u < 58 || 97 <= u < 103
  }

  function HexLength(t: Bytes): (n: nat)
    ensures n <= |t|
  {
    if t == [] || !HexDigit(t[0]) then 0 else 1 + HexLength(t[1..])
  }

  function Decimal(t: Bytes): Option<nat> {
    if t == [] then Some(0)
    else if !(48 <= t[|t| - 1] < 58) then None
    else
      var front := Decimal(t[..|t| - 1]);
      if front.None? then None else Some(front.value * 10 + t[|t| - 1] - 48)
  }

  /** 40 to 64 hexadecimal digits, the word blob, and a decimal size. */
  function HeaderSize(header: Bytes): Option<nat> {
    var t := Ascii(header);
    var n := HexLength(t);
    if n < 40 || 64 < n || |t| < n + 7 || t[n..n + 6] != BLOB then None else Decimal(t[n + 6..])
  }

  predicate IsHeader(header: Bytes, size: nat) {
    HeaderSize(header) == Some(size) && forall i :: 0 <= i < |header| ==> header[i] != NEWLINE
  }

  function Reply(header: Bytes, content: Bytes): Bytes {
    header + [NEWLINE] + content + [NEWLINE]
  }

  datatype Outcome = Waiting | Resolved(content: Bytes) | Rejected

  /** `size` is known once the header is complete; nothing is pending after the reply or a refusal. */
  datatype Blob = Blob(pending: bool, size: Option<nat>, buffer: Bytes, outcome: Outcome)

  const Requested := Blob(true, None, [], Waiting)

  function Refuse(s: Blob): Blob {
    s.(pending := false, outcome := if s.pending then Rejected else s.outcome)
  }

  function Arrive(s0: Blob, chunk: Bytes): Blob {
    var s := s0.(buffer := s0.buffer + chunk);
    if !s.pending then s
    else if s.size.Some? then Finish(s)
    else
      var n := NewlineFrom(s.buffer, 0);
      if n == |s.buffer| then if 1024 < n then Refuse(s) else s
      else
        var size := HeaderSize(s.buffer[..n]);
        if size.None? || LIMIT < size.value then Refuse(s) else Finish(s.(size := size, buffer := s.buffer[n + 1..]))
  }

  function Finish(s: Blob): Blob
    requires s.size.Some?
  {
    var size := s.size.value;
    if |s.buffer| < size + 1 then s
    else if |s.buffer| != size + 1 || s.buffer[size] != NEWLINE then Refuse(s)
    else s.(pending := false, buffer := [], outcome := Resolved(s.buffer[..size]))
  }

  function ArriveAll(s: Blob, chunks: seq<Bytes>): Blob {
    if chunks == [] then s else Arrive(ArriveAll(s, chunks[..|chunks| - 1]), chunks[|chunks| - 1])
  }

  class BlobReader {
    var pending: bool
    var size: Option<nat>
    var buffer: Bytes
    var outcome: Outcome

    constructor ()
      ensures View() == Requested
    {
      pending, size, buffer, outcome := true, None, [], Waiting;
    }

    function View(): Blob
      reads this
    {
      Blob(pending, size, buffer, outcome)
    }

    method Reject()
      modifies this
      ensures View() == Refuse(old(View()))
    {
      if pending { outcome, pending := Rejected, false; }
    }

    method OnData(chunk: Bytes)
      modifies this
      ensures View() == Arrive(old(View()), chunk)
    {
      buffer := buffer + chunk;
      if !pending { return; }
      if size.None? {
        var n := NewlineFrom(buffer, 0);
        if n == |buffer| {
          if 1024 < |buffer| { Reject(); }
          return;
        }
        var found := HeaderSize(buffer[..n]);
        if found.None? || LIMIT < found.value {
          Reject();
          return;
        }
        size, buffer := found, buffer[n + 1..];
      }
      if size.value + 1 <= |buffer| {
        if |buffer| != size.value + 1 || buffer[size.value] != NEWLINE {
          Reject();
          return;
        }
        pending, outcome := false, Resolved(buffer[..size.value]);
        buffer := [];
      }
    }
  }

  // ---------- Chunks do not matter ----------

  /** Where the reader stands when part of a reply has arrived. */
  function Midway(header: Bytes, content: Bytes, seen: Bytes): Blob {
    if |seen| <= |header| then Blob(true, None, seen, Waiting)
    else if |seen| < |Reply(header, content)| then Blob(true, Some(|content|), seen[|header| + 1..], Waiting)
    else Blob(false, Some(|content|), [], Resolved(content))
  }

  lemma {:induction false} NewlineAfterHeader(t: Bytes, n: nat, i: nat)
    requires i <= n <= |t| && (forall k :: 0 <= k < n ==> t[k] != NEWLINE) && (n < |t| ==> t[n] == NEWLINE)
    ensures NewlineFrom(t, i) == n
    decreases n - i
  {
    if i < n { NewlineAfterHeader(t, n, i + 1); }
  }

  lemma OneMoreChunk(header: Bytes, content: Bytes, seen: Bytes, chunk: Bytes)
    requires IsHeader(header, |content|) && chunk != []
    requires |seen| < |Reply(header, content)| && seen + chunk <= Reply(header, content)
    requires |content| <= LIMIT || |seen| <= |header|
    ensures var s := Arrive(Midway(header, content, seen), chunk);
            if Refused(header, content, seen + chunk) then !s.pending && s.outcome.Rejected? else s == Midway(header, content, seen + chunk)
  {
    hide HeaderSize, NewlineFrom;
    var reply, all := Reply(header, content), seen + chunk;
    assert forall k :: 0 <= k < |all| ==> all[k] == reply[k];
    if |seen| <= |header| {
      if |all| <= |header| {
        NewlineAfterHeader(all, |all|, 0);
      } else {
        NewlineAfterHeader(all, |header|, 0);
        assert all[..|header|] == header;
        LastPart(header, content, all);
      }
    } else {
      assert seen[|header| + 1..] + chunk == all[|header| + 1..];
      LastPart(header, content, all);
    }
  }

  lemma LastPart(header: Bytes, content: Bytes, all: Bytes)
    requires |header| < |all| && all <= Reply(header, content)
    ensures Finish(Blob(true, Some(|content|), all[|header| + 1..], Waiting)) == Midway(header, content, all)
  {
    var rest := all[|header| + 1..];
    if |all| == |Reply(header, content)| {
      assert rest == content + [NEWLINE];
      assert rest[..|content|] == content;
    }
  }

  /** What has arrived makes the reader give up: a header that is still open after 1024 bytes, or a size over the limit. */
  predicate Refused(header: Bytes, content: Bytes, seen: Bytes) {
    1024 < |seen| <= |header| || (LIMIT < |content| && |header| < |seen|)
  }

  predicate LateAt(header: Bytes, chunks: seq<Bytes>, i: nat)
    requires i <= |chunks|
  {
    1024 < |Concat(chunks[..i])| <= |header|
  }

  /** A chunk ends after 1024 bytes and inside the header. */
  ghost predicate CutLate(header: Bytes, chunks: seq<Bytes>) {
    exists i :: 0 <= i <= |chunks| && LateAt(header, chunks, i)
  }

  lemma CutByLast(header: Bytes, chunks: seq<Bytes>)
    requires chunks != []
    ensures CutLate(header, chunks) <==> CutLate(header, chunks[..|chunks| - 1]) || 1024 < |Concat(chunks)| <= |header|
  {
    var n, front := |chunks| - 1, chunks[..|chunks| - 1];
    assert LateAt(header, chunks, n + 1) <==> 1024 < |Concat(chunks)| <= |header| by { assert chunks[..n + 1] == chunks; }
    forall i | 0 <= i <= n ensures LateAt(header, front, i) <==> LateAt(header, chunks, i) { assert front[..i] == chunks[..i]; }
    hide LateAt, Concat;
    if i :| 0 <= i <= n && LateAt(header, front, i) { assert LateAt(header, chunks, i); }
    if i :| 0 <= i <= n + 1 && LateAt(header, chunks, i) { assert i <= n ==> LateAt(header, front, i); }
  }

  /** Where the reader stands after any chunks of a reply. */
  lemma {:induction false} ChunksAreRead(header: Bytes, content: Bytes, chunks: seq<Bytes>)
    requires IsHeader(header, |content|) && NoneEmpty(chunks) && Concat(chunks) <= Reply(header, content)
    ensures var s := ArriveAll(Requested, chunks);
            if CutLate(header, chunks) || (LIMIT < |content| && |header| < |Concat(chunks)|)
            then !s.pending && s.outcome.Rejected? else s == Midway(header, content, Concat(chunks))
    decreases |chunks|
  {
    hide IsHeader, CutLate;
    if chunks == [] {
      assert !CutLate(header, []) by { NothingCut(header); }
    } else {
      var front, last := chunks[..|chunks| - 1], chunks[|chunks| - 1];
      assert |Concat(front)| < |Concat(chunks)|;
      CutByLast(header, chunks);
      ChunksAreRead(header, content, front);
      if !CutLate(header, front) && (|content| <= LIMIT || |Concat(front)| <= |header|) {
        OneMoreChunk(header, content, Concat(front), last);
      }
    }
  }

  lemma NothingCut(header: Bytes)
    ensures !CutLate(header, [])
  {
  }

  predicate NoneEmpty(chunks: seq<Bytes>) {
    forall i :: 0 <= i < |chunks| ==> chunks[i] != []
  }

  /** A reply cut into chunks yields its content exactly when it is within the limit and no chunk ends late in its header;
      otherwise it is refused. */
  lemma ChunksYieldContent(header: Bytes, content: Bytes, chunks: seq<Bytes>)
    requires IsHeader(header, |content|) && NoneEmpty(chunks) && Concat(chunks) == Reply(header, content)
    ensures ArriveAll(Requested, chunks).outcome == if |content| <= LIMIT && !CutLate(header, chunks) then Resolved(content) else Rejected
  {
    ChunksAreRead(header, content, chunks);
  }

  ghost predicate AlwaysYields(header: Bytes, content: Bytes) {
    forall chunks :: NoneEmpty(chunks) && Concat(chunks) == Reply(header, content) ==> ArriveAll(Requested, chunks).outcome == Resolved(content)
  }

  /** Every cutting of a reply within the limit yields its content exactly when its header has at most 1024 bytes. */
  lemma HeaderLimitIsExact(header: Bytes, content: Bytes)
    requires IsHeader(header, |content|) && |content| <= LIMIT
    ensures AlwaysYields(header, content) <==> |header| <= 1024
  {
    hide IsHeader, ArriveAll;
    if |header| <= 1024 {
      forall chunks | NoneEmpty(chunks) && Concat(chunks) == Reply(header, content)
        ensures ArriveAll(Requested, chunks).outcome == Resolved(content)
      {
        ChunksYieldContent(header, content, chunks);
      }
    } else {
      var chunks := [header, [NEWLINE] + content + [NEWLINE]];
      HeaderThenRest(header, content);
      ChunksYieldContent(header, content, chunks);
    }
  }

  lemma HeaderThenRest(header: Bytes, content: Bytes)
    ensures var chunks := [header, [NEWLINE] + content + [NEWLINE]];
            Concat(chunks) == Reply(header, content) && (1024 < |header| ==> NoneEmpty(chunks) && CutLate(header, chunks))
  {
    var chunks := [header, [NEWLINE] + content + [NEWLINE]];
    var none: seq<Bytes> := [];
    assert chunks[..1] == [header] && chunks[..1][..0] == none;
    assert Concat(chunks[..1]) == header;
    assert LateAt(header, chunks, 1) <==> 1024 < |header|;
  }

  // ---------- Nothing else is taken for a reply ----------

  ghost predicate IsReply(t: Bytes, content: Bytes) {
    exists header :: IsHeader(header, |content|) && t == Reply(header, content)
  }

  /** What the reader knows after `seen` has arrived. */
  ghost predicate Tracks(s: Blob, seen: Bytes) {
    match s.outcome
    case Waiting =>
      s.pending && if s.size.None? then s.buffer == seen && forall i :: 0 <= i < |seen| ==> seen[i] != NEWLINE
                   else exists header :: IsHeader(header, s.size.value) && seen == header + [NEWLINE] + s.buffer
    case Resolved(content) => !s.pending && exists k :: 0 <= k <= |seen| && IsReply(seen[..k], content)
    case Rejected => !s.pending
  }

  lemma FinishTracks(s: Blob, header: Bytes, seen: Bytes)
    requires s.pending && s.outcome.Waiting? && s.size.Some? && IsHeader(header, s.size.value) && seen == header + [NEWLINE] + s.buffer
    ensures Tracks(Finish(s), seen)
  {
    var size := s.size.value;
    if |s.buffer| == size + 1 && s.buffer[size] == NEWLINE {
      var content := s.buffer[..size];
      assert s.buffer == content + [NEWLINE];
      assert seen == Reply(header, content) && seen[..|seen|] == seen;
      assert IsReply(seen[..|seen|], content);
    }
  }

  lemma ArrivalTracks(s: Blob, seen: Bytes, chunk: Bytes)
    requires Tracks(s, seen)
    ensures Tracks(Arrive(s, chunk), seen + chunk)
  {
    hide HeaderSize, Finish, IsReply;
    var buffer := s.buffer + chunk;
    if s.pending && s.size.Some? {
      var header :| IsHeader(header, s.size.value) && seen == header + [NEWLINE] + s.buffer;
      assert seen + chunk == header + [NEWLINE] + buffer;
      FinishTracks(s.(buffer := buffer), header, seen + chunk);
    } else if s.pending {
      var n := NewlineFrom(buffer, 0);
      if n < |buffer| && HeaderSize(buffer[..n]).Some? {
        assert buffer == buffer[..n] + [NEWLINE] + buffer[n + 1..];
        FinishTracks(s.(size := HeaderSize(buffer[..n]), buffer := buffer[n + 1..]), buffer[..n], seen + chunk);
      }
    } else if s.outcome.Resolved? {
      var k :| 0 <= k <= |seen| && IsReply(seen[..k], s.outcome.content);
      assert (seen + chunk)[..k] == seen[..k];
    }
  }

  /** Whatever arrives, a content is resolved only when what had arrived by then was a reply with that content. */
  lemma {:induction false} OnlyRepliesResolve(chunks: seq<Bytes>)
    ensures Tracks(ArriveAll(Requested, chunks), Concat(chunks))
    decreases |chunks|
  {
    if chunks != [] {
      OnlyRepliesResolve(chunks[..|chunks| - 1]);
      ArrivalTracks(ArriveAll(Requested, chunks[..|chunks| - 1]), Concat(chunks[..|chunks| - 1]), chunks[|chunks| - 1]);
    }
  }

  // ---------- Longer headers ----------

  function Repeat(u: nat, n: nat): Bytes {
    seq(n, i => u)
  }

  /** A header for an empty blob whose size is written with n + 1 zeros. */
  function Padded(n: nat): Bytes {
    Repeat(97, 40) + BLOB + Repeat(48, n + 1)
  }

  lemma {:induction false} ZerosAreZero(n: nat)
    ensures Decimal(Repeat(48, n)) == Some(0)
    decreases n
  {
    if 0 < n {
      ZerosAreZero(n - 1);
      assert Repeat(48, n)[..n - 1] == Repeat(48, n - 1);
    }
  }

  lemma {:induction false} HexRun(t: Bytes, n: nat)
    requires n < |t| && !HexDigit(t[n]) && forall i :: 0 <= i < n ==> HexDigit(t[i])
    ensures HexLength(t) == n
    decreases n
  {
    if 0 < n { HexRun(t[1..], n - 1); }
  }

  lemma PaddedParts(n: nat)
    ensures var t := Padded(n);
            Ascii(t) == t && |t| == 47 + n && t[40..46] == BLOB && t[46..] == Repeat(48, n + 1)
            && t[40] == 32 && forall i :: 0 <= i < 40 ==> t[i] == 97
  {
    var a, z := Repeat(97, 40), Repeat(48, n + 1);
    hide Repeat;
    assert |a| == 40 && (forall i :: 0 <= i < 40 ==> a[i] == 97) by { Repeated(97, 40); }
    assert |z| == n + 1 && (forall i :: 0 <= i < n + 1 ==> z[i] == 48) by { Repeated(48, n + 1); }
    ThreeParts(a, BLOB, z);
    assert forall i :: 0 <= i < |BLOB| ==> BLOB[i] < 128;
    SevenBits(Padded(n));
  }

  lemma Repeated(u: nat, n: nat)
    ensures |Repeat(u, n)| == n && forall i :: 0 <= i < n ==> Repeat(u, n)[i] == u
  {
  }

  lemma ThreeParts(a: Bytes, b: Bytes, c: Bytes)
    ensures var t := a + b + c;
            && |t| == |a| + |b| + |c| && t[|a|..|a| + |b|] == b && t[|a| + |b|..] == c
            && forall i :: 0 <= i < |t| ==> t[i] == if i < |a| then a[i] else if i < |a| + |b| then b[i - |a|] else c[i - |a| - |b|]
  {
  }

  lemma SevenBits(t: Bytes)
    requires forall i :: 0 <= i < |t| ==> t[i] < 128
    ensures Ascii(t) == t
  {
  }

  lemma PaddedIsHeader(n: nat)
    ensures IsHeader(Padded(n), 0)
  {
    PaddedParts(n);
    ZerosAreZero(n + 1);
    hide Padded, Ascii, Repeat, Decimal;
    var t := Padded(n);
    HexRun(t, 40);
    assert forall i :: 46 <= i < |t| ==> t[i] == t[46..][i - 46];
    PaddedHasNoNewline(n);
  }

  lemma PaddedHasNoNewline(n: nat)
    ensures forall i :: 0 <= i < |Padded(n)| ==> Padded(n)[i] != NEWLINE
  {
  }

  /** Such headers of more than 1024 bytes exist: their replies are read whole, and refused when cut after the header. */
  lemma LongHeadersDependOnChunks(n: nat)
    requires 1024 < |Padded(n)|
    ensures IsHeader(Padded(n), 0) && !AlwaysYields(Padded(n), [])
    ensures ArriveAll(Requested, [Reply(Padded(n), [])]).outcome == Resolved([])
    ensures ArriveAll(Requested, [Padded(n), [NEWLINE] + [] + [NEWLINE]]).outcome == Rejected
  {
    var header := Padded(n);
    PaddedIsHeader(n);
    hide IsHeader, Padded, ArriveAll;
    HeaderLimitIsExact(header, []);
    OneChunk(Reply(header, []));
    assert !CutLate(header, [Reply(header, [])]);
    ChunksYieldContent(header, [], [Reply(header, [])]);
    HeaderThenRest(header, []);
    ChunksYieldContent(header, [], [header, [NEWLINE] + [] + [NEWLINE]]);
  }

  lemma OneChunk(t: Bytes)
    ensures Concat([t]) == t && Concat([t][..0]) == [] && Concat([t][..1]) == t
  {
    var none: seq<Bytes> := [];
    assert [t][..0] == none && [t][..1] == [t];
  }
}
