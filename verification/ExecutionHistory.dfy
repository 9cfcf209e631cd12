/** Which execution histories are accepted, said of the records themselves. */
module ExecutionHistory {
  import opened Wrappers
  import opened ExecutionLog

  /** The start that a record belongs to: the last one up to it. */
  predicate Governs(records: seq<Event>, j: nat, i: nat) {
    j <= i < |records| && records[j].kind.Start? && forall k :: j < k <= i ==> !records[k].kind.Start?
  }

  predicate Raises(earlier: Binding, b: Binding) {
    earlier.input.version <= b.input.version && earlier.lease < b.lease
  }

  /** Every earlier start had a smaller lease and no larger version. */
  predicate RaisesAll(records: seq<Event>, i: nat, b: Binding)
    requires i <= |records|
  {
    forall j :: 0 <= j < i && records[j].kind.Start? ==> Raises(records[j].binding, b)
  }

  ghost predicate Belongs(records: seq<Event>, i: nat, b: Binding) {
    exists j: nat :: Governs(records, j, i) && records[j].binding == b
  }

  /** The input of the claim, or the first that it lists for that version. */
  ghost predicate Known(claim: Claim, input: Input) {
    if input.version == claim.binding.input.version then input == claim.binding.input
    else exists i :: 0 <= i < |claim.inputs| && claim.inputs[i] == input && forall k :: 0 <= k < i ==> claim.inputs[k].version != input.version
  }

  lemma {:induction false} FirstOfItsVersion(inputs: seq<Input>, input: Input)
    ensures FindInput(inputs, input.version) == Some(input)
            <==> exists i :: 0 <= i < |inputs| && inputs[i] == input && forall k :: 0 <= k < i ==> inputs[k].version != input.version
    decreases |inputs|
  {
    if inputs != [] && inputs[0].version != input.version {
      var rest := inputs[1..];
      FirstOfItsVersion(rest, input);
      if i :| 0 <= i < |rest| && rest[i] == input && forall k :: 0 <= k < i ==> rest[k].version != input.version {
        forall k | 0 <= k < i + 1 ensures inputs[k].version != input.version { assert 0 < k ==> inputs[k] == rest[k - 1]; }
        assert inputs[i + 1] == input;
      }
      if i :| 0 <= i < |inputs| && inputs[i] == input && forall k :: 0 <= k < i ==> inputs[k].version != input.version {
        assert rest[i - 1] == input && forall k :: 0 <= k < i - 1 ==> rest[k] == inputs[k + 1];
      }
    } else if inputs != [] && inputs[0] == input {
      assert inputs[0] == input;
    }
  }

  lemma KnownIsExpected(claim: Claim, input: Input)
    ensures Known(claim, input) <==> Expected(claim, input.version) == Some(input)
  {
    FirstOfItsVersion(claim.inputs, input);
  }

  /** Numbered on, and of this execution; a start is of a known input and raises every start before it, and any other record has the
      binding of the start that it belongs to. */
  ghost predicate RecordSound(records: seq<Event>, claim: Claim, i: nat)
    requires i < |records|
  {
    var e := records[i];
    && e.provider == PROVIDER && e.binding.taskId == claim.binding.taskId && e.binding.executionId == claim.binding.executionId
    && e.binding.sessionId == claim.binding.sessionId && e.sequence == i + 1
    && if e.kind.Start? then
         && 1 <= e.binding.input.version <= claim.binding.input.version && 1 <= e.binding.lease <= claim.binding.lease
         && Known(claim, e.binding.input) && RaisesAll(records, i, e.binding)
       else Belongs(records, i, e.binding)
  }

  ghost predicate Sound(records: seq<Event>, claim: Claim) {
    forall i :: 0 <= i < |records| ==> RecordSound(records, claim, i)
  }

  // ---------- The last start ----------

  lemma {:induction false} LastStartGoverns(records: seq<Event>) returns (j: nat)
    requires records != []
    ensures LastStart(records).Some? ==> Governs(records, j, |records| - 1) && records[j].binding == LastStart(records).value
    ensures LastStart(records).None? ==> forall k :: 0 <= k < |records| ==> !records[k].kind.Start?
    decreases |records|
  {
    var n: nat := |records| - 1;
    j := n;
    if n == 0 { assert LastStart(records[..n]).None?; }
    if !records[n].kind.Start? && 0 < n {
      var front := records[..n];
      j := LastStartGoverns(front);
      assert LastStart(records) == LastStart(front);
      if LastStart(records).Some? {
        assert front[j] == records[j];
        forall k | j < k <= n ensures !records[k].kind.Start? { assert k < n ==> front[k] == records[k]; }
      } else {
        forall k | 0 <= k < |records| ensures !records[k].kind.Start? { assert k < n ==> front[k] == records[k]; }
      }
    }
  }

  lemma SameGoverns(front: seq<Event>, last: Event, i: nat, b: Binding)
    requires i < |front|
    ensures Belongs(front + [last], i, b) <==> Belongs(front, i, b)
    ensures RaisesAll(front + [last], i, b) <==> RaisesAll(front, i, b)
  {
    var records := front + [last];
    assert forall j :: 0 <= j <= i ==> records[j] == front[j];
    if Belongs(records, i, b) {
      var j: nat :| Governs(records, j, i) && records[j].binding == b;
      assert Governs(front, j, i);
    }
    if Belongs(front, i, b) {
      var j: nat :| Governs(front, j, i) && front[j].binding == b;
      assert Governs(records, j, i);
    }
  }

  lemma PrefixSound(front: seq<Event>, last: Event, claim: Claim)
    ensures Sound(front + [last], claim) <==> Sound(front, claim) && RecordSound(front + [last], claim, |front|)
  {
    var records := front + [last];
    forall i | 0 <= i < |front| ensures RecordSound(records, claim, i) <==> RecordSound(front, claim, i) {
      SameGoverns(front, last, i, front[i].binding);
      hide Belongs, RaisesAll, Known;
    }
    hide RecordSound;
  }

  /** The last start of a sound history has the largest lease and the latest version so far. */
  lemma LastStartIsLargest(records: seq<Event>, claim: Claim, j: nat)
    requires Sound(records, claim) && j < |records| && records[j].kind.Start?
    ensures LastStart(records).Some? && (records[j].binding == LastStart(records).value || Raises(records[j].binding, LastStart(records).value))
  {
    var k := LastStartGoverns(records);
    hide LastStart, Known, Belongs;
    assert RecordSound(records, claim, k);
    hide Sound;
  }

  lemma StartSound(front: seq<Event>, claim: Claim, b: Binding)
    requires Sound(front, claim)
    ensures (LastStart(front).Some? ==> Raises(LastStart(front).value, b)) <==> RaisesAll(front, |front|, b)
  {
    if front != [] {
      var k := LastStartGoverns(front);
      forall j | 0 <= j < |front| && front[j].kind.Start?
        ensures LastStart(front).Some? && (front[j].binding == LastStart(front).value || Raises(front[j].binding, LastStart(front).value))
      {
        LastStartIsLargest(front, claim, j);
      }
    }
    hide LastStart, Sound;
  }

  lemma OtherSound(front: seq<Event>, last: Event)
    requires !last.kind.Start?
    ensures LastStart(front) == Some(last.binding) <==> Belongs(front + [last], |front|, last.binding)
  {
    var records := front + [last];
    assert records[..|front|] == front && LastStart(records) == LastStart(front);
    var k := LastStartGoverns(records);
    hide LastStart;
  }

  lemma LastSound(front: seq<Event>, last: Event, claim: Claim)
    requires Sound(front, claim)
    ensures RecordsError([last], claim, |front|, StartAfter(front, None)).None? <==> RecordSound(front + [last], claim, |front|)
  {
    assert [last][1..] == [] && RecordsError([], claim, |front| + 1, StartAfter(front, None)).None?;
    if last.kind.Start? {
      StartSound(front, claim, last.binding);
      KnownIsExpected(claim, last.binding.input);
      assert forall j :: 0 <= j < |front| ==> (front + [last])[j] == front[j];
      assert RaisesAll(front + [last], |front|, last.binding) <==> RaisesAll(front, |front|, last.binding);
      hide RaisesAll;
    } else {
      OtherSound(front, last);
    }
    hide LastStart, Sound, Belongs, Expected, Known;
  }

  lemma {:induction false} RecordsAreSound(records: seq<Event>, claim: Claim)
    ensures RecordsError(records, claim, 0, None).None? <==> Sound(records, claim)
    decreases |records|
  {
    if records != [] {
      var front, last := records[..|records| - 1], records[|records| - 1];
      assert records == front + [last];
      RecordsAreSound(front, claim);
      ErrorsInTurn(front, [last], claim, 0, None);
      PrefixSound(front, last, claim);
      hide RecordsError, Sound, RecordSound;
      if Sound(front, claim) { LastSound(front, last, claim); }
    }
  }

  /** A history is accepted exactly when all its records are sound and the last one says that the execution has drained. */
  lemma AcceptedExactly(records: seq<Event>, claim: Claim)
    ensures HistoryError(records, claim).None? <==> Sound(records, claim) && (records == [] || records[|records| - 1].kind.Drained?)
  {
    RecordsAreSound(records, claim);
    hide RecordsError, Sound;
  }
}
