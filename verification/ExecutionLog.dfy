/**
  The append-only execution log of claude-execution-session.js: what it says about tool calls, and
  which histories a new execution accepts.
*/
module ExecutionLog {
  import opened Wrappers

  type Id = string

  // ---------- Records ----------

  datatype Input = Input(version: int, digest: string, requirement: int, control: int)

  datatype Binding = Binding(taskId: Id, executionId: Id, sessionId: Id, mode: string, input: Input, lease: int)

  datatype Kind = Start | Started(call: Id) | Settled(call: Id) | Unknown(call: Id) | Denied(call: Id) | Drained | Other

  datatype Event = Event(sequence: int, provider: string, binding: Binding, kind: Kind)

  /** The binding of an execution, with the inputs of its earlier versions. */
  datatype Claim = Claim(binding: Binding, inputs: seq<Input>)

  const PROVIDER := "claude-code"

  // ---------- Accepting a history ----------

  predicate SameExecution(a: Binding, b: Binding) {
    a.taskId == b.taskId && a.executionId == b.executionId && a.sessionId == b.sessionId
  }

  function FindInput(inputs: seq<Input>, version: int): Option<Input> {
    if inputs == [] then None else if inputs[0].version == version then Some(inputs[0]) else FindInput(inputs[1..], version)
  }

  /** The input that a version of this execution has to have. */
  function Expected(claim: Claim, version: int): Option<Input> {
    if version == claim.binding.input.version then Some(claim.binding.input) else FindInput(claim.inputs, version)
  }

  function StartError(b: Binding, claim: Claim, prior: Option<Binding>): Option<string> {
    if b.input.version < 1 || b.lease < 1 || claim.binding.input.version < b.input.version || claim.binding.lease < b.lease
       || (prior.Some? && (b.input.version < prior.value.input.version || b.lease <= prior.value.lease))
    then Some("claude_execution_history_generation_invalid")
    else if Expected(claim, b.input.version) != Some(b.input) then Some("claude_execution_history_input_mismatch")
    else None
  }

  /** `count` records precede these, and `prior` is the last start among them. */
  function RecordsError(records: seq<Event>, claim: Claim, count: nat, prior: Option<Binding>): Option<string>
    decreases |records|
  {
    if records == [] then None
    else
      var e := records[0];
      if e.provider != PROVIDER || !SameExecution(e.binding, claim.binding) then Some("claude_execution_history_identity_mismatch")
      else if e.sequence != count + 1 then Some("claude_execution_history_sequence_invalid")
      else if e.kind.Start? then
        if StartError(e.binding, claim, prior).Some? then StartError(e.binding, claim, prior)
        else RecordsError(records[1..], claim, count + 1, Some(e.binding))
      else if prior != Some(e.binding) then Some("claude_execution_history_generation_invalid")
      else RecordsError(records[1..], claim, count + 1, prior)
  }

  function LastStart(records: seq<Event>): Option<Binding> {
    if records == [] then None
    else if records[|records| - 1].kind.Start? then Some(records[|records| - 1].binding)
    else LastStart(records[..|records| - 1])
  }

  function HistoryError(records: seq<Event>, claim: Claim): Option<string> {
    if RecordsError(records, claim, 0, None).Some? then RecordsError(records, claim, 0, None)
    else if records != [] && !records[|records| - 1].kind.Drained? then Some("claude_execution_recovery_unresolved")
    else None
  }

  method AssertHistory(records: seq<Event>, claim: Claim) returns (error: Option<string>)
    ensures error == HistoryError(records, claim)
  {
    var sequence: nat, prior: Option<Binding>, i := 0, None, 0;
    while i < |records|
      invariant 0 <= i <= |records| && sequence == i
      invariant RecordsError(records, claim, 0, None) == RecordsError(records[i..], claim, i, prior)
    {
      var event := records[i];
      assert records[i..][0] == event && records[i..][1..] == records[i + 1..];
      if event.provider != PROVIDER || !SameExecution(event.binding, claim.binding) {
        return Some("claude_execution_history_identity_mismatch");
      }
      sequence := sequence + 1;
      if event.sequence != sequence { return Some("claude_execution_history_sequence_invalid"); }
      if event.kind.Start? {
        error := StartError(event.binding, claim, prior);
        if error.Some? { return; }
        prior := Some(event.binding);
      } else if prior != Some(event.binding) {
        return Some("claude_execution_history_generation_invalid");
      }
      i := i + 1;
    }
    if |records| > 0 && !records[|records| - 1].kind.Drained? { return Some("claude_execution_recovery_unresolved"); }
    return None;
  }

  // ---------- Calls ----------

  function CountStarted(records: seq<Event>, call: Id): nat {
    if records == [] then 0
    else CountStarted(records[..|records| - 1], call) + if records[|records| - 1].kind == Started(call) then 1 else 0
  }

  /** A call ends settled, or unknown when the process is gone without a result. */
  predicate Ends(kind: Kind, call: Id) {
    kind == Settled(call) || kind == Unknown(call)
  }

  function CountEnded(records: seq<Event>, call: Id): nat {
    if records == [] then 0
    else CountEnded(records[..|records| - 1], call) + if Ends(records[|records| - 1].kind, call) then 1 else 0
  }

  /** What the progress report calls pending: started, and neither settled nor unknown anywhere. */
  function PendingCalls(records: seq<Event>): set<Id> {
    set i | 0 <= i < |records| && records[i].kind.Started? && CountEnded(records, records[i].kind.call) == 0 :: records[i].kind.call
  }

  lemma {:induction false} StartedIsCounted(records: seq<Event>, i: nat)
    requires i < |records| && records[i].kind.Started?
    ensures 0 < CountStarted(records, records[i].kind.call)
    decreases |records|
  {
    if i < |records| - 1 {
      var front := records[..|records| - 1];
      assert front[i] == records[i];
      StartedIsCounted(front, i);
    }
  }

  /** Records of these kinds, numbered on. */
  function Recorded(sequence: nat, binding: Binding, kinds: seq<Kind>): seq<Event> {
    seq(|kinds|, i requires 0 <= i < |kinds| => Event(sequence + 1 + i, PROVIDER, binding, kinds[i]))
  }

  // ---------- One execution ----------

  /** The records of one execution, numbered on from the history: a start, unless it came too late, then anything but starts. */
  ghost predicate Block(block: seq<Event>, binding: Binding, count: nat, started: bool) {
    forall i :: 0 <= i < |block| ==>
      && block[i].provider == PROVIDER && block[i].binding == binding && block[i].sequence == count + 1 + i
      && (block[i].kind.Start? <==> started && i == 0)
  }

  /** What an execution leaves: a block that ends drained, and nothing else when it did not start. */
  ghost predicate Leaves(block: seq<Event>, binding: Binding, count: nat, started: bool) {
    Block(block, binding, count, started) && |block| > 0 && block[|block| - 1].kind.Drained? && (!started ==> |block| == 1)
  }

  class Session {
    const binding: Binding
    const count: nat
    const started: bool
    var block: seq<Event>
    var sequence: nat
    var pending: set<Id>
    var finished: set<Id>
    var stopping: bool
    ghost var lost: set<Id>

    /** The start is recorded when the binding is found current; otherwise the execution goes straight to its drain. */
    constructor (binding: Binding, count: nat, current: bool)
      ensures Valid() && pending == {} && |block| == (if current then 1 else 0)
      ensures this.binding == binding && this.count == count && started == current
    {
      this.binding, this.count, started := binding, count, current;
      pending, finished, stopping, lost := {}, {}, false, {};
      sequence := if current then count + 1 else count;
      block := if current then [Event(count + 1, PROVIDER, binding, Start)] else [];
      new;
      NoAccounts();
      AccountsOther([], {}, {}, Event(count + 1, PROVIDER, binding, Start));
      assert finished + lost == {};
      assert [] + [Event(count + 1, PROVIDER, binding, Start)] == [Event(count + 1, PROVIDER, binding, Start)];
    }

    ghost predicate Valid()
      reads this
    {
      && Block(block, binding, count, started) && sequence == count + |block|
      && (started ==> |block| > 0) && (!started ==> pending == {})
      && (lost != {} ==> stopping) && pending !! finished + lost
      && Accounts(block, pending, finished + lost)
    }

    method Record(kind: Kind)
      requires sequence == count + |block| && Block(block, binding, count, started) && !kind.Start? && (started ==> |block| > 0)
      modifies this`block, this`sequence
      ensures Block(block, binding, count, started) && sequence == count + |block|
      ensures block == old(block) + [Event(old(sequence) + 1, PROVIDER, binding, kind)]
    {
      sequence := sequence + 1;
      block := block + [Event(sequence, PROVIDER, binding, kind)];
    }

    /** `admitted`: the checks before the call is handed on; `current`: the check after its start is recorded. */
    method Permission(call: Id, admitted: bool, current: bool) returns (allowed: bool)
      requires Valid() && started
      modifies this
      ensures Valid() && finished == old(finished) && lost == old(lost) && stopping == old(stopping)
      ensures allowed <==> admitted && current && !stopping && call !in old(pending) && call !in finished
      ensures var known, starts := call in old(pending) || call in finished, admitted && !stopping;
              pending == (if !known && starts then old(pending) + {call} else old(pending))
              && block == old(block) + Recorded(old(sequence), binding, if known then [] else if !starts then [Denied(call)]
                                                                         else if current then [Started(call)] else [Started(call), Denied(call)])
    {
      hide Accounts, Block;
      if call in pending || call in finished { return false; }
      if admitted && !stopping {
        AccountsStarted(block, pending, finished + lost, call, Event(sequence + 1, PROVIDER, binding, Started(call)));
        pending := pending + {call};
        Record(Started(call));
      }
      if !admitted || stopping || !current {
        AccountsOther(block, pending, finished + lost, Event(sequence + 1, PROVIDER, binding, Denied(call)));
        Record(Denied(call));
        return false;
      }
      return true;
    }

    /** The result of a tool has come back. */
    method SettleToolResult(call: Id)
      requires Valid() && started
      modifies this
      ensures Valid() && pending == old(pending) - {call} && lost == old(lost) && stopping == old(stopping)
      ensures finished == if call in old(pending) then old(finished) + {call} else old(finished)
      ensures block == old(block) + Recorded(old(sequence), binding, if call in old(pending) then [Other, Settled(call)] else [Other])
      ensures call in old(pending) ==> CountEnded(block, call) == 1
    {
      hide Block;
      AccountsOther(block, pending, finished + lost, Event(sequence + 1, PROVIDER, binding, Other));
      Record(Other);
      if call in pending { Settle(call); }
    }

    method Settle(call: Id)
      requires Valid() && started && call in pending
      modifies `block, `sequence, `pending, `finished
      ensures Valid() && pending == old(pending) - {call} && finished == old(finished) + {call}
      ensures block == old(block) + [Event(old(sequence) + 1, PROVIDER, binding, Settled(call))] && CountEnded(block, call) == 1
    {
      hide Block;
      AccountsEnded(block, pending, finished + lost, call, Event(sequence + 1, PROVIDER, binding, Settled(call)));
      Record(Settled(call));
      assert finished + {call} + lost == finished + lost + {call};
      pending, finished := pending - {call}, finished + {call};
    }

    method LoseOne(call: Id)
      requires Valid() && stopping && call in pending
      modifies `block, `sequence, `pending, `lost
      ensures Valid() && pending == old(pending) - {call}
      ensures block == old(block) + [Event(old(sequence) + 1, PROVIDER, binding, Unknown(call))]
    {
      hide Block, Accounts;
      AccountsEnded(block, pending, finished + lost, call, Event(sequence + 1, PROVIDER, binding, Unknown(call)));
      Record(Unknown(call));
      assert finished + (lost + {call}) == finished + lost + {call};
      pending, lost := pending - {call}, lost + {call};
    }

    /** What is still pending when the process is gone is recorded as unknown. */
    method LosePending()
      requires Valid()
      modifies this
      ensures Valid() && pending == {} && (old(pending) == {} ==> block == old(block)) && old(block) <= block
      ensures forall i :: |old(block)| <= i < |block| ==> block[i].kind.Unknown? && block[i].kind.call in old(pending)
    {
      Stop();
      hide Valid;
      while pending != {}
        invariant Valid() && stopping && (old(pending) == {} ==> pending == {} && block == old(block))
        invariant pending <= old(pending) && old(block) <= block
        invariant forall i :: |old(block)| <= i < |block| ==> block[i].kind.Unknown? && block[i].kind.call in old(pending)
        decreases |pending|
      {
        var call := Pick(pending);
        LoseOne(call);
      }
    }

    method Stop()
      requires Valid()
      modifies `stopping
      ensures Valid() && stopping
    {
      stopping := true;
    }

    /** After the drain every started call has ended, exactly once, those still pending as unknown, and nothing is reported as pending. */
    method Drain()
      requires Valid() && (!started ==> block == [])
      modifies this
      ensures Valid() && pending == {} && Leaves(block, binding, count, started)
      ensures forall call :: CountStarted(block, call) == CountEnded(block, call) <= 1
      ensures PendingCalls(block) == {}
      ensures old(block) < block && forall i :: |old(block)| <= i < |block| - 1 ==> block[i].kind.Unknown? && block[i].kind.call in old(pending)
    {
      hide Valid, Leaves;
      if !started { StaleIsIdle(); }
      LosePending();
      RecordDrained();
      NothingPending(block);
    }

    lemma StaleIsIdle()
      requires Valid() && !started
      ensures pending == {}
    {
    }

    method RecordDrained()
      requires Valid() && pending == {} && (!started ==> block == [])
      modifies `block, `sequence
      ensures Valid() && Leaves(block, binding, count, started)
      ensures block == old(block) + [Event(old(sequence) + 1, PROVIDER, binding, Drained)]
      ensures forall call :: CountStarted(block, call) == CountEnded(block, call) <= 1
    {
      hide Block, Accounts;
      AccountsOther(block, pending, finished + lost, Event(sequence + 1, PROVIDER, binding, Drained));
      Record(Drained);
      Balanced(block, finished + lost);
    }
  }

  lemma NoAccounts()
    ensures Accounts([], {}, {})
  {
  }

  lemma Balanced(block: seq<Event>, ended: set<Id>)
    requires Accounts(block, {}, ended)
    ensures forall call :: CountStarted(block, call) == CountEnded(block, call) <= 1
  {
  }

  /** Every call that was started has ended, once, unless it is still pending. */
  ghost predicate Accounts(block: seq<Event>, pending: set<Id>, ended: set<Id>) {
    forall call :: CountStarted(block, call) == (if call in pending || call in ended then 1 else 0)
                   && CountEnded(block, call) == if call in ended then 1 else 0
  }

  lemma OneMore(block: seq<Event>, event: Event, call: Id)
    ensures CountStarted(block + [event], call) == CountStarted(block, call) + if event.kind == Started(call) then 1 else 0
    ensures CountEnded(block + [event], call) == CountEnded(block, call) + if Ends(event.kind, call) then 1 else 0
  {
    assert (block + [event])[..|block|] == block;
  }

  lemma AccountsOther(block: seq<Event>, pending: set<Id>, ended: set<Id>, event: Event)
    requires Accounts(block, pending, ended) && !event.kind.Started? && !event.kind.Settled? && !event.kind.Unknown?
    ensures Accounts(block + [event], pending, ended)
  {
    forall c ensures CountStarted(block + [event], c) == CountStarted(block, c) && CountEnded(block + [event], c) == CountEnded(block, c) {
      OneMore(block, event, c);
    }
  }

  lemma AccountsStarted(block: seq<Event>, pending: set<Id>, ended: set<Id>, call: Id, event: Event)
    requires Accounts(block, pending, ended) && event.kind == Started(call) && call !in pending && call !in ended
    ensures Accounts(block + [event], pending + {call}, ended)
  {
    forall c ensures CountStarted(block + [event], c) == CountStarted(block, c) + (if c == call then 1 else 0)
                     && CountEnded(block + [event], c) == CountEnded(block, c)
    {
      OneMore(block, event, c);
    }
  }

  lemma AccountsEnded(block: seq<Event>, pending: set<Id>, ended: set<Id>, call: Id, event: Event)
    requires Accounts(block, pending, ended) && Ends(event.kind, call) && call in pending && pending !! ended
    ensures Accounts(block + [event], pending - {call}, ended + {call})
  {
    forall c ensures CountStarted(block + [event], c) == CountStarted(block, c)
                     && CountEnded(block + [event], c) == CountEnded(block, c) + if c == call then 1 else 0
    {
      OneMore(block, event, c);
    }
  }

  /** When every started call has ended, nothing is reported as pending. */
  lemma NothingPending(block: seq<Event>)
    requires forall call :: CountStarted(block, call) == CountEnded(block, call)
    ensures PendingCalls(block) == {}
  {
    forall i | 0 <= i < |block| && block[i].kind.Started? ensures CountEnded(block, block[i].kind.call) > 0 { StartedIsCounted(block, i); }
  }

  // ---------- Histories that grow ----------

  /** What a new execution checks before it starts: the history is acceptable, and its last start had another lease. */
  predicate MayStart(records: seq<Event>, claim: Claim) {
    && HistoryError(records, claim).None? && claim.binding.input.version >= 1 && claim.binding.lease >= 1
    && (LastStart(records).Some? ==> LastStart(records).value.lease != claim.binding.lease)
  }

  /** The last start of a prefix, read on through the rest. */
  function StartAfter(records: seq<Event>, prior: Option<Binding>): Option<Binding> {
    if LastStart(records).Some? then LastStart(records) else prior
  }

  lemma {:induction false} LastOfRest(records: seq<Event>, prior: Option<Binding>)
    requires records != []
    ensures StartAfter(records, prior) == StartAfter(records[1..], if records[0].kind.Start? then Some(records[0].binding) else prior)
    decreases |records|
  {
    var n := |records| - 1;
    if 0 < n && !records[n].kind.Start? {
      LastOfRest(records[..n], prior);
      assert records[..n][1..] == records[1..][..n - 1];
    }
  }

  /** Records are checked one after the other, so a log is accepted when its parts are. */
  lemma {:induction false} ErrorsInTurn(a: seq<Event>, b: seq<Event>, claim: Claim, count: nat, prior: Option<Binding>)
    ensures RecordsError(a + b, claim, count, prior)
            == if RecordsError(a, claim, count, prior).Some? then RecordsError(a, claim, count, prior)
               else RecordsError(b, claim, count + |a|, StartAfter(a, prior))
    decreases |a|
  {
    if a == [] {
      assert a + b == b;
    } else {
      assert (a + b)[1..] == a[1..] + b;
      var next := if a[0].kind.Start? then Some(a[0].binding) else prior;
      ErrorsInTurn(a[1..], b, claim, count + 1, next);
      LastOfRest(a, prior);
    }
  }

  lemma {:induction false} TailOfBlock(block: seq<Event>, claim: Claim, count: nat)
    requires forall i :: 0 <= i < |block| ==> block[i].provider == PROVIDER && block[i].binding == claim.binding
                                              && block[i].sequence == count + 1 + i && !block[i].kind.Start?
    ensures RecordsError(block, claim, count, Some(claim.binding)).None?
    decreases |block|
  {
    if block != [] { TailOfBlock(block[1..], claim, count + 1); }
  }

  /** Accepted starts have leases no larger than the claim's, and the last of them an acceptable version. */
  lemma {:induction false} StartsAreBounded(records: seq<Event>, claim: Claim, count: nat, prior: Option<Binding>)
    requires RecordsError(records, claim, count, prior).None?
    ensures LastStart(records).Some? ==> LastStart(records).value.lease <= claim.binding.lease
                                         && LastStart(records).value.input.version <= claim.binding.input.version
    decreases |records|
  {
    if records != [] {
      var front, last := records[..|records| - 1], records[|records| - 1];
      assert records == front + [last];
      ErrorsInTurn(front, [last], claim, count, prior);
      if !last.kind.Start? { StartsAreBounded(front, claim, count, prior); }
    }
  }

  /** What the check lets start is accepted again once it has drained. */
  lemma DrainedHistoryIsAccepted(records: seq<Event>, claim: Claim, block: seq<Event>)
    requires MayStart(records, claim)
    requires Leaves(block, claim.binding, |records|, true)
    ensures HistoryError(records + block, claim).None?
  {
    ErrorsInTurn(records, block, claim, 0, None);
    StartsAreBounded(records, claim, 0, None);
    BlockIsAccepted(block, claim, |records|, StartAfter(records, None));
    assert (records + block)[|records + block| - 1] == block[|block| - 1];
    hide RecordsError, StartAfter, Block;
  }

  lemma BlockIsAccepted(block: seq<Event>, claim: Claim, count: nat, prior: Option<Binding>)
    requires Leaves(block, claim.binding, count, true) && claim.binding.input.version >= 1 && claim.binding.lease >= 1
    requires prior.Some? ==> prior.value.lease < claim.binding.lease && prior.value.input.version <= claim.binding.input.version
    ensures RecordsError(block, claim, count, prior).None?
  {
    assert StartError(block[0].binding, claim, prior).None?;
    TailOfBlock(block[1..], claim, count + 1);
  }

  /** A later claim on the same execution knows every input the earlier one knew. */
  ghost predicate Continues(earlier: Claim, later: Claim) {
    && SameExecution(earlier.binding, later.binding)
    && earlier.binding.input.version <= later.binding.input.version && earlier.binding.lease <= later.binding.lease
    && forall v :: v <= earlier.binding.input.version && Expected(earlier, v).Some? ==> Expected(later, v) == Expected(earlier, v)
  }

  lemma {:induction false} LaterClaimsAccept(records: seq<Event>, earlier: Claim, later: Claim, count: nat, prior: Option<Binding>)
    requires Continues(earlier, later) && RecordsError(records, earlier, count, prior).None?
    ensures RecordsError(records, later, count, prior).None?
    decreases |records|
  {
    if records != [] {
      LaterClaimsAccept(records[1..], earlier, later, count + 1, if records[0].kind.Start? then Some(records[0].binding) else prior);
    }
  }

  /** One execution after another: each claim continues the one before under a larger lease, and each block is its log. */
  ghost predicate Executions(claims: seq<Claim>, blocks: seq<seq<Event>>) {
    && |claims| == |blocks|
    && (forall i :: 0 <= i < |claims| ==> claims[i].binding.input.version >= 1 && claims[i].binding.lease >= 1)
    && (forall i :: 0 < i < |claims| ==> Continues(claims[i - 1], claims[i]) && claims[i - 1].binding.lease < claims[i].binding.lease)
    && forall i :: 0 <= i < |blocks| ==>
         Leaves(blocks[i], claims[i].binding, |Log(blocks[..i])|, true)
  }

  function Log(blocks: seq<seq<Event>>): seq<Event> {
    if blocks == [] then [] else Log(blocks[..|blocks| - 1]) + blocks[|blocks| - 1]
  }

  lemma {:induction false} StartOfBlock(block: seq<Event>, binding: Binding, count: nat)
    requires Block(block, binding, count, true) && |block| > 0
    ensures LastStart(block) == Some(binding)
    decreases |block|
  {
    if |block| > 1 { StartOfBlock(block[..|block| - 1], binding, count); }
  }

  lemma {:induction false} StartOfLog(records: seq<Event>, block: seq<Event>)
    requires LastStart(block).Some?
    ensures LastStart(records + block) == LastStart(block)
    decreases |block|
  {
    var n := |block| - 1;
    assert (records + block)[..|records| + n] == records + block[..n];
    if !block[n].kind.Start? { StartOfLog(records, block[..n]); }
  }

  lemma EarlierExecutions(claims: seq<Claim>, blocks: seq<seq<Event>>)
    requires Executions(claims, blocks) && claims != []
    ensures Executions(claims[..|claims| - 1], blocks[..|blocks| - 1])
  {
    hide Block, Continues, Log;
    var n := |blocks| - 1;
    forall i | 0 <= i < n ensures blocks[..n][..i] == blocks[..i] {}
  }

  lemma NextExecution(records: seq<Event>, earlier: Claim, claim: Claim, block: seq<Event>)
    requires HistoryError(records, earlier).None? && LastStart(records) == Some(earlier.binding)
    requires Continues(earlier, claim) && earlier.binding.lease < claim.binding.lease
    requires claim.binding.input.version >= 1 && claim.binding.lease >= 1
    requires Leaves(block, claim.binding, |records|, true)
    ensures HistoryError(records + block, claim).None?
  {
    LaterClaimsAccept(records, earlier, claim, 0, None);
    hide RecordsError, Block, LastStart, Continues;
    DrainedHistoryIsAccepted(records, claim, block);
  }

  /** Over any number of executions the whole log is accepted, each time and by the last of them. */
  lemma {:induction false} WholeLogIsAccepted(claims: seq<Claim>, blocks: seq<seq<Event>>)
    requires Executions(claims, blocks) && claims != []
    ensures HistoryError(Log(blocks), claims[|claims| - 1]).None?
    ensures LastStart(Log(blocks)) == Some(claims[|claims| - 1].binding)
    decreases |claims|
  {
    hide HistoryError, Block, Leaves, LastStart, Continues;
    var n := |claims| - 1;
    var claim, records := claims[n], Log(blocks[..n]);
    assert Leaves(blocks[n], claim.binding, |records|, true) && Log(blocks) == records + blocks[n];
    StartIsLast(records, claim.binding, blocks[n]);
    hide Log;
    if 0 < n {
      EarlierExecutions(claims, blocks);
      WholeLogIsAccepted(claims[..n], blocks[..n]);
      NextExecution(records, claims[n - 1], claim, blocks[n]);
    } else {
      assert blocks[..n] == [];
      NothingYet(claim);
      DrainedHistoryIsAccepted(records, claim, blocks[n]);
    }
  }

  lemma StartIsLast(records: seq<Event>, binding: Binding, block: seq<Event>)
    requires Leaves(block, binding, |records|, true)
    ensures LastStart(records + block) == Some(binding)
  {
    StartOfBlock(block, binding, |records|);
    StartOfLog(records, block);
  }

  lemma NothingYet(claim: Claim)
    ensures HistoryError([], claim).None? && LastStart([]).None?
  {
  }

  // ---------- A start that came too late ----------

  /** A drained record without its start is accepted by no claim. */
  lemma StaleStartSpoilsTheLog(records: seq<Event>, binding: Binding, block: seq<Event>, later: Claim)
    requires LastStart(records) != Some(binding) && Leaves(block, binding, |records|, false)
    ensures HistoryError(records + block, later).Some?
  {
    ErrorsInTurn(records, block, later, 0, None);
  }

  /** The log that an execution leaves is accepted again exactly when its binding was current when its start was to be
      recorded; otherwise no claim at all accepts it. */
  lemma LogIsAcceptedExactly(records: seq<Event>, claim: Claim, block: seq<Event>, current: bool, later: Claim)
    requires MayStart(records, claim) && Leaves(block, claim.binding, |records|, current)
    ensures HistoryError(records + block, claim).None? <==> current
    ensures !current ==> HistoryError(records + block, later).Some?
  {
    hide HistoryError, Leaves;
    if current {
      DrainedHistoryIsAccepted(records, claim, block);
    } else {
      StaleStartSpoilsTheLog(records, claim.binding, block, claim);
      StaleStartSpoilsTheLog(records, claim.binding, block, later);
    }
  }
}
