/**
  The slot of a group in coordination-sessions.js: one loop hands it to queued requests, routing
  requests first, but after two routing turns in a row a waiting request of another role is next.
*/
module Sessions {
  import opened Wrappers

  /** A queued turn; `key` names its request, so a continuation has the key of the turn it continues. */
  datatype Job = Job(key: string, route: bool, update: bool)

  /** Where the loop stands: choosing, opening the session of a chosen job, or waiting for the holder to let go. */
  datatype Phase = Choosing | Opening(job: Job, fair: bool) | Holding(job: Job, fair: bool)

  datatype Slot = Slot(queue: seq<Job>, burst: nat, phase: Phase)

  predicate HasRoute(queue: seq<Job>) {
    exists i :: 0 <= i < |queue| && queue[i].route
  }

  predicate HasOther(queue: seq<Job>) {
    exists i :: 0 <= i < |queue| && !queue[i].route
  }

  /** The first index whose job has the given role, or the length. */
  function IndexOf(queue: seq<Job>, route: bool): (i: nat)
    ensures i <= |queue| && (i < |queue| ==> queue[i].route == route) && forall k :: 0 <= k < i ==> queue[k].route != route
  {
    if queue == [] then 0 else if queue[0].route == route then 0 else 1 + IndexOf(queue[1..], route)
  }

  function InsertAt(queue: seq<Job>, i: nat, job: Job): seq<Job>
    requires i <= |queue|
  {
    queue[..i] + [job] + queue[i..]
  }

  function RemoveAt(queue: seq<Job>, i: nat): seq<Job>
    requires i < |queue|
  {
    queue[..i] + queue[i + 1..]
  }

  // ---------- Steps ----------

  /** A route goes before the first job of another role, which is where routes without a continuation end. */
  function Enqueue(s: Slot, job: Job): Slot {
    s.(queue := if job.route then InsertAt(s.queue, IndexOf(s.queue, false), job) else s.queue + [job])
  }

  function Choice(s: Slot): (nat, bool)
    requires s.queue != []
  {
    var other, route := IndexOf(s.queue, false), IndexOf(s.queue, true);
    var fair := s.burst >= 2 && other < |s.queue|;
    (if fair then other else if route == |s.queue| then 0 else route, fair)
  }

  function Choose(s: Slot): Slot {
    if !s.phase.Choosing? || s.queue == [] then s
    else
      var (i, fair) := Choice(s);
      Slot(RemoveAt(s.queue, i), s.burst, Opening(s.queue[i], fair))
  }

  /** The session is open, or the request is no longer current. */
  function Open(s: Slot, current: bool): Slot {
    if !s.phase.Opening? then s
    else
      var job, fair := s.phase.job, s.phase.fair;
      if !current then s.(phase := Choosing)
      else if !fair && !job.route && HasRoute(s.queue)
      then Slot(InsertAt(s.queue, IndexOf(s.queue, false), job), s.burst, Choosing)
      else Slot(s.queue, if job.route then (if s.burst < 2 then s.burst + 1 else 2) else 0, Holding(job, fair))
  }

  /** A queued update is handed to the session of its own request while that holds the slot; only routing requests have updates. */
  function Absorb(s: Slot, i: nat): Slot {
    if s.phase.Holding? && s.phase.job.route && i < |s.queue| && IsUpdateOf(s.queue[i], s.phase.job.key)
    then s.(queue := RemoveAt(s.queue, i)) else s
  }

  predicate IsUpdateOf(job: Job, key: string) {
    job.update && job.route && job.key == key
  }

  /** The queue without the updates of a request, everything else in its order. */
  function WithoutUpdates(queue: seq<Job>, key: string): seq<Job> {
    if queue == [] then []
    else if IsUpdateOf(queue[0], key) then WithoutUpdates(queue[1..], key)
    else [queue[0]] + WithoutUpdates(queue[1..], key)
  }

  /** The holder lets go; when it was cut short and has nothing else queued, a continuation waits at the end. */
  function Release(s: Slot, cutShort: bool): Slot {
    if !s.phase.Holding? then s
    else
      var job := s.phase.job;
      var again := cutShort && forall i :: 0 <= i < |s.queue| ==> s.queue[i].key != job.key;
      Slot(if again then s.queue + [job.(update := false)] else s.queue, s.burst, Choosing)
  }

  datatype Event = Enqueued(job: Job) | Chosen | Opened(current: bool) | Absorbed(index: nat) | Released(cutShort: bool)

  function After(s: Slot, e: Event): Slot {
    match e
    case Enqueued(job) => Enqueue(s, job)
    case Chosen => Choose(s)
    case Opened(current) => Open(s, current)
    case Absorbed(i) => Absorb(s, i)
    case Released(cutShort) => Release(s, cutShort)
  }

  /** The event grants the slot to the job being opened. */
  predicate Grants(s: Slot, e: Event) {
    s.phase.Opening? && After(s, e).phase.Holding?
  }

  // ---------- The line of the other roles ----------

  function Others(queue: seq<Job>): seq<Job> {
    if queue == [] then [] else if queue[0].route then Others(queue[1..]) else [queue[0]] + Others(queue[1..])
  }

  /** The waiting jobs of other roles, the one being opened first. */
  function Line(s: Slot): seq<Job> {
    (if s.phase.Opening? && !s.phase.job.route then [s.phase.job] else []) + Others(s.queue)
  }

  lemma {:induction false} OthersOfSplit(a: seq<Job>, b: seq<Job>)
    ensures Others(a + b) == Others(a) + Others(b)
    decreases |a|
  {
    if a == [] {
      assert a + b == b;
    } else {
      assert (a + b)[1..] == a[1..] + b;
      OthersOfSplit(a[1..], b);
    }
  }

  lemma {:induction false} RoutesOnly(a: seq<Job>)
    requires forall i :: 0 <= i < |a| ==> a[i].route
    ensures Others(a) == []
    decreases |a|
  {
    if a != [] { RoutesOnly(a[1..]); }
  }

  /** Inserting before the first job of another role puts such a job at the head of the line, and a route nowhere in it. */
  lemma InsertedOthers(queue: seq<Job>, job: Job)
    ensures Others(InsertAt(queue, IndexOf(queue, false), job)) == (if job.route then [] else [job]) + Others(queue)
  {
    var i := IndexOf(queue, false);
    RoutesOnly(queue[..i]);
    OthersOfSplit(queue[..i], queue[i..]);
    OthersOfSplit(queue[..i] + [job], queue[i..]);
    OthersOfSplit(queue[..i], [job]);
    assert queue == queue[..i] + queue[i..] && Others([job]) == if job.route then [] else [job];
  }

  lemma OneOther(job: Job)
    ensures Others([job]) == if job.route then [] else [job]
  {
  }

  lemma Regroup<T>(a: seq<T>, o: seq<T>, b: seq<T>)
    requires a == [] || o == []
    ensures a + (o + b) == o + (a + b)
  {
  }

  lemma RemovedOthers(queue: seq<Job>, i: nat)
    requires i < |queue| && (queue[i].route || forall k :: 0 <= k < i ==> queue[k].route)
    ensures Others(queue) == (if queue[i].route then [] else [queue[i]]) + Others(RemoveAt(queue, i))
  {
    hide Others;
    var a, b, one := queue[..i], queue[i + 1..], [queue[i]];
    assert queue == a + (one + b);
    OthersOfSplit(a, one + b);
    OthersOfSplit(one, b);
    OthersOfSplit(a, b);
    OneOther(queue[i]);
    if !queue[i].route { RoutesOnly(a); }
    Regroup(Others(a), Others(one), Others(b));
  }

  /** A turn that is not fair and not a route is chosen only when nothing but such turns is queued. */
  lemma ChosenIsFirst(s: Slot)
    requires s.queue != []
    ensures var (i, fair) := Choice(s);
            i < |s.queue| && (!s.queue[i].route ==> forall k :: 0 <= k < i ==> s.queue[k].route)
            && (!s.queue[i].route && !fair ==> s.burst < 2) && (s.queue[i].route && HasOther(s.queue) ==> s.burst < 2)
  {
  }

  /** What the phase promises: at most two routes in a row, and a turn that is not fair only before the second. */
  predicate Inv(s: Slot) {
    s.burst <= 2 && (s.phase.Opening? && !s.phase.job.route && !s.phase.fair ==> s.burst < 2)
  }

  /** What an event may do to the line. */
  ghost predicate FifoStep(s: Slot, e: Event) {
    var line, line' := Line(s), Line(After(s, e));
    && Inv(After(s, e))
    && (line' == line || (exists job :: line' == line + [job]) || (e.Opened? && line != [] && line[0] == s.phase.job && line' == line[1..]))
    && (Grants(s, e) && !s.phase.job.route ==> line != [] && line[0] == s.phase.job && line' == line[1..])
    && (Grants(s, e) && s.phase.job.route ==> line' == line)
  }

  lemma EnqueuedIsFifo(s: Slot, job: Job)
    requires Inv(s)
    ensures FifoStep(s, Enqueued(job))
  {
    InsertedOthers(s.queue, job);
    OthersOfSplit(s.queue, [job]);
    var s' := After(s, Enqueued(job));
    if !job.route { assert Line(s') == Line(s) + [job]; } else { assert Line(s') == Line(s); }
  }

  lemma ChosenIsFifo(s: Slot)
    requires Inv(s)
    ensures FifoStep(s, Chosen)
  {
    if s.phase.Choosing? && s.queue != [] {
      ChosenIsFirst(s);
      RemovedOthers(s.queue, Choice(s).0);
    }
  }

  lemma OpenedIsFifo(s: Slot, e: Event)
    requires Inv(s) && e.Opened?
    ensures FifoStep(s, e)
  {
    if s.phase.Opening? { InsertedOthers(s.queue, s.phase.job); }
  }

  lemma AbsorbedIsFifo(s: Slot, i: nat)
    requires Inv(s)
    ensures FifoStep(s, Absorbed(i))
  {
    if i < |s.queue| && s.queue[i].route { RemovedOthers(s.queue, i); }
  }

  lemma ReleasedIsFifo(s: Slot, e: Event)
    requires Inv(s) && e.Released?
    ensures FifoStep(s, e)
  {
    if s.phase.Holding? {
      var again := s.phase.job.(update := false);
      OthersOfSplit(s.queue, [again]);
      if After(s, e).queue != s.queue && !again.route { assert Line(After(s, e)) == Line(s) + [again]; }
    }
  }

  /** The other roles are served first come, first served: the line only loses its head, and only grows at its end. */
  lemma LineIsFifo(s: Slot, e: Event)
    requires Inv(s)
    ensures Inv(After(s, e))
    ensures var line, line' := Line(s), Line(After(s, e));
            || line' == line
            || (exists job :: line' == line + [job])
            || (e.Opened? && line != [] && line[0] == s.phase.job && line' == line[1..])
    ensures Grants(s, e) && !s.phase.job.route ==> Line(s) != [] && Line(s)[0] == s.phase.job && Line(After(s, e)) == Line(s)[1..]
    ensures Grants(s, e) && s.phase.job.route ==> Line(After(s, e)) == Line(s)
  {
    assert FifoStep(s, e) by {
      match e
      case Enqueued(job) => EnqueuedIsFifo(s, job);
      case Chosen => ChosenIsFifo(s);
      case Opened(_) => OpenedIsFifo(s, e);
      case Absorbed(i) => AbsorbedIsFifo(s, i);
      case Released(_) => ReleasedIsFifo(s, e);
    }
    hide Inv, Line, After;
  }

  // ---------- Bounded bypass ----------

  /** How many grants may still come, at most, until the k-th job of the line is granted. */
  function Turns(s: Slot, k: nat): int {
    3 * k + if s.phase.Opening? && s.phase.job.route && s.burst == 2 then 2 else 3 - s.burst
  }

  /** The job at the head of the line leaves it: it gets the slot, or its request is no longer current. */
  predicate HeadLeaves(s: Slot, e: Event) {
    e.Opened? && s.phase.Opening? && !s.phase.job.route && (Grants(s, e) || !e.current)
  }

  /** The grants of a run up to the one with which the k-th job of the line leaves it. */
  function GrantsUntil(s: Slot, k: nat, run: seq<Event>): nat
    decreases |run|
  {
    if run == [] then 0
    else
      var granted := if Grants(s, run[0]) then 1 else 0;
      if !HeadLeaves(s, run[0]) then granted + GrantsUntil(After(s, run[0]), k, run[1..])
      else if k == 0 then granted
      else granted + GrantsUntil(After(s, run[0]), k - 1, run[1..])
  }

  lemma StepTakesTurns(s: Slot, e: Event, k: nat)
    requires Inv(s) && k < |Line(s)|
    ensures var granted, s' := if Grants(s, e) then 1 else 0, After(s, e);
            if !HeadLeaves(s, e) then k < |Line(s')| && Line(s')[k] == Line(s)[k] && granted + Turns(s', k) <= Turns(s, k)
            else if k == 0 then granted <= Turns(s, k)
            else k - 1 < |Line(s')| && Line(s')[k - 1] == Line(s)[k] && granted + Turns(s', k - 1) <= Turns(s, k)
  {
    LineIsFifo(s, e);
    if e.Chosen? && s.phase.Choosing? && s.queue != [] {
      ChosenIsFirst(s);
      OthersMeansOther(s.queue);
    }
    if !HeadLeaves(s, e) { LineStays(s, e); }
    hide Others, Choose, Choice, Enqueue, Absorb, Release;
  }

  lemma LineStays(s: Slot, e: Event)
    requires Inv(s) && !HeadLeaves(s, e)
    ensures Line(s) <= Line(After(s, e))
  {
    LineIsFifo(s, e);
    if e.Opened? && s.phase.Opening? && !s.phase.job.route { InsertedOthers(s.queue, s.phase.job); }
  }

  lemma {:induction false} OthersMeansOther(queue: seq<Job>)
    ensures Others(queue) != [] ==> IndexOf(queue, false) < |queue| && HasOther(queue)
    decreases |queue|
  {
    if queue != [] && queue[0].route { OthersMeansOther(queue[1..]); }
  }

  /** In every run the k-th waiting job of another role gets the slot within 3(k + 1) grants, unless it is cancelled first. */
  lemma {:induction false} BypassIsBounded(s: Slot, k: nat, run: seq<Event>)
    requires Inv(s) && k < |Line(s)|
    ensures GrantsUntil(s, k, run) <= Turns(s, k) <= 3 * (k + 1)
    decreases |run|
  {
    hide After, Grants, Line, HeadLeaves;
    if run != [] {
      LineIsFifo(s, run[0]);
      StepTakesTurns(s, run[0], k);
      if !HeadLeaves(s, run[0]) {
        BypassIsBounded(After(s, run[0]), k, run[1..]);
      } else if 0 < k {
        BypassIsBounded(After(s, run[0]), k - 1, run[1..]);
      }
    }
  }

  predicate HeadStays(s: Slot, run: seq<Event>)
    decreases |run|
  {
    run == [] || (!HeadLeaves(s, run[0]) && HeadStays(After(s, run[0]), run[1..]))
  }

  /** While a job of another role waits at the head of the line, at most two routing turns are granted. */
  lemma {:induction false} AtMostTwoRoutes(s: Slot, run: seq<Event>)
    requires Inv(s) && Line(s) != [] && HeadStays(s, run)
    ensures GrantsUntil(s, 0, run) <= Turns(s, 0) - 1 <= 2
    decreases |run|
  {
    hide After, Grants, Line, HeadLeaves;
    if run != [] {
      LineIsFifo(s, run[0]);
      StepTakesTurns(s, run[0], 0);
      AtMostTwoRoutes(After(s, run[0]), run[1..]);
    }
  }

  // ---------- The queue as the loop updates it ----------

  class GroupSlot {
    var queue: seq<Job>
    var burst: nat
    var phase: Phase

    constructor ()
      ensures View() == Slot([], 0, Choosing) && Inv(View())
    {
      queue, burst, phase := [], 0, Choosing;
    }

    function View(): Slot
      reads this
    {
      Slot(queue, burst, phase)
    }

    method FindIndex(route: bool) returns (i: nat)
      ensures i == IndexOf(queue, route)
    {
      i := 0;
      while i < |queue| && queue[i].route != route
        invariant i <= |queue| && forall k :: 0 <= k < i ==> queue[k].route != route
      {
        i := i + 1;
      }
    }

    method Dispatch(job: Job)
      modifies this
      ensures View() == Enqueue(old(View()), job)
    {
      if job.route {
        var i := FindIndex(false);
        queue := queue[..i] + [job] + queue[i..];
      } else {
        queue := queue + [job];
      }
    }

    method TakeNext()
      modifies this
      ensures View() == Choose(old(View()))
    {
      if !phase.Choosing? || queue == [] { return; }
      var other := FindIndex(false);
      var fair := burst >= 2 && other < |queue|;
      var route := FindIndex(true);
      var i := if fair then other else if route == |queue| then 0 else route;
      phase := Opening(queue[i], fair);
      queue := queue[..i] + queue[i + 1..];
    }

    method SessionOpened(current: bool)
      modifies this
      ensures View() == Open(old(View()), current)
    {
      if !phase.Opening? { return; }
      var job, fair := phase.job, phase.fair;
      if !current {
        phase := Choosing;
        return;
      }
      var route := FindIndex(true);
      if !fair && !job.route && route < |queue| {
        assert queue[route].route;
        var i := FindIndex(false);
        queue, phase := queue[..i] + [job] + queue[i..], Choosing;
        return;
      }
      if !job.route {
        burst := 0;
      } else if burst < 2 {
        burst := burst + 1;
      } else {
        burst := 2;
      }
      phase := Holding(job, fair);
    }

    /** `open`: the holder is still current, is not asked to yield, and routing is not paused. */
    method AbsorbUpdates(open: bool)
      modifies this`queue
      ensures queue == if open && phase.Holding? && phase.job.route then WithoutUpdates(old(queue), phase.job.key) else old(queue)
    {
      if !open || !phase.Holding? || !phase.job.route { return; }
      var i, key := 0, phase.job.key;
      assert queue[..0] == [] && queue[0..] == queue;
      while i < |queue|
        invariant i <= |queue| && queue[..i] + WithoutUpdates(queue[i..], key) == WithoutUpdates(old(queue), key)
        decreases |queue| - i
      {
        if IsUpdateOf(queue[i], key) {
          assert RemoveAt(queue, i)[..i] == queue[..i] && RemoveAt(queue, i)[i..] == queue[i..][1..];
          queue := RemoveAt(queue, i);
        } else {
          assert queue[..i + 1] == queue[..i] + [queue[i]] && queue[i + 1..] == queue[i..][1..];
          i := i + 1;
        }
      }
      assert queue[..i] == queue;
    }

    method Released(cutShort: bool)
      modifies this
      ensures View() == Release(old(View()), cutShort)
    {
      if !phase.Holding? { return; }
      var job, i := phase.job, 0;
      while i < |queue| && queue[i].key != job.key
        invariant i <= |queue| && forall k :: 0 <= k < i ==> queue[k].key != job.key
      {
        i := i + 1;
      }
      if cutShort && i == |queue| { queue := queue + [job.(update := false)]; }
      phase := Choosing;
    }
  }
}
