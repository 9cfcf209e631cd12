/**
  Every queued turn is served, dropped, or absorbed by its own request, and a routing request waits for another role only
  after two routing turns in a row.
*/
module SessionTurns {
  import opened Wrappers
  import opened Sessions

  // ---------- No turn is lost ----------

  /** The turns that wait or are being opened, and the one that holds the slot. */
  function Waiting(s: Slot): multiset<Job> {
    multiset(s.queue) + if s.phase.Opening? then multiset{s.phase.job} else multiset{}
  }

  function Holder(s: Slot): multiset<Job> {
    if s.phase.Holding? then multiset{s.phase.job} else multiset{}
  }

  lemma InsertedJobs(queue: seq<Job>, i: nat, job: Job)
    requires i <= |queue|
    ensures multiset(InsertAt(queue, i, job)) == multiset(queue) + multiset{job}
  {
    assert queue == queue[..i] + queue[i..];
  }

  lemma RemovedJobs(queue: seq<Job>, i: nat)
    requires i < |queue|
    ensures multiset(queue) == multiset(RemoveAt(queue, i)) + multiset{queue[i]}
  {
    assert queue == queue[..i] + [queue[i]] + queue[i + 1..];
  }

  /** The continuation of a turn that was cut short and has nothing else queued under its key. */
  function Continuation(s: Slot, cutShort: bool): multiset<Job>
    requires s.phase.Holding?
  {
    if cutShort && forall job :: job in Waiting(s) ==> job.key != s.phase.job.key
    then multiset{s.phase.job.(update := false)} else multiset{}
  }

  /** An update is taken in by the session of its own routing request. */
  ghost predicate TakesIn(s: Slot, s': Slot) {
    exists job :: Waiting(s) == Waiting(s') + multiset{job} && s.phase.Holding? && s.phase.job.route && IsUpdateOf(job, s.phase.job.key)
  }

  /** What an event does to the turns: a new one waits, one is granted the slot, one is dropped that is no longer wanted, an update is
      taken in, and a holder lets go. */
  ghost predicate Conserves(s: Slot, e: Event, s': Slot) {
    match e
    case Enqueued(job) => Waiting(s') == Waiting(s) + multiset{job} && Holder(s') == Holder(s)
    case Chosen => Waiting(s') == Waiting(s) && Holder(s') == Holder(s)
    case Opened(current) =>
      if !s.phase.Opening? then s' == s
      else if Grants(s, e) then current && Holder(s') == multiset{s.phase.job} && Waiting(s) == Waiting(s') + Holder(s')
      else if current then Waiting(s') == Waiting(s) && Holder(s') == multiset{}
      else Waiting(s) == Waiting(s') + multiset{s.phase.job} && Holder(s') == multiset{}
    case Absorbed(_) => Holder(s') == Holder(s) && (s' == s || TakesIn(s, s'))
    case Released(cutShort) =>
      if !s.phase.Holding? then s' == s
      else Holder(s') == multiset{} && Waiting(s') == Waiting(s) + Continuation(s, cutShort)
  }

  lemma EnqueuedConserves(s: Slot, job: Job)
    ensures Conserves(s, Enqueued(job), Enqueue(s, job))
  {
    InsertedJobs(s.queue, IndexOf(s.queue, false), job);
    hide IndexOf, InsertAt, HasRoute;
  }

  lemma OpenedConserves(s: Slot, current: bool)
    ensures Conserves(s, Opened(current), Open(s, current))
  {
    if s.phase.Opening? {
      InsertedJobs(s.queue, IndexOf(s.queue, false), s.phase.job);
      hide IndexOf, InsertAt, HasRoute;
    }
  }

  lemma TurnsAreConserved(s: Slot, e: Event)
    ensures Conserves(s, e, After(s, e))
  {
    match e
    case Enqueued(job) => EnqueuedConserves(s, job); hide Conserves;
    case Chosen => if s.phase.Choosing? && s.queue != [] { ChosenJob(s); } hide Choice, IndexOf;
    case Opened(current) => OpenedConserves(s, current); hide Conserves;
    case Absorbed(i) => if Absorb(s, i) != s { AbsorbedJob(s, i); } hide Waiting, RemoveAt, TakesIn;
    case Released(cutShort) => if s.phase.Holding? { ReleasedJobs(s, cutShort); } hide Waiting, Continuation;
  }

  lemma ChosenJob(s: Slot)
    requires s.phase.Choosing? && s.queue != []
    ensures Waiting(Choose(s)) == Waiting(s) && Holder(Choose(s)) == Holder(s)
  {
    ChosenIsFirst(s);
    RemovedJobs(s.queue, Choice(s).0);
    hide Choice, RemoveAt;
  }

  lemma AbsorbedJob(s: Slot, i: nat)
    requires Absorb(s, i) != s
    ensures TakesIn(s, Absorb(s, i))
  {
    RemovedJobs(s.queue, i);
    hide RemoveAt;
    assert Waiting(s) == Waiting(Absorb(s, i)) + multiset{s.queue[i]};
  }

  lemma ReleasedJobs(s: Slot, cutShort: bool)
    requires s.phase.Holding?
    ensures Waiting(Release(s, cutShort)) == Waiting(s) + Continuation(s, cutShort)
  {
    assert Waiting(s) == multiset(s.queue);
    assert (forall job :: job in Waiting(s) ==> job.key != s.phase.job.key)
           <==> (forall i :: 0 <= i < |s.queue| ==> s.queue[i].key != s.phase.job.key) by {
      forall i | 0 <= i < |s.queue| ensures s.queue[i] in multiset(s.queue) {}
    }
    hide Waiting;
    assert Waiting(Release(s, cutShort)) == multiset(Release(s, cutShort).queue) by { QueueWaits(Release(s, cutShort)); }
  }

  lemma QueueWaits(s: Slot)
    requires !s.phase.Opening?
    ensures Waiting(s) == multiset(s.queue)
  {
  }

  // ---------- Routing first ----------

  function NextStreak(s: Slot, e: Event, streak: nat): nat {
    if !Grants(s, e) then streak else if s.phase.job.route then streak + 1 else 0
  }

  /** How many turns in a row were routing turns, at the end of a run that began with `streak` of them. */
  function Streak(s: Slot, run: seq<Event>, streak: nat): nat
    decreases |run|
  {
    if run == [] then streak
    else Streak(After(s, run[0]), run[1..], NextStreak(s, run[0], streak))
  }

  /** `burst` counts them up to two, and a fair turn is one that was chosen after two. */
  predicate Counts(s: Slot, streak: nat) {
    s.burst == (if streak < 2 then streak else 2) && (s.phase.Opening? && s.phase.fair ==> 2 <= streak)
  }

  lemma StepCounts(s: Slot, e: Event, streak: nat)
    requires Counts(s, streak)
    ensures Counts(After(s, e), NextStreak(s, e, streak))
  {
    hide IndexOf, HasRoute;
  }

  function AfterRun(s: Slot, run: seq<Event>): Slot
    decreases |run|
  {
    if run == [] then s else AfterRun(After(s, run[0]), run[1..])
  }

  lemma {:induction false} RunCounts(s: Slot, run: seq<Event>, streak: nat)
    requires Counts(s, streak)
    ensures Counts(AfterRun(s, run), Streak(s, run, streak))
    decreases |run|
  {
    hide After, Counts, NextStreak;
    if run != [] {
      StepCounts(s, run[0], streak);
      RunCounts(After(s, run[0]), run[1..], NextStreak(s, run[0], streak));
    }
  }

  const NewSlot := Slot([], 0, Choosing)

  /** In every run another role is granted the slot while a routing request is queued only after two routing turns in a row, and a
      routing request is chosen otherwise. */
  lemma RoutesComeFirst(run: seq<Event>, e: Event)
    ensures var s, streak := AfterRun(NewSlot, run), Streak(NewSlot, run, 0);
            && (Grants(s, e) && !s.phase.job.route && HasRoute(s.queue) ==> 2 <= streak)
            && (e.Chosen? && s.phase.Choosing? && HasRoute(s.queue) && streak < 2 ==> After(s, e).phase.Opening? && After(s, e).phase.job.route)
            && (e.Chosen? && s.phase.Choosing? && HasOther(s.queue) && 2 <= streak ==> After(s, e).phase.Opening? && !After(s, e).phase.job.route)
  {
    hide After, AfterRun, Streak;
    RunCounts(NewSlot, run, 0);
    ChoosesByStreak(AfterRun(NewSlot, run), e, Streak(NewSlot, run, 0));
  }

  lemma ChoosesByStreak(s: Slot, e: Event, streak: nat)
    requires Counts(s, streak)
    ensures Grants(s, e) && !s.phase.job.route && HasRoute(s.queue) ==> 2 <= streak
    ensures e.Chosen? && s.phase.Choosing? && HasRoute(s.queue) && streak < 2 ==> After(s, e).phase.Opening? && After(s, e).phase.job.route
    ensures e.Chosen? && s.phase.Choosing? && HasOther(s.queue) && 2 <= streak ==> After(s, e).phase.Opening? && !After(s, e).phase.job.route
  {
  }
}
