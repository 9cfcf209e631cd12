/**
  Listening and recovery in dws-bridge.js.  Each group has an entry with a listener, at most one
  backfill at a time, and a recovery bound: the instant from which messages may have been missed.
  The whole ingress has a persisted bound too, kept while it is paused and until every group has
  recovered.  Asynchronous code is cut at its awaits; every interleaving of the pieces is a run.
*/
module Bridge {
  import opened Wrappers

  type Id = string

  // ---------- State ----------

  datatype Listener = Starting | Ready | Reconnecting | Stopped | PausedListener
  datatype Backfill = Never | InProgress | Ok | Failed | PausedBackfill

  /** `from` is the recovery bound, `epoch` counts the losses that set it. */
  datatype Entry = Entry(group: Id, generation: nat, listener: Listener, subscription: Option<nat>, retry: bool, backfill: Backfill,
                         running: bool, queued: bool, epoch: nat, required: bool, from: Option<int>, activeStart: Option<int>,
                         lastEnd: Option<int>, everOk: bool)

  datatype Phase = Reading | Processing(left: nat) | Ended

  /** A backfill in flight.  `disturbed` is a history variable: a listener was lost or the ingress paused since it began. */
  datatype Run = Run(direct: bool, recovery: bool, epoch: nat, start: int, end: int, phase: Phase, disturbed: bool)

  datatype Group = Group(id: Id, direct: bool)
  datatype Ingress = Ingress(paused: bool, from: Option<int>)
  datatype Human = Human(generation: nat, subscription: Option<nat>, listener: Listener)

  /** The control operation whose state is being saved. */
  datatype Control = Idle | Finishing | Pausing(from: int) | Resuming

  /** Entries are numbered, because a group that leaves and returns gets a new one while a backfill may still hold the old. */
  datatype State = State(ingress: Ingress, stopping: bool, human: Human, groups: seq<Group>, current: map<Id, nat>,
                         entries: map<nat, Entry>, runs: map<nat, Run>, control: Control, next: nat)

  /** `fallback` is the instant of the last stored message of a group less the overlap, or the start of the day. */
  datatype Env = Env(now: int, overlap: nat, fallback: Id -> int, starts: Id -> bool)

  function BeforeOverlap(env: Env, t: int): int {
    if t < env.overlap then 0 else t - env.overlap
  }

  function Earlier(a: Option<int>, b: Option<int>): Option<int> {
    if a.None? then b else if b.None? then a else Some(if a.value < b.value then a.value else b.value)
  }

  function Find(groups: seq<Group>, id: Id): Option<Group> {
    if groups == [] then None else if groups[0].id == id then Some(groups[0]) else Find(groups[1..], id)
  }

  predicate Listed(s: State, id: Id) {
    Find(s.groups, id).Some?
  }

  predicate IsDirect(s: State, id: Id) {
    Listed(s, id) && Find(s.groups, id).value.direct
  }

  // ---------- Entries ----------

  function EntryFor(s: State, id: Id): (s': State)
    ensures id in s'.current
    ensures (id in s.current ==> s' == s)
  {
    if id in s.current then s
    else
      var e := Entry(id, 0, if s.ingress.paused then PausedListener else Starting, None, false, if s.ingress.paused then PausedBackfill else Never,
                     false, false, 0, s.ingress.from.Some?, s.ingress.from, None, None, false);
      s.(current := s.current[id := s.next], entries := s.entries[s.next := e], next := s.next + 1)
  }

  /** The entry owes everything from `bound` on, and a backfill in flight no longer settles it. */
  function Lose(s: State, k: nat, bound: int): State
    requires k in s.entries
  {
    var e := s.entries[k];
    s.(entries := s.entries[k := e.(required := true, epoch := e.epoch + 1, from := Earlier(e.from, Some(bound)))],
       runs := if k in s.runs then s.runs[k := s.runs[k].(disturbed := true)] else s.runs)
  }

  /** What a lost listener owes: from the start of the backfill in flight, else from before the last complete one. */
  function LossBound(env: Env, e: Entry): int {
    if e.activeStart.Some? then e.activeStart.value
    else if e.lastEnd.Some? then BeforeOverlap(env, e.lastEnd.value)
    else env.fallback(e.group)
  }

  // ---------- Backfills ----------

  function Queue(s: State, env: Env, id: Id, queueAfterActive: bool, recovery: bool): State {
    QueueEntry(EntryFor(s, id), env, id, queueAfterActive, recovery)
  }

  function QueueEntry(s: State, env: Env, id: Id, queueAfterActive: bool, recovery: bool): State
    requires id in s.current
  {
    var k := s.current[id];
    if k !in s.entries || s.ingress.paused || s.stopping then s
    else
      var direct := IsDirect(s, id);
      var e := if direct then s.entries[k].(listener := s.human.listener) else s.entries[k];
      if e.running then s.(entries := s.entries[k := e.(queued := e.queued || queueAfterActive)])
      else
        var isRecovery := recovery || e.required;
        var e' := e.(running := true, backfill := if isRecovery || (!e.everOk && !e.backfill.Failed?) then InProgress else e.backfill);
        if !Listed(s, id)
        then s.(entries := s.entries[k := e'], runs := s.runs[k := Run(direct, isRecovery, e.epoch, 0, 0, Ended, false)])
        else
          var start := Earlier(Some(env.fallback(id)), if isRecovery then e.from else None).value;
          s.(entries := s.entries[k := e'.(activeStart := Some(start))],
             runs := s.runs[k := Run(direct, isRecovery, e.epoch, start, env.now, Reading, false)])
  }

  predicate Active(s: State, k: nat) {
    k in s.runs && k in s.entries && !s.runs[k].phase.Ended?
  }

  /** The backfill notices that it is no longer wanted. */
  predicate Abandoned(s: State, k: nat)
    requires Active(s, k)
  {
    s.stopping || s.ingress.paused || s.entries[k].epoch != s.runs[k].epoch || !Listed(s, s.entries[k].group)
  }

  function ToPhase(s: State, k: nat, phase: Phase): State
    requires k in s.runs
  {
    s.(runs := s.runs[k := s.runs[k].(phase := phase)])
  }

  /** The history of the group has arrived: `count` messages when it is complete. */
  function History(s: State, k: nat, count: Option<nat>): State {
    if !Active(s, k) || !s.runs[k].phase.Reading? then s
    else if Abandoned(s, k) then ToPhase(s, k, Ended)
    else if count.None? then Break(s, k)
    else ToPhase(s, k, Processing(count.value))
  }

  function Message(s: State, k: nat): State {
    if !Active(s, k) || !s.runs[k].phase.Processing? || s.runs[k].phase.left == 0 then s
    else if Abandoned(s, k) then ToPhase(s, k, Ended)
    else ToPhase(s, k, Processing(s.runs[k].phase.left - 1))
  }

  /** Reading, or the message in hand, has thrown. */
  function Break(s: State, k: nat): State {
    if !Active(s, k) then s
    else
      var e := s.entries[k];
      if s.ingress.paused || s.stopping || e.epoch != s.runs[k].epoch then ToPhase(s, k, Ended)
      else ToPhase(s.(entries := s.entries[k := e.(backfill := Failed)]), k, Ended)
  }

  predicate ListenerReady(s: State, k: nat, direct: bool)
    requires k in s.entries
  {
    if direct then s.human.listener.Ready? else s.entries[k].listener.Ready?
  }

  /** Every message is processed. */
  function Complete(s: State, k: nat): State {
    if !Active(s, k) || s.runs[k].phase != Processing(0) then s
    else
      var e, run := s.entries[k], s.runs[k];
      var recovered := run.recovery && e.epoch == run.epoch && ListenerReady(s, k, run.direct);
      var e' := e.(backfill := Ok, lastEnd := Some(run.end), everOk := true,
                   required := e.required && !recovered, from := if recovered then None else e.from);
      ToPhase(s.(entries := s.entries[k := e']), k, Ended)
  }

  function Finally(s: State, env: Env, k: nat): State {
    if k !in s.runs || k !in s.entries || !s.runs[k].phase.Ended? then s
    else
      var e := s.entries[k];
      var s' := s.(entries := s.entries[k := e.(activeStart := None, running := false, queued := false)], runs := s.runs - {k});
      if e.queued && !s.stopping && !s.ingress.paused && Listed(s, e.group) then Queue(s', env, e.group, false, false) else s'
  }

  // ---------- Listeners of groups ----------

  predicate Holds(s: State, k: nat, generation: nat) {
    k in s.entries && s.entries[k].group in s.current && s.current[s.entries[k].group] == k && s.entries[k].generation == generation
  }

  /** `attached` is false when the subscription could not even be started. */
  function ListenerFailed(s: State, env: Env, k: nat, generation: nat, attached: bool): State {
    if s.stopping || !Holds(s, k, generation) || (attached && s.entries[k].subscription != Some(generation)) then s
    else
      var e := s.entries[k];
      var e' := e.(subscription := None, listener := Reconnecting, retry := e.retry || !s.ingress.paused);
      Lose(s.(entries := s.entries[k := e']), k, LossBound(env, e))
  }

  function MarkListenerReady(s: State, env: Env, k: nat, generation: nat): State {
    if s.stopping || !Holds(s, k, generation) || s.entries[k].subscription != Some(generation) || s.entries[k].listener.Ready? then s
    else
      var e := s.entries[k];
      Queue(s.(entries := s.entries[k := e.(listener := Ready)]), env, e.group, true, e.required)
  }

  /** A new listener; its subscription is named by its generation. */
  function Attach(s0: State, env: Env, g: Group): State {
    if g.direct then s0
    else
      var s := EntryFor(s0, g.id);
      var k := s.current[g.id];
      if k !in s.entries || s.stopping || s.ingress.paused || s.entries[k].subscription.Some? || s.entries[k].retry then s
      else
        var e := s.entries[k];
        var e' := e.(generation := e.generation + 1, listener := Starting);
        if env.starts(g.id) then s.(entries := s.entries[k := e'.(subscription := Some(e'.generation))])
        else ListenerFailed(s.(entries := s.entries[k := e']), env, k, e'.generation, false)
  }

  function Reattach(s: State, env: Env, k: nat): State {
    if k !in s.entries || !s.entries[k].retry then s
    else
      var e := s.entries[k];
      var s' := s.(entries := s.entries[k := e.(retry := false)]);
      if s.stopping || !Holds(s, k, e.generation) || !Listed(s, e.group) then s' else Attach(s', env, Find(s.groups, e.group).value)
  }

  function StopEntry(s: State, id: Id): State {
    if id !in s.current || s.current[id] !in s.entries then s
    else
      var k := s.current[id];
      s.(entries := s.entries[k := s.entries[k].(generation := s.entries[k].generation + 1, retry := false, subscription := None, listener := Stopped)])
  }

  // ---------- The listener that all private conversations share ----------

  function LoseDirect(s: State, env: Env, groups: seq<Group>): State
    decreases |groups|
  {
    if groups == [] then s
    else if !groups[0].direct then LoseDirect(s, env, groups[1..])
    else
      var s' := EntryFor(s, groups[0].id);
      var k := s'.current[groups[0].id];
      if k !in s'.entries then LoseDirect(s', env, groups[1..])
      else LoseDirect(Lose(s', k, LossBound(env, s'.entries[k])), env, groups[1..])
  }

  function HumanListenerFailed(s: State, env: Env, generation: nat, attached: bool): State {
    if s.stopping || s.human.generation != generation || (attached && s.human.subscription != Some(generation)) then s
    else LoseDirect(s.(human := s.human.(subscription := None, listener := Reconnecting)), env, s.groups)
  }

  function QueueDirect(s: State, env: Env, groups: seq<Group>): State
    decreases |groups|
  {
    if groups == [] then s
    else if !groups[0].direct then QueueDirect(s, env, groups[1..])
    else
      var s' := EntryFor(s, groups[0].id);
      var k := s'.current[groups[0].id];
      QueueDirect(Queue(s', env, groups[0].id, true, k in s'.entries && s'.entries[k].required), env, groups[1..])
  }

  function HumanReady(s: State, env: Env, generation: nat): State {
    if s.stopping || s.human.generation != generation || s.human.subscription != Some(generation) then s
    else QueueDirect(s.(human := s.human.(listener := Ready)), env, s.groups)
  }

  function HumanAttach(s: State, env: Env, starts: bool): State {
    if s.stopping || s.human.subscription.Some? then s
    else
      var generation := s.human.generation + 1;
      if starts then s.(human := Human(generation, Some(generation), Starting))
      else HumanListenerFailed(s.(human := Human(generation, None, Starting)), env, generation, false)
  }

  // ---------- Pausing, resuming and finishing the recovery of the ingress ----------

  predicate RecoveryComplete(s: State) {
    && !s.stopping && !s.ingress.paused && s.ingress.from.Some?
    && forall g :: g in s.groups ==> Recovered(s, g)
  }

  predicate Recovered(s: State, g: Group) {
    && g.id in s.current && s.current[g.id] in s.entries
    && var k := s.current[g.id]; var e := s.entries[k];
       ListenerReady(s, k, g.direct) && e.backfill.Ok? && !e.running && !e.required
  }

  function PauseOne(s: State, id: Id, bound: int): State {
    var s' := StopEntry(EntryFor(s, id), id);
    if id !in s'.current || s'.current[id] !in s'.entries then s'
    else
      var k := s'.current[id];
      Lose(s'.(entries := s'.entries[k := s'.entries[k].(listener := PausedListener, backfill := PausedBackfill)]), k, bound)
  }

  function PauseEach(s: State, groups: seq<Group>, bound: int): State
    decreases |groups|
  {
    if groups == [] then s else PauseEach(PauseOne(s, groups[0].id, bound), groups[1..], bound)
  }

  function AttachEach(s: State, env: Env, groups: seq<Group>): State
    decreases |groups|
  {
    if groups == [] then s else AttachEach(Attach(s, env, groups[0]), env, groups[1..])
  }

  /** A control operation starts when the previous one is over; its state is saved before it takes effect. */
  function BeginFinish(s: State): State {
    if !s.control.Idle? || !RecoveryComplete(s) then s else s.(control := Finishing)
  }

  function BeginPause(s: State, env: Env, paused: bool): State {
    if !s.control.Idle? || s.stopping || s.ingress.paused == paused then s
    else if paused then s.(control := Pausing(Earlier(s.ingress.from, Some(BeforeOverlap(env, env.now))).value))
    else s.(control := Resuming)
  }

  function Commit(s: State, env: Env): State {
    match s.control
    case Idle => s
    case Finishing => s.(ingress := Ingress(false, None), control := Idle)
    case Pausing(from) => PauseEach(s.(ingress := Ingress(true, Some(from)), control := Idle), s.groups, from)
    case Resuming => AttachEach(s.(ingress := Ingress(false, s.ingress.from), control := Idle), env, s.groups)
  }

  function SaveFails(s: State): State {
    s.(control := Idle)
  }

  // ---------- Groups come and go ----------

  function Join(s: State, env: Env, g: Group): State {
    if Listed(s, g.id) then s else Attach(s.(groups := s.groups + [g]), env, g)
  }

  function Drop(groups: seq<Group>, id: Id): seq<Group> {
    if groups == [] then [] else if groups[0].id == id then Drop(groups[1..], id) else [groups[0]] + Drop(groups[1..], id)
  }

  function Leave(s: State, id: Id): State {
    var s' := StopEntry(s.(groups := Drop(s.groups, id)), id);
    s'.(current := s'.current - {id})
  }

  function Stop(s: State): State {
    s.(stopping := true, human := Human(s.human.generation + 1, None, Stopped),
       entries := map k | k in s.entries ::
         var e := s.entries[k];
         if e.group in s.current && s.current[e.group] == k
         then e.(generation := e.generation + 1, retry := false, subscription := None, listener := Stopped) else e)
  }

  // ---------- Runs ----------

  datatype Event =
    | Poll(group: Id)
    | HistoryArrives(entry: nat, count: Option<nat>)
    | MessageStarts(entry: nat)
    | BackfillBreaks(entry: nat)
    | BackfillCompletes(entry: nat)
    | BackfillSettles(entry: nat)
    | ListenerFails(entry: nat, generation: nat)
    | ListenerIsReady(entry: nat, generation: nat)
    | RetryTimer(entry: nat)
    | HumanFails(generation: nat)
    | HumanIsReady(generation: nat)
    | HumanRetry(starts: bool)
    | FinishRecovery
    | SetPaused(paused: bool)
    | Saved
    | SaveFailed
    | GroupJoins(joined: Group)
    | GroupLeaves(left: Id)
    | StopAll

  function After(s: State, env: Env, e: Event): State {
    match e
    case Poll(id) => if Listed(s, id) then Queue(s, env, id, false, false) else s
    case HistoryArrives(k, count) => History(s, k, count)
    case MessageStarts(k) => Message(s, k)
    case BackfillBreaks(k) => Break(s, k)
    case BackfillCompletes(k) => Complete(s, k)
    case BackfillSettles(k) => Finally(s, env, k)
    case ListenerFails(k, generation) => ListenerFailed(s, env, k, generation, true)
    case ListenerIsReady(k, generation) => MarkListenerReady(s, env, k, generation)
    case RetryTimer(k) => Reattach(s, env, k)
    case HumanFails(generation) => HumanListenerFailed(s, env, generation, true)
    case HumanIsReady(generation) => HumanReady(s, env, generation)
    case HumanRetry(starts) => HumanAttach(s, env, starts)
    case FinishRecovery => BeginFinish(s)
    case SetPaused(paused) => BeginPause(s, env, paused)
    case Saved => Commit(s, env)
    case SaveFailed => SaveFails(s)
    case GroupJoins(g) => Join(s, env, g)
    case GroupLeaves(id) => Leave(s, id)
    case StopAll => Stop(s)
  }

  datatype Step = Step(env: Env, event: Event)

  function AfterAll(s: State, run: seq<Step>): State
    decreases |run|
  {
    if run == [] then s else AfterAll(After(s, run[0].env, run[0].event), run[1..])
  }

  /** The bridge starts with the ingress state it was saved with and the groups it knows. */
  function Initial(ingress: Ingress, groups: seq<Group>): State {
    State(ingress, false, Human(0, None, Starting), groups, map[], map[], map[], Idle, 0)
  }
}
