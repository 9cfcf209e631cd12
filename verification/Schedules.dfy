/**
  The four coordination tables of coordination-schedules.js and the commands on them, as functions
  from one table state to the next.  A command that throws leaves the tables as they were, because
  its caller runs it in one store transaction.
*/
module Schedules {
  import opened Wrappers
  import Calendar

  type Id = string

  // ---------- Records ----------

  /** A slot id is the digest of its schedule and planned instant; digests are taken as injective. */
  datatype SlotId = SlotId(scheduleId: Id, plannedAt: int)

  datatype OccurrenceId =
    | TimeOccurrence(slot: SlotId)
    | Replacement(of: OccurrenceId, revision: nat)
    | EventOccurrence(coordinationId: Id, event: string)

  datatype Action =
    | Reminder(text: string)
    | ReadQuery(taskIds: seq<Id>, onIncomplete: seq<Id>)
    | TaskCommand(instructionIds: seq<Id>)

  datatype Target = Target(conversationId: Id, recipientIds: seq<Id>, summaryOnly: bool)

  datatype ScheduleState = Active | Paused | Terminated | Completed
  datatype MisfirePolicy = CoalesceLatest | CatchUpOnce | Expire
  datatype Cursor = Cursor(plannedAt: int, localDate: int)
  datatype Definition = Definition(action: Action, target: Target)

  /** An earlier revision of a schedule; a cancellation records no definition. */
  datatype PastRevision = PastRevision(revision: nat, definition: Option<Definition>)

  datatype Schedule = Schedule(coordinationId: Id, revision: nat, state: ScheduleState, timezone: string,
                               rule: Calendar.Rule, definition: Definition, graceMs: int, misfirePolicy: MisfirePolicy,
                               cursor: Option<Cursor>, history: seq<PastRevision>, nextDueAt: Option<int>)

  datatype Trigger = AtTime(slot: SlotId, acceptedRevision: nat) | OnEvent(event: string)

  datatype ActionState = Waiting | Running | Succeeded | Expired | Superseded | Cancelled | Blocked
  datatype DeliveryState = NoDelivery | Pending | Unknown | Delivered | DeliveryCancelled

  datatype Occurrence = Occurrence(coordinationId: Id, trigger: Trigger, definition: Definition, templateAction: Option<Action>,
                                   actionState: ActionState, deliveryState: DeliveryState, instanceRevision: nat,
                                   deliveryRevision: nat, cancelled: bool, paused: bool, merged: nat)

  datatype Slot = Slot(current: OccurrenceId, started: Option<OccurrenceId>, retired: bool)

  datatype JobState = JobWaiting | JobRunning | JobCompleted | JobSuperseded | JobCancelled | JobBlocked

  /** The job id is `job:` followed by the occurrence id, so jobs are keyed by occurrence here. */
  datatype Job = Job(state: JobState, fence: nat, attempt: nat, leaseUntil: Option<int>, instanceRevision: nat)

  datatype Tables = Tables(schedules: map<Id, Schedule>, occurrences: map<OccurrenceId, Occurrence>,
                           slots: map<SlotId, Slot>, jobs: map<OccurrenceId, Job>)

  datatype Arrangement = ArrangementActive | NeedsClarification | ArrangementCancelled
  datatype Notice = NoNotice | SendPermitted | NoticeDelivered

  /** What a command reads outside the four tables. */
  datatype Env = Env(now: int, zone: string -> Calendar.Zone, arrangement: Id -> Arrangement,
                     acceptsAction: Action -> bool, acceptsTarget: Target -> bool, acceptsTemplate: Action -> bool,
                     triggerHolds: OccurrenceId -> bool, notice: OccurrenceId -> Notice)
  {
    predicate Alive(coordinationId: Id) {
      arrangement(coordinationId) != ArrangementCancelled
    }
  }

  predicate OfSchedule(o: Occurrence, id: Id) {
    o.trigger.AtTime? && o.trigger.slot.scheduleId == id
  }

  // ---------- Helpers of several commands ----------

  const FreshJob := Job(JobWaiting, 0, 0, None, 0)

  function CancelledDelivery(d: DeliveryState, notice: Notice): DeliveryState {
    match notice
    case NoticeDelivered => Delivered
    case SendPermitted => Unknown
    case NoNotice => if d == NoDelivery then NoDelivery else DeliveryCancelled
  }

  function CancelOccurrence(t: Tables, env: Env, id: OccurrenceId): Tables
    requires id in t.occurrences
  {
    var o := t.occurrences[id];
    if o.cancelled then t
    else
      var open := o.actionState.Waiting? || o.actionState.Running?;
      var o' := o.(instanceRevision := o.instanceRevision + 1, deliveryRevision := o.deliveryRevision + 1, cancelled := true,
                   actionState := if open then Cancelled else o.actionState,
                   deliveryState := CancelledDelivery(o.deliveryState, env.notice(id)));
      var jobs' :=
        if id in t.jobs && (t.jobs[id].state.JobWaiting? || t.jobs[id].state.JobRunning?)
        then t.jobs[id := t.jobs[id].(state := JobCancelled, fence := t.jobs[id].fence + 1)]
        else t.jobs;
      t.(occurrences := t.occurrences[id := o'], jobs := jobs')
  }

  function CancelAll(t: Tables, env: Env, ids: seq<OccurrenceId>): Tables
    requires forall id :: id in ids ==> id in t.occurrences
    decreases |ids|
  {
    if ids == [] then t else CancelAll(CancelOccurrence(t, env, ids[0]), env, ids[1..])
  }

  /** Rows of the occurrence table that a cancellation reaches. */
  function Cancellable(t: Tables, rows: seq<OccurrenceId>, wanted: Occurrence -> bool): (ids: seq<OccurrenceId>)
    ensures forall id :: id in ids <==> id in rows && id in t.occurrences && wanted(t.occurrences[id])
                                        && !t.occurrences[id].actionState.Expired? && !t.occurrences[id].actionState.Superseded?
  {
    if rows == [] then []
    else
      var rest := Cancellable(t, rows[1..], wanted);
      if rows[0] in t.occurrences && wanted(t.occurrences[rows[0]])
         && !t.occurrences[rows[0]].actionState.Expired? && !t.occurrences[rows[0]].actionState.Superseded?
      then [rows[0]] + rest else rest
  }

  function WaitingOf(t: Tables, rows: seq<OccurrenceId>, id: Id): (ids: seq<OccurrenceId>)
    ensures forall o :: o in ids <==> o in rows && o in t.occurrences && OfSchedule(t.occurrences[o], id)
                                      && t.occurrences[o].actionState.Waiting?
  {
    if rows == [] then []
    else
      var rest := WaitingOf(t, rows[1..], id);
      if rows[0] in t.occurrences && OfSchedule(t.occurrences[rows[0]], id) && t.occurrences[rows[0]].actionState.Waiting?
      then [rows[0]] + rest else rest
  }

  function SupersedeOne(t: Tables, id: OccurrenceId): Tables
    requires id in t.occurrences && id in t.jobs
  {
    var o, job := t.occurrences[id], t.jobs[id];
    t.(occurrences := t.occurrences[id := o.(actionState := Superseded, instanceRevision := o.instanceRevision + 1)],
       jobs := t.jobs[id := job.(state := JobSuperseded, fence := job.fence + 1)])
  }

  /** Move an unstarted occurrence to the schedule's new revision, in its slot or in a new one. */
  function ReplaceUnstarted(t: Tables, scheduleId: Id, sc: Schedule, id: OccurrenceId, plannedAt: int): Result<Tables>
    requires id in t.occurrences && t.occurrences[id].trigger.AtTime?
  {
    var o, newSlot := t.occurrences[id], SlotId(scheduleId, plannedAt);
    var oldSlot := o.trigger.slot;
    if oldSlot !in t.slots || id !in t.jobs then Failure("DYNAMIC_NOT_FOUND")
    else if !o.actionState.Waiting? || t.slots[oldSlot].started.Some? || t.slots[oldSlot].current != id
    then Failure("DYNAMIC_COORDINATION_SLOT_CONSUMED")
    else if newSlot != oldSlot && newSlot in t.slots then Failure("DYNAMIC_COORDINATION_SLOT_CONSUMED")
    else
      var replacement := o.(trigger := AtTime(newSlot, sc.revision), definition := sc.definition,
                            instanceRevision := 1, deliveryRevision := 1);
      Success(AddReplacement(SupersedeOne(t, id), id, sc.revision, replacement, oldSlot, newSlot))
  }

  function AddReplacement(t: Tables, id: OccurrenceId, revision: nat, o: Occurrence, oldSlot: SlotId, newSlot: SlotId): Tables
    requires oldSlot in t.slots
  {
    var newO := Replacement(id, revision);
    t.(occurrences := t.occurrences[newO := o], jobs := t.jobs[newO := FreshJob],
       slots := if newSlot == oldSlot then t.slots[oldSlot := t.slots[oldSlot].(current := newO)]
                else t.slots[oldSlot := t.slots[oldSlot].(retired := true)][newSlot := Slot(newO, None, false)])
  }

  function ReplaceAll(t: Tables, scheduleId: Id, sc: Schedule, ids: seq<OccurrenceId>, at: Option<int>): Result<Tables>
    decreases |ids|
  {
    if ids == [] then Success(t)
    else if ids[0] !in t.occurrences || !t.occurrences[ids[0]].trigger.AtTime? then Failure("DYNAMIC_NOT_FOUND")
    else
      var plannedAt := if at.Some? then at.value else t.occurrences[ids[0]].trigger.slot.plannedAt;
      match ReplaceUnstarted(t, scheduleId, sc, ids[0], plannedAt)
      case Failure(code) => Failure(code)
      case Success(t') => ReplaceAll(t', scheduleId, sc, ids[1..], at)
  }

  // ---------- Schedules ----------

  datatype NewSchedule = NewSchedule(coordinationId: Id, timezone: string, rule: Calendar.Rule, definition: Definition,
                                     graceMs: int, freshnessWindowMs: int, misfirePolicy: MisfirePolicy)

  function FirstDue(rule: Calendar.Rule, z: Calendar.Zone, now: int): Result<Option<int>> {
    if rule.Once? then Success(Some(rule.at)) else Calendar.NextTimeSlot(rule, z, now, None)
  }

  function Create(t: Tables, env: Env, id: Id, a: NewSchedule): Result<Tables> {
    if env.arrangement(a.coordinationId) != ArrangementActive then Failure("DYNAMIC_COORDINATION_REVISION_STALE")
    else if id in t.schedules then Failure("DYNAMIC_COORDINATION_EXISTS")
    else if !Calendar.ValidRule(a.rule) then Failure("DYNAMIC_COORDINATION_TIME_INVALID")
    else if !env.acceptsAction(a.definition.action) then Failure("DYNAMIC_COORDINATION_ACTION_INVALID")
    else if !env.acceptsTarget(a.definition.target) then Failure("DYNAMIC_COORDINATION_SCOPE")
    else
      match FirstDue(a.rule, env.zone(a.timezone), env.now)
      case Failure(code) => Failure(code)
      case Success(due) =>
        if !(0 <= a.graceMs <= 604_800_000) || !(1000 <= a.freshnessWindowMs <= 86_400_000) then Failure("DYNAMIC_ARGUMENT_INVALID")
        else if !a.rule.Once? && !env.acceptsTemplate(a.definition.action) then Failure("DYNAMIC_COORDINATION_RECURRING_TEMPLATE_INVALID")
        else Success(t.(schedules := t.schedules[id := Schedule(a.coordinationId, 1, Active, a.timezone, a.rule, a.definition,
                                                                 a.graceMs, a.misfirePolicy, None, [], due)]))
  }

  datatype ScheduleChange = ScheduleChange(expectedRevision: nat, rule: Option<Calendar.Rule>, timezone: Option<string>,
                                           action: Option<Action>, target: Option<Target>, state: Option<ScheduleState>,
                                           unstarted: bool, replacementPlannedAt: Option<int>)
  {
    predicate Redefines() {
      rule.Some? || timezone.Some? || action.Some? || target.Some?
    }
  }

  function Or<T>(o: Option<T>, default: T): T {
    if o.Some? then o.value else default
  }

  /** The schedule record that a change writes, before its occurrences are touched. */
  function Revised(sc: Schedule, env: Env, a: ScheduleChange): Result<Schedule> {
    var rule, timezone := Or(a.rule, sc.rule), Or(a.timezone, sc.timezone);
    if sc.revision != a.expectedRevision then Failure("DYNAMIC_COORDINATION_REVISION_STALE")
    else if !sc.state.Active? && !sc.state.Paused? then Failure("DYNAMIC_COORDINATION_TERMINAL")
    else if !env.Alive(sc.coordinationId) then Failure("DYNAMIC_COORDINATION_CANCELLED")
    else if !Calendar.ValidRule(rule) then Failure("DYNAMIC_COORDINATION_TIME_INVALID")
    else if a.state == Some(Completed) then Failure("DYNAMIC_ARGUMENT_INVALID")
    else if a.replacementPlannedAt.Some? && (!a.unstarted || a.replacementPlannedAt.value <= env.now) then Failure("DYNAMIC_COORDINATION_TIME_PAST")
    else if a.action.Some? && !env.acceptsAction(a.action.value) then Failure("DYNAMIC_COORDINATION_ACTION_INVALID")
    else
      var definition := Definition(Or(a.action, sc.definition.action), Or(a.target, sc.definition.target));
      if !rule.Once? && !env.acceptsTemplate(definition.action) then Failure("DYNAMIC_COORDINATION_RECURRING_TEMPLATE_INVALID")
      else if !env.acceptsTarget(definition.target) then Failure("DYNAMIC_COORDINATION_SCOPE")
      else
        var skip := if sc.cursor.Some? then Some(sc.cursor.value.localDate) else None;
        var next := if a.Redefines() then Calendar.NextTimeSlot(rule, env.zone(timezone), env.now, skip) else Success(sc.nextDueAt);
        match next
        case Failure(code) => Failure(code)
        case Success(due) =>
          var state := Or(a.state, sc.state);
          Success(sc.(revision := sc.revision + 1, rule := rule, timezone := timezone, definition := definition, state := state,
                      history := sc.history + [PastRevision(sc.revision, Some(sc.definition))],
                      nextDueAt := if state.Terminated? then None else due))
  }

  function Change(t: Tables, env: Env, id: Id, a: ScheduleChange, rows: seq<OccurrenceId>): Result<Tables> {
    if id !in t.schedules then Failure("DYNAMIC_NOT_FOUND")
    else
      match Revised(t.schedules[id], env, a)
      case Failure(code) => Failure(code)
      case Success(sc) =>
        if sc.state.Terminated? then
          var t' := CancelAll(t, env, Cancellable(t, rows, o => OfSchedule(o, id)));
          Success(t'.(schedules := t'.schedules[id := sc]))
        else if !a.unstarted then Success(t.(schedules := t.schedules[id := sc]))
        else
          var waiting := WaitingOf(t, rows, id);
          if waiting == [] && exists o :: o in t.occurrences && OfSchedule(t.occurrences[o], id) && t.occurrences[o].actionState.Running?
          then Failure("DYNAMIC_COORDINATION_SLOT_CONSUMED")
          else if a.replacementPlannedAt.Some? && |waiting| != 1 then Failure("DYNAMIC_COORDINATION_REPLACEMENT_AMBIGUOUS")
          else
            match ReplaceAll(t.(schedules := t.schedules[id := sc]), id, sc, waiting, a.replacementPlannedAt)
            case Failure(code) => Failure(code)
            case Success(t') =>
              var at := a.replacementPlannedAt;
              var due := if at.Some? && (sc.nextDueAt.None? || at.value < sc.nextDueAt.value) then at else sc.nextDueAt;
              Success(t'.(schedules := t'.schedules[id := sc.(nextDueAt := due)]))
  }

  function TerminatedSchedule(sc: Schedule): Schedule {
    sc.(history := sc.history + [PastRevision(sc.revision, None)], revision := sc.revision + 1, state := Terminated, nextDueAt := None)
  }

  function CancelCoordination(t: Tables, env: Env, coordinationId: Id, rows: seq<OccurrenceId>): Tables {
    var schedules := map id | id in t.schedules ::
      var sc := t.schedules[id];
      if sc.coordinationId == coordinationId && !sc.state.Terminated? && !sc.state.Completed? then TerminatedSchedule(sc) else sc;
    var t' := CancelAll(t, env, Cancellable(t, rows, (o: Occurrence) => o.coordinationId == coordinationId));
    t'.(schedules := schedules)
  }

  // ---------- Scanning ----------

  predicate Due(sc: Schedule, env: Env) {
    sc.state.Active? && env.Alive(sc.coordinationId) && sc.nextDueAt.Some? && sc.nextDueAt.value <= env.now
  }

  /** The instant a due schedule is planned for now, and how many earlier slots merge into it. */
  datatype Missed = Missed(plannedAt: int, merged: nat)

  function MissedSlots(sc: Schedule, env: Env): Result<Missed>
    requires Due(sc, env)
  {
    var due := sc.nextDueAt.value;
    if sc.rule.Once? then Success(Missed(due, 0))
    else
      match Calendar.SummarizeTimeSlots(sc.rule, env.zone(sc.timezone), due, env.now)
      case Failure(code) => Failure(code)
      case Success(summary) =>
        Success(if summary.latest.Some? && 0 < summary.count then Missed(summary.latest.value, summary.count - 1) else Missed(due, 0))
  }

  /** Every waiting occurrence of the schedule is merged into the one just accepted. */
  function SupersedeAll(t: Tables, ids: seq<OccurrenceId>): Result<Tables>
    decreases |ids|
  {
    if ids == [] then Success(t)
    else if ids[0] !in t.occurrences || ids[0] !in t.jobs then Failure("DYNAMIC_NOT_FOUND")
    else SupersedeAll(SupersedeOne(t, ids[0]), ids[1..])
  }

  function TooLate(sc: Schedule, env: Env, plannedAt: int): bool {
    !sc.misfirePolicy.CatchUpOnce? && sc.graceMs < env.now - plannedAt
  }

  /** Accept the occurrence of a slot that has none yet; unless it is too late, it absorbs the waiting ones. */
  function AcceptSlot(t: Tables, env: Env, id: Id, m: Missed, rows: seq<OccurrenceId>): Result<Tables>
    requires id in t.schedules
  {
    var sc, slot := t.schedules[id], SlotId(id, m.plannedAt);
    var expired := TooLate(sc, env, m.plannedAt);
    var occurrence := Occurrence(sc.coordinationId, AtTime(slot, sc.revision), sc.definition, None,
                                 if expired then Expired else Waiting, NoDelivery, 1, 1, false, false, m.merged);
    if expired then Success(AddSlot(t, slot, occurrence, t.jobs))
    else
      match SupersedeAll(t, WaitingOf(t, rows, id))
      case Failure(code) => Failure(code)
      case Success(t') => Success(AddSlot(t', slot, occurrence, t'.jobs[TimeOccurrence(slot) := FreshJob]))
  }

  function AddSlot(t: Tables, slot: SlotId, occurrence: Occurrence, jobs: map<OccurrenceId, Job>): Tables {
    var o := TimeOccurrence(slot);
    t.(occurrences := t.occurrences[o := occurrence], slots := t.slots[slot := Slot(o, None, false)], jobs := jobs)
  }

  function Max(a: int, b: int): int {
    if a < b then b else a
  }

  function ScanSchedule(t: Tables, env: Env, id: Id, rows: seq<OccurrenceId>): Result<Tables>
    requires id in t.schedules && Due(t.schedules[id], env)
  {
    var sc := t.schedules[id];
    match MissedSlots(sc, env)
    case Failure(code) => Failure(code)
    case Success(m) =>
      var z := env.zone(sc.timezone);
      var date := Calendar.DateAt(z, m.plannedAt);
      var isNew := SlotId(id, m.plannedAt) !in t.slots;
      var accepted := if isNew then AcceptSlot(t, env, id, m, rows) else Success(t);
      match accepted
      case Failure(code) => Failure(code)
      case Success(t') =>
        match Calendar.NextTimeSlot(sc.rule, z, Max(env.now, m.plannedAt), Some(date))
        case Failure(code) => Failure(code)
        case Success(next) =>
          var over := isNew && TooLate(sc, env, m.plannedAt) && sc.rule.Once?;
          Success(t'.(schedules := t'.schedules[id := sc.(state := if over then Completed else sc.state,
                                                         cursor := Some(Cursor(m.plannedAt, date)), nextDueAt := next)]))
  }

  function ScanAll(t: Tables, env: Env, ids: seq<Id>, rows: seq<OccurrenceId>): Result<Tables>
    decreases |ids|
  {
    if ids == [] then Success(t)
    else if ids[0] !in t.schedules || !Due(t.schedules[ids[0]], env) then Failure("DYNAMIC_NOT_FOUND")
    else
      match ScanSchedule(t, env, ids[0], rows)
      case Failure(code) => Failure(code)
      case Success(t') => ScanAll(t', env, ids[1..], rows)
  }

  /** `ids` are due schedules in the order of their due instants, no more of them than the limit. */
  ghost predicate DueList(t: Tables, env: Env, ids: seq<Id>, limit: int) {
    |ids| <= limit
    && (forall id :: id in ids ==> id in t.schedules && Due(t.schedules[id], env))
    && (forall i, j :: 0 <= i < j < |ids| ==> ids[i] != ids[j] && t.schedules[ids[i]].nextDueAt.value <= t.schedules[ids[j]].nextDueAt.value)
    && (|ids| < limit ==> forall id :: id in t.schedules && Due(t.schedules[id], env) ==> id in ids)
    && (forall id, i :: id in t.schedules && Due(t.schedules[id], env) && id !in ids && 0 <= i < |ids|
                        ==> t.schedules[ids[i]].nextDueAt.value <= t.schedules[id].nextDueAt.value)
  }

  // ---------- Jobs ----------

  function DefinitionOf(sc: Schedule, revision: nat): Option<Definition> {
    if sc.revision == revision then Some(sc.definition) else PastDefinition(sc.history, revision)
  }

  function PastDefinition(history: seq<PastRevision>, revision: nat): Option<Definition> {
    if history == [] then None
    else if history[0].revision == revision then history[0].definition
    else PastDefinition(history[1..], revision)
  }

  function Accepted(o: Occurrence): Definition {
    Definition(Or(o.templateAction, o.definition.action), o.definition.target)
  }

  predicate Occupies(o: Occurrence) {
    !o.cancelled && (o.actionState.Running? || o.deliveryState.Pending? || o.deliveryState.Unknown?)
  }

  /** The checks of the first claim of a waiting job that time has triggered. */
  function TimeClaimError(t: Tables, env: Env, id: OccurrenceId, o: Occurrence): Option<string>
    requires o.trigger.AtTime?
  {
    var slotId := o.trigger.slot;
    if slotId.scheduleId !in t.schedules || slotId !in t.slots then Some("DYNAMIC_NOT_FOUND")
    else
      var sc, slot := t.schedules[slotId.scheduleId], t.slots[slotId];
      if !sc.state.Active? then Some("DYNAMIC_COORDINATION_REVISION_STALE")
      else if env.now < slotId.plannedAt then Some("DYNAMIC_COORDINATION_NOT_DUE")
      else if DefinitionOf(sc, o.trigger.acceptedRevision) != Some(Accepted(o)) then Some("DYNAMIC_COORDINATION_REVISION_STALE")
      else if exists p :: p in t.occurrences && p != id && OfSchedule(t.occurrences[p], slotId.scheduleId) && Occupies(t.occurrences[p])
      then Some("DYNAMIC_COORDINATION_OVERLAP")
      else if slot.current != id || (slot.started.Some? && slot.started.value != id) then Some("DYNAMIC_COORDINATION_SLOT_CONSUMED")
      else None
  }

  function ClaimError(t: Tables, env: Env, id: OccurrenceId): Option<string> {
    if id !in t.jobs || id !in t.occurrences then Some("DYNAMIC_NOT_FOUND")
    else
      var job, o := t.jobs[id], t.occurrences[id];
      if !env.Alive(o.coordinationId) then Some("DYNAMIC_COORDINATION_CANCELLED")
      else if o.cancelled || o.actionState in {Cancelled, Superseded, Expired} then Some("DYNAMIC_COORDINATION_CANCELLED")
      else if o.paused then Some("DYNAMIC_COORDINATION_PAUSED")
      else if job.state.JobCompleted? || (job.state.JobRunning? && job.leaseUntil.Some? && env.now < job.leaseUntil.value)
      then Some("DYNAMIC_COORDINATION_JOB_BUSY")
      else if !job.state.JobWaiting? then None
      else if o.trigger.AtTime? then TimeClaimError(t, env, id, o)
      else if env.triggerHolds(id) then None else Some("DYNAMIC_COORDINATION_EVENT_STALE")
  }

  function Claim(t: Tables, env: Env, id: OccurrenceId): Result<Tables> {
    var error := ClaimError(t, env, id);
    if error.Some? then Failure(error.value)
    else
      var job, o := t.jobs[id], t.occurrences[id];
      var slots' :=
        if job.state.JobWaiting? && o.trigger.AtTime?
        then t.slots[o.trigger.slot := t.slots[o.trigger.slot].(started := Some(id))]
        else t.slots;
      Success(t.(slots := slots',
                 jobs := t.jobs[id := Job(JobRunning, job.fence + 1, job.attempt + 1, Some(env.now + 60_000), o.instanceRevision)],
                 occurrences := t.occurrences[id := o.(actionState := Running)]))
  }

  /** The holder of a lease may report only under its own fence, in time, and under an unchanged instance. */
  predicate Holds(t: Tables, env: Env, id: OccurrenceId, fence: nat) {
    id in t.jobs && id in t.occurrences
    && var job, o := t.jobs[id], t.occurrences[id];
       job.fence == fence && job.state.JobRunning? && job.leaseUntil.Some? && env.now < job.leaseUntil.value
       && env.Alive(o.coordinationId) && !o.cancelled && !o.paused && job.instanceRevision == o.instanceRevision
  }

  function Settle(t: Tables, id: OccurrenceId, job: JobState, o: Occurrence): Tables
    requires id in t.jobs
  {
    t.(jobs := t.jobs[id := t.jobs[id].(state := job)], occurrences := t.occurrences[id := o])
  }

  /** A recurring occurrence replaces its template instructions by ones of its own, once. */
  function Materialize(o: Occurrence, instructionIds: Option<seq<Id>>): Occurrence {
    if instructionIds.Some? && o.templateAction.None?
    then o.(templateAction := Some(o.definition.action), definition := o.definition.(action := WithInstructions(o.definition.action, instructionIds.value)))
    else o
  }

  function WithInstructions(action: Action, instructionIds: seq<Id>): Action {
    match action
    case Reminder(_) => action
    case ReadQuery(taskIds, _) => ReadQuery(taskIds, instructionIds)
    case TaskCommand(_) => TaskCommand(instructionIds)
  }

  /** What the ledger made of the conditional or plain commands of an occurrence. */
  datatype Dispatch = DispatchBlocked(materialized: Option<seq<Id>>) | Dispatched(waiting: bool, materialized: Option<seq<Id>>)

  datatype Report = Remind | Read(dispatch: Dispatch) | RunCommands(dispatch: Dispatch)

  function Complete(t: Tables, env: Env, id: OccurrenceId, fence: nat, report: Report): Result<Tables> {
    if !Holds(t, env, id, fence) then Failure("DYNAMIC_COORDINATION_JOB_STALE")
    else
      var o := t.occurrences[id];
      match report
      case Remind =>
        if !o.definition.action.Reminder? then Failure("DYNAMIC_COORDINATION_ACTION_INVALID")
        else Success(Settle(t, id, JobCompleted, o.(actionState := Succeeded, deliveryState := Pending)))
      case Read(dispatch) =>
        if !o.definition.action.ReadQuery? then Failure("DYNAMIC_COORDINATION_ACTION_INVALID")
        else if o.definition.action.onIncomplete == []
        then Success(Settle(t, id, JobCompleted, o.(actionState := Succeeded, deliveryState := Pending)))
        else
          var o' := Materialize(o, dispatch.materialized);
          if dispatch.DispatchBlocked? then Success(Settle(t, id, JobBlocked, o'.(actionState := Blocked, deliveryState := Pending)))
          else if dispatch.waiting then Failure("DYNAMIC_COORDINATION_CONDITIONAL_WAITING")
          else Success(Settle(t, id, JobCompleted, o'.(actionState := Succeeded, deliveryState := Pending)))
      case RunCommands(dispatch) =>
        if o.trigger.OnEvent? && !env.triggerHolds(id) then Failure("DYNAMIC_COORDINATION_EVENT_STALE")
        else if !o.definition.action.TaskCommand? then Failure("DYNAMIC_COORDINATION_DISPATCH_ADAPTER_REQUIRED")
        else if dispatch.DispatchBlocked?
        then
          if o.trigger.AtTime? then Success(Settle(t, id, JobBlocked, o.(actionState := Blocked)))
          else Failure("DYNAMIC_COORDINATION_COMMAND_INVALID")
        else
          var o' := if o.trigger.AtTime? then Materialize(o, dispatch.materialized) else o;
          var delivery := if dispatch.waiting || o.definition.target.summaryOnly then NoDelivery else Pending;
          Success(if dispatch.waiting then Settle(t, id, JobWaiting, o'.(actionState := Waiting, deliveryState := delivery))
                  else Settle(t, id, JobCompleted, o'.(actionState := Succeeded, deliveryState := delivery)))
  }

  // ---------- Occurrences ----------

  /** `id` names the trigger; only events may be accepted here, a slot must come from a scan. */
  function Accept(t: Tables, env: Env, id: OccurrenceId, coordinationId: Id, d: Definition): Result<Tables> {
    if !env.Alive(coordinationId) then Failure("DYNAMIC_COORDINATION_CANCELLED")
    else if id in t.occurrences then
      if t.occurrences[id].coordinationId == coordinationId && Accepted(t.occurrences[id]) == d then Success(t)
      else Failure("DYNAMIC_COORDINATION_TRIGGER_CONFLICT")
    else if !id.EventOccurrence? then Failure("DYNAMIC_COORDINATION_TIME_SCAN_REQUIRED")
    else if id.coordinationId != coordinationId then Failure("DYNAMIC_COORDINATION_TRIGGER_CONFLICT")
    else if !env.triggerHolds(id) then Failure("DYNAMIC_COORDINATION_EVENT_STALE")
    else if !env.acceptsAction(d.action) then Failure("DYNAMIC_COORDINATION_ACTION_INVALID")
    else if !env.acceptsTarget(d.target) then Failure("DYNAMIC_COORDINATION_SCOPE")
    else Success(t.(occurrences := t.occurrences[id := Occurrence(coordinationId, OnEvent(id.event), d, None, Waiting, NoDelivery,
                                                                  1, 1, false, false, 0)],
                    jobs := t.jobs[id := FreshJob]))
  }

  datatype Control = PauseOne | ResumeOne | CancelOne

  function ControlOccurrence(t: Tables, env: Env, id: OccurrenceId, expected: nat, control: Control): Result<Tables> {
    if id !in t.occurrences then Failure("DYNAMIC_NOT_FOUND")
    else
      var o := t.occurrences[id];
      if o.instanceRevision != expected then Failure("DYNAMIC_COORDINATION_REVISION_STALE")
      else if control.CancelOne? then Success(CancelOccurrence(t, env, id))
      else if !(o.actionState.Waiting? || o.actionState.Running?) || o.cancelled then Failure("DYNAMIC_COORDINATION_CONTROL_EFFECT_BOUNDARY")
      else if id !in t.jobs then Failure("DYNAMIC_NOT_FOUND")
      else
        var job := t.jobs[id];
        Success(t.(occurrences := t.occurrences[id := o.(instanceRevision := o.instanceRevision + 1, paused := control.PauseOne?,
                                                          actionState := Waiting)],
                   jobs := t.jobs[id := job.(fence := job.fence + 1, state := JobWaiting, leaseUntil := None)]))
  }

  // ---------- Commands and runs ----------

  datatype Command =
    | CreateSchedule(id: Id, schedule: NewSchedule)
    | ChangeSchedule(id: Id, change: ScheduleChange, rows: seq<OccurrenceId>)
    | Scan(limit: int, due: seq<Id>, rows: seq<OccurrenceId>)
    | ClaimJob(occurrence: OccurrenceId)
    | CompleteJob(occurrence: OccurrenceId, fence: nat, report: Report)
    | AcceptOccurrence(occurrence: OccurrenceId, coordinationId: Id, definition: Definition)
    | ControlOne(occurrence: OccurrenceId, expected: nat, control: Control)
    | CancelArrangement(coordinationId: Id, rows: seq<OccurrenceId>)

  function Execute(t: Tables, env: Env, c: Command): Result<Tables> {
    match c
    case CreateSchedule(id, schedule) => Create(t, env, id, schedule)
    case ChangeSchedule(id, change, rows) => Change(t, env, id, change, rows)
    case Scan(limit, due, rows) =>
      if !(1 <= limit <= 100) then Failure("DYNAMIC_ARGUMENT_INVALID") else ScanAll(t, env, due, rows)
    case ClaimJob(o) => Claim(t, env, o)
    case CompleteJob(o, fence, report) => Complete(t, env, o, fence, report)
    case AcceptOccurrence(o, coordinationId, d) => Accept(t, env, o, coordinationId, d)
    case ControlOne(o, expected, control) => ControlOccurrence(t, env, o, expected, control)
    case CancelArrangement(coordinationId, rows) => Success(CancelCoordination(t, env, coordinationId, rows))
  }

  /** A failed command changes nothing. */
  function After(t: Tables, env: Env, c: Command): Tables {
    var r := Execute(t, env, c);
    if r.Success? then r.value else t
  }

  datatype Step = Step(env: Env, command: Command)

  function AfterAll(t: Tables, run: seq<Step>): Tables
    decreases |run|
  {
    if run == [] then t else AfterAll(After(t, run[0].env, run[0].command), run[1..])
  }

  const EmptyTables := Tables(map[], map[], map[], map[])
}
