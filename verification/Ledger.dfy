/**
  The coordination ledger of coordination-ledger.js: sources, arrangements and their members, and
  every command on them as a function from one ledger to the next.  A command that throws changes
  nothing.  Tasks, executions and triggers belong to other components and are read through `Env`.
*/
module Ledger {
  import opened Wrappers
  import opened Graphs
  import opened Ordinals

  // ---------- Facts of other components ----------

  datatype Version = Version(requirement: nat, context: nat, control: nat, run: nat)

  /** `decided`: the receipt of the completing command is a matching decision to complete. */
  datatype Completion = Completion(commandId: Id, instructionIds: set<Id>, decided: bool)

  datatype Task = Task(group: Id, version: Version, completion: Option<Completion>)

  /** `wellFormed` stands for the checks on the wording and kind of a frozen command. */
  datatype Env = Env(task: Id -> Option<Task>, running: Id -> bool, triggered: Id -> bool, wellFormed: Input -> bool)

  // ---------- Records ----------

  datatype Owner = Coordination | LegacyTopic
  datatype SourceState = Reserved | Questioned | Rejected | Accepted

  datatype Source = Source(fence: nat, owner: Owner, state: SourceState, frozen: bool, group: Id, original: Text,
                           reservation: Option<(Id, nat)>, settled: bool, arrangement: Option<Id>, resolvedBy: Option<SourceId>,
                           pending: seq<Id>, attempts: nat, reconsidered: bool)

  datatype ArrangementState = Active | NeedsClarification | Cancelled

  datatype Arrangement = Arrangement(revision: nat, sourceId: SourceId, sourceFence: nat, group: Id, state: ArrangementState,
                                     memberIds: seq<Id>, allTogether: bool, pending: seq<Id>, pendingSource: Option<SourceId>,
                                     order: Option<seq<Slot>>, gap: bool, hadPartial: bool, retired: bool)

  datatype MemberState = Ready | Applied | Fulfilled | Withdrawn | Superseded | Template | Observing
  datatype Control = Running | Paused | Revoked

  datatype AssessmentState = Pending | Unclear | Assessed
  datatype AssessmentId = AssessmentId(initial: bool, sourceId: SourceId, member: Id)
  datatype Assessment = Assessment(id: AssessmentId, revision: nat, state: AssessmentState, after: seq<Id>)

  datatype Proof = Proof(commandId: Id, version: Version)

  /** `command` is the frozen command envelope; its content never matters here, only that it stays the same. */
  datatype Member = Member(arrangement: Id, taskId: Id, observation: bool, command: Id, precondition: Version,
                           dependencies: seq<Id>, startedInputs: bool, recurring: bool, state: MemberState, control: Control,
                           effective: Option<Version>, proof: Option<Proof>, assessment: Option<Assessment>)

  /** `applied` lists the members whose frozen command was handed to the task store, in order. */
  datatype Ledger = Ledger(sources: map<SourceId, Source>, arrangements: map<Id, Arrangement>, members: map<Id, Member>,
                           applied: seq<Id>)

  // ---------- Reading a member ----------

  predicate SameGoal(a: Version, b: Version) {
    a.requirement == b.requirement && a.control == b.control && a.run == b.run
  }

  predicate Current(env: Env, m: Member) {
    && env.task(m.taskId).Some?
    && var v, expected := env.task(m.taskId).value.version, Or(m.effective, m.precondition);
       SameGoal(v, expected) && if m.effective.Some? && !m.observation then expected.context <= v.context else v.context == expected.context
  }

  function Or<T>(o: Option<T>, default: T): T {
    if o.Some? then o.value else default
  }

  predicate IsFulfilled(s: Ledger, env: Env, id: Id)
    requires id in s.members
  {
    var m := s.members[id];
    && m.control.Running? && !m.state.Withdrawn? && !m.state.Superseded?
    && m.arrangement in s.arrangements && s.arrangements[m.arrangement].state.Active?
    && m.proof.Some? && m.effective.Some? && Current(env, m)
    && var task := env.task(m.taskId).value;
       task.completion.Some? && task.completion.value.commandId == m.proof.value.commandId
       && (m.observation || id in task.completion.value.instructionIds)
       && SameGoal(m.proof.value.version, task.version) && m.effective.value.context <= m.proof.value.version.context
  }

  predicate OpenAssessment(m: Member) {
    m.assessment.Some? && !m.assessment.value.state.Assessed?
  }

  /** The dependencies that count: while an assessment is open, the proposed ones. */
  function Deps(m: Member): seq<Id> {
    if OpenAssessment(m) then m.assessment.value.after else m.dependencies
  }

  predicate InGraph(m: Member, arrangements: map<Id, Arrangement>) {
    && !m.state.Withdrawn? && !m.state.Superseded? && !m.control.Revoked?
    && !(m.arrangement in arrangements && arrangements[m.arrangement].state.Cancelled?)
  }

  // ---------- The task graph ----------

  function TaskEdges(members: map<Id, Member>, arrangements: map<Id, Arrangement>): Edges<Id> {
    set i, d | i in members && InGraph(members[i], arrangements) && d in Deps(members[i]) && d in members
      :: (members[i].taskId, members[d].taskId)
  }

  /** The same graph over the recorded dependencies, whatever an open assessment proposes. */
  function RecordedEdges(members: map<Id, Member>, arrangements: map<Id, Arrangement>): Edges<Id> {
    set i, d | i in members && InGraph(members[i], arrangements) && d in members[i].dependencies && d in members
      :: (members[i].taskId, members[d].taskId)
  }

  predicate DepsPresent(members: map<Id, Member>, arrangements: map<Id, Arrangement>) {
    forall i, d :: i in members && InGraph(members[i], arrangements) && d in Deps(members[i]) ==> d in members
  }

  predicate DepsInScope(members: map<Id, Member>, arrangements: map<Id, Arrangement>, env: Env) {
    forall i, d :: i in members && InGraph(members[i], arrangements) && d in Deps(members[i]) && d in members
                   ==> SameGroup(env, members[i].taskId, members[d].taskId)
  }

  predicate SameGroup(env: Env, a: Id, b: Id) {
    env.task(a).Some? && env.task(b).Some? && env.task(a).value.group == env.task(b).value.group
  }

  ghost function GraphError(members: map<Id, Member>, arrangements: map<Id, Arrangement>, env: Env): Option<string> {
    if !DepsPresent(members, arrangements) then Some("DYNAMIC_COORDINATION_DEPENDENCY_MISSING")
    else if !DepsInScope(members, arrangements, env) then Some("DYNAMIC_COORDINATION_SCOPE")
    else if !Acyclic(TaskEdges(members, arrangements)) then Some("DYNAMIC_COORDINATION_CYCLE")
    else None
  }

  // ---------- New members ----------

  datatype Input = Input(id: Id, taskId: Id, observation: bool, command: Id, dependencies: seq<Id>)

  type Rows = seq<(Id, Member)>

  function Put(members: map<Id, Member>, rows: Rows): map<Id, Member>
    decreases |rows|
  {
    if rows == [] then members else Put(members[rows[0].0 := rows[0].1], rows[1..])
  }

  function RowIds(rows: Rows): seq<Id> {
    seq(|rows|, i requires 0 <= i < |rows| => rows[i].0)
  }

  function Prepare(s: Ledger, env: Env, input: Input, arrangement: Id, group: Id): Result<Member> {
    if env.task(input.taskId).None? || env.task(input.taskId).value.group != group then Failure("DYNAMIC_COORDINATION_SCOPE")
    else if input.observation && (input.dependencies != [] || input.id in s.members) then Failure("DYNAMIC_COORDINATION_OBSERVATION_INVALID")
    else if !env.wellFormed(input) then Failure("DYNAMIC_COORDINATION_COMMAND_INVALID")
    else if input.id in s.members then Failure("DYNAMIC_COORDINATION_MEMBER_EXISTS")
    else
      var version := env.task(input.taskId).value.version;
      Success(Member(arrangement, input.taskId, input.observation, input.command, version, input.dependencies,
                     !input.observation && env.running(input.taskId), false, if input.observation then Observing else Ready, Running,
                     if input.observation then Some(version) else None, None, None))
  }

  function PrepareAll(s: Ledger, env: Env, inputs: seq<Input>, arrangement: Id, group: Id): Result<Rows>
    decreases |inputs|
  {
    if inputs == [] then Success([])
    else
      match Prepare(s, env, inputs[0], arrangement, group)
      case Failure(code) => Failure(code)
      case Success(m) =>
        match PrepareAll(s, env, inputs[1..], arrangement, group)
        case Failure(code) => Failure(code)
        case Success(rest) => Success([(inputs[0].id, m)] + rest)
  }

  function Reconciled(env: Env, m: Member): Member {
    if !m.observation || m.state.Withdrawn? || m.state.Superseded? || m.control.Revoked? then m
    else if Current(env, m) && env.task(m.taskId).value.completion.Some? && env.task(m.taskId).value.completion.value.decided
    then m.(state := Fulfilled, proof := Some(Proof(env.task(m.taskId).value.completion.value.commandId, env.task(m.taskId).value.version)))
    else m.(state := Observing, proof := None)
  }

  /** An ordering that concerns work already running is first assessed by the task's owner. */
  function Activated(env: Env, id: Id, m: Member, sourceId: SourceId, revision: nat): Member {
    if m.observation then Reconciled(env, m)
    else if m.dependencies == [] || !m.startedInputs then m
    else m.(assessment := Some(Assessment(AssessmentId(true, sourceId, id), revision, Pending, m.dependencies)))
  }

  function ActivatedRows(env: Env, rows: Rows, sourceId: SourceId, revision: nat): Rows {
    seq(|rows|, i requires 0 <= i < |rows| => (rows[i].0, Activated(env, rows[i].0, rows[i].1, sourceId, revision)))
  }

  // ---------- Sources ----------

  function Reserve(s: Ledger, id: SourceId, group: Id, original: Text, reservation: Option<(Id, nat)>): Result<Ledger> {
    if id in s.sources then
      if s.sources[id].original != original || s.sources[id].group != group then Failure("DYNAMIC_COORDINATION_SOURCE_CONFLICT")
      else if reservation.Some? && s.sources[id].reservation != reservation then Failure("DYNAMIC_COORDINATION_SOURCE_STALE")
      else Success(s)
    else Success(s.(sources := s.sources[id := Source(1, Coordination, Reserved, false, group, original, reservation, false, None, None,
                                                      [], 0, false)]))
  }

  datatype SourceAction =
    | FreezeHandoff
    | CompleteHandoff(proofMatches: bool)
    | Reconsider(arrangement: Id, expectedRevision: nat, messageMatches: bool, nothingStarted: bool)
    | Retry(tokenMatches: bool)
    | Failed
    | Reject
    | Clarify(arrangement: Id)

  function OnSource(s: Ledger, id: SourceId, fence: nat, action: SourceAction): Result<Ledger> {
    if id !in s.sources then Failure("DYNAMIC_NOT_FOUND")
    else
      var source := s.sources[id];
      if source.fence != fence || !source.owner.Coordination? then Failure("DYNAMIC_COORDINATION_SOURCE_STALE")
      else
        match action
        case FreezeHandoff =>
          if !source.state.Rejected? then Failure("DYNAMIC_COORDINATION_SOURCE_STALE")
          else if exists c :: c in s.arrangements && s.arrangements[c].sourceId == id then Failure("DYNAMIC_COORDINATION_HANDOFF_UNSAFE")
          else Success(s.(sources := s.sources[id := source.(frozen := true)]))
        case CompleteHandoff(proofMatches) =>
          if !source.frozen || !proofMatches then Failure("DYNAMIC_COORDINATION_HANDOFF_UNSAFE")
          else Success(s.(sources := s.sources[id := source.(fence := source.fence + 1, owner := LegacyTopic, settled := false)]))
        case _ =>
          if source.frozen || source.state.Accepted? then Failure("DYNAMIC_COORDINATION_SOURCE_STALE")
          else OnOpenSource(s, id, source, action)
  }

  function OnOpenSource(s: Ledger, id: SourceId, source: Source, action: SourceAction): Result<Ledger>
    requires !action.FreezeHandoff? && !action.CompleteHandoff?
  {
    match action
    case Reconsider(c, expected, messageMatches, nothingStarted) =>
      if c !in s.arrangements then Failure("DYNAMIC_NOT_FOUND")
      else
        var a := s.arrangements[c];
        if !source.state.Questioned? || source.resolvedBy.Some? || source.reconsidered || source.arrangement != Some(c)
           || a.sourceId != id || !a.state.NeedsClarification? || a.revision != expected || !messageMatches
        then Failure("DYNAMIC_COORDINATION_SOURCE_STALE")
        else if a.memberIds != [] || source.settled || !nothingStarted || (exists m :: m in s.members && s.members[m].arrangement == c)
                || exists other :: other in s.sources && other != id && s.sources[other].arrangement == Some(c)
        then Failure("DYNAMIC_COORDINATION_CONTEXT_RECONSIDERATION_UNSAFE")
        else Success(s.(sources := s.sources[id := source.(fence := source.fence + 1, state := Reserved, reconsidered := true)]))
    case Retry(tokenMatches) =>
      if !source.state.Reserved? || source.resolvedBy.Some? || !tokenMatches || source.attempts == 0
      then Failure("DYNAMIC_COORDINATION_SOURCE_STALE")
      else Success(s.(sources := s.sources[id := source.(attempts := 0)]))
    case Failed => Success(s.(sources := s.sources[id := source.(attempts := source.attempts + 1)]))
    case Reject => Success(s.(sources := s.sources[id := source.(state := Rejected)]))
    case Clarify(c) =>
      if !source.state.Reserved? && !source.state.Questioned? then Failure("DYNAMIC_COORDINATION_SOURCE_STALE")
      else if c in s.arrangements && (s.arrangements[c].sourceId != id || !s.arrangements[c].state.NeedsClarification?)
      then Failure("DYNAMIC_COORDINATION_EXISTS")
      else
        var initial := Arrangement(1, id, source.fence, source.group, NeedsClarification, [], false, [], None, None, false, false, false);
        var a := if c in s.arrangements then s.arrangements[c].(sourceFence := source.fence, group := source.group, memberIds := []) else initial;
        Success(s.(sources := s.sources[id := source.(state := Questioned, arrangement := Some(c))],
                   arrangements := s.arrangements[c := a]))
  }

  // ---------- Accepting an arrangement ----------

  datatype Proposal = Proposal(members: seq<Input>, pending: seq<Id>, order: Option<seq<Entry>>, readOnly: bool, allTogether: bool)

  function FrozenOrder(order: Option<seq<Entry>>, source: Source, sourceId: SourceId, members: seq<Id>, pending: seq<Id>)
      : Result<Option<seq<Slot>>>
  {
    if order.None? then Success(None)
    else
      match Freeze(order.value, source.original, sourceId, members, pending)
      case Failure(code) => Failure(code)
      case Success(slots) => Success(Some(slots))
  }

  function TaskIds(rows: Rows): seq<Id> {
    seq(|rows|, i requires 0 <= i < |rows| => rows[i].1.taskId)
  }

  /** The checks of `accept` up to the frozen rows and the frozen source order. */
  ghost function Admit(s: Ledger, env: Env, sourceId: SourceId, c: Id, p: Proposal): Result<(Rows, Option<seq<Slot>>)>
    requires sourceId in s.sources
  {
    var source := s.sources[sourceId];
    if 100 < |p.members| then Failure("DYNAMIC_COORDINATION_MEMBERS_INVALID")
    else
      match PrepareAll(s, env, p.members, c, source.group)
      case Failure(code) => Failure(code)
      case Success(rows) =>
        var merged := Put(s.members, rows);
        if GraphError(merged, s.arrangements, env).Some? then Failure(GraphError(merged, s.arrangements, env).value)
        else if 100 < |p.pending| || !Distinct(p.pending) then Failure("DYNAMIC_COORDINATION_MEMBERS_INVALID")
        else
          match FrozenOrder(p.order, source, sourceId, RowIds(rows), p.pending)
          case Failure(code) => Failure(code)
          case Success(order) =>
            if (rows == [] && p.pending == [] && !p.readOnly) || !Distinct(RowIds(rows)) || !Distinct(TaskIds(rows))
            then Failure("DYNAMIC_COORDINATION_MEMBERS_INVALID")
            else if !Acyclic(RecordedEdges(merged, s.arrangements)) then Failure("DYNAMIC_COORDINATION_CYCLE")
            else Success((rows, order))
  }

  ghost function Accept(s: Ledger, env: Env, sourceId: SourceId, fence: nat, c: Id, replaced: Option<nat>, p: Proposal): Result<Ledger> {
    if sourceId !in s.sources then Failure("DYNAMIC_NOT_FOUND")
    else
      var source, replacing := s.sources[sourceId], c in s.arrangements;
      if source.fence != fence || !source.owner.Coordination? || !source.state.Reserved? || source.frozen
      then Failure("DYNAMIC_COORDINATION_SOURCE_STALE")
      else if replacing && (!s.arrangements[c].state.NeedsClarification? || replaced != Some(s.arrangements[c].revision))
      then Failure("DYNAMIC_COORDINATION_EXISTS")
      else
        match Admit(s, env, sourceId, c, p)
        case Failure(code) => Failure(code)
        case Success(admitted) =>
          if replacing && s.arrangements[c].sourceId !in s.sources then Failure("DYNAMIC_NOT_FOUND")
          else Success(Accepting(s, env, sourceId, c, p, admitted.0, admitted.1))
  }

  function Accepting(s: Ledger, env: Env, sourceId: SourceId, c: Id, p: Proposal, rows: Rows, order: Option<seq<Slot>>): Ledger
    requires sourceId in s.sources && (c in s.arrangements ==> s.arrangements[c].sourceId in s.sources)
  {
    var source, replacing := s.sources[sourceId], c in s.arrangements;
    var revision := if replacing then s.arrangements[c].revision + 1 else 1;
    var a := Arrangement(revision, sourceId, source.fence, source.group, Active, RowIds(rows), p.allTogether, p.pending,
                         if p.pending == [] then None else Some(sourceId), order, false, p.pending != [], false);
    var sources := if !replacing then s.sources
                   else
                     var oldId := s.arrangements[c].sourceId;
                     s.sources[oldId := s.sources[oldId].(state := Accepted, resolvedBy := Some(sourceId), arrangement := Some(c), settled := true)];
    var accepted := source.(state := Accepted, arrangement := Some(c), settled := p.pending == [], pending := p.pending);
    s.(sources := sources[sourceId := accepted], arrangements := s.arrangements[c := a],
       members := Put(s.members, ActivatedRows(env, rows, sourceId, revision)))
  }

  // ---------- Applying a frozen command ----------

  function WaitingDeps(s: Ledger, env: Env, deps: seq<Id>): seq<Id>
    requires forall d :: d in deps ==> d in s.members
  {
    if deps == [] then []
    else if IsFulfilled(s, env, deps[0]) then WaitingDeps(s, env, deps[1..])
    else [deps[0]] + WaitingDeps(s, env, deps[1..])
  }

  /** `version` is the version of the task after its store took the command. */
  function Apply(s: Ledger, env: Env, id: Id, expectedRevision: nat, version: Version): Result<Ledger> {
    if id !in s.members || s.members[id].arrangement !in s.arrangements then Failure("DYNAMIC_NOT_FOUND")
    else
      var m := s.members[id];
      var a := s.arrangements[m.arrangement];
      if a.sourceId !in s.sources then Failure("DYNAMIC_NOT_FOUND")
      else
        var source := s.sources[a.sourceId];
        if source.frozen || !source.owner.Coordination? || source.fence != a.sourceFence then Failure("DYNAMIC_COORDINATION_SOURCE_STALE")
        else if a.revision != expectedRevision || !a.state.Active? then Failure("DYNAMIC_COORDINATION_REVISION_STALE")
        else if m.observation then Failure("DYNAMIC_COORDINATION_OBSERVATION_READ_ONLY")
        else if OpenAssessment(m) || m.state.Applied? then Success(s)
        else if !m.state.Ready? || !Current(env, m) then Failure("DYNAMIC_COORDINATION_VERSION_STALE")
        else if exists d :: d in m.dependencies && d !in s.members then Failure("DYNAMIC_NOT_FOUND")
        else if (a.allTogether && a.pending != []) || WaitingDeps(s, env, m.dependencies) != [] || !m.control.Running? || !env.triggered(id)
        then Success(s)
        else Success(s.(members := s.members[id := m.(state := Applied, effective := Some(version))], applied := s.applied + [id]))
  }

  // ---------- Assessing an order ----------

  datatype Decision = ContinueExisting | SafePoint | AskAgain

  datatype Judgement = Judgement(member: Id, assessment: AssessmentId, ownedTask: Id, decision: Decision, evidence: bool, safePoint: bool)

  ghost function Assess(s: Ledger, env: Env, j: Judgement): Result<Ledger> {
    if j.member !in s.members || s.members[j.member].arrangement !in s.arrangements then Failure("DYNAMIC_NOT_FOUND")
    else
      var m := s.members[j.member];
      var a := s.arrangements[m.arrangement];
      if m.taskId != j.ownedTask || m.assessment.None? || m.assessment.value.id != j.assessment || !m.assessment.value.state.Pending?
         || !a.state.Active? || !m.control.Running? || a.revision < m.assessment.value.revision || !Current(env, m)
      then Failure("DYNAMIC_COORDINATION_ASSESSMENT_STALE")
      else if !j.evidence then Failure("DYNAMIC_COORDINATION_ASSESSMENT_EVIDENCE_REQUIRED")
      else if j.decision.SafePoint? && !j.safePoint then Failure("DYNAMIC_COORDINATION_SAFE_POINT_UNPROVEN")
      else if j.decision.AskAgain? then Success(s.(members := s.members[j.member := Judged(m, Unclear, m.dependencies)]))
      else
        var judged := s.members[j.member := Judged(m, Assessed, m.assessment.value.after)];
        if GraphError(judged, s.arrangements, env).Some? then Failure(GraphError(judged, s.arrangements, env).value)
        else Success(s.(members := judged))
  }

  function Judged(m: Member, state: AssessmentState, dependencies: seq<Id>): Member
    requires m.assessment.Some?
  {
    m.(dependencies := dependencies, assessment := Some(m.assessment.value.(state := state)))
  }

  // ---------- Changing an arrangement ----------

  datatype Steering = Pause | Resume | Cancel

  datatype Change =
    | AnswerClarifications(ids: seq<Id>, members: seq<Input>, assignments: seq<Assignment>)
    | ResolveAll(proposal: Proposal)
    | Steer(steering: Steering, selected: Option<seq<Id>>)
    | AppendMembers(members: seq<Input>, order: Option<seq<Entry>>)
    | Reorder(items: seq<(Id, seq<Id>)>)
    | ChangePlan

  /** What a change does to members, its own arrangement and other sources, before the arrangement's revision is raised. */
  datatype Draft = Draft(members: map<Id, Member>, arrangement: Arrangement, sources: map<SourceId, Source>)

  function Without(pending: seq<Id>, ids: seq<Id>): (rest: seq<Id>)
    ensures forall x :: x in rest <==> x in pending && x !in ids
  {
    if pending == [] then []
    else if pending[0] in ids then Without(pending[1..], ids)
    else [pending[0]] + Without(pending[1..], ids)
  }

  predicate GoodAssignments(assignments: seq<Assignment>, ids: seq<Id>, added: seq<Id>) {
    && |assignments| == |added|
    && (forall x :: x in assignments ==> x.clarificationId in ids && x.instructionId in added)
    && Distinct(seq(|assignments|, i requires 0 <= i < |assignments| => assignments[i].instructionId))
    && forall id :: id in ids ==> exists x :: x in assignments && x.clarificationId == id
  }

  ghost function Answer(s: Ledger, env: Env, sourceId: SourceId, c: Id, change: Change): Result<Draft>
    requires sourceId in s.sources && c in s.arrangements && change.AnswerClarifications?
  {
    var a, ids := s.arrangements[c], change.ids;
    if ids == [] || !Distinct(ids) || exists id :: id in ids && id !in a.pending then Failure("DYNAMIC_COORDINATION_CLARIFICATION_STALE")
    else
      match PrepareAll(s, env, change.members, c, s.sources[sourceId].group)
      case Failure(code) => Failure(code)
      case Success(rows) =>
        if rows == [] then Failure("DYNAMIC_COORDINATION_MEMBERS_INVALID")
        else if a.order.Some? && !GoodAssignments(change.assignments, ids, RowIds(rows)) then Failure("DYNAMIC_COORDINATION_CLARIFICATION_STALE")
        else
          var error := GraphError(Put(s.members, rows), s.arrangements, env);
          if error.Some? then Failure(error.value)
          else if a.pendingSource.None? || a.pendingSource.value !in s.sources then Failure("DYNAMIC_NOT_FOUND")
          else Success(Answered(s, env, sourceId, a, change, rows))
  }

  function Answered(s: Ledger, env: Env, sourceId: SourceId, a: Arrangement, change: Change, rows: Rows): Draft
    requires change.AnswerClarifications? && a.pendingSource.Some? && a.pendingSource.value in s.sources
  {
    var ids, original := change.ids, a.pendingSource.value;
    var rest := Without(a.pending, ids);
    var sources := s.sources[original := s.sources[original].(pending := rest, settled := rest == [],
                               resolvedBy := if rest == [] then Some(sourceId) else s.sources[original].resolvedBy)];
    var order := if a.order.Some? then Some(Assign(a.order.value, ids, change.assignments)) else None;
    Draft(Put(s.members, ActivatedRows(env, rows, sourceId, a.revision + 1)),
          a.(memberIds := a.memberIds + RowIds(rows), pending := rest, order := order), sources)
  }

  function Steered(m: Member, steering: Steering): Member {
    match steering
    case Pause => m.(control := Paused)
    case Resume => m.(control := Running)
    case Cancel => m.(control := Revoked, state := if m.state.Ready? then Withdrawn else m.state)
  }

  function SteerAll(members: map<Id, Member>, selected: seq<Id>, steering: Steering): map<Id, Member> {
    map i | i in members :: if i in selected then Steered(members[i], steering) else members[i]
  }

  function DoSteer(s: Ledger, c: Id, change: Change): Result<Draft>
    requires c in s.arrangements && change.Steer?
  {
    var a := s.arrangements[c];
    var selected := Or(change.selected, a.memberIds);
    if exists id :: id in selected && id !in a.memberIds then Failure("DYNAMIC_COORDINATION_SCOPE")
    else if exists id :: id in selected && id !in s.members then Failure("DYNAMIC_NOT_FOUND")
    else
      var all := change.steering.Cancel? && change.selected.None?;
      Success(Draft(SteerAll(s.members, selected, change.steering), if all then a.(state := Cancelled) else a, s.sources))
  }

  /** A revoked member gives way to an appended member for the same task. */
  function MakeRoom(members: map<Id, Member>, memberIds: seq<Id>, rows: Rows): map<Id, Member> {
    map i | i in members ::
      if i in memberIds && members[i].control.Revoked? && members[i].taskId in TaskIds(rows)
      then members[i].(state := Superseded) else members[i]
  }

  ghost function DoAppend(s: Ledger, env: Env, sourceId: SourceId, c: Id, change: Change): Result<Draft>
    requires sourceId in s.sources && c in s.arrangements && change.AppendMembers?
  {
    var a, source := s.arrangements[c], s.sources[sourceId];
    match PrepareAll(s, env, change.members, c, source.group)
    case Failure(code) => Failure(code)
    case Success(rows) =>
      if rows == [] then Failure("DYNAMIC_COORDINATION_MEMBERS_INVALID")
      else
        match FrozenOrder(change.order, source, sourceId, RowIds(rows), [])
        case Failure(code) => Failure(code)
        case Success(appended) =>
          var room := MakeRoom(s.members, a.memberIds, rows);
          var error := GraphError(Put(room, rows), s.arrangements, env);
          if error.Some? then Failure(error.value)
          else
            var mapped := a.order.Some? && appended.Some? && !a.gap;
            var order := if mapped then Some(Append(a.order.value, appended.value)) else a.order;
            Success(Draft(Put(room, ActivatedRows(env, rows, sourceId, a.revision + 1)),
                          a.(memberIds := a.memberIds + RowIds(rows), order := order, gap := a.gap || (a.order.Some? && !mapped)), s.sources))
  }

  function ReorderRow(env: Env, id: Id, m: Member, after: seq<Id>, sourceId: SourceId, revision: nat): Result<Member> {
    if m.state.Ready? && m.assessment.None? && !m.startedInputs then Success(m.(dependencies := after))
    else if (!m.state.Ready? && !m.state.Applied?) || !Current(env, m) then Failure("DYNAMIC_COORDINATION_ALREADY_STARTED")
    else Success(m.(assessment := Some(Assessment(AssessmentId(false, sourceId, id), revision, Pending, after))))
  }

  function ReorderRows(s: Ledger, env: Env, a: Arrangement, items: seq<(Id, seq<Id>)>, sourceId: SourceId): Result<Rows>
    decreases |items|
  {
    if items == [] then Success([])
    else if items[0].0 !in a.memberIds then Failure("DYNAMIC_COORDINATION_SCOPE")
    else if items[0].0 !in s.members then Failure("DYNAMIC_NOT_FOUND")
    else
      match ReorderRow(env, items[0].0, s.members[items[0].0], items[0].1, sourceId, a.revision + 1)
      case Failure(code) => Failure(code)
      case Success(m) =>
        match ReorderRows(s, env, a, items[1..], sourceId)
        case Failure(code) => Failure(code)
        case Success(rest) => Success([(items[0].0, m)] + rest)
  }

  ghost function DoReorder(s: Ledger, env: Env, sourceId: SourceId, c: Id, change: Change): Result<Draft>
    requires c in s.arrangements && change.Reorder?
  {
    var a := s.arrangements[c];
    match ReorderRows(s, env, a, change.items, sourceId)
    case Failure(code) => Failure(code)
    case Success(rows) =>
      var error := GraphError(Put(s.members, rows), s.arrangements, env);
      if error.Some? then Failure(error.value) else Success(Draft(Put(s.members, rows), a, s.sources))
  }

  ghost function DraftOf(s: Ledger, env: Env, sourceId: SourceId, c: Id, change: Change): Result<Draft>
    requires sourceId in s.sources && c in s.arrangements && !change.ResolveAll?
  {
    match change
    case AnswerClarifications(_, _, _) => Answer(s, env, sourceId, c, change)
    case Steer(_, _) => DoSteer(s, c, change)
    case AppendMembers(_, _) => DoAppend(s, env, sourceId, c, change)
    case Reorder(_) => DoReorder(s, env, sourceId, c, change)
    case ChangePlan => Success(Draft(s.members, s.arrangements[c], s.sources))
  }

  ghost function DoChange(s: Ledger, env: Env, sourceId: SourceId, fence: nat, c: Id, expectedRevision: nat, change: Change): Result<Ledger> {
    if sourceId !in s.sources || c !in s.arrangements then Failure("DYNAMIC_NOT_FOUND")
    else
      var source, a := s.sources[sourceId], s.arrangements[c];
      if source.fence != fence || !source.state.Reserved? || source.frozen || !source.owner.Coordination?
         || a.group != source.group || a.revision != expectedRevision
      then Failure("DYNAMIC_COORDINATION_REVISION_STALE")
      else if change.ResolveAll? then
        if !a.state.NeedsClarification? then Failure("DYNAMIC_COORDINATION_REVISION_STALE")
        else Accept(s, env, sourceId, fence, c, Some(a.revision), change.proposal)
      else if !a.state.Active? then Failure("DYNAMIC_COORDINATION_REVISION_STALE")
      else
        match DraftOf(s, env, sourceId, c, change)
        case Failure(code) => Failure(code)
        case Success(d) => Success(Changed(s, sourceId, c, d))
  }

  function Changed(s: Ledger, sourceId: SourceId, c: Id, d: Draft): Ledger
    requires sourceId in s.sources
  {
    var source := s.sources[sourceId];
    s.(members := d.members,
       arrangements := s.arrangements[c := d.arrangement.(revision := d.arrangement.revision + 1, sourceId := sourceId, sourceFence := source.fence)],
       sources := d.sources[sourceId := source.(state := Accepted, arrangement := Some(c))])
  }

  // ---------- Ending, observing and recurring ----------

  function CancelArrangement(s: Ledger, c: Id, expectedRevision: nat): Result<Ledger> {
    if c !in s.arrangements then Failure("DYNAMIC_NOT_FOUND")
    else
      var a := s.arrangements[c];
      if a.revision != expectedRevision then Failure("DYNAMIC_COORDINATION_REVISION_STALE")
      else Success(s.(arrangements := s.arrangements[c := a.(revision := a.revision + 1, state := Cancelled)],
                      members := map i | i in s.members ::
                        if i in a.memberIds && s.members[i].state.Ready? then s.members[i].(state := Withdrawn) else s.members[i]))
  }

  predicate Retirable(source: Source, a: Arrangement, c: Id, members: map<Id, Member>, quiet: bool)
    requires forall i :: i in a.memberIds ==> i in members
  {
    && source.state.Accepted? && source.arrangement == Some(c) && !source.frozen && source.owner.Coordination?
    && a.memberIds != [] && a.pending == [] && quiet
    && forall i :: i in a.memberIds ==> members[i].observation && members[i].dependencies == [] && members[i].assessment.None?
  }

  /** `quiet`: no plan, execution, receipt or dependent of another arrangement refers to these observations. */
  function RetireObservation(s: Ledger, c: Id, sourceId: SourceId, expectedRevision: nat, quiet: bool): Result<Ledger> {
    if c !in s.arrangements then Failure("DYNAMIC_NOT_FOUND")
    else
      var a := s.arrangements[c];
      if a.sourceId != sourceId then Failure("DYNAMIC_COORDINATION_SCOPE_FORBIDDEN")
      else if a.retired then Success(s)
      else if a.revision != expectedRevision || !a.state.Active? then Failure("DYNAMIC_COORDINATION_REVISION_STALE")
      else if sourceId !in s.sources || exists i :: i in a.memberIds && i !in s.members then Failure("DYNAMIC_NOT_FOUND")
      else if !Retirable(s.sources[sourceId], a, c, s.members, quiet)
      then Failure("DYNAMIC_COORDINATION_OBSERVATION_RETIREMENT_FORBIDDEN")
      else Success(s.(arrangements := s.arrangements[c := a.(revision := a.revision + 1, state := Cancelled, retired := true)],
                      members := map i | i in s.members :: if i in a.memberIds then s.members[i].(control := Revoked) else s.members[i]))
  }

  function Reconcile(s: Ledger, env: Env, c: Id): Result<Ledger> {
    if c !in s.arrangements then Failure("DYNAMIC_NOT_FOUND")
    else Success(s.(members := map i | i in s.members :: if i in s.arrangements[c].memberIds then Reconciled(env, s.members[i]) else s.members[i]))
  }

  function AsRecurring(rows: Rows): Rows {
    seq(|rows|, i requires 0 <= i < |rows| => (rows[i].0, rows[i].1.(recurring := true)))
  }

  ghost function Instantiate(s: Ledger, env: Env, c: Id, inputs: seq<Input>): Result<Ledger> {
    if c !in s.arrangements || s.arrangements[c].sourceId !in s.sources then Failure("DYNAMIC_NOT_FOUND")
    else
      var a := s.arrangements[c];
      var source := s.sources[a.sourceId];
      if !a.state.Active? || source.frozen || !source.owner.Coordination? || source.fence != a.sourceFence
      then Failure("DYNAMIC_COORDINATION_SOURCE_STALE")
      else
        match PrepareAll(s, env, inputs, c, source.group)
        case Failure(code) => Failure(code)
        case Success(rows) =>
          var error := GraphError(Put(s.members, rows), s.arrangements, env);
          if error.Some? then Failure(error.value)
          else Success(s.(members := Put(s.members, AsRecurring(rows)), arrangements := s.arrangements[c := a.(memberIds := a.memberIds + RowIds(rows))]))
  }

  /** A plan that recurs turns a ready member into its template. */
  function MakeTemplate(s: Ledger, id: Id): Result<Ledger> {
    if id !in s.members then Failure("DYNAMIC_NOT_FOUND")
    else if !s.members[id].state.Ready? && !s.members[id].state.Template? then Failure("DYNAMIC_COORDINATION_RECURRING_TEMPLATE_INVALID")
    else Success(s.(members := s.members[id := s.members[id].(state := Template)]))
  }

  /** A recurring plan retires the member of an earlier round, or one whose task is already done. */
  function Supersede(s: Ledger, id: Id): Result<Ledger> {
    if id !in s.members then Failure("DYNAMIC_NOT_FOUND")
    else if s.members[id].state.Fulfilled? || s.members[id].state.Template? then Success(s)
    else Success(s.(members := s.members[id := s.members[id].(state := Superseded)]))
  }

  /** The task store records that an applied command is complete. */
  function RecordCompletion(s: Ledger, id: Id, proof: Proof): Result<Ledger> {
    if id !in s.members then Failure("DYNAMIC_NOT_FOUND")
    else if !s.members[id].state.Applied? then Success(s)
    else Success(s.(members := s.members[id := s.members[id].(state := Fulfilled, proof := Some(proof))]))
  }

  // ---------- Commands and runs ----------

  datatype Command =
    | ReserveSource(source: SourceId, group: Id, original: Text, reservation: Option<(Id, nat)>)
    | SourceStep(source: SourceId, fence: nat, action: SourceAction)
    | AcceptProposal(source: SourceId, fence: nat, arrangement: Id, replaced: Option<nat>, proposal: Proposal)
    | ApplyMember(member: Id, expectedRevision: nat, version: Version)
    | AssessOrder(judgement: Judgement)
    | ChangeArrangement(source: SourceId, fence: nat, arrangement: Id, expectedRevision: nat, change: Change)
    | CancelOne(arrangement: Id, expectedRevision: nat)
    | Retire(arrangement: Id, source: SourceId, expectedRevision: nat, quiet: bool)
    | ReconcileObservations(arrangement: Id)
    | InstantiateRecurring(arrangement: Id, inputs: seq<Input>)
    | BecomeTemplate(member: Id)
    | SupersedeMember(member: Id)
    | CompleteMember(member: Id, proof: Proof)

  ghost function Execute(s: Ledger, env: Env, c: Command): Result<Ledger> {
    match c
    case ReserveSource(id, group, original, reservation) => Reserve(s, id, group, original, reservation)
    case SourceStep(id, fence, action) => OnSource(s, id, fence, action)
    case AcceptProposal(source, fence, id, replaced, proposal) => Accept(s, env, source, fence, id, replaced, proposal)
    case ApplyMember(id, revision, version) => Apply(s, env, id, revision, version)
    case AssessOrder(judgement) => Assess(s, env, judgement)
    case ChangeArrangement(source, fence, id, revision, change) => DoChange(s, env, source, fence, id, revision, change)
    case CancelOne(id, revision) => CancelArrangement(s, id, revision)
    case Retire(id, source, revision, quiet) => RetireObservation(s, id, source, revision, quiet)
    case ReconcileObservations(id) => Reconcile(s, env, id)
    case InstantiateRecurring(id, inputs) => Instantiate(s, env, id, inputs)
    case BecomeTemplate(id) => MakeTemplate(s, id)
    case SupersedeMember(id) => Supersede(s, id)
    case CompleteMember(id, proof) => RecordCompletion(s, id, proof)
  }

  /** A failed command changes nothing. */
  ghost function After(s: Ledger, env: Env, c: Command): Ledger {
    var r := Execute(s, env, c);
    if r.Success? then r.value else s
  }

  datatype Step = Step(env: Env, command: Command)

  ghost function AfterAll(s: Ledger, run: seq<Step>): Ledger
    decreases |run|
  {
    if run == [] then s else AfterAll(After(s, run[0].env, run[0].command), run[1..])
  }

  const EmptyLedger := Ledger(map[], map[], map[], [])
}
