/**
  What pausing, resuming and cancelling mean over whole runs of the ledger: a member that is paused or revoked
  is handed on by no command, and holds back whatever depends on it, until a resume selects it.
*/
module LedgerControl {
  import opened Wrappers
  import opened Graphs
  import opened Ordinals
  import opened Ledger
  import opened LedgerGraph
  import opened LedgerRuns

  // ---------- Who may change the control of a member ----------

  /** Commands other than steering leave the control of a member alone, or revoke it. */
  predicate ControlKept(m: Member, m': Member) {
    m'.control == m.control || m'.control.Revoked?
  }

  ghost predicate ControlsKept(before: map<Id, Member>, after: map<Id, Member>) {
    forall i :: i in before ==> i in after && ControlKept(before[i], after[i])
  }

  lemma {:induction false} PutKeepsControls(base: map<Id, Member>, members: map<Id, Member>, rows: Rows)
    requires ControlsKept(base, members)
    requires forall k :: 0 <= k < |rows| && rows[k].0 in base ==> ControlKept(base[rows[k].0], rows[k].1)
    ensures ControlsKept(base, Put(members, rows))
    decreases |rows|
  {
    hide ControlKept;
    if rows != [] {
      forall k | 0 <= k < |rows[1..]| && rows[1..][k].0 in base ensures ControlKept(base[rows[1..][k].0], rows[1..][k].1) {
        assert rows[1..][k] == rows[k + 1];
      }
      PutKeepsControls(base, members[rows[0].0 := rows[0].1], rows[1..]);
    }
  }

  lemma NewRowsKeepControls(s: Ledger, env: Env, inputs: seq<Input>, c: Id, group: Id, room: map<Id, Member>, rows': Rows)
    requires PrepareAll(s, env, inputs, c, group).Success? && ControlsKept(s.members, room)
    requires var rows := PrepareAll(s, env, inputs, c, group).value;
             |rows'| == |rows| && forall k :: 0 <= k < |rows| ==> rows'[k].0 == rows[k].0
    ensures ControlsKept(s.members, Put(room, rows'))
  {
    PreparedRows(s, env, inputs, c, group);
    PutKeepsControls(s.members, room, rows');
  }

  lemma {:induction false} ReorderedRowsKeepControls(s: Ledger, env: Env, a: Arrangement, items: seq<(Id, seq<Id>)>, sourceId: SourceId)
    requires ReorderRows(s, env, a, items, sourceId).Success?
    ensures var rows := ReorderRows(s, env, a, items, sourceId).value;
            forall k :: 0 <= k < |rows| ==> rows[k].0 in s.members && ControlKept(s.members[rows[k].0], rows[k].1)
    decreases |items|
  {
    if items != [] { ReorderedRowsKeepControls(s, env, a, items[1..], sourceId); }
  }

  lemma AcceptKeepsControls(s: Ledger, env: Env, sourceId: SourceId, fence: nat, c: Id, replaced: Option<nat>, p: Proposal)
    requires Accept(s, env, sourceId, fence, c, replaced, p).Success?
    ensures ControlsKept(s.members, Accept(s, env, sourceId, fence, c, replaced, p).value.members)
  {
    hide GraphError, Activated;
    var s' := Accept(s, env, sourceId, fence, c, replaced, p).value;
    NewRowsKeepControls(s, env, p.members, c, s.sources[sourceId].group, s.members,
                        ActivatedRows(env, Admit(s, env, sourceId, c, p).value.0, sourceId, s'.arrangements[c].revision));
  }

  lemma DraftKeepsControls(s: Ledger, env: Env, sourceId: SourceId, c: Id, change: Change)
    requires sourceId in s.sources && c in s.arrangements && !change.ResolveAll? && !change.Steer? && DraftOf(s, env, sourceId, c, change).Success?
    ensures ControlsKept(s.members, DraftOf(s, env, sourceId, c, change).value.members)
  {
    hide GraphError, Activated, Current, Prepare;
    var a, group := s.arrangements[c], s.sources[sourceId].group;
    match change
    case AnswerClarifications(_, inputs, _) =>
      NewRowsKeepControls(s, env, inputs, c, group, s.members,
                          ActivatedRows(env, PrepareAll(s, env, inputs, c, group).value, sourceId, a.revision + 1));
    case AppendMembers(inputs, _) =>
      var rows := PrepareAll(s, env, inputs, c, group).value;
      NewRowsKeepControls(s, env, inputs, c, group, MakeRoom(s.members, a.memberIds, rows), ActivatedRows(env, rows, sourceId, a.revision + 1));
    case Reorder(items) =>
      ReorderedRowsKeepControls(s, env, a, items, sourceId);
      PutKeepsControls(s.members, s.members, ReorderRows(s, env, a, items, sourceId).value);
    case _ =>
  }

  lemma OtherStepsKeepControls(s: Ledger, env: Env, c: Command)
    requires !c.AcceptProposal? && !c.ChangeArrangement? && !c.InstantiateRecurring? && !c.SourceStep?
    ensures ControlsKept(s.members, After(s, env, c).members)
  {
    hide GraphError, Current, WaitingDeps;
  }

  predicate Steers(c: Command) {
    c.ChangeArrangement? && c.change.Steer?
  }

  /** Only steering starts a member again. */
  lemma StepKeepsControls(s: Ledger, env: Env, c: Command)
    requires !Steers(c)
    ensures ControlsKept(s.members, After(s, env, c).members)
  {
    hide GraphError, Admit, DraftOf, Accept, OnSource, PrepareAll;
    match c
    case AcceptProposal(source, fence, id, replaced, p) =>
      if Execute(s, env, c).Success? { AcceptKeepsControls(s, env, source, fence, id, replaced, p); }
    case ChangeArrangement(source, fence, id, revision, change) =>
      if Execute(s, env, c).Success? {
        if change.ResolveAll? {
          AcceptKeepsControls(s, env, source, fence, id, Some(s.arrangements[id].revision), change.proposal);
        } else {
          DraftKeepsControls(s, env, source, id, change);
        }
      }
    case InstantiateRecurring(id, inputs) =>
      if Execute(s, env, c).Success? {
        var group := s.sources[s.arrangements[id].sourceId].group;
        NewRowsKeepControls(s, env, inputs, id, group, s.members, AsRecurring(PrepareAll(s, env, inputs, id, group).value));
      }
    case SourceStep(id, fence, action) =>
      if Execute(s, env, c).Success? { SourceStepsKeepMembers(s, id, fence, action); }
    case _ => OtherStepsKeepControls(s, env, c);
  }

  // ---------- Steering ----------

  /** The members that a change selects: those it names, or all of its arrangement. */
  predicate Selects(s: Ledger, c: Command, id: Id) {
    Steers(c) && c.arrangement in s.arrangements
    && if c.change.selected.Some? then id in c.change.selected.value else id in s.arrangements[c.arrangement].memberIds
  }

  /** The command pauses or cancels the member. */
  ghost predicate Stops(s: Ledger, env: Env, c: Command, id: Id) {
    Selects(s, c, id) && !c.change.steering.Resume? && Execute(s, env, c).Success?
  }

  ghost predicate Resumes(s: Ledger, env: Env, c: Command, id: Id) {
    Selects(s, c, id) && c.change.steering.Resume? && Execute(s, env, c).Success?
  }

  /** A member that a steering does not select stays as it was. */
  lemma SteeringIsSelective(s: Ledger, env: Env, c: Command, id: Id)
    requires Steers(c) && Execute(s, env, c).Success? && id in s.members
    ensures id in After(s, env, c).members
    ensures !Selects(s, c, id) ==> After(s, env, c).members[id] == s.members[id]
    ensures Stops(s, env, c, id) ==> !After(s, env, c).members[id].control.Running?
    ensures Resumes(s, env, c, id) ==> After(s, env, c).members[id] == s.members[id].(control := Running)
    ensures Selects(s, c, id) && c.change.steering.Cancel? && s.members[id].state.Ready? ==> After(s, env, c).members[id].state.Withdrawn?
  {
    hide Accept;
  }

  lemma SelectedIsAMember(s: Ledger, env: Env, c: Command, id: Id)
    requires Selects(s, c, id) && Execute(s, env, c).Success?
    ensures id in s.members
  {
    hide Accept;
  }

  predicate Held(s: Ledger, id: Id) {
    id in s.members && !s.members[id].control.Running?
  }

  lemma StaysHeld(s: Ledger, env: Env, c: Command, id: Id)
    requires Held(s, id) && !Resumes(s, env, c, id)
    ensures Held(After(s, env, c), id)
  {
    hide Execute;
    if !Steers(c) {
      StepKeepsControls(s, env, c);
    } else if Execute(s, env, c).Success? {
      SteeringIsSelective(s, env, c, id);
    }
  }

  // ---------- Whole runs ----------

  /** No step of the run resumes the member. */
  ghost predicate NeverResumed(s: Ledger, run: seq<Step>, id: Id) {
    forall k :: 0 <= k < |run| ==> !Resumes(AfterAll(s, run[..k]), run[k].env, run[k].command, id)
  }

  /** The step hands on neither the member nor anything that depends on it. */
  ghost predicate HoldsBack(s: Ledger, step: Step, id: Id) {
    !AppliesAt(s, step, id) && forall x :: AppliesAt(s, step, x) ==> id !in s.members[x].dependencies
  }

  lemma HeldHoldsBack(s: Ledger, step: Step, id: Id)
    requires Held(s, id)
    ensures HoldsBack(s, step, id)
  {
    hide After, Current;
  }

  lemma {:induction false} HeldRun(s: Ledger, run: seq<Step>, id: Id)
    requires Held(s, id) && NeverResumed(s, run, id)
    ensures Held(AfterAll(s, run), id)
    ensures forall k :: 0 <= k < |run| ==> HoldsBack(AfterAll(s, run[..k]), run[k], id)
    decreases |run|
  {
    hide After, Resumes, HoldsBack, Held;
    if run != [] {
      var next, rest := After(s, run[0].env, run[0].command), run[1..];
      assert run[..0] == [];
      assert !Resumes(AfterAll(s, run[..0]), run[0].env, run[0].command, id);
      StaysHeld(s, run[0].env, run[0].command, id);
      HeldHoldsBack(s, run[0], id);
      forall k | 0 <= k <= |rest| ensures AfterAll(s, run[..k + 1]) == AfterAll(next, rest[..k]) {
        assert run[..k + 1][0] == run[0] && run[..k + 1][1..] == rest[..k];
      }
      forall k | 0 <= k < |rest| ensures !Resumes(AfterAll(next, rest[..k]), rest[k].env, rest[k].command, id) {
        assert rest[k] == run[k + 1] && !Resumes(AfterAll(s, run[..k + 1]), run[k + 1].env, run[k + 1].command, id);
      }
      HeldRun(next, rest, id);
      forall k | 0 <= k < |run| ensures HoldsBack(AfterAll(s, run[..k]), run[k], id) {
        if 0 < k { assert run[k] == rest[k - 1] && HoldsBack(AfterAll(next, rest[..k - 1]), rest[k - 1], id); }
      }
    }
  }

  /** After a pause or a cancellation that selects a member, no run hands its command on, or applies anything that depends on
      it, until a resume selects it. */
  lemma StoppedUntilResumed(s: Ledger, env: Env, c: Command, run: seq<Step>, id: Id)
    requires Stops(s, env, c, id) && NeverResumed(After(s, env, c), run, id)
    ensures forall k :: 0 <= k < |run| ==> HoldsBack(AfterAll(After(s, env, c), run[..k]), run[k], id)
    ensures Held(AfterAll(After(s, env, c), run), id)
  {
    StoppingHolds(s, env, c, id);
    hide After, HoldsBack, Stops, Held, NeverResumed;
    HeldRun(After(s, env, c), run, id);
  }

  lemma StoppingHolds(s: Ledger, env: Env, c: Command, id: Id)
    requires Stops(s, env, c, id)
    ensures Held(After(s, env, c), id)
  {
    hide After, Execute;
    SelectedIsAMember(s, env, c, id);
    SteeringIsSelective(s, env, c, id);
  }

  /** Everything that handing a command on needs, except that the member runs. */
  ghost predicate OtherwiseReady(s: Ledger, env: Env, id: Id) {
    && id in s.members && s.members[id].arrangement in s.arrangements
    && var m := s.members[id];
       var a := s.arrangements[m.arrangement];
       && a.sourceId in s.sources && !s.sources[a.sourceId].frozen && s.sources[a.sourceId].owner.Coordination?
       && s.sources[a.sourceId].fence == a.sourceFence && a.state.Active? && !(a.allTogether && a.pending != [])
       && !m.observation && !OpenAssessment(m) && m.state.Ready? && Current(env, m) && env.triggered(id)
       && forall d :: d in m.dependencies ==> d in s.members && IsFulfilled(s, env, d)
  }

  lemma {:induction false} NothingLeft(s: Ledger, env: Env, deps: seq<Id>)
    requires forall d :: d in deps ==> d in s.members && IsFulfilled(s, env, d)
    ensures WaitingDeps(s, env, deps) == []
    decreases |deps|
  {
    hide IsFulfilled;
    if deps != [] { NothingLeft(s, env, deps[1..]); }
  }

  /** A frozen command is handed on exactly when its member runs and everything else is ready. */
  lemma HandedOnExactly(s: Ledger, env: Env, id: Id, revision: nat, version: Version)
    ensures After(s, env, ApplyMember(id, revision, version)).applied == s.applied + [id]
            <==> OtherwiseReady(s, env, id) && s.members[id].control.Running? && s.arrangements[s.members[id].arrangement].revision == revision
  {
    hide IsFulfilled, Current;
    assert s.applied + [id] != s.applied;
    if id in s.members && forall d :: d in s.members[id].dependencies ==> d in s.members {
      if forall d :: d in s.members[id].dependencies ==> IsFulfilled(s, env, d) { NothingLeft(s, env, s.members[id].dependencies); }
      if WaitingDeps(s, env, s.members[id].dependencies) == [] { NothingWaits(s, env, s.members[id].dependencies); }
    }
  }

  /** After a resume that selects a member, the member runs again and nothing else about it has changed. */
  lemma ResumedRunsAgain(s: Ledger, env: Env, c: Command, env': Env, version: Version, id: Id)
    requires Resumes(s, env, c, id) && OtherwiseReady(After(s, env, c), env', id)
    ensures var s' := After(s, env, c);
            After(s', env', ApplyMember(id, s'.arrangements[s'.members[id].arrangement].revision, version)).applied == s'.applied + [id]
  {
    hide After, OtherwiseReady;
    SelectedIsAMember(s, env, c, id);
    SteeringIsSelective(s, env, c, id);
    var s' := After(s, env, c);
    HandedOnExactly(s', env', id, Revision(s', id), version);
    ReadyIsPresent(s', env', id);
  }

  function Revision(s: Ledger, id: Id): nat {
    if id in s.members && s.members[id].arrangement in s.arrangements then s.arrangements[s.members[id].arrangement].revision else 0
  }

  lemma ReadyIsPresent(s: Ledger, env: Env, id: Id)
    requires OtherwiseReady(s, env, id)
    ensures id in s.members && s.members[id].arrangement in s.arrangements
  {
  }

  /** A resume undoes a pause. */
  lemma ResumeUndoesPause(members: map<Id, Member>, selected: seq<Id>)
    requires forall id :: id in selected && id in members ==> members[id].control.Running?
    ensures SteerAll(SteerAll(members, selected, Pause), selected, Resume) == members
  {
    forall id | id in members ensures SteerAll(SteerAll(members, selected, Pause), selected, Resume)[id] == members[id] {}
  }

  lemma {:induction false} NeverReadyAgain(s: Ledger, run: seq<Step>, id: Id)
    requires id in s.members && !s.members[id].state.Ready?
    ensures forall k :: 0 <= k < |run| ==> !AppliesAt(AfterAll(s, run[..k]), run[k], id)
    decreases |run|
  {
    hide After, AppliesAt;
    if run != [] {
      var next, rest := After(s, run[0].env, run[0].command), run[1..];
      StepKeepsMembers(s, run[0].env, run[0].command);
      NeverReadyAgain(next, rest, id);
      NotReadyNotApplied(s, run[0], id);
      forall k | 0 <= k < |run| ensures !AppliesAt(AfterAll(s, run[..k]), run[k], id) {
        if k == 0 {
          assert run[..0] == [];
        } else {
          assert run[k] == rest[k - 1] && run[..k][0] == run[0] && run[..k][1..] == rest[..k - 1];
        }
      }
    }
  }

  lemma NotReadyNotApplied(s: Ledger, step: Step, id: Id)
    requires id in s.members && !s.members[id].state.Ready?
    ensures !AppliesAt(s, step, id)
  {
    hide After;
  }

  /** A member cancelled before it was handed on is never handed on, resumed or not. */
  lemma CancelledIsNeverHandedOn(s: Ledger, env: Env, c: Command, run: seq<Step>, id: Id)
    requires Stops(s, env, c, id) && c.change.steering.Cancel? && s.members[id].state.Ready?
    ensures forall k :: 0 <= k < |run| ==> !AppliesAt(AfterAll(After(s, env, c), run[..k]), run[k], id)
  {
    hide After, AppliesAt;
    SteeringIsSelective(s, env, c, id);
    NeverReadyAgain(After(s, env, c), run, id);
  }
}
