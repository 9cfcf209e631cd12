/**
  What ends and what is used up in the ledger, over whole runs: revisions and fences serve once, a cancelled arrangement hands
  nothing on, an open question stays open until it is answered, and a recurring round changes no ordinal.
*/
module LedgerLifecycles {
  import opened Wrappers
  import opened Graphs
  import opened Ordinals
  import opened Ledger
  import opened LedgerGraph
  import opened LedgerRuns
  import opened LedgerSources
  import opened LedgerOrdinals
  import opened LedgerControl
  import opened OrdinalMeaning

  // ---------- What becomes of an arrangement ----------

  predicate Answers(c: Command, x: Id, q: Id) {
    c.ChangeArrangement? && c.arrangement == x && c.change.AnswerClarifications? && q in c.change.ids
  }

  /** An active arrangement loses the questions that are answered and no others, and gains members only. */
  ghost predicate Moves(a: Arrangement, a': Arrangement, c: Command, x: Id) {
    && a.revision <= a'.revision && (a.state.Cancelled? ==> a'.state.Cancelled?)
    && (a.state.Active? ==>
          !a'.state.NeedsClarification? && a'.allTogether == a.allTogether && a.memberIds <= a'.memberIds
          && forall q :: q in a'.pending <==> q in a.pending && !Answers(c, x, q))
  }

  ghost predicate ArrangementMoves(s: Ledger, s': Ledger, c: Command, x: Id) {
    x in s.arrangements && x in s'.arrangements && Moves(s.arrangements[x], s'.arrangements[x], c, x)
  }

  lemma SourceStepMoves(s: Ledger, id: SourceId, fence: nat, action: SourceAction, x: Id)
    requires OnSource(s, id, fence, action).Success? && x in s.arrangements
    ensures ArrangementMoves(s, OnSource(s, id, fence, action).value, SourceStep(id, fence, action), x)
  {
  }

  lemma AcceptMoves(s: Ledger, env: Env, sourceId: SourceId, fence: nat, c: Id, replaced: Option<nat>, p: Proposal, x: Id, command: Command)
    requires Accept(s, env, sourceId, fence, c, replaced, p).Success? && x in s.arrangements
    requires forall q :: !Answers(command, x, q)
    ensures ArrangementMoves(s, Accept(s, env, sourceId, fence, c, replaced, p).value, command, x)
  {
    hide Admit;
  }

  /** What a draft may do to its arrangement before the revision is raised. */
  ghost predicate Drafts(a: Arrangement, a': Arrangement, change: Change) {
    && a'.revision == a.revision && !a'.state.NeedsClarification? && a'.allTogether == a.allTogether && a.memberIds <= a'.memberIds
    && forall q :: q in a'.pending <==> q in a.pending && !(change.AnswerClarifications? && q in change.ids)
  }

  lemma DraftDrafts(s: Ledger, env: Env, sourceId: SourceId, c: Id, change: Change)
    requires sourceId in s.sources && c in s.arrangements && !change.ResolveAll? && DraftOf(s, env, sourceId, c, change).Success?
    requires s.arrangements[c].state.Active?
    ensures Drafts(s.arrangements[c], DraftOf(s, env, sourceId, c, change).value.arrangement, change)
  {
    hide GraphError, Activated, PrepareAll, Put, ReorderRows, FrozenOrder, MakeRoom, SteerAll;
  }

  lemma ChangeMoves(s: Ledger, env: Env, c: Command, x: Id)
    requires c.ChangeArrangement? && !c.change.ResolveAll? && Execute(s, env, c).Success? && x in s.arrangements
    ensures ArrangementMoves(s, After(s, env, c), c, x)
    ensures c.arrangement in s.arrangements && c.arrangement in After(s, env, c).arrangements
    ensures s.arrangements[c.arrangement].revision < After(s, env, c).arrangements[c.arrangement].revision
  {
    hide DraftOf, Accept;
    DraftDrafts(s, env, c.source, c.arrangement, c.change);
  }

  lemma StepMoves(s: Ledger, env: Env, c: Command, x: Id)
    requires Execute(s, env, c).Success? && x in s.arrangements
    ensures ArrangementMoves(s, After(s, env, c), c, x)
  {
    hide OnSource, Accept, DoChange, GraphError, PrepareAll, Apply, Assess, Reconcile, MakeTemplate, Supersede, RecordCompletion;
    match c
    case SourceStep(id, fence, action) => SourceStepMoves(s, id, fence, action, x);
    case AcceptProposal(source, fence, id, replaced, p) => AcceptMoves(s, env, source, fence, id, replaced, p, x, c);
    case ChangeArrangement(source, fence, id, revision, change) =>
      if change.ResolveAll? {
        ResolvingMoves(s, env, c, x);
      } else {
        ChangeMoves(s, env, c, x);
      }
    case ApplyMember(_, _, _) => MemberStepsStay(s, env, c);
    case AssessOrder(_) => MemberStepsStay(s, env, c);
    case ReconcileObservations(_) => MemberStepsStay(s, env, c);
    case BecomeTemplate(_) => MemberStepsStay(s, env, c);
    case SupersedeMember(_) => MemberStepsStay(s, env, c);
    case CompleteMember(_, _) => MemberStepsStay(s, env, c);
    case _ =>
  }

  lemma ResolvingMoves(s: Ledger, env: Env, c: Command, x: Id)
    requires c.ChangeArrangement? && c.change.ResolveAll? && Execute(s, env, c).Success? && x in s.arrangements
    ensures ArrangementMoves(s, After(s, env, c), c, x)
  {
    hide Accept;
    AcceptMoves(s, env, c.source, c.fence, c.arrangement, Some(s.arrangements[c.arrangement].revision), c.change.proposal, x, c);
  }

  // ---------- Revisions ----------

  /** The arrangement has left the revision behind. */
  predicate Past(s: Ledger, x: Id, revision: nat) {
    x in s.arrangements && revision < s.arrangements[x].revision
  }

  lemma StepStaysPast(s: Ledger, env: Env, c: Command, x: Id, revision: nat)
    requires Past(s, x, revision)
    ensures Past(After(s, env, c), x, revision)
  {
    hide Execute;
    if Execute(s, env, c).Success? { StepMoves(s, env, c, x); }
  }

  lemma {:induction false} RunStaysPast(s: Ledger, run: seq<Step>, x: Id, revision: nat)
    requires Past(s, x, revision)
    ensures Past(AfterAll(s, run), x, revision)
    decreases |run|
  {
    hide After, Past;
    if run != [] {
      StepStaysPast(s, run[0].env, run[0].command, x, revision);
      RunStaysPast(After(s, run[0].env, run[0].command), run[1..], x, revision);
    }
  }

  /** The arrangement and the revision that a command was decided on, if it is to change it. */
  function DecidedOn(c: Command): Option<(Id, nat)> {
    match c
    case ChangeArrangement(_, _, x, revision, _) => Some((x, revision))
    case CancelOne(x, revision) => Some((x, revision))
    case AcceptProposal(_, _, x, Some(revision), _) => Some((x, revision))
    case _ => None
  }

  lemma DecisionMovesOn(s: Ledger, env: Env, c: Command)
    requires Execute(s, env, c).Success? && DecidedOn(c).Some?
    ensures DecidedOn(c).value.0 in s.arrangements ==> Past(After(s, env, c), DecidedOn(c).value.0, DecidedOn(c).value.1)
  {
    hide Admit, DraftOf, Accept;
    if c.ChangeArrangement? && !c.change.ResolveAll? { ChangeMoves(s, env, c, c.arrangement); }
    if c.ChangeArrangement? && c.change.ResolveAll? {
      AcceptRaises(s, env, c.source, c.fence, c.arrangement, Some(s.arrangements[c.arrangement].revision), c.change.proposal);
    }
    if c.AcceptProposal? && c.arrangement in s.arrangements { AcceptRaises(s, env, c.source, c.fence, c.arrangement, c.replaced, c.proposal); }
  }

  lemma AcceptRaises(s: Ledger, env: Env, sourceId: SourceId, fence: nat, c: Id, replaced: Option<nat>, p: Proposal)
    requires Accept(s, env, sourceId, fence, c, replaced, p).Success? && c in s.arrangements
    ensures var s' := Accept(s, env, sourceId, fence, c, replaced, p).value;
            c in s'.arrangements && s'.arrangements[c].revision == s.arrangements[c].revision + 1 && replaced == Some(s.arrangements[c].revision)
  {
    hide Admit;
  }

  lemma PastIsRefused(s: Ledger, env: Env, c: Command)
    requires DecidedOn(c).Some? && Past(s, DecidedOn(c).value.0, DecidedOn(c).value.1)
    ensures Execute(s, env, c).Failure?
  {
    hide Admit, DraftOf;
  }

  /** Of all changes, cancellations and replacements decided on one revision of an arrangement, one at most is carried out. */
  lemma RevisionServesOnce(s: Ledger, env: Env, c: Command, run: seq<Step>, env': Env, c': Command)
    requires DecidedOn(c).Some? && DecidedOn(c') == DecidedOn(c) && DecidedOn(c).value.0 in s.arrangements
    requires Execute(s, env, c).Success?
    ensures Execute(AfterAll(After(s, env, c), run), env', c').Failure?
  {
    DecisionMovesOn(s, env, c);
    hide Execute, After, Past;
    RunStaysPast(After(s, env, c), run, DecidedOn(c).value.0, DecidedOn(c).value.1);
    PastIsRefused(AfterAll(After(s, env, c), run), env', c');
  }

  // ---------- The end of an arrangement ----------

  predicate Over(s: Ledger, x: Id) {
    x in s.arrangements && s.arrangements[x].state.Cancelled?
  }

  lemma StepStaysOver(s: Ledger, env: Env, c: Command, x: Id)
    requires Over(s, x)
    ensures Over(After(s, env, c), x)
  {
    hide Execute;
    if Execute(s, env, c).Success? { StepMoves(s, env, c, x); }
  }

  /** The command ends the arrangement. */
  ghost predicate Ends(s: Ledger, env: Env, c: Command, x: Id) {
    Execute(s, env, c).Success?
    && match c
       case CancelOne(id, _) => id == x
       case Retire(id, _, _, _) => id == x && id in s.arrangements && !s.arrangements[id].retired
       case ChangeArrangement(_, _, id, _, Steer(Cancel, None)) => id == x
       case _ => false
  }

  /** The step hands on no command of the arrangement, and none that depends on one. */
  ghost predicate NothingOf(s: Ledger, step: Step, x: Id) {
    forall id :: AppliesAt(s, step, id) ==>
      s.members[id].arrangement != x && forall d :: d in s.members[id].dependencies && d in s.members ==> s.members[d].arrangement != x
  }

  lemma OverHandsNothingOn(s: Ledger, step: Step, x: Id)
    requires Over(s, x)
    ensures NothingOf(s, step, x)
  {
    hide After, Current;
  }

  lemma {:induction false} OverRun(s: Ledger, run: seq<Step>, x: Id)
    requires Over(s, x)
    ensures Over(AfterAll(s, run), x)
    ensures forall k :: 0 <= k < |run| ==> NothingOf(AfterAll(s, run[..k]), run[k], x)
    decreases |run|
  {
    hide After, NothingOf, Over;
    if run != [] {
      var rest := run[1..];
      StepStaysOver(s, run[0].env, run[0].command, x);
      OverHandsNothingOn(s, run[0], x);
      OverRun(After(s, run[0].env, run[0].command), rest, x);
      forall k | 0 <= k < |run| ensures NothingOf(AfterAll(s, run[..k]), run[k], x) {
        if k == 0 {
          assert run[..0] == [];
        } else {
          assert run[k] == rest[k - 1] && run[..k][0] == run[0] && run[..k][1..] == rest[..k - 1];
        }
      }
    }
  }

  lemma EndingIsOver(s: Ledger, env: Env, c: Command, x: Id)
    requires Ends(s, env, c, x)
    ensures Over(After(s, env, c), x)
  {
    hide Accept, GraphError;
  }

  /** After an arrangement is cancelled or retired it stays so, and no run hands on any command of it or that depends on one of it. */
  lemma EndedHandsNothingOn(s: Ledger, env: Env, c: Command, run: seq<Step>, x: Id)
    requires Ends(s, env, c, x)
    ensures Over(AfterAll(After(s, env, c), run), x)
    ensures forall k :: 0 <= k < |run| ==> NothingOf(AfterAll(After(s, env, c), run[..k]), run[k], x)
  {
    EndingIsOver(s, env, c, x);
    hide After, NothingOf, Ends;
    OverRun(After(s, env, c), run, x);
  }

  // ---------- Open questions ----------

  /** While the arrangement is active, it is one whose members wait for all questions together, and this one is still open. */
  predicate Asks(s: Ledger, x: Id, q: Id) {
    x in s.arrangements && !s.arrangements[x].state.NeedsClarification?
    && (s.arrangements[x].state.Active? ==> s.arrangements[x].allTogether && q in s.arrangements[x].pending)
  }

  lemma StepStillAsks(s: Ledger, env: Env, c: Command, x: Id, q: Id)
    requires Asks(s, x, q) && !Answers(c, x, q)
    ensures Asks(After(s, env, c), x, q)
  {
    hide Execute;
    if Execute(s, env, c).Success? { StepMoves(s, env, c, x); }
  }

  predicate NeverAnswered(run: seq<Step>, x: Id, q: Id) {
    forall k :: 0 <= k < |run| ==> !Answers(run[k].command, x, q)
  }

  ghost predicate WaitsForAll(s: Ledger, step: Step, x: Id) {
    forall id :: AppliesAt(s, step, id) ==> s.members[id].arrangement != x
  }

  lemma AskingWaits(s: Ledger, step: Step, x: Id, q: Id)
    requires Asks(s, x, q)
    ensures WaitsForAll(s, step, x)
  {
    hide After, Current, IsFulfilled;
    forall id | AppliesAt(s, step, id) ensures s.members[id].arrangement != x {
      HandedOnExactly(s, step.env, id, step.command.expectedRevision, step.command.version);
    }
  }

  lemma {:induction false} RunStillAsks(s: Ledger, run: seq<Step>, x: Id, q: Id)
    requires Asks(s, x, q) && NeverAnswered(run, x, q)
    ensures Asks(AfterAll(s, run), x, q)
    ensures forall k :: 0 <= k < |run| ==> WaitsForAll(AfterAll(s, run[..k]), run[k], x)
    decreases |run|
  {
    hide After, WaitsForAll, Asks, Answers;
    if run != [] {
      var rest := run[1..];
      StepStillAsks(s, run[0].env, run[0].command, x, q);
      AskingWaits(s, run[0], x, q);
      forall k | 0 <= k < |rest| ensures !Answers(rest[k].command, x, q) { assert rest[k] == run[k + 1]; }
      RunStillAsks(After(s, run[0].env, run[0].command), rest, x, q);
      forall k | 0 <= k < |run| ensures WaitsForAll(AfterAll(s, run[..k]), run[k], x) {
        if k == 0 {
          assert run[..0] == [];
        } else {
          assert run[k] == rest[k - 1] && run[..k][0] == run[0] && run[..k][1..] == rest[..k - 1];
        }
      }
    }
  }

  /** The proposal that a command accepts. */
  function ProposalOf(c: Command): Option<Proposal> {
    match c
    case AcceptProposal(_, _, _, _, p) => Some(p)
    case ChangeArrangement(_, _, _, _, ResolveAll(p)) => Some(p)
    case _ => None
  }

  function Named(c: Command): Id {
    match c
    case AcceptProposal(_, _, x, _, _) => x
    case ChangeArrangement(_, _, x, _, _) => x
    case _ => ""
  }

  /** An accepted arrangement has the members, the open questions and the way of waiting of its proposal. */
  lemma AcceptedAsProposed(s: Ledger, env: Env, c: Command)
    requires Execute(s, env, c).Success? && ProposalOf(c).Some?
    ensures var s', x, p := After(s, env, c), Named(c), ProposalOf(c).value;
            && x in s'.arrangements && c.source in s.sources
            && var a := s'.arrangements[x];
               a.state.Active? && a.memberIds == InputIds(p.members) && a.pending == p.pending && a.allTogether == p.allTogether
               && a.sourceId == c.source && a.group == s.sources[c.source].group && a.sourceFence == c.fence
               && (p.pending != [] ==> a.pendingSource == Some(c.source))
  {
    hide GraphError, PrepareAll, FrozenOrder, Accept, DraftOf;
    if c.AcceptProposal? {
      AcceptingAsProposed(s, env, c.source, c.fence, c.arrangement, c.replaced, c.proposal);
    } else {
      AcceptingAsProposed(s, env, c.source, c.fence, c.arrangement, Some(s.arrangements[c.arrangement].revision), c.change.proposal);
    }
  }

  lemma AcceptingAsProposed(s: Ledger, env: Env, sourceId: SourceId, fence: nat, c: Id, replaced: Option<nat>, p: Proposal)
    requires Accept(s, env, sourceId, fence, c, replaced, p).Success?
    ensures var s' := Accept(s, env, sourceId, fence, c, replaced, p).value;
            && c in s'.arrangements && sourceId in s.sources
            && var a := s'.arrangements[c];
               a.state.Active? && a.memberIds == InputIds(p.members) && a.pending == p.pending && a.allTogether == p.allTogether
               && a.sourceId == sourceId && a.group == s.sources[sourceId].group && a.sourceFence == fence
               && (p.pending != [] ==> a.pendingSource == Some(sourceId))
  {
    hide GraphError, PrepareAll, FrozenOrder, Put;
    PreparedIds(s, env, p.members, c, s.sources[sourceId].group);
  }

  /** An arrangement accepted to wait for all its questions hands nothing on while any one of them is unanswered. */
  lemma AllTogetherWaits(s: Ledger, env: Env, c: Command, run: seq<Step>, q: Id)
    requires Execute(s, env, c).Success? && ProposalOf(c).Some? && ProposalOf(c).value.allTogether && q in ProposalOf(c).value.pending
    requires NeverAnswered(run, Named(c), q)
    ensures forall k :: 0 <= k < |run| ==> WaitsForAll(AfterAll(After(s, env, c), run[..k]), run[k], Named(c))
  {
    AcceptedAsProposed(s, env, c);
    hide After, WaitsForAll, Execute;
    RunStillAsks(After(s, env, c), run, Named(c), q);
  }

  // ---------- Sources ----------

  /** A source that was accepted or rejected speaks no more. */
  predicate Closed(x: Source) {
    x.state.Accepted? || x.state.Rejected?
  }

  /** The text, the group and the reservation of a source are for ever, its fence only grows, it is reconsidered once, and it stays
      closed. */
  predicate SourceGoesOn(x: Source, x': Source) {
    && x'.original == x.original && x'.group == x.group && x'.reservation == x.reservation && x.fence <= x'.fence
    && (x.reconsidered ==> x'.reconsidered) && (Closed(x) ==> Closed(x')) && (x.owner.LegacyTopic? ==> x'.owner.LegacyTopic?)
  }

  ghost predicate SourcesGoOn(before: Sources, after: Sources) {
    forall a :: a in before ==> a in after && SourceGoesOn(before[a], after[a])
  }

  lemma SourceStepGoesOn(s: Ledger, id: SourceId, fence: nat, action: SourceAction)
    requires OnSource(s, id, fence, action).Success?
    ensures SourcesGoOn(s.sources, OnSource(s, id, fence, action).value.sources)
  {
  }

  lemma AcceptGoesOn(s: Ledger, env: Env, sourceId: SourceId, fence: nat, c: Id, replaced: Option<nat>, p: Proposal)
    requires Accept(s, env, sourceId, fence, c, replaced, p).Success?
    ensures SourcesGoOn(s.sources, Accept(s, env, sourceId, fence, c, replaced, p).value.sources)
  {
    hide Admit;
  }

  lemma ChangeGoesOn(s: Ledger, env: Env, c: Command)
    requires c.ChangeArrangement? && Execute(s, env, c).Success?
    ensures SourcesGoOn(s.sources, After(s, env, c).sources)
  {
    hide GraphError, Activated, PrepareAll, Put, ReorderRows, FrozenOrder, Accept, MakeRoom, SteerAll, Assign, GoodAssignments;
    if c.change.ResolveAll? {
      AcceptGoesOn(s, env, c.source, c.fence, c.arrangement, Some(s.arrangements[c.arrangement].revision), c.change.proposal);
    }
  }

  lemma StepGoesOn(s: Ledger, env: Env, c: Command)
    ensures SourcesGoOn(s.sources, After(s, env, c).sources)
  {
    hide OnSource, Accept, DoChange, GraphError, PrepareAll, Apply, Assess, Reconcile, MakeTemplate, Supersede, RecordCompletion;
    if Execute(s, env, c).Success? {
      match c
      case SourceStep(id, fence, action) => SourceStepGoesOn(s, id, fence, action);
      case AcceptProposal(source, fence, id, replaced, p) => AcceptGoesOn(s, env, source, fence, id, replaced, p);
      case ChangeArrangement(_, _, _, _, _) => ChangeGoesOn(s, env, c);
      case ApplyMember(_, _, _) => MemberStepsStay(s, env, c);
      case AssessOrder(_) => MemberStepsStay(s, env, c);
      case ReconcileObservations(_) => MemberStepsStay(s, env, c);
      case BecomeTemplate(_) => MemberStepsStay(s, env, c);
      case SupersedeMember(_) => MemberStepsStay(s, env, c);
      case CompleteMember(_, _) => MemberStepsStay(s, env, c);
      case _ =>
    }
  }

  /** In every run a source keeps what it was reserved with, and its fence never goes back. */
  lemma {:induction false} SourcesKeepTheirText(s: Ledger, run: seq<Step>)
    ensures SourcesGoOn(s.sources, AfterAll(s, run).sources)
    decreases |run|
  {
    hide After, SourceGoesOn;
    if run != [] {
      var next := After(s, run[0].env, run[0].command);
      StepGoesOn(s, run[0].env, run[0].command);
      SourcesKeepTheirText(next, run[1..]);
      GoingOnChains(s.sources, next.sources, AfterAll(s, run).sources);
    } else {
      GoingNowhere(s.sources);
    }
  }

  lemma GoingNowhere(a: Sources)
    ensures SourcesGoOn(a, a)
  {
  }

  lemma GoingOnChains(a: Sources, b: Sources, c: Sources)
    requires SourcesGoOn(a, b) && SourcesGoOn(b, c)
    ensures SourcesGoOn(a, c)
  {
  }

  /** The source and the fence that a command acts under. */
  function ActsUnder(c: Command): Option<(SourceId, nat)> {
    match c
    case SourceStep(id, fence, _) => Some((id, fence))
    case AcceptProposal(id, fence, _, _, _) => Some((id, fence))
    case ChangeArrangement(id, fence, _, _, _) => Some((id, fence))
    case _ => None
  }

  predicate ClosesTheFence(c: Command) {
    c.SourceStep? && (c.action.Reconsider? || c.action.CompleteHandoff?)
  }

  lemma StaleFenceIsRefused(s: Ledger, env: Env, c: Command)
    requires ActsUnder(c).Some? && ActsUnder(c).value.0 in s.sources
    requires ActsUnder(c).value.1 < s.sources[ActsUnder(c).value.0].fence || s.sources[ActsUnder(c).value.0].owner.LegacyTopic?
    ensures Execute(s, env, c).Failure?
  {
    hide Admit, DraftOf;
  }

  /** Whoever acted for a source before it was reconsidered or handed over can do nothing more under the old fence, and after a
      handover nobody can under any. */
  lemma ClosedFenceIsRefused(s: Ledger, env: Env, c: Command, run: seq<Step>, env': Env, c': Command)
    requires ClosesTheFence(c) && Execute(s, env, c).Success? && ActsUnder(c').Some? && ActsUnder(c').value.0 == c.source
    requires ActsUnder(c').value.1 <= c.fence || c.action.CompleteHandoff?
    ensures Execute(AfterAll(After(s, env, c), run), env', c').Failure?
  {
    var s' := After(s, env, c);
    assert c.source in s'.sources && c.fence < s'.sources[c.source].fence && (c.action.CompleteHandoff? ==> s'.sources[c.source].owner.LegacyTopic?);
    hide Execute, After;
    SourcesKeepTheirText(s', run);
    assert SourceGoesOn(s'.sources[c.source], AfterAll(s', run).sources[c.source]);
    StaleFenceIsRefused(AfterAll(s', run), env', c');
  }

  /** The command makes the source's proposal or change. */
  predicate Speaks(c: Command, id: SourceId) {
    (c.AcceptProposal? || c.ChangeArrangement?) && c.source == id
  }

  lemma SpeakingCloses(s: Ledger, env: Env, c: Command)
    requires (c.AcceptProposal? || c.ChangeArrangement?) && Execute(s, env, c).Success?
    ensures c.source in After(s, env, c).sources && Closed(After(s, env, c).sources[c.source])
  {
    hide Admit, DraftOf;
  }

  lemma ClosedIsRefused(s: Ledger, env: Env, c: Command)
    requires (c.AcceptProposal? || c.ChangeArrangement?) && c.source in s.sources && Closed(s.sources[c.source])
    ensures Execute(s, env, c).Failure?
  {
    hide Admit, DraftOf;
  }

  /** Each source makes one proposal or change at most, and none once it was rejected. */
  lemma SourceServesOnce(s: Ledger, env: Env, c: Command, run: seq<Step>, env': Env, c': Command)
    requires Execute(s, env, c).Success? && (c.AcceptProposal? || c.ChangeArrangement? || (c.SourceStep? && c.action.Reject?))
    requires Speaks(c', c.source)
    ensures Execute(AfterAll(After(s, env, c), run), env', c').Failure?
  {
    var s' := After(s, env, c);
    if !c.SourceStep? { SpeakingCloses(s, env, c); }
    assert c.source in s'.sources && Closed(s'.sources[c.source]);
    hide Execute, After;
    SourcesKeepTheirText(s', run);
    assert SourceGoesOn(s'.sources[c.source], AfterAll(s', run).sources[c.source]);
    ClosedIsRefused(AfterAll(s', run), env', c');
  }

  /** A source is reconsidered once. */
  lemma ReconsideredOnce(s: Ledger, env: Env, c: Command, run: seq<Step>, env': Env, c': Command)
    requires c.SourceStep? && c.action.Reconsider? && Execute(s, env, c).Success?
    requires c'.SourceStep? && c'.action.Reconsider? && c'.source == c.source
    ensures Execute(AfterAll(After(s, env, c), run), env', c').Failure?
  {
    var s' := After(s, env, c);
    assert c.source in s'.sources && s'.sources[c.source].reconsidered;
    SourcesKeepTheirText(s', run);
    assert SourceGoesOn(s'.sources[c.source], AfterAll(s', run).sources[c.source]);
    hide After, AfterAll;
  }

  // ---------- Recurring rounds ----------

  lemma {:induction false} NothingOriginal(ids: seq<Id>, recurring: set<Id>)
    requires forall id :: id in ids ==> id in recurring
    ensures Originals(ids, recurring) == []
    decreases |ids|
  {
    if ids != [] { NothingOriginal(ids[1..], recurring); }
  }

  lemma {:induction false} SameOriginals(ids: seq<Id>, few: set<Id>, many: set<Id>)
    requires forall id :: id in ids ==> (id in few <==> id in many)
    ensures Originals(ids, few) == Originals(ids, many)
    decreases |ids|
  {
    if ids != [] { SameOriginals(ids[1..], few, many); }
  }

  lemma {:induction false} RoundRecurs(members: map<Id, Member>, rows: Rows)
    requires forall k :: 0 <= k < |rows| ==> rows[k].1.recurring
    ensures forall id :: id in RowIds(rows) ==> id in Put(members, rows) && Put(members, rows)[id].recurring
  {
    forall id | id in RowIds(rows) ensures id in Put(members, rows) && Put(members, rows)[id].recurring { RecordedRow(members, rows, id); }
  }

  lemma RoundShape(s: Ledger, env: Env, c: Id, inputs: seq<Input>)
    requires Execute(s, env, InstantiateRecurring(c, inputs)).Success?
    ensures c in s.arrangements && s.arrangements[c].sourceId in s.sources
    ensures PrepareAll(s, env, inputs, c, s.sources[s.arrangements[c].sourceId].group).Success?
    ensures var a, s' := s.arrangements[c], After(s, env, InstantiateRecurring(c, inputs));
            var rows := PrepareAll(s, env, inputs, c, s.sources[a.sourceId].group).value;
            s'.members == Put(s.members, AsRecurring(rows)) && s'.arrangements == s.arrangements[c := a.(memberIds := a.memberIds + RowIds(rows))]
  {
    hide GraphError, PrepareAll, Put;
  }

  lemma RoundKeepsOrdinals(s: Ledger, env: Env, c: Id, inputs: seq<Input>, n: int)
    requires AllOrdersOk(s) && Execute(s, env, InstantiateRecurring(c, inputs)).Success? && s.arrangements[c].order.None?
    ensures var s' := After(s, env, InstantiateRecurring(c, inputs));
            c in s'.arrangements && Resolve(DirectoryOf(s', s'.arrangements[c]), n) == Resolve(DirectoryOf(s, s.arrangements[c]), n)
  {
    hide GraphError, PrepareAll, Put, AllOrdersOk, Execute, After, MembersKept, WellOrdered;
    RoundShape(s, env, c, inputs);
    var a, s' := s.arrangements[c], After(s, env, InstantiateRecurring(c, inputs));
    var rows := PrepareAll(s, env, inputs, c, s.sources[a.sourceId].group).value;
    OrderIsOk(s, c);
    RoundRecurs(s.members, AsRecurring(rows));
    assert RowIds(AsRecurring(rows)) == RowIds(rows);
    StepKeepsMembers(s, env, InstantiateRecurring(c, inputs));
    var few, many := set i | i in s.members && s.members[i].recurring, set i | i in s'.members && s'.members[i].recurring;
    RecurringStays(s, s', a);
    SameOriginals(a.memberIds, few, many);
    NothingOriginal(RowIds(rows), many);
    OriginalsSplit(a.memberIds, RowIds(rows), many);
  }

  lemma OrderIsOk(s: Ledger, c: Id)
    requires AllOrdersOk(s) && c in s.arrangements
    ensures OrderOk(s.sources, s.members, s.arrangements[c])
  {
  }

  /** In every run a round of a recurring plan changes the meaning of no ordinal, and gives none to its own members. */
  lemma RoundsHaveNoOrdinal(before: seq<Step>, env: Env, c: Id, inputs: seq<Input>, n: int)
    requires var s := AfterAll(EmptyLedger, before);
             Execute(s, env, InstantiateRecurring(c, inputs)).Success? && s.arrangements[c].order.None?
    ensures var s := AfterAll(EmptyLedger, before);
            var s' := After(s, env, InstantiateRecurring(c, inputs));
            c in s.arrangements && c in s'.arrangements
            && Resolve(DirectoryOf(s', s'.arrangements[c]), n) == Resolve(DirectoryOf(s, s.arrangements[c]), n)
  {
    hide After, Dispatching, AllOrdersOk, Resolve, DirectoryOf;
    NoOrders();
    EmptyDispatches();
    RunKeepsOrdinals(EmptyLedger, before, {});
    RoundKeepsOrdinals(AfterAll(EmptyLedger, before), env, c, inputs, n);
  }

  // ---------- Cancelling and retiring ----------

  /** Cancelling an arrangement withdraws its members that are ready, and changes no other. */
  lemma CancelWithdraws(s: Ledger, env: Env, c: Id, revision: nat, id: Id)
    requires Execute(s, env, CancelOne(c, revision)).Success? && id in s.members
    ensures var s' := After(s, env, CancelOne(c, revision));
            c in s.arrangements && id in s'.members
            && if id in s.arrangements[c].memberIds && s.members[id].state.Ready? then s'.members[id].state.Withdrawn?
               else s'.members[id] == s.members[id]
  {
  }

  /** Only commands are handed on, observations never. */
  ghost predicate OnlyCommands(s: Ledger) {
    forall id :: id in s.applied ==> id in s.members && !s.members[id].observation
  }

  lemma StepAppliesCommands(s: Ledger, step: Step)
    requires OnlyCommands(s)
    ensures OnlyCommands(After(s, step.env, step.command))
  {
    StepApplies(s, step);
    StepKeepsMembers(s, step.env, step.command);
    if step.command.ApplyMember? && AppliesAt(s, step, step.command.member) {
      HandedOnExactly(s, step.env, step.command.member, step.command.expectedRevision, step.command.version);
    }
    hide After, Current, IsFulfilled;
  }

  lemma {:induction false} RunAppliesCommands(s: Ledger, run: seq<Step>)
    requires OnlyCommands(s)
    ensures OnlyCommands(AfterAll(s, run))
    decreases |run|
  {
    hide After, OnlyCommands;
    if run != [] {
      StepAppliesCommands(s, run[0]);
      RunAppliesCommands(After(s, run[0].env, run[0].command), run[1..]);
    }
  }

  /** In every run an arrangement that is retired had no open question and observed only: none of its members was ever handed on. */
  lemma RetiredHandedNothingOn(run: seq<Step>, env: Env, c: Command, id: Id)
    requires c.Retire? && Ends(AfterAll(EmptyLedger, run), env, c, c.arrangement)
    requires id in AfterAll(EmptyLedger, run).arrangements[c.arrangement].memberIds
    ensures var s := AfterAll(EmptyLedger, run);
            s.arrangements[c.arrangement].pending == [] && id in s.members && s.members[id].observation && id !in s.applied
            && id in After(s, env, c).members && After(s, env, c).members[id].control.Revoked?
  {
    RunAppliesCommands(EmptyLedger, run);
    hide AfterAll;
  }
}
