/** What the merge worker makes of one pull request, in the words of the pull request
    and the world it meets. */
module MergeOutcomes {
  import opened Text
  import opened Domain
  import opened Reconciler
  import opened Answers
  import opened MergeWorker
  import MergeGate

  /** The worker gets to look at the pull request: it found its issue waiting there. */
  predicate Seen(c: Config, item: Item) {
    !item.world.canceled && item.world.lookup.FoundIssue? && item.world.lookup.issue.state == c.handoffState
  }

  predicate Valid(c: Config, item: Item) {
    Seen(c, item) && ValidPR(c, item.world.lookup.issue, item.pr, item.world.evidence)
  }

  /** It is the runner's own pull request, the states could be read, and it can be merged
      as far as conflicts go. */
  predicate Judged(c: Config, item: Item) {
    Valid(c, item) && item.world.statesRead && !MergeGate.Conflicting(item.pr)
  }

  predicate Quiet(c: Config, item: Item) {
    EffectsOf(c, item) == [] && EventsOf(c, item) == []
  }

  predicate OnlyBlocked(c: Config, item: Item) {
    EffectsOf(c, item) == [] && EventsOf(c, item) == [MergeBlocked(item.number)] && !Fails(c, item)
  }

  /** An error before anything is decided is recorded, unless the context was canceled. */
  lemma EarlyErrors(c: Config, item: Item)
    ensures item.world.canceled ==> Quiet(c, item) && Fails(c, item)
    ensures (!item.world.canceled && item.world.lookup.LookupError?) || (Valid(c, item) && !item.world.statesRead) ==>
      EffectsOf(c, item) == [] && EventsOf(c, item) == [ErrorRecorded(item.number)] && Fails(c, item)
  {
  }

  /** Pull requests of no issue, or of one that is not in handoff, are left alone. */
  lemma OthersAreLeftAlone(c: Config, item: Item)
    requires !item.world.canceled && !item.world.lookup.LookupError? && !Seen(c, item)
    ensures Quiet(c, item) && !Fails(c, item)
  {
  }

  /** One that is not the runner's own is blocked, and nothing is done to it. */
  lemma ForeignPRIsBlocked(c: Config, item: Item)
    requires Seen(c, item) && !Valid(c, item)
    ensures OnlyBlocked(c, item)
  {
  }

  /** What capturing feedback comes to. */
  predicate Captures(c: Config, item: Item) {
    var w, n := item.world, item.number;
    EffectsOf(c, item) ==
      if !(w.directoryMade && w.feedbackWritten) then []
      else if w.readyStateExists && w.movedToReady then [WriteFeedback(n), MoveToReady(n)]
      else [WriteFeedback(n)]
  }

  predicate CaptureFails(w: World) {
    !w.directoryMade || !w.feedbackWritten || (w.readyStateExists && !w.movedToReady)
  }

  /** A conflict is reported as blocked, and its repair captured: feedback first, then
      the move to Ready if there is such a state. */
  lemma ConflictIsCaptured(c: Config, item: Item)
    requires Valid(c, item) && item.world.statesRead && MergeGate.Conflicting(item.pr)
    ensures EventsOf(c, item) == [MergeBlocked(item.number)] && Captures(c, item)
    ensures Fails(c, item) <==> CaptureFails(item.world)
  {
  }

  /** Only an approved pull request is ever quarantined once it is the runner's own. */
  lemma QuarantineNeedsApproval(c: Config, item: Item)
    requires Judged(c, item) && DecisionFor(c, item.world.lookup.issue, item).shouldQuarantine
    ensures item.pr.reviewDecision == "APPROVED"
  {
    QuarantineExactly(c, item.world.lookup.issue, Some(item.pr), item.world.evidence);
  }

  /** Requested changes are captured, and the issue moved to Ready, unless they have been
      addressed already. */
  lemma RequestedChangesAreCaptured(c: Config, item: Item)
    requires Judged(c, item) && item.pr.reviewDecision == "CHANGES_REQUESTED"
    ensures EventsOf(c, item) == []
    ensures item.world.feedbackCollected && !item.world.feedbackAddressed ==>
      Captures(c, item) && (Fails(c, item) <==> CaptureFails(item.world))
    ensures !item.world.feedbackCollected ==> EffectsOf(c, item) == [] && Fails(c, item)
    ensures item.world.feedbackCollected && item.world.feedbackAddressed ==>
      EffectsOf(c, item) == [] && (Fails(c, item) <==> !item.world.directoryMade)
  {
    if DecisionFor(c, item.world.lookup.issue, item).shouldQuarantine { QuarantineNeedsApproval(c, item); }
  }

  /** Anything but an approval or requested changes is waited for. */
  lemma OtherReviewsAreAwaited(c: Config, item: Item)
    requires Judged(c, item) && item.pr.reviewDecision !in {"APPROVED", "CHANGES_REQUESTED"}
    ensures Quiet(c, item) && !Fails(c, item)
  {
    if DecisionFor(c, item.world.lookup.issue, item).shouldQuarantine { QuarantineNeedsApproval(c, item); }
  }

  /** An approved one that may not be merged is blocked; if it is not quarantined the
      context is looked at once more before that. */
  lemma ApprovedButNotMergeable(c: Config, item: Item)
    requires Judged(c, item) && item.pr.reviewDecision == "APPROVED"
    requires !Mergeable(c, item.world.lookup.issue, item.pr, item.world.evidence)
    ensures DecisionFor(c, item.world.lookup.issue, item).shouldQuarantine || !item.world.canceledBeforeMerge ==>
      OnlyBlocked(c, item)
    ensures !DecisionFor(c, item.world.lookup.issue, item).shouldQuarantine && item.world.canceledBeforeMerge ==>
      Quiet(c, item) && Fails(c, item)
  {
    var i, e := item.world.lookup.issue, item.world.evidence;
    CanMergeExactly(c, i, Some(item.pr), e);
    VerdictsAreConsistent(c, i, Some(item.pr), e);
  }

  /** Every call of a merge succeeds. */
  predicate AllGoesWell(w: World) {
    && w.squashed && !w.canceledAfterSquash && w.branchDeleted && !w.canceledAfterDelete
    && (w.doneStateExists ==> w.movedToDone) && w.workspaceRemoved
  }

  function CompleteEffects(n: int, toDone: bool): seq<Effect> {
    if toDone then [SquashMerge(n), DeleteBranch(n), MoveToDone(n), RemoveWorkspace(n)]
    else [SquashMerge(n), DeleteBranch(n), RemoveWorkspace(n)]
  }

  function CompleteLog(n: int, toDone: bool): seq<Event> {
    if toDone
    then [MergeAttempted(n), MergeSucceeded(n), BranchAttempted(n), BranchFinished(n, true),
          DoneAttempted(n), DoneFinished(n, true), MergeCompleted(n)]
    else [MergeAttempted(n), MergeSucceeded(n), BranchAttempted(n), BranchFinished(n, true), MergeCompleted(n)]
  }

  /** A merge in which everything succeeds: all its effects and events, in order. */
  lemma CompleteMerge(c: Config, item: Item)
    requires Merges(c, item) && AllGoesWell(item.world)
    ensures !Fails(c, item)
    ensures EffectsOf(c, item) == CompleteEffects(item.number, item.world.doneStateExists)
    ensures EventsOf(c, item) == CompleteLog(item.number, item.world.doneStateExists)
  {
    CompleteEvents(item);
  }

  lemma CompleteEvents(item: Item)
    requires AllGoesWell(item.world)
    ensures MergeEffects(item) == CompleteEffects(item.number, item.world.doneStateExists)
    ensures MergeEvents(item) == CompleteLog(item.number, item.world.doneStateExists)
  {
  }

  /** How a step ended is appended as it ended, unless the context was lost with it. */
  lemma StepsEndAsLogged(c: Config, item: Item, ok: bool)
    requires Merges(c, item)
    ensures var w, n := item.world, item.number;
      && (BranchFinished(n, ok) in EventsOf(c, item) <==>
            w.squashed && !w.canceledAfterSquash && w.branchDeleted == ok && (ok ==> !w.canceledAfterDelete))
      && (DoneFinished(n, ok) in EventsOf(c, item) <==>
            w.squashed && !w.canceledAfterSquash && w.branchDeleted && !w.canceledAfterDelete
            && w.doneStateExists && w.movedToDone == ok)
  {
    DoneStepEnds(item, ok);
    BranchStepEnds(item, ok);
  }

  lemma DoneStepEnds(item: Item, ok: bool)
    ensures BranchFinished(item.number, ok) !in DoneEvents(item)
    ensures DoneFinished(item.number, ok) in DoneEvents(item) <==>
      item.world.doneStateExists && item.world.movedToDone == ok
  {
    if item.world.doneStateExists && item.world.movedToDone == ok {
      assert DoneEvents(item)[1] == DoneFinished(item.number, ok);
    }
  }

  lemma BranchStepEnds(item: Item, ok: bool)
    ensures var w, n := item.world, item.number;
      && (BranchFinished(n, ok) in BranchEvents(item) <==>
            w.branchDeleted == ok && (ok ==> !w.canceledAfterDelete))
      && (DoneFinished(n, ok) in BranchEvents(item) <==>
            w.branchDeleted && !w.canceledAfterDelete && w.doneStateExists && w.movedToDone == ok)
  {
    DoneStepEnds(item, ok);
    if item.world.branchDeleted == ok && (ok ==> !item.world.canceledAfterDelete) {
      assert BranchEvents(item)[2] == BranchFinished(item.number, ok);
    }
  }

  /** A run over a list reports an error exactly when handling some item of it fails. */
  lemma {:induction false} RunFailsExactly(fails: Item -> bool, items: seq<Item>, from: nat)
    requires from <= |items|
    ensures FailsFrom(fails, items, from) <==> exists k :: from <= k < |items| && fails(items[k])
    decreases |items| - from
  {
    if from < |items| { RunFailsExactly(fails, items, from + 1); }
  }

  /** The step a merge fails in, if one fails with an error of its own. */
  function FailedPhase(w: World): Option<Phase> {
    if !w.squashed then Some(SquashPhase)
    else if w.canceledAfterSquash then None
    else if !w.branchDeleted then Some(BranchPhase)
    else if w.canceledAfterDelete then None
    else if w.doneStateExists && !w.movedToDone then Some(DonePhase)
    else if !w.workspaceRemoved then Some(WorkspacePhase)
    else None
  }

  /** The failure of a merge is appended with its phase, last but for the recorded error;
      a merge that only lost its context appends no failure. */
  lemma FailedMergeIsLogged(c: Config, item: Item, phase: Phase)
    requires Merges(c, item)
    ensures MergeFailed(item.number, phase) in EventsOf(c, item) <==> FailedPhase(item.world) == Some(phase)
    ensures FailedPhase(item.world).Some? ==> Fails(c, item)
    ensures FailedPhase(item.world).Some? ==>
      var es := EventsOf(c, item);
      |es| >= 3 && es[|es| - 1] == ErrorRecorded(item.number)
      && es[|es| - 2] == MergeFailed(item.number, FailedPhase(item.world).value)
    ensures Fails(c, item) <==> !AllGoesWell(item.world)
  {
    FailureMembers(item, phase);
    if FailedPhase(item.world).Some? { FailureComesLast(item); }
  }

  lemma FailureMembers(item: Item, phase: Phase)
    ensures MergeFailed(item.number, phase) in MergeEvents(item) <==> FailedPhase(item.world) == Some(phase)
  {
    FailureAfterSquash(item, phase);
  }

  lemma FailureAfterSquash(item: Item, phase: Phase)
    ensures item.world.squashed && !item.world.canceledAfterSquash ==>
      (MergeFailed(item.number, phase) in BranchEvents(item) <==> FailedPhase(item.world) == Some(phase))
  {
    FailureAtTheEnd(item, phase);
  }

  lemma FailureAtTheEnd(item: Item, phase: Phase)
    ensures MergeFailed(item.number, phase) in DoneEvents(item) <==>
      || (phase.DonePhase? && item.world.doneStateExists && !item.world.movedToDone)
      || (phase.WorkspacePhase? && (item.world.doneStateExists ==> item.world.movedToDone)
          && !item.world.workspaceRemoved)
  {
  }

  lemma FailureComesLast(item: Item)
    requires FailedPhase(item.world).Some?
    ensures var es := MergeEvents(item);
      |es| >= 3 && es[|es| - 1] == ErrorRecorded(item.number)
      && es[|es| - 2] == MergeFailed(item.number, FailedPhase(item.world).value)
  {
  }
}
