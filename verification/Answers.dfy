/** The reconciliation decision read as a list of obstacles: each has its condition on
    the evidence, its place in the order, and its answer to the operator. The decision
    is the answer to the first obstacle that stands. */
module Answers {
  import opened Text
  import opened WorkQueue
  import opened Domain
  import opened Reconciler
  import MergeGate

  /** The place of an obstacle among the others. */
  function Place(b: Blocker): nat {
    match b
    case ContextCanceled => 0
    case BlockedLabel => 1
    case RunLock => 2
    case StoreUnavailable => 3
    case NoAttemptState => 4
    case LeaseUnavailable => 5
    case LeaseActive => 6
    case ArtifactWithoutState => 7
    case ArtifactConflict => 8
    case NeedsMoreInfo => 9
    case IssueDone => 10
    case AttemptStatusMissing => 11
    case InvalidPR => 12
    case ChangesRequested => 13
    case StateMismatch => 14
    case NotApproved => 15
    case GateClosed => 16
    case NoDurableSuccess => 17
    case WorkspaceBusy => 18
    case MappedPRGone => 19
    case ReviewUnresolved => 20
    case TerminalRecord => 21
  }

  /** Work on a pull request that may go on: a review whose checks are green now, or
      feedback that waits. */
  predicate GoesOn(c: Config, i: Issue, pr: PullRequest, e: Evidence) {
    || ReviewCanStart(c, i, pr, FactsOf(e))
    || (RecordOf(e).Some? && RecordOf(e).value.status == "success" && FeedbackWaits(c, i, RecordOf(e).value, e))
  }

  predicate HasFacts(e: Evidence) {
    e.store.Store? && e.store.read.Found?
  }

  /** The evidence shows this obstacle, whatever else it shows. */
  predicate Stands(b: Blocker, c: Config, i: Issue, pr: Option<PullRequest>, e: Evidence) {
    match b
    case ContextCanceled => e.canceled
    case BlockedLabel => HasLabel(i, "blocked") || HasLabel(i, "needs-info")
    case RunLock => e.runLock
    case StoreUnavailable => e.store.Store? && e.store.read.FactsError?
    case NoAttemptState => e.store.Store? && e.store.read.NoFacts? && pr.Some?
    case LeaseUnavailable => e.store.Store? && e.store.leases.None?
    case LeaseActive =>
      e.store.Store? && e.store.leases.Some?
      && var leases, name := e.store.leases.value, "run:" + i.identifier;
         name in leases && leases[name].releasedAt.None? && leases[name].expiresAt > e.now
    case ArtifactWithoutState =>
      && e.store.Store? && e.artifact.Some? && e.artifact.value.hasArtifact
      && !(HasFacts(e) && e.store.read.facts.status != "")
    case ArtifactConflict =>
      && HasFacts(e) && e.artifact.Some? && e.artifact.value.hasArtifact && e.store.read.facts.status != ""
      && e.artifact.value.status !in {"", e.store.read.facts.status}
    case NeedsMoreInfo => i.state == c.needsInfoState
    case IssueDone => i.state == c.doneState
    case AttemptStatusMissing => pr.Some? && HasFacts(e) && Blank(e.store.read.facts.status)
    case InvalidPR => pr.Some? && !ValidPR(c, i, pr.value, e)
    case ChangesRequested => pr.Some? && pr.value.reviewDecision == "CHANGES_REQUESTED"
    case StateMismatch => pr.Some? && !GoesOn(c, i, pr.value, e) && i.state != c.handoffState
    case NotApproved => pr.Some? && !GoesOn(c, i, pr.value, e) && pr.value.reviewDecision != "APPROVED"
    case GateClosed => pr.Some? && !GoesOn(c, i, pr.value, e) && !MergeGate.Open(pr.value)
    case NoDurableSuccess =>
      pr.Some? && !GoesOn(c, i, pr.value, e) && !DurableSuccess(FactsOf(e), e.record, pr.value.url)
    case WorkspaceBusy => pr.Some? && !GoesOn(c, i, pr.value, e) && e.workspaceBusy
    case MappedPRGone => pr.None? && HasFacts(e) && e.store.read.facts.prURL != ""
    case ReviewUnresolved =>
      && pr.None?
      && if e.store.Store? then HasFacts(e) && e.store.read.facts.status == "review_failed" else e.reviewFailure
    case TerminalRecord =>
      && pr.None? && RecordOf(e).Some? && TerminalStatus(RecordOf(e).value.status)
      && !(RecordOf(e).value.status == "success" && FeedbackWaits(c, i, RecordOf(e).value, e))
  }

  /** This obstacle stands and none before it does. */
  ghost predicate IsFirst(b: Blocker, c: Config, i: Issue, pr: Option<PullRequest>, e: Evidence) {
    Stands(b, c, i, pr, e) && forall other :: Place(other) < Place(b) ==> !Stands(other, c, i, pr, e)
  }

  ghost predicate NothingStands(c: Config, i: Issue, pr: Option<PullRequest>, e: Evidence) {
    forall b :: !Stands(b, c, i, pr, e)
  }

  lemma PlacesDiffer(a: Blocker, b: Blocker)
    requires Place(a) == Place(b)
    ensures a == b
  {
  }

  /** What the decision says is in the way. */
  ghost predicate Names(v: Verdict, c: Config, i: Issue, pr: Option<PullRequest>, e: Evidence) {
    if v.blockers == [] then NothingStands(c, i, pr, e)
    else |v.blockers| == 1 && IsFirst(v.blockers[0], c, i, pr, e)
  }

  // ----- the answer that goes with an obstacle -----

  /** What the operator is told about a terminal record. */
  function RecordAnswer(status: string, prURL: string): (Lifecycle, NextAction) {
    if status == "success" && prURL != "" then (HandoffReady, AwaitReviewOrReconcile)
    else if status == "needs_info" || status == "needs_info_failed" then (NeedsInfo, AnswerQuestions)
    else if status == "review_failed" then (ReviewFailed, RepairBeforeHandoff)
    else if status == "merged" || status == "superseded" then (Done, CleanupWorkspace)
    else (Blocked, RepairOrClearArtifact)
  }

  /** Where an obstacle puts the issue, and what to do about it. */
  function AnswerTo(b: Blocker, record: Option<RunRecord>): (Lifecycle, NextAction) {
    match b
    case ContextCanceled => (Blocked, RetryWhenContextActive)
    case BlockedLabel => (Blocked, UnblockIssue)
    case RunLock => (Running, ClearRunLock)
    case LeaseActive => (Running, ReleaseRunLease)
    case StoreUnavailable => (Blocked, RepairStore)
    case NoAttemptState => (Blocked, RepairStore)
    case LeaseUnavailable => (Blocked, RepairStore)
    case ArtifactWithoutState => (Blocked, RepairStore)
    case AttemptStatusMissing => (Blocked, RepairStore)
    case ArtifactConflict => (Blocked, RepairArtifactOrStore)
    case NeedsMoreInfo => (NeedsInfo, AnswerQuestions)
    case IssueDone => (Done, CleanupWorkspace)
    case InvalidPR => (Quarantined, CloseInvalidPR)
    case NoDurableSuccess => (Quarantined, RepairArtifactBeforeMerge)
    case ChangesRequested => (FeedbackRetry, CaptureFeedback)
    case StateMismatch => (Blocked, ReconcileTrackerState)
    case NotApproved => (HandoffReady, AwaitApproval)
    case GateClosed => (HandoffReady, WaitForMergeable)
    case WorkspaceBusy => (Blocked, ClearWorkspace)
    case MappedPRGone => (Blocked, ReconcileMissingPR)
    case ReviewUnresolved => (ReviewFailed, RepairBeforeRetry)
    case TerminalRecord =>
      if record.Some? then RecordAnswer(record.value.status, record.value.prURL)
      else (Blocked, RepairOrClearArtifact)
  }

  /** Where an issue without obstacles stands, and what is next. */
  function AnswerToNone(c: Config, i: Issue, pr: Option<PullRequest>, e: Evidence): (Lifecycle, NextAction) {
    if pr.Some? && ReviewCanStart(c, i, pr.value, FactsOf(e)) then (Running, RunSemanticReview)
    else if RecordOf(e).Some? && RecordOf(e).value.status == "success" && FeedbackWaits(c, i, RecordOf(e).value, e)
    then (FeedbackRetry, RetryWithFeedback)
    else if pr.Some? then (MergeReady, MergePR)
    else (Ready, RunAgent)
  }

  predicate Fits(v: Verdict, c: Config, i: Issue, pr: Option<PullRequest>, e: Evidence) {
    && (v.lifecycle, v.nextAction) ==
         (if v.blockers == [] then AnswerToNone(c, i, pr, e) else AnswerTo(v.blockers[0], RecordOf(e)))
    && (v.shouldQuarantine <==> v.blockers == [InvalidPR] || v.blockers == [NoDurableSuccess])
    && (v.shouldRetry <==> v.lifecycle == FeedbackRetry || v.nextAction == RunSemanticReview)
  }

  // ----- the proof, on the answers the program collects -----

  /** The verdict names one obstacle and gives its answer. */
  predicate Answers(v: Verdict, record: Option<RunRecord>) {
    && |v.blockers| == 1 && (v.lifecycle, v.nextAction) == AnswerTo(v.blockers[0], record)
    && (v.shouldQuarantine <==> v.blockers[0] == InvalidPR || v.blockers[0] == NoDurableSuccess)
    && (v.shouldRetry <==> v.lifecycle == FeedbackRetry || v.nextAction == RunSemanticReview)
  }

  lemma BlockAnswers(v: Verdict, state: Lifecycle, why: Blocker, next: NextAction, record: Option<RunRecord>)
    requires Undecided(v) && (state, next) == AnswerTo(why, record)
    ensures v.Block(state, why, next).blockers == [why]
    ensures why !in {InvalidPR, NoDurableSuccess, ChangesRequested} ==> Answers(v.Block(state, why, next), record)
  {
  }

  predicate SignStands(b: Blocker, v: Verdict, s: Signs) {
    match b
    case BlockedLabel => s.blockedLabel
    case RunLock => s.runLock
    case StoreUnavailable => v.storeError
    case NoAttemptState => s.unknownPR
    case LeaseUnavailable => s.leaseError
    case LeaseActive => s.leaseActive
    case ArtifactWithoutState => s.artifactOnly
    case ArtifactConflict => s.conflict
    case NeedsMoreInfo => s.needsInfo
    case IssueDone => s.done
    case _ => false
  }

  /** The guard that applies is the answer to the first sign. */
  lemma GuardAnswers(v: Verdict, s: Signs, record: Option<RunRecord>)
    requires Undecided(v) && Guard(v, s).Some?
    ensures var g := Guard(v, s).value;
      Answers(g, record) && Place(g.blockers[0]) <= 10 && SignStands(g.blockers[0], v, s)
  {
  }

  lemma GuardOrder(v: Verdict, s: Signs, other: Blocker)
    requires Undecided(v) && SignStands(other, v, s)
    ensures var g := Guard(v, s);
      g.Some? && (g.value.blockers != [] ==> Place(g.value.blockers[0]) <= Place(other))
  {
  }

  lemma SignMatches(b: Blocker, c: Config, i: Issue, pr: Option<PullRequest>, e: Evidence)
    requires !e.canceled && Place(b) <= 10
    ensures Stands(b, c, i, pr, e) <==> SignStands(b, Gathered(pr, e), SignsOf(c, i, pr, e))
  {
  }

  predicate ViewStands(b: Blocker, c: Config, i: Issue, view: View) {
    var on := view.reviewCanStart || view.feedbackWaits;
    match b
    case InvalidPR => !view.valid
    case ChangesRequested => view.changesRequested
    case StateMismatch => !on && i.state != c.handoffState
    case NotApproved => !on && !view.approved
    case GateClosed => !on && !view.gateOpen
    case NoDurableSuccess => !on && !view.durable
    case WorkspaceBusy => !on && view.busy
    case _ => false
  }

  /** What comes of a pull request nothing speaks against. */
  predicate Free(p: Verdict, view: View) {
    && p.blockers == [] && !p.shouldQuarantine
    && (p.lifecycle, p.nextAction, p.shouldRetry) ==
         if view.reviewCanStart then (Running, RunSemanticReview, true)
         else if view.feedbackWaits then (FeedbackRetry, RetryWithFeedback, true)
         else (MergeReady, MergePR, false)
  }

  lemma ProceedAnswers(v: Verdict, c: Config, i: Issue, view: View, record: Option<RunRecord>)
    requires Undecided(v)
    ensures var p := Proceed(v, c, i, view);
      Free(p, view) || (Answers(p, record) && Place(p.blockers[0]) >= 12 && ViewStands(p.blockers[0], c, i, view))
  {
    if view.valid && !view.changesRequested && !view.reviewCanStart && !view.feedbackWaits {
      GateAnswers(v, c, i, view, record);
    }
  }

  /** The gates of the merge itself. */
  lemma GateAnswers(v: Verdict, c: Config, i: Issue, view: View, record: Option<RunRecord>)
    requires Undecided(v) && view.valid && !view.changesRequested && !view.reviewCanStart && !view.feedbackWaits
    ensures var p := Proceed(v, c, i, view);
      Free(p, view) || (Answers(p, record) && Place(p.blockers[0]) >= 12 && ViewStands(p.blockers[0], c, i, view))
  {
  }

  lemma ProceedOrder(v: Verdict, c: Config, i: Issue, view: View, other: Blocker)
    requires Undecided(v) && ViewStands(other, c, i, view)
    ensures var p := Proceed(v, c, i, view);
      p.blockers != [] && Place(p.blockers[0]) <= Place(other)
  {
  }

  lemma ViewMatches(b: Blocker, c: Config, i: Issue, pr: PullRequest, e: Evidence)
    requires Place(b) >= 12
    ensures Stands(b, c, i, Some(pr), e) <==> ViewStands(b, c, i, Look(Gathered(Some(pr), e), c, i, pr, e))
  {
  }

  predicate RecordStands(b: Blocker, v: Verdict, c: Config, i: Issue, e: Evidence) {
    match b
    case MappedPRGone => v.facts.Some? && v.facts.value.prURL != ""
    case ReviewUnresolved =>
      if e.store.Store? then v.facts.Some? && v.facts.value.status == "review_failed" else e.reviewFailure
    case TerminalRecord => v.runRecord.Some? && TerminalStatus(v.runRecord.value.status) && !Feedback(v, c, i, e)
    case _ => false
  }

  predicate Feedback(v: Verdict, c: Config, i: Issue, e: Evidence) {
    v.runRecord.Some? && v.runRecord.value.status == "success" && FeedbackWaits(c, i, v.runRecord.value, e)
  }

  lemma RecordAnswers(v: Verdict, c: Config, i: Issue, record: RunRecord, e: Evidence)
    requires Undecided(v)
    ensures var t := TerminalArtifact(v, c, i, record, e);
      if record.status == "success" && FeedbackWaits(c, i, record, e)
      then t == v.Go(FeedbackRetry, RetryWithFeedback)
      else t == v.Block(t.lifecycle, TerminalRecord, t.nextAction)
           && (t.lifecycle, t.nextAction) == RecordAnswer(record.status, record.prURL)
  {
  }

  /** The ways the answer without a pull request comes about. */
  lemma WithoutPRCases(v: Verdict, c: Config, i: Issue, e: Evidence)
    requires Undecided(v)
    ensures IsCase(WithoutPR(v, c, i, e), v, c, i, e)
  {
    if v.runRecord.Some? {
      RecordAnswers(v, c, i, v.runRecord.value, e);
      BlocksOnce(v);
    }
  }

  lemma BlocksOnce(v: Verdict)
    ensures forall state, why, next :: v.Block(state, why, next).blockers != []
  {
  }

  lemma RecordMatches(b: Blocker, c: Config, i: Issue, e: Evidence)
    requires Place(b) >= 12
    ensures Stands(b, c, i, None, e) <==> RecordStands(b, Gathered(None, e), c, i, e)
  {
  }

  // ----- the two main results -----

  ghost predicate Right(v: Verdict, c: Config, i: Issue, pr: Option<PullRequest>, e: Evidence) {
    Names(v, c, i, pr, e) && Fits(v, c, i, pr, e)
  }

  lemma RightIfStopped(c: Config, i: Issue, pr: Option<PullRequest>, e: Evidence)
    requires !e.canceled && Guard(Gathered(pr, e), SignsOf(c, i, pr, e)).Some?
    ensures Right(Guard(Gathered(pr, e), SignsOf(c, i, pr, e)).value, c, i, pr, e)
  {
    var v, s := Gathered(pr, e), SignsOf(c, i, pr, e);
    GuardAnswers(v, s, RecordOf(e));
    var b := Guard(v, s).value.blockers[0];
    SignMatches(b, c, i, pr, e);
    forall other | Place(other) < Place(b) ensures !Stands(other, c, i, pr, e) {
      SignMatches(other, c, i, pr, e);
      if SignStands(other, v, s) { GuardOrder(v, s, other); }
    }
  }

  lemma NoSignStands(c: Config, i: Issue, pr: Option<PullRequest>, e: Evidence)
    requires !e.canceled && Guard(Gathered(pr, e), SignsOf(c, i, pr, e)).None?
    ensures forall b :: Place(b) <= 10 ==> !Stands(b, c, i, pr, e)
  {
    var v, s := Gathered(pr, e), SignsOf(c, i, pr, e);
    forall b | Place(b) <= 10 ensures !Stands(b, c, i, pr, e) {
      SignMatches(b, c, i, pr, e);
      if SignStands(b, v, s) { GuardOrder(v, s, b); }
    }
  }

  lemma MissingStatusAnswers(c: Config, i: Issue, pr: PullRequest, e: Evidence)
    requires HasFacts(e) && Blank(e.store.read.facts.status)
    ensures var v := Gathered(Some(pr), e);
      WithPR(v, c, i, pr, e) == v.(reconciliationNeeded := true).Block(Blocked, AttemptStatusMissing, RepairStore)
  {
  }

  lemma MissingStatusIsNamed(c: Config, i: Issue, pr: PullRequest, e: Evidence)
    requires HasFacts(e) && Blank(e.store.read.facts.status)
    requires forall b :: Place(b) <= 10 ==> !Stands(b, c, i, Some(pr), e)
    ensures Right(WithPR(Gathered(Some(pr), e), c, i, pr, e), c, i, Some(pr), e)
  {
    MissingStatusAnswers(c, i, pr, e);
    var v := Gathered(Some(pr), e).(reconciliationNeeded := true);
    BlockAnswers(v, Blocked, AttemptStatusMissing, RepairStore, RecordOf(e));
  }

  lemma RightWithPR(c: Config, i: Issue, pr: PullRequest, e: Evidence)
    requires forall b :: Place(b) <= 10 ==> !Stands(b, c, i, Some(pr), e)
    requires !(HasFacts(e) && Blank(e.store.read.facts.status))
    ensures Right(WithPR(Gathered(Some(pr), e), c, i, pr, e), c, i, Some(pr), e)
  {
    var v := Gathered(Some(pr), e);
    RightOnView(Mapped(v, pr.url), c, i, pr, e, Look(v, c, i, pr, e));
  }

  lemma RightOnView(v: Verdict, c: Config, i: Issue, pr: PullRequest, e: Evidence, view: View)
    requires forall b :: Place(b) <= 10 ==> !Stands(b, c, i, Some(pr), e)
    requires !(HasFacts(e) && Blank(e.store.read.facts.status))
    requires Undecided(v) && view == Look(Gathered(Some(pr), e), c, i, pr, e)
    ensures Right(Proceed(v, c, i, view), c, i, Some(pr), e)
  {
    var p := Proceed(v, c, i, view);
    ProceedAnswers(v, c, i, view, RecordOf(e));
    NoMissingStatus(c, i, Some(pr), e);
    forall b | Place(b) >= 12
      ensures Stands(b, c, i, Some(pr), e) <==> ViewStands(b, c, i, view)
      ensures ViewStands(b, c, i, view) ==> p.blockers != [] && Place(p.blockers[0]) <= Place(b)
    {
      ViewMatches(b, c, i, pr, e);
      if ViewStands(b, c, i, view) { ProceedOrder(v, c, i, view, b); }
    }
    FreeFits(p, view, c, i, pr, e);
  }

  lemma FreeFits(p: Verdict, view: View, c: Config, i: Issue, pr: PullRequest, e: Evidence)
    requires view == Look(Gathered(Some(pr), e), c, i, pr, e)
    ensures Free(p, view) ==> Fits(p, c, i, Some(pr), e)
    ensures Answers(p, RecordOf(e)) ==> Fits(p, c, i, Some(pr), e)
  {
    if Answers(p, RecordOf(e)) { assert p.blockers == [p.blockers[0]]; }
  }

  lemma NoMissingStatus(c: Config, i: Issue, pr: Option<PullRequest>, e: Evidence)
    requires pr.None? || !(HasFacts(e) && Blank(e.store.read.facts.status))
    ensures forall b :: Place(b) == 11 ==> !Stands(b, c, i, pr, e)
  {
  }

  /** The verdict is one of the three blocks, feedback to work in, or the untouched one. */
  predicate IsCase(p: Verdict, v: Verdict, c: Config, i: Issue, e: Evidence) {
    if RecordStands(MappedPRGone, v, c, i, e) then p == v.Block(Blocked, MappedPRGone, ReconcileMissingPR)
    else if RecordStands(ReviewUnresolved, v, c, i, e) then
      p == v.Block(ReviewFailed, ReviewUnresolved, RepairBeforeRetry)
    else if v.runRecord.Some? && TerminalStatus(v.runRecord.value.status) then
      var answer := RecordAnswer(v.runRecord.value.status, v.runRecord.value.prURL);
      p == if Feedback(v, c, i, e) then v.Go(FeedbackRetry, RetryWithFeedback)
           else v.Block(answer.0, TerminalRecord, answer.1)
    else p == v.(canRun := StateIsRunnable(c, i.state))
  }

  lemma RightWithoutPR(c: Config, i: Issue, e: Evidence)
    requires forall b :: Place(b) <= 10 ==> !Stands(b, c, i, None, e)
    ensures Right(WithoutPR(Gathered(None, e), c, i, e), c, i, None, e)
  {
    WithoutPRCases(Gathered(None, e), c, i, e);
    NamesInEachCase(WithoutPR(Gathered(None, e), c, i, e), c, i, e);
    FitsInEachCase(WithoutPR(Gathered(None, e), c, i, e), Gathered(None, e), c, i, e);
  }

  lemma NamesInEachCase(p: Verdict, c: Config, i: Issue, e: Evidence)
    requires forall b :: Place(b) <= 10 ==> !Stands(b, c, i, None, e)
    requires IsCase(p, Gathered(None, e), c, i, e)
    ensures Names(p, c, i, None, e)
  {
    NoMissingStatus(c, i, None, e);
    forall b | Place(b) >= 12 ensures Stands(b, c, i, None, e) <==> RecordStands(b, Gathered(None, e), c, i, e) {
      RecordMatches(b, c, i, e);
    }
  }

  lemma FitsInEachCase(p: Verdict, v: Verdict, c: Config, i: Issue, e: Evidence)
    requires Undecided(v) && v.lifecycle == Ready && v.nextAction == RunAgent && v.runRecord == RecordOf(e)
    requires IsCase(p, v, c, i, e)
    ensures Fits(p, c, i, None, e)
  {
    if RecordStands(MappedPRGone, v, c, i, e) {
      FitsBlocked(v, Blocked, MappedPRGone, ReconcileMissingPR, c, i, e);
    } else if RecordStands(ReviewUnresolved, v, c, i, e) {
      FitsBlocked(v, ReviewFailed, ReviewUnresolved, RepairBeforeRetry, c, i, e);
    } else if v.runRecord.Some? && TerminalStatus(v.runRecord.value.status) && !Feedback(v, c, i, e) {
      var answer := RecordAnswer(v.runRecord.value.status, v.runRecord.value.prURL);
      FitsBlocked(v, answer.0, TerminalRecord, answer.1, c, i, e);
    } else {
      assert Feedback(v, c, i, e) ==> TerminalStatus(v.runRecord.value.status);
      FitsOpen(v, c, i, e);
    }
  }

  lemma FitsOpen(v: Verdict, c: Config, i: Issue, e: Evidence)
    requires Undecided(v) && v.lifecycle == Ready && v.nextAction == RunAgent && v.runRecord == RecordOf(e)
    ensures Feedback(v, c, i, e) ==> Fits(v.Go(FeedbackRetry, RetryWithFeedback), c, i, None, e)
    ensures !Feedback(v, c, i, e) ==> Fits(v.(canRun := StateIsRunnable(c, i.state)), c, i, None, e)
  {
  }

  lemma FitsBlocked(v: Verdict, state: Lifecycle, why: Blocker, next: NextAction, c: Config, i: Issue, e: Evidence)
    requires Undecided(v) && (state, next) == AnswerTo(why, RecordOf(e))
    requires why in {MappedPRGone, ReviewUnresolved, TerminalRecord}
    ensures Fits(v.Block(state, why, next), c, i, None, e)
  {
    BlockAnswers(v, state, why, next, RecordOf(e));
  }

  lemma DecisionIsRight(c: Config, i: Issue, pr: Option<PullRequest>, e: Evidence)
    ensures Right(Decide(c, i, pr, e), c, i, pr, e)
  {
    if !e.canceled {
      if Guard(Gathered(pr, e), SignsOf(c, i, pr, e)).Some? {
        RightIfStopped(c, i, pr, e);
      } else {
        NoSignStands(c, i, pr, e);
        if pr.None? { RightWithoutPR(c, i, e); }
        else if HasFacts(e) && Blank(e.store.read.facts.status) { MissingStatusIsNamed(c, i, pr.value, e); }
        else { RightWithPR(c, i, pr.value, e); }
      }
    }
  }

  /** The decision names the first obstacle that stands, and none if and only if none
      does: for every configuration, issue, pull request and body of evidence. */
  lemma FirstObstacleIsNamed(c: Config, i: Issue, pr: Option<PullRequest>, e: Evidence)
    ensures forall b :: IsFirst(b, c, i, pr, e) <==> Decide(c, i, pr, e).blockers == [b]
    ensures NothingStands(c, i, pr, e) <==> Decide(c, i, pr, e).blockers == []
  {
    DecisionIsRight(c, i, pr, e);
    OnlyOneIsFirst(Decide(c, i, pr, e), c, i, pr, e);
  }

  lemma OnlyOneIsFirst(v: Verdict, c: Config, i: Issue, pr: Option<PullRequest>, e: Evidence)
    requires Names(v, c, i, pr, e)
    ensures forall b :: IsFirst(b, c, i, pr, e) <==> v.blockers == [b]
    ensures NothingStands(c, i, pr, e) <==> v.blockers == []
  {
    forall b | IsFirst(b, c, i, pr, e) ensures v.blockers == [b] {
      if v.blockers != [] {
        var named := v.blockers[0];
        assert !(Place(b) < Place(named)) && !(Place(named) < Place(b));
        PlacesDiffer(b, named);
      }
    }
  }

  /** Every obstacle always comes with its own answer, quarantine with exactly two of
      them, and a retry with feedback or a review that can start. */
  lemma AnswersFit(c: Config, i: Issue, pr: Option<PullRequest>, e: Evidence)
    ensures Fits(Decide(c, i, pr, e), c, i, pr, e)
  {
    DecisionIsRight(c, i, pr, e);
  }

  // ----- quarantine -----

  /** Everything speaks for merging but the record of a reviewed success. */
  predicate LastGateFails(c: Config, i: Issue, pr: PullRequest, e: Evidence) {
    && ValidPR(c, i, pr, e) && pr.reviewDecision == "APPROVED" && !GoesOn(c, i, pr, e)
    && i.state == c.handoffState && MergeGate.Open(pr) && !DurableSuccess(FactsOf(e), e.record, pr.url)
  }

  /** Quarantine if and only if nothing is in the way of looking at the pull request and
      either the pull request is not the runner's own or its last gate fails; and then
      the operator is told which. */
  lemma QuarantineExactly(c: Config, i: Issue, pr: Option<PullRequest>, e: Evidence)
    ensures var d := Decide(c, i, pr, e);
      && (d.shouldQuarantine <==>
            && pr.Some? && Unguarded(c, i, pr, e) && !(HasFacts(e) && Blank(e.store.read.facts.status))
            && (!ValidPR(c, i, pr.value, e) || LastGateFails(c, i, pr.value, e)))
      && (d.shouldQuarantine <==> d.lifecycle == Quarantined)
      && (d.shouldQuarantine ==>
            d.nextAction == if ValidPR(c, i, pr.value, e) then RepairArtifactBeforeMerge else CloseInvalidPR)
  {
    QuarantineWithPlaces(c, i, pr, e);
    if !e.canceled { GuardsExactly(c, i, pr, e); }
    if Unguarded(c, i, pr, e) && pr.Some? { QuarantineWithPR(Gathered(pr, e), c, i, pr.value, e); }
  }

  /** The two go together, and only a pull request that can be looked at has them. */
  lemma QuarantineWithPlaces(c: Config, i: Issue, pr: Option<PullRequest>, e: Evidence)
    ensures var d := Decide(c, i, pr, e);
      && (d.shouldQuarantine <==> d.lifecycle == Quarantined)
      && (d.shouldQuarantine ==> pr.Some? && Unguarded(c, i, pr, e))
  {
    var d := Decide(c, i, pr, e);
    AnswersFit(c, i, pr, e);
    DecisionIsRight(c, i, pr, e);
    QuarantineAnswers(d, c, i, pr, e);
    if d.shouldQuarantine { QuarantineIsLate(d.blockers[0], c, i, pr, e); }
  }

  lemma QuarantineAnswers(v: Verdict, c: Config, i: Issue, pr: Option<PullRequest>, e: Evidence)
    requires Fits(v, c, i, pr, e) && |v.blockers| <= 1
    ensures v.shouldQuarantine <==> v.lifecycle == Quarantined
  {
    if v.blockers != [] { assert v.blockers == [v.blockers[0]]; }
  }

  lemma QuarantineIsLate(b: Blocker, c: Config, i: Issue, pr: Option<PullRequest>, e: Evidence)
    requires IsFirst(b, c, i, pr, e) && b in {InvalidPR, NoDurableSuccess}
    ensures pr.Some? && Unguarded(c, i, pr, e)
  {
    forall other | Place(other) <= 10 ensures !Stands(other, c, i, pr, e) { assert Place(other) < Place(b); }
    AllClear(c, i, pr, e);
  }

  lemma AllClear(c: Config, i: Issue, pr: Option<PullRequest>, e: Evidence)
    requires forall other :: Place(other) <= 10 ==> !Stands(other, c, i, pr, e)
    ensures Unguarded(c, i, pr, e)
  {
    assert !Stands(ContextCanceled, c, i, pr, e) && !Stands(BlockedLabel, c, i, pr, e) && !Stands(RunLock, c, i, pr, e);
    assert !Stands(StoreUnavailable, c, i, pr, e) && !Stands(NoAttemptState, c, i, pr, e);
    assert !Stands(LeaseUnavailable, c, i, pr, e) && !Stands(LeaseActive, c, i, pr, e);
    assert !Stands(ArtifactWithoutState, c, i, pr, e) && !Stands(ArtifactConflict, c, i, pr, e);
    assert !Stands(NeedsMoreInfo, c, i, pr, e) && !Stands(IssueDone, c, i, pr, e);
  }

  lemma QuarantineWithPR(v: Verdict, c: Config, i: Issue, pr: PullRequest, e: Evidence)
    requires Undecided(v) && v.facts == FactsOf(e) && v.runRecord == RecordOf(e)
    ensures var d := WithPR(v, c, i, pr, e);
      && (d.shouldQuarantine <==>
            !(HasFacts(e) && Blank(e.store.read.facts.status)) && (!ValidPR(c, i, pr, e) || LastGateFails(c, i, pr, e)))
      && (d.shouldQuarantine ==>
            d.nextAction == if ValidPR(c, i, pr, e) then RepairArtifactBeforeMerge else CloseInvalidPR)
  {
    QuarantineView(Mapped(v, pr.url), c, i, Look(v, c, i, pr, e));
  }

  lemma QuarantineView(v: Verdict, c: Config, i: Issue, view: View)
    requires Undecided(v)
    ensures var d := Proceed(v, c, i, view);
      && (d.shouldQuarantine <==>
            || !view.valid
            || (&& i.state == c.handoffState && view.approved && view.gateOpen && !view.durable
                && !view.changesRequested && !view.reviewCanStart && !view.feedbackWaits))
      && (d.shouldQuarantine ==> d.nextAction == if view.valid then RepairArtifactBeforeMerge else CloseInvalidPR)
  {
  }

  // ----- the flags of a decision -----

  /** When the issue is reported for reconciliation, whatever else is decided. */
  ghost predicate Unreconciled(c: Config, i: Issue, pr: Option<PullRequest>, e: Evidence) {
    || e.canceled
    || Stands(StoreUnavailable, c, i, pr, e) || Stands(NoAttemptState, c, i, pr, e)
    || Stands(ArtifactWithoutState, c, i, pr, e) || Stands(ArtifactConflict, c, i, pr, e)
    || (HasFacts(e) && e.store.read.facts.prURL != ""
        && (pr.None? || (Unguarded(c, i, pr, e) && e.store.read.facts.prURL != pr.value.url)))
    || Decide(c, i, pr, e).blockers == [LeaseUnavailable] || Decide(c, i, pr, e).blockers == [AttemptStatusMissing]
  }

  /** The two flags, exactly; together with `FirstObstacleIsNamed` on the evidence alone. */
  lemma FlagsExactly(c: Config, i: Issue, pr: Option<PullRequest>, e: Evidence)
    ensures Decide(c, i, pr, e).reconciliationNeeded <==> Unreconciled(c, i, pr, e)
    ensures Decide(c, i, pr, e).storeError <==>
      e.canceled || Stands(StoreUnavailable, c, i, pr, e) || Decide(c, i, pr, e).blockers == [LeaseUnavailable]
  {
    if !e.canceled {
      GuardsExactly(c, i, pr, e);
      GatheredFlags(c, i, pr, e);
      var v := Gathered(pr, e);
      GuardFlags(v, SignsOf(c, i, pr, e));
      if Unguarded(c, i, pr, e) {
        if pr.Some? { FlagsWithPR(v, c, i, pr.value, e); } else { FlagsWithoutPR(v, c, i, e); }
      }
    }
  }

  lemma GatheredFlags(c: Config, i: Issue, pr: Option<PullRequest>, e: Evidence)
    ensures var v := Gathered(pr, e);
      && (v.storeError <==> Stands(StoreUnavailable, c, i, pr, e))
      && (v.reconciliationNeeded <==>
            || Stands(StoreUnavailable, c, i, pr, e) || Stands(NoAttemptState, c, i, pr, e)
            || Stands(ArtifactWithoutState, c, i, pr, e) || Stands(ArtifactConflict, c, i, pr, e)
            || (HasFacts(e) && e.store.read.facts.prURL != "" && pr.None?))
  {
  }

  lemma GuardFlags(v: Verdict, s: Signs)
    requires Undecided(v)
    ensures var g := Guard(v, s);
      g.Some? ==>
        && (g.value.reconciliationNeeded <==> v.reconciliationNeeded || g.value.blockers == [LeaseUnavailable])
        && (g.value.storeError <==> v.storeError || g.value.blockers == [LeaseUnavailable])
        && g.value.blockers != [AttemptStatusMissing]
  {
    if Guard(v, s).Some? { GuardAnswers(v, s, None); }
  }

  lemma FlagsWithPR(v: Verdict, c: Config, i: Issue, pr: PullRequest, e: Evidence)
    requires Undecided(v)
    ensures var d := WithPR(v, c, i, pr, e);
      && d.storeError == v.storeError && d.blockers != [LeaseUnavailable]
      && (d.reconciliationNeeded <==> v.reconciliationNeeded || d.blockers == [AttemptStatusMissing]
                                      || (v.facts.Some? && v.facts.value.prURL !in {"", pr.url}))
  {
    if v.facts.Some? && Blank(v.facts.value.status) {
      BlockAnswers(v.(reconciliationNeeded := true), Blocked, AttemptStatusMissing, RepairStore, None);
    } else {
      ProceedFlags(Mapped(v, pr.url), c, i, Look(v, c, i, pr, e));
    }
  }

  lemma ProceedFlags(v: Verdict, c: Config, i: Issue, view: View)
    requires Undecided(v)
    ensures var p := Proceed(v, c, i, view);
      && p.storeError == v.storeError && p.reconciliationNeeded == v.reconciliationNeeded
      && p.blockers != [LeaseUnavailable] && p.blockers != [AttemptStatusMissing]
  {
    ProceedAnswers(v, c, i, view, None);
  }

  lemma FlagsWithoutPR(v: Verdict, c: Config, i: Issue, e: Evidence)
    requires Undecided(v)
    ensures var d := WithoutPR(v, c, i, e);
      && d.storeError == v.storeError && d.reconciliationNeeded == v.reconciliationNeeded
      && d.blockers != [LeaseUnavailable] && d.blockers != [AttemptStatusMissing]
  {
    WithoutPRCases(v, c, i, e);
    var d := WithoutPR(v, c, i, e);
    assert d.blockers != [] ==> d.blockers[0] in {MappedPRGone, ReviewUnresolved, TerminalRecord};
  }

  // ----- the conditions themselves, in the words of the evidence -----

  /** A pull request is foreign if it aims at another base than the configured one (which
      is develop by default), comes from another branch than the issue's workspace, or
      is not the runner's by its author or, except on GitLab, by a commit's author. */
  lemma ForeignExactly(c: Config, i: Issue, pr: PullRequest, e: Evidence)
    ensures !ValidPR(c, i, pr, e) <==>
      || (pr.baseRefName != "" && Blank(c.baseBranch) && !EqualFold(pr.baseRefName, "develop"))
      || (pr.baseRefName != "" && !Blank(c.baseBranch) && !EqualFold(pr.baseRefName, TrimSpace(c.baseBranch)))
      || pr.headRefName != "am/" + TrimSpace(i.identifier) + "-workspace"
      || !e.authorAllowed || (!c.gitlab && !e.commitAuthorsAllowed)
  {
  }

  predicate SameAddress(known: string, url: string) {
    Blank(known) || known == url
  }

  /** A review can start when the checks have turned green since the attempt ended for
      want of them, on this pull request. */
  lemma ReviewStartsExactly(c: Config, i: Issue, pr: PullRequest, e: Evidence)
    ensures ReviewCanStart(c, i, pr, FactsOf(e)) <==>
      && HasFacts(e) && e.store.read.facts.status == "review_not_ready"
      && SameAddress(e.store.read.facts.prURL, pr.url)
      && pr.checks != [] && (forall k :: 0 <= k < |pr.checks| ==> MergeGate.Green(pr.checks[k]))
      && (i.state in {"", c.readyState, c.runningState} || i.state in c.activeStates)
  {
  }

  /** Feedback waits when the issue is back in Ready, its attempt had a pull request, and
      the feedback file has something in it. */
  lemma FeedbackWaitsExactly(c: Config, i: Issue, record: RunRecord, e: Evidence)
    ensures FeedbackWaits(c, i, record, e) <==>
      && i.state == c.readyState && record.prURL != "" && e.feedback.Some?
      && exists k :: 0 <= k < |e.feedback.value| && !IsSpace(e.feedback.value[k])
  {
    if e.feedback.Some? { BlankExactly(e.feedback.value); }
  }

  /** The record of a reviewed success: of this pull request, with a review that passed
      or lacked nothing but evidence. */
  predicate Reviewed(status: string, prURL: string, reviewStatus: string, classification: string, url: string) {
    && status == "success"
    && (Blank(prURL) || Blank(url) || TrimSpace(prURL) == TrimSpace(url))
    && reviewStatus in {"passed", "failed"} && (reviewStatus == "failed" ==> classification == "missing_evidence_only")
  }

  /** The store decides if it knows the attempt, the artifact if there is no store or the
      store knows none. */
  lemma SuccessExactly(e: Evidence, url: string)
    ensures DurableSuccess(FactsOf(e), e.record, url) <==>
      if HasFacts(e) then
        var f := e.store.read.facts;
        Reviewed(f.status, f.prURL, f.reviewStatus, f.reviewClassification, url)
      else
        e.record.Some?
        && var r := e.record.value; Reviewed(r.status, r.prURL, r.reviewStatus, r.reviewClassification, url)
  {
  }

  /** The record a decision goes by: with a store the terminal status it knows, without
      one the artifact in the workspace, or else the one that was handed in. */
  lemma RecordExactly(e: Evidence)
    ensures HasFacts(e) && TerminalStatus(e.store.read.facts.status) ==>
      RecordOf(e) == Some(RunRecord(e.store.read.facts.status, e.store.read.facts.prURL, "", ""))
    ensures e.store.Store? && !(HasFacts(e) && TerminalStatus(e.store.read.facts.status)) ==> RecordOf(e) == None
    ensures e.store.NoStore? && e.record.Some? ==> RecordOf(e) == e.record
    ensures e.store.NoStore? && e.record.None? ==>
      if e.artifact.Some? && e.artifact.value.hasArtifact && TerminalStatus(e.artifact.value.status)
      then RecordOf(e) ==
             Some(RunRecord(e.artifact.value.status, e.artifact.value.prURL, e.artifact.value.review, ""))
      else RecordOf(e) == None
  {
  }

  /** What the decision carries along. */
  lemma FactsAreKept(c: Config, i: Issue, pr: Option<PullRequest>, e: Evidence)
    requires !e.canceled
    ensures Decide(c, i, pr, e).facts == if HasFacts(e) then Some(e.store.read.facts) else None
    ensures Decide(c, i, pr, e).runRecord == RecordOf(e)
  {
    var v := Gathered(pr, e);
    GuardKeeps(v, SignsOf(c, i, pr, e));
    if Guard(v, SignsOf(c, i, pr, e)).None? {
      if pr.Some? { ProceedKeeps(Mapped(v, pr.value.url), c, i, Look(v, c, i, pr.value, e)); }
      else { WithoutPRCases(v, c, i, e); }
    }
  }

  lemma GuardKeeps(v: Verdict, s: Signs)
    ensures Guard(v, s).Some? ==> Guard(v, s).value.facts == v.facts && Guard(v, s).value.runRecord == v.runRecord
  {
  }

  lemma ProceedKeeps(v: Verdict, c: Config, i: Issue, view: View)
    ensures Proceed(v, c, i, view).facts == v.facts && Proceed(v, c, i, view).runRecord == v.runRecord
  {
  }

  // ----- the repair overlay -----

  /** A review of this pull request found behaviour to repair: by the store's facts if
      there are any, else by run record and evaluation together. */
  predicate FindingsToRepair(pr: PullRequest, e: Evidence) {
    if HasFacts(e) then
      var f := e.store.read.facts;
      && f.status == "review_failed" && f.reviewStatus != "passed"
      && f.reviewClassification == "behavior_spec_blocker" && SameAddress(f.prURL, pr.url)
    else
      && e.record.Some? && e.evaluation.Some?
      && var r, v := e.record.value, e.evaluation.value;
         && r.status == "review_failed" && r.reviewStatus != "passed"
         && r.reviewClassification == "behavior_spec_blocker" && SameAddress(r.prURL, pr.url)
         && v.outcome == "review_failed" && v.shouldRetry
         && v.nextAction == "repair_review_findings_before_handoff"
         && v.classification in {"", "behavior_spec_blocker"} && SameAddress(v.prURL, pr.url)
  }

  /** The overlay repairs exactly the verdicts that a tracker state other than handoff
      stopped, where the issue may be worked on, nothing is to be reconciled and there
      are findings to repair; and then it runs the repair without a blocker. */
  lemma RepairExactly(c: Config, i: Issue, pr: Option<PullRequest>, e: Evidence)
    requires !e.canceled
    ensures var v, r := Decide(c, i, pr, e), Repaired(c, i, pr, e, Decide(c, i, pr, e));
      if v.blockers == [StateMismatch] && StateIsRunnable(c, i.state) && !v.reconciliationNeeded
         && pr.Some? && FindingsToRepair(pr.value, e)
      then r == v.(lifecycle := ReviewFailed, canRun := true, canMerge := false, shouldRetry := true,
                   nextAction := RepairBeforeHandoff, blockers := [])
      else r == v
  {
    FactsAreKept(c, i, pr, e);
    RepairableExactly(Decide(c, i, pr, e), c, i, pr, e);
    if pr.Some? { StoppedByTheState(c, i, pr.value, e); }
    else { RepairNeedsPR(c, i, e); }
  }

  lemma RepairableExactly(v: Verdict, c: Config, i: Issue, pr: Option<PullRequest>, e: Evidence)
    requires v.facts == if HasFacts(e) then Some(e.store.read.facts) else None
    ensures Repairable(c, i, pr, e, v) <==>
      && pr.Some? && StateIsRunnable(c, i.state) && v.nextAction in {ReconcileTrackerState, RepairBeforeHandoff}
      && !v.reconciliationNeeded && ValidPR(c, i, pr.value, e) && FindingsToRepair(pr.value, e)
  {
  }

  lemma RepairNeedsPR(c: Config, i: Issue, e: Evidence)
    ensures Decide(c, i, None, e).blockers != [StateMismatch]
  {
    FirstObstacleIsNamed(c, i, None, e);
    assert !IsFirst(StateMismatch, c, i, None, e);
  }

  lemma StoppedByTheState(c: Config, i: Issue, pr: PullRequest, e: Evidence)
    ensures var v := Decide(c, i, Some(pr), e);
      && (v.blockers == [StateMismatch] <==> v.nextAction in {ReconcileTrackerState, RepairBeforeHandoff})
      && (v.blockers == [StateMismatch] ==> ValidPR(c, i, pr, e))
  {
    DecisionIsRight(c, i, Some(pr), e);
    StateStops(Decide(c, i, Some(pr), e), c, i, pr, e);
    if Decide(c, i, Some(pr), e).nextAction in {ReconcileTrackerState, RepairBeforeHandoff} {
      RepairComesFromABlock(c, i, pr, e);
    }
  }

  lemma StateStops(v: Verdict, c: Config, i: Issue, pr: PullRequest, e: Evidence)
    requires Right(v, c, i, Some(pr), e)
    ensures v.blockers == [StateMismatch] ==> v.nextAction == ReconcileTrackerState && ValidPR(c, i, pr, e)
  {
    if v.blockers == [StateMismatch] { assert Place(InvalidPR) < Place(v.blockers[0]); }
  }
}
