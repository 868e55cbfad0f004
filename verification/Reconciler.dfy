/** The reconciliation decision: what may be done with an issue, given the tracker,
    the code host, the store and the workspace. */
module Reconciler {
  import opened Text
  import opened WorkQueue
  import opened Domain
  import MergeGate

  datatype Lifecycle = Ready | Running | NeedsInfo | ReviewFailed | HandoffReady | FeedbackRetry | MergeReady
                     | Done | Blocked | Quarantined

  datatype NextAction =
    | RunAgent | RetryWhenContextActive | UnblockIssue | ClearRunLock | RepairStore | ReleaseRunLease
    | RepairArtifactOrStore | AnswerQuestions | CleanupWorkspace | ReconcileMissingPR | RepairBeforeRetry
    | RepairBeforeHandoff | AwaitReviewOrReconcile | RepairOrClearArtifact | CloseInvalidPR
    | CaptureFeedback | RunSemanticReview | RetryWithFeedback | ReconcileTrackerState | AwaitApproval
    | WaitForMergeable | RepairArtifactBeforeMerge | ClearWorkspace | MergePR

  datatype Blocker =
    | ContextCanceled | BlockedLabel | RunLock | StoreUnavailable | NoAttemptState | LeaseUnavailable | LeaseActive
    | ArtifactWithoutState | ArtifactConflict | NeedsMoreInfo | IssueDone | AttemptStatusMissing | InvalidPR
    | ChangesRequested | StateMismatch | NotApproved | GateClosed | NoDurableSuccess | WorkspaceBusy
    | MappedPRGone | ReviewUnresolved | TerminalRecord

  datatype FactsRead = FactsError | NoFacts | Found(facts: Facts)

  /** `leases` is None when the lease lookup fails. */
  datatype StoreView = NoStore | Store(read: FactsRead, leases: Option<Leases>)

  datatype Artifact = Artifact(hasArtifact: bool, status: string, prURL: string, review: string)

  datatype Evaluation = Evaluation(outcome: string, shouldRetry: bool, nextAction: string, classification: string,
                                   prURL: string)

  /** Everything the reconciler looks up. `record` is the run artifact in the
      workspace, `feedback` the text of its feedback file. */
  datatype Evidence = Evidence(canceled: bool, now: Time, store: StoreView, artifact: Option<Artifact>,
                               record: Option<RunRecord>, evaluation: Option<Evaluation>, feedback: Option<string>,
                               runLock: bool, reviewFailure: bool, workspaceBusy: bool,
                               authorAllowed: bool, commitAuthorsAllowed: bool)

  datatype Verdict = Verdict(lifecycle: Lifecycle, canRun: bool, canMerge: bool, shouldRetry: bool,
                             shouldQuarantine: bool, nextAction: NextAction, blockers: seq<Blocker>,
                             runRecord: Option<RunRecord>, facts: Option<Facts>, storeError: bool,
                             reconciliationNeeded: bool)
  {
    function Block(state: Lifecycle, why: Blocker, next: NextAction): Verdict {
      this.(lifecycle := state, canRun := false, canMerge := false, blockers := blockers + [why], nextAction := next)
    }

    function Go(state: Lifecycle, next: NextAction): Verdict {
      this.(lifecycle := state, canRun := true, canMerge := false, shouldRetry := true, nextAction := next)
    }
  }

  const FRESH := Verdict(Ready, false, false, false, false, RunAgent, [], None, None, false, false)

  const MISSING_EVIDENCE := "missing_evidence_only"
  const BEHAVIOR_BLOCKER := "behavior_spec_blocker"
  const REPAIR_FINDINGS := "repair_review_findings_before_handoff"

  // ----- the evidence, one predicate per question -----

  function FactsOf(e: Evidence): Option<Facts> {
    if e.store.Store? && e.store.read.Found? then Some(e.store.read.facts) else None
  }

  predicate UnknownPR(pr: Option<PullRequest>, e: Evidence) {
    pr.Some? && e.store.Store? && e.store.read.NoFacts?
  }

  predicate ArtifactOnly(e: Evidence) {
    && e.store.Store? && e.artifact.Some? && e.artifact.value.hasArtifact
    && (FactsOf(e).None? || FactsOf(e).value.status == "")
  }

  predicate Conflicts(e: Evidence) {
    && e.store.Store? && e.artifact.Some? && e.artifact.value.hasArtifact && !ArtifactOnly(e)
    && e.artifact.value.status != "" && e.artifact.value.status != FactsOf(e).value.status
  }

  function RecordOf(e: Evidence): Option<RunRecord> {
    if e.store.NoStore? then
      if e.record.Some? then e.record
      else if e.artifact.Some? && e.artifact.value.hasArtifact && TerminalStatus(e.artifact.value.status)
      then Some(RunRecord(e.artifact.value.status, e.artifact.value.prURL, e.artifact.value.review, ""))
      else None
    else if FactsOf(e).Some? && TerminalStatus(FactsOf(e).value.status)
    then Some(RunRecord(FactsOf(e).value.status, FactsOf(e).value.prURL, "", ""))
    else None
  }

  predicate RunLeaseActive(i: Issue, e: Evidence) {
    e.store.Store? && e.store.leases.Some? && Refuses(e.store.leases.value, "run:" + i.identifier, e.now)
  }

  predicate ValidPR(c: Config, i: Issue, pr: PullRequest, e: Evidence) {
    var base := if Blank(c.baseBranch) then "develop" else TrimSpace(c.baseBranch);
    && (pr.baseRefName == "" || EqualFold(pr.baseRefName, base))
    && pr.headRefName == WorkspaceBranch(i.identifier)
    && e.authorAllowed && (c.gitlab || e.commitAuthorsAllowed)
  }

  predicate FeedbackWaits(c: Config, i: Issue, record: RunRecord, e: Evidence) {
    i.state == c.readyState && record.prURL != "" && e.feedback.Some? && !Blank(e.feedback.value)
  }

  predicate ReviewCanStart(c: Config, i: Issue, pr: PullRequest, facts: Option<Facts>) {
    && StateIsRunnable(c, i.state) && MergeGate.AllGreen(pr.checks)
    && facts.Some? && facts.value.status == "review_not_ready"
    && (Blank(facts.value.prURL) || facts.value.prURL == pr.url)
  }

  predicate SamePR(known: string, url: string) {
    Blank(known) || Blank(url) || TrimSpace(known) == TrimSpace(url)
  }

  predicate Succeeded(status: string, prURL: string, reviewStatus: string, classification: string, url: string) {
    && SamePR(prURL, url) && status == "success"
    && (reviewStatus == "passed" || (reviewStatus == "failed" && classification == MISSING_EVIDENCE))
  }

  /** The durable record of a reviewed success for this pull request. */
  predicate DurableSuccess(facts: Option<Facts>, record: Option<RunRecord>, url: string) {
    if facts.Some? then
      var f := facts.value;
      Succeeded(f.status, f.prURL, f.reviewStatus, f.reviewClassification, url)
    else
      record.Some? &&
      var r := record.value;
      Succeeded(r.status, r.prURL, r.reviewStatus, r.reviewClassification, url)
  }

  // ----- the decision, as a chain of early answers -----

  /** What is known before anything is decided. */
  function Gathered(pr: Option<PullRequest>, e: Evidence): Verdict {
    FRESH.(runRecord := RecordOf(e), facts := FactsOf(e),
           storeError := e.store.Store? && e.store.read.FactsError?,
           reconciliationNeeded :=
             || (e.store.Store? && e.store.read.FactsError?)
             || (FactsOf(e).Some? && FactsOf(e).value.prURL != "" && pr.None?)
             || UnknownPR(pr, e) || ArtifactOnly(e) || Conflicts(e))
  }

  /** The answers to the questions asked before the pull request is looked at. */
  datatype Signs = Signs(blockedLabel: bool, runLock: bool, unknownPR: bool, leaseError: bool, leaseActive: bool,
                         artifactOnly: bool, conflict: bool, needsInfo: bool, done: bool)

  function SignsOf(c: Config, i: Issue, pr: Option<PullRequest>, e: Evidence): Signs {
    Signs(BlockedCandidate(i), e.runLock, UnknownPR(pr, e), e.store.Store? && e.store.leases.None?,
          RunLeaseActive(i, e), ArtifactOnly(e), Conflicts(e), i.state == c.needsInfoState, i.state == c.doneState)
  }

  /** The first guard that applies, in the program's order. */
  function Guard(v: Verdict, s: Signs): Option<Verdict> {
    if s.blockedLabel then Some(v.Block(Blocked, BlockedLabel, UnblockIssue))
    else if s.runLock then Some(v.Block(Running, RunLock, ClearRunLock))
    else if v.storeError then Some(v.Block(Blocked, StoreUnavailable, RepairStore))
    else if s.unknownPR then Some(v.Block(Blocked, NoAttemptState, RepairStore))
    else if s.leaseError
    then Some(v.(storeError := true, reconciliationNeeded := true).Block(Blocked, LeaseUnavailable, RepairStore))
    else if s.leaseActive then Some(v.Block(Running, LeaseActive, ReleaseRunLease))
    else if s.artifactOnly then Some(v.Block(Blocked, ArtifactWithoutState, RepairStore))
    else if s.conflict then Some(v.Block(Blocked, ArtifactConflict, RepairArtifactOrStore))
    else if s.needsInfo then Some(v.Block(NeedsInfo, NeedsMoreInfo, AnswerQuestions))
    else if s.done then Some(v.Block(Done, IssueDone, CleanupWorkspace))
    else None
  }

  function Decide(c: Config, i: Issue, pr: Option<PullRequest>, e: Evidence): Verdict {
    if e.canceled then
      FRESH.(storeError := true, reconciliationNeeded := true).Block(Blocked, ContextCanceled, RetryWhenContextActive)
    else
      var v := Gathered(pr, e);
      match Guard(v, SignsOf(c, i, pr, e))
      case Some(stopped) => stopped
      case None => if pr.Some? then WithPR(v, c, i, pr.value, e) else WithoutPR(v, c, i, e)
  }

  function Mapped(v: Verdict, url: string): Verdict {
    v.(reconciliationNeeded :=
         v.reconciliationNeeded || (v.facts.Some? && v.facts.value.prURL != "" && v.facts.value.prURL != url))
  }

  function WithPR(v: Verdict, c: Config, i: Issue, pr: PullRequest, e: Evidence): Verdict {
    if v.facts.Some? && Blank(v.facts.value.status)
    then v.(reconciliationNeeded := true).Block(Blocked, AttemptStatusMissing, RepairStore)
    else Proceed(Mapped(v, pr.url), c, i, Look(v, c, i, pr, e))
  }

  /** The answers about an open pull request. */
  datatype View = View(valid: bool, changesRequested: bool, reviewCanStart: bool, feedbackWaits: bool,
                       approved: bool, gateOpen: bool, durable: bool, busy: bool)

  function Look(v: Verdict, c: Config, i: Issue, pr: PullRequest, e: Evidence): View {
    View(ValidPR(c, i, pr, e), pr.reviewDecision == "CHANGES_REQUESTED", ReviewCanStart(c, i, pr, v.facts),
         v.runRecord.Some? && v.runRecord.value.status == "success" && FeedbackWaits(c, i, v.runRecord.value, e),
         pr.reviewDecision == "APPROVED", MergeGate.Open(pr), DurableSuccess(v.facts, e.record, pr.url),
         e.workspaceBusy)
  }

  function Proceed(v: Verdict, c: Config, i: Issue, view: View): Verdict {
    if !view.valid then v.Block(Quarantined, InvalidPR, CloseInvalidPR).(shouldQuarantine := true)
    else if view.changesRequested
    then v.Go(FeedbackRetry, CaptureFeedback)
          .(canRun := StateIsRunnable(c, i.state), blockers := v.blockers + [ChangesRequested])
    else if view.reviewCanStart then v.Go(Running, RunSemanticReview)
    else if view.feedbackWaits then v.Go(FeedbackRetry, RetryWithFeedback)
    else if i.state != c.handoffState then v.Block(Blocked, StateMismatch, ReconcileTrackerState)
    else if !view.approved then v.Block(HandoffReady, NotApproved, AwaitApproval)
    else if !view.gateOpen then v.Block(HandoffReady, GateClosed, WaitForMergeable)
    else if !view.durable
    then v.Block(Quarantined, NoDurableSuccess, RepairArtifactBeforeMerge).(shouldQuarantine := true)
    else if view.busy then v.Block(Blocked, WorkspaceBusy, ClearWorkspace)
    else v.(lifecycle := MergeReady, canMerge := true, nextAction := MergePR)
  }

  function WithoutPR(v: Verdict, c: Config, i: Issue, e: Evidence): Verdict {
    if v.facts.Some? && v.facts.value.prURL != "" then v.Block(Blocked, MappedPRGone, ReconcileMissingPR)
    else if e.store.Store? && v.facts.Some? && v.facts.value.status == "review_failed"
    then v.Block(ReviewFailed, ReviewUnresolved, RepairBeforeRetry)
    else if e.store.NoStore? && e.reviewFailure then v.Block(ReviewFailed, ReviewUnresolved, RepairBeforeRetry)
    else
      var v1 := if v.runRecord.Some? && TerminalStatus(v.runRecord.value.status)
                then TerminalArtifact(v, c, i, v.runRecord.value, e) else v;
      if v1.blockers == [] && StateIsRunnable(c, i.state) then v1.(canRun := true) else v1
  }

  function TerminalArtifact(v: Verdict, c: Config, i: Issue, record: RunRecord, e: Evidence): Verdict {
    if record.status == "success" && record.prURL != "" then
      if FeedbackWaits(c, i, record, e) then v.Go(FeedbackRetry, RetryWithFeedback)
      else v.Block(HandoffReady, TerminalRecord, AwaitReviewOrReconcile)
    else if record.status in {"needs_info", "needs_info_failed"}
    then v.Block(NeedsInfo, TerminalRecord, AnswerQuestions)
    else if record.status == "review_failed" then v.Block(ReviewFailed, TerminalRecord, RepairBeforeHandoff)
    else if record.status in {"merged", "superseded"} then v.Block(Done, TerminalRecord, CleanupWorkspace)
    else v.Block(Blocked, TerminalRecord, RepairOrClearArtifact)
  }

  // ----- the decision, as the program updates it -----

  class Decision {
    var lifecycle: Lifecycle
    var canRun: bool
    var canMerge: bool
    var shouldRetry: bool
    var shouldQuarantine: bool
    var nextAction: NextAction
    var blockers: seq<Blocker>
    var runRecord: Option<RunRecord>
    var facts: Option<Facts>
    var storeError: bool
    var reconciliationNeeded: bool

    function Value(): Verdict
      reads this
    {
      Verdict(lifecycle, canRun, canMerge, shouldRetry, shouldQuarantine, nextAction, blockers, runRecord, facts,
              storeError, reconciliationNeeded)
    }

    constructor ()
      ensures Value() == FRESH
    {
      lifecycle, canRun, canMerge, shouldRetry, shouldQuarantine := Ready, false, false, false, false;
      nextAction, blockers, runRecord, facts := RunAgent, [], None, None;
      storeError, reconciliationNeeded := false, false;
    }

    method Block(state: Lifecycle, why: Blocker, next: NextAction)
      modifies this
      ensures Value() == old(Value()).Block(state, why, next)
      ensures !canRun && !canMerge && old(blockers) < blockers
    {
      lifecycle := state;
      canRun := false;
      canMerge := false;
      blockers := blockers + [why];
      nextAction := next;
    }

    method Gather(pr: Option<PullRequest>, e: Evidence) returns (artifactOnly: bool, conflict: bool)
      requires Value() == FRESH
      modifies this
      ensures Value() == Gathered(pr, e)
      ensures artifactOnly == ArtifactOnly(e) && conflict == Conflicts(e)
    {
      artifactOnly, conflict := false, false;
      if e.artifact.Some? {
        var a := e.artifact.value;
        if e.store.NoStore? && a.hasArtifact && TerminalStatus(a.status) {
          runRecord := Some(RunRecord(a.status, a.prURL, a.review, ""));
        }
      }
      if e.store.Store? {
        match e.store.read {
          case FactsError => storeError, reconciliationNeeded := true, true;
          case Found(known) =>
            facts := Some(known);
            if known.status != "" && TerminalStatus(known.status) && runRecord.None? {
              runRecord := Some(RunRecord(known.status, known.prURL, "", ""));
            }
            if known.prURL != "" && pr.None? { reconciliationNeeded := true; }
          case NoFacts => if pr.Some? { reconciliationNeeded := true; }
        }
        if e.artifact.Some? && e.artifact.value.hasArtifact {
          if facts.None? || facts.value.status == "" {
            artifactOnly, reconciliationNeeded := true, true;
          } else if e.artifact.value.status != "" && e.artifact.value.status != facts.value.status {
            conflict, reconciliationNeeded := true, true;
          }
        }
      } else if e.record.Some? {
        runRecord := e.record;
      }
    }

    method ApplyTerminalArtifact(c: Config, i: Issue, e: Evidence)
      requires runRecord.Some? && !canMerge
      modifies this
      ensures Value() == TerminalArtifact(old(Value()), c, i, old(runRecord).value, e)
    {
      var record := runRecord.value;
      if record.status == "success" && record.prURL != "" {
        if FeedbackWaits(c, i, record, e) {
          lifecycle := FeedbackRetry;
          canRun := true;
          shouldRetry := true;
          nextAction := RetryWithFeedback;
          return;
        }
        Block(HandoffReady, TerminalRecord, AwaitReviewOrReconcile);
        return;
      }
      if record.status == "needs_info" || record.status == "needs_info_failed" {
        Block(NeedsInfo, TerminalRecord, AnswerQuestions);
        return;
      }
      if record.status == "review_failed" {
        Block(ReviewFailed, TerminalRecord, RepairBeforeHandoff);
        return;
      }
      if record.status == "merged" || record.status == "superseded" {
        Block(Done, TerminalRecord, CleanupWorkspace);
        return;
      }
      Block(Blocked, TerminalRecord, RepairOrClearArtifact);
    }

    /** Asks every question about the pull request; none of them changes anything. */
    method Inspect(c: Config, i: Issue, pr: PullRequest, e: Evidence) returns (view: View)
      ensures view == Look(Value(), c, i, pr, e)
    {
      var closed := MergeGate.Blocks(pr);
      var feedbackWaits := runRecord.Some? && runRecord.value.status == "success"
                           && FeedbackWaits(c, i, runRecord.value, e);
      return View(ValidPR(c, i, pr, e), pr.reviewDecision == "CHANGES_REQUESTED", ReviewCanStart(c, i, pr, facts),
                  feedbackWaits, pr.reviewDecision == "APPROVED", !closed, DurableSuccess(facts, e.record, pr.url),
                  e.workspaceBusy);
    }

    method ApplyPRInvariants(c: Config, i: Issue, view: View)
      modifies this
      ensures Value() == Proceed(old(Value()), c, i, view)
    {
      if !view.valid {
        Block(Quarantined, InvalidPR, CloseInvalidPR);
        shouldQuarantine := true;
        return;
      }
      if view.changesRequested {
        lifecycle := FeedbackRetry;
        canRun := StateIsRunnable(c, i.state);
        canMerge := false;
        blockers := blockers + [ChangesRequested];
        nextAction := CaptureFeedback;
        shouldRetry := true;
        return;
      }
      if view.reviewCanStart {
        lifecycle, canRun, canMerge, nextAction, shouldRetry := Running, true, false, RunSemanticReview, true;
        return;
      }
      if view.feedbackWaits {
        lifecycle, canRun, canMerge, nextAction, shouldRetry := FeedbackRetry, true, false, RetryWithFeedback, true;
        return;
      }
      if i.state != c.handoffState { Block(Blocked, StateMismatch, ReconcileTrackerState); return; }
      if !view.approved { Block(HandoffReady, NotApproved, AwaitApproval); return; }
      if !view.gateOpen { Block(HandoffReady, GateClosed, WaitForMergeable); return; }
      if !view.durable {
        Block(Quarantined, NoDurableSuccess, RepairArtifactBeforeMerge);
        shouldQuarantine := true;
        return;
      }
      if view.busy { Block(Blocked, WorkspaceBusy, ClearWorkspace); return; }
      lifecycle := MergeReady;
      canMerge := true;
      nextAction := MergePR;
    }

    method ApplyPR(c: Config, i: Issue, pr: PullRequest, e: Evidence)
      modifies this
      ensures Value() == WithPR(old(Value()), c, i, pr, e)
    {
      if facts.Some? && facts.value.prURL != "" && facts.value.prURL != pr.url { reconciliationNeeded := true; }
      if facts.Some? && Blank(facts.value.status) {
        reconciliationNeeded := true;
        Block(Blocked, AttemptStatusMissing, RepairStore);
        return;
      }
      var view := Inspect(c, i, pr, e);
      ApplyPRInvariants(c, i, view);
    }

    method ApplyNoPR(c: Config, i: Issue, e: Evidence)
      requires !canMerge
      modifies this
      ensures Value() == WithoutPR(old(Value()), c, i, e)
    {
      if facts.Some? && facts.value.prURL != "" {
        Block(Blocked, MappedPRGone, ReconcileMissingPR);
        return;
      }
      if e.store.Store? && facts.Some? && facts.value.status == "review_failed" {
        Block(ReviewFailed, ReviewUnresolved, RepairBeforeRetry);
        return;
      }
      if e.store.NoStore? && e.reviewFailure {
        Block(ReviewFailed, ReviewUnresolved, RepairBeforeRetry);
        return;
      }
      if runRecord.Some? && TerminalStatus(runRecord.value.status) { ApplyTerminalArtifact(c, i, e); }
      if blockers == [] && StateIsRunnable(c, i.state) { canRun := true; }
    }

    /** The guards before the pull request is looked at; true when one applied. */
    method ApplyGuards(c: Config, i: Issue, pr: Option<PullRequest>, e: Evidence, artifactOnly: bool, conflict: bool)
      returns (stopped: bool)
      requires !e.canceled && Value() == Gathered(pr, e)
      requires artifactOnly == ArtifactOnly(e) && conflict == Conflicts(e)
      modifies this
      ensures stopped <==> !Unguarded(c, i, pr, e)
      ensures stopped ==> Stopped(Value())
      ensures stopped <==> Guard(Gathered(pr, e), SignsOf(c, i, pr, e)).Some?
      ensures Value() == if stopped then Guard(Gathered(pr, e), SignsOf(c, i, pr, e)).value else Gathered(pr, e)
    {
      GuardsExactly(c, i, pr, e);
      stopped := true;
      if BlockedCandidate(i) { Block(Blocked, BlockedLabel, UnblockIssue); return; }
      if e.runLock { Block(Running, RunLock, ClearRunLock); return; }
      if storeError { Block(Blocked, StoreUnavailable, RepairStore); return; }
      if UnknownPR(pr, e) { Block(Blocked, NoAttemptState, RepairStore); return; }
      if e.store.Store? {
        if e.store.leases.None? {
          storeError, reconciliationNeeded := true, true;
          Block(Blocked, LeaseUnavailable, RepairStore);
          return;
        }
        if RunLeaseActive(i, e) { Block(Running, LeaseActive, ReleaseRunLease); return; }
      }
      if artifactOnly { Block(Blocked, ArtifactWithoutState, RepairStore); return; }
      if conflict { Block(Blocked, ArtifactConflict, RepairArtifactOrStore); return; }
      if i.state == c.needsInfoState { Block(NeedsInfo, NeedsMoreInfo, AnswerQuestions); return; }
      if i.state == c.doneState { Block(Done, IssueDone, CleanupWorkspace); return; }
      stopped := false;
    }
  }

  method Reconcile(c: Config, i: Issue, pr: Option<PullRequest>, e: Evidence) returns (d: Decision)
    ensures fresh(d) && d.Value() == Decide(c, i, pr, e)
  {
    d := new Decision();
    if e.canceled {
      d.storeError, d.reconciliationNeeded := true, true;
      d.Block(Blocked, ContextCanceled, RetryWhenContextActive);
      return;
    }
    var artifactOnly, conflict := d.Gather(pr, e);
    var stopped := d.ApplyGuards(c, i, pr, e, artifactOnly, conflict);
    if stopped { return; }
    if pr.Some? { d.ApplyPR(c, i, pr.value, e); } else { d.ApplyNoPR(c, i, e); }
  }

  // ----- exactly when merging is allowed -----

  /** No process, label, failed lookup or contradiction stands in the way. */
  predicate Unguarded(c: Config, i: Issue, pr: Option<PullRequest>, e: Evidence) {
    && !e.canceled && !BlockedCandidate(i) && !e.runLock
    && (e.store.Store? ==> !e.store.read.FactsError? && e.store.leases.Some? && !RunLeaseActive(i, e))
    && !UnknownPR(pr, e) && !ArtifactOnly(e) && !Conflicts(e)
    && i.state != c.needsInfoState && i.state != c.doneState
  }

  predicate Mergeable(c: Config, i: Issue, pr: PullRequest, e: Evidence) {
    && Unguarded(c, i, Some(pr), e) && !e.workspaceBusy && i.state == c.handoffState
    && ValidPR(c, i, pr, e) && pr.reviewDecision == "APPROVED" && MergeGate.Open(pr)
    && DurableSuccess(FactsOf(e), e.record, pr.url)
    && !(RecordOf(e).Some? && FeedbackWaits(c, i, RecordOf(e).value, e))
  }

  /** The decision says merge if and only if every gate holds: for every
      configuration, issue, pull request and body of evidence. */
  lemma CanMergeExactly(c: Config, i: Issue, pr: Option<PullRequest>, e: Evidence)
    ensures Decide(c, i, pr, e).canMerge <==> pr.Some? && Mergeable(c, i, pr.value, e)
  {
    if !e.canceled {
      GuardsExactly(c, i, pr, e);
      if Unguarded(c, i, pr, e) {
        if pr.Some? {
          MergesUnguarded(c, i, pr.value, e);
        } else {
          WithoutPRNeverMerges(Gathered(pr, e), c, i, e);
        }
      }
    }
  }

  lemma MergesUnguarded(c: Config, i: Issue, pr: PullRequest, e: Evidence)
    requires Unguarded(c, i, Some(pr), e)
    ensures WithPR(Gathered(Some(pr), e), c, i, pr, e).canMerge <==> Mergeable(c, i, pr, e)
  {
    var v := Gathered(Some(pr), e);
    ProceedMerges(Mapped(v, pr.url), c, i, Look(v, c, i, pr, e));
  }

  lemma WithoutPRNeverMerges(v: Verdict, c: Config, i: Issue, e: Evidence)
    requires Undecided(v) && !v.storeError
    ensures !WithoutPR(v, c, i, e).canMerge
  {
    WithoutPRConsistent(v, c, i, e);
  }

  /** Nothing has been decided yet. */
  predicate Undecided(v: Verdict) {
    && !v.canRun && !v.canMerge && !v.shouldRetry && !v.shouldQuarantine && v.blockers == []
    && (v.storeError ==> v.reconciliationNeeded)
  }

  predicate Stopped(v: Verdict) {
    && !v.canRun && !v.canMerge && !v.shouldQuarantine && v.blockers != []
    && v.nextAction !in {ReconcileTrackerState, RepairBeforeHandoff}
    && (v.storeError ==> v.reconciliationNeeded)
  }

  lemma GuardsBlock(v: Verdict, s: Signs)
    requires Undecided(v)
    ensures Guard(v, s).Some? ==> Stopped(Guard(v, s).value)
  {
  }

  lemma ProceedMerges(v: Verdict, c: Config, i: Issue, view: View)
    requires !v.canMerge
    ensures Proceed(v, c, i, view).canMerge <==>
      && i.state == c.handoffState && view.valid && view.approved && view.gateOpen && view.durable && !view.busy
      && !view.changesRequested && !view.reviewCanStart && !view.feedbackWaits
  {
  }

  predicate DistinctStates(c: Config) {
    c.handoffState !in {c.readyState, c.needsInfoState, c.doneState}
  }

  /** With a store, no artifact argument and distinct state names the gates are the
      ones an operator would list. */
  lemma CanMergeWithStore(c: Config, i: Issue, pr: PullRequest, e: Evidence)
    requires DistinctStates(c) && e.store.Store? && e.artifact.None?
    ensures Decide(c, i, Some(pr), e).canMerge <==>
      && !e.canceled && !BlockedCandidate(i) && !e.runLock && !e.workspaceBusy
      && e.store.read.Found? && e.store.leases.Some?
      && !Refuses(e.store.leases.value, "run:" + i.identifier, e.now)
      && i.state == c.handoffState && ValidPR(c, i, pr, e) && pr.reviewDecision == "APPROVED"
      && !MergeGate.Conflicting(pr) && EqualFold(pr.mergeable, "MERGEABLE") && MergeGate.AllGreen(pr.checks)
      && Succeeded(e.store.read.facts.status, e.store.read.facts.prURL, e.store.read.facts.reviewStatus,
                   e.store.read.facts.reviewClassification, pr.url)
  {
    CanMergeExactly(c, i, Some(pr), e);
  }

  // ----- exactly when running is allowed -----

  predicate RunnableWithPR(c: Config, i: Issue, pr: PullRequest, e: Evidence) {
    && ValidPR(c, i, pr, e) && !(FactsOf(e).Some? && Blank(FactsOf(e).value.status))
    && if pr.reviewDecision == "CHANGES_REQUESTED" then StateIsRunnable(c, i.state)
       else
         || ReviewCanStart(c, i, pr, FactsOf(e))
         || (RecordOf(e).Some? && RecordOf(e).value.status == "success" && FeedbackWaits(c, i, RecordOf(e).value, e))
  }

  /** Without a pull request nothing may be left over from an earlier attempt, except
      a success whose feedback waits to be worked in. */
  predicate RunnableWithoutPR(c: Config, i: Issue, e: Evidence) {
    && !(FactsOf(e).Some? && (FactsOf(e).value.prURL != "" || FactsOf(e).value.status == "review_failed"))
    && !(e.store.NoStore? && e.reviewFailure)
    && if RecordOf(e).Some? && TerminalStatus(RecordOf(e).value.status)
       then RecordOf(e).value.status == "success" && FeedbackWaits(c, i, RecordOf(e).value, e)
       else StateIsRunnable(c, i.state)
  }

  /** The decision says run if and only if no guard applies and the attempt's traces
      allow it. */
  lemma CanRunExactly(c: Config, i: Issue, pr: Option<PullRequest>, e: Evidence)
    ensures Decide(c, i, pr, e).canRun <==>
      && Unguarded(c, i, pr, e)
      && if pr.Some? then RunnableWithPR(c, i, pr.value, e) else RunnableWithoutPR(c, i, e)
  {
    if !e.canceled {
      GuardsExactly(c, i, pr, e);
      if Unguarded(c, i, pr, e) {
        if pr.Some? {
          ProceedRuns(Mapped(Gathered(pr, e), pr.value.url), c, i, Look(Gathered(pr, e), c, i, pr.value, e));
        } else {
          WithoutPRRuns(Gathered(pr, e), c, i, e);
        }
      }
    }
  }

  lemma GuardsExactly(c: Config, i: Issue, pr: Option<PullRequest>, e: Evidence)
    requires !e.canceled
    ensures Guard(Gathered(pr, e), SignsOf(c, i, pr, e)).None? <==> Unguarded(c, i, pr, e)
    ensures Guard(Gathered(pr, e), SignsOf(c, i, pr, e)).Some? ==>
      Stopped(Guard(Gathered(pr, e), SignsOf(c, i, pr, e)).value)
  {
  }

  lemma ProceedRuns(v: Verdict, c: Config, i: Issue, view: View)
    requires !v.canRun
    ensures Proceed(v, c, i, view).canRun <==>
      && view.valid
      && if view.changesRequested then StateIsRunnable(c, i.state) else view.reviewCanStart || view.feedbackWaits
  {
  }

  lemma WithoutPRRuns(v: Verdict, c: Config, i: Issue, e: Evidence)
    requires Undecided(v) && v.facts == FactsOf(e) && v.runRecord == RecordOf(e)
    ensures WithoutPR(v, c, i, e).canRun <==> RunnableWithoutPR(c, i, e)
  {
    if v.runRecord.Some? && TerminalStatus(v.runRecord.value.status) {
      TerminalRuns(v, c, i, v.runRecord.value, e);
    }
  }

  lemma TerminalRuns(v: Verdict, c: Config, i: Issue, record: RunRecord, e: Evidence)
    requires Undecided(v)
    ensures var t := TerminalArtifact(v, c, i, record, e);
      && (t.canRun <==> record.status == "success" && FeedbackWaits(c, i, record, e))
      && (t.canRun <==> t.blockers == [])
  {
  }

  /** What each verdict excludes. */
  predicate Consistent(v: Verdict) {
    && (v.canMerge ==> !v.canRun && v.blockers == [] && v.lifecycle == MergeReady && !v.shouldRetry)
    && (v.shouldQuarantine ==> !v.canRun && !v.canMerge && v.blockers != [])
    && (v.canRun ==> v.blockers == [] || v.blockers == [ChangesRequested])
    && (v.storeError ==> !v.canRun && !v.canMerge && v.reconciliationNeeded)
  }

  lemma VerdictsAreConsistent(c: Config, i: Issue, pr: Option<PullRequest>, e: Evidence)
    ensures Consistent(Decide(c, i, pr, e))
  {
    if !e.canceled {
      var v := Gathered(pr, e);
      GuardsBlock(v, SignsOf(c, i, pr, e));
      if Guard(v, SignsOf(c, i, pr, e)).None? {
        if pr.Some? { ProceedConsistent(Mapped(v, pr.value.url), c, i, Look(v, c, i, pr.value, e)); }
        else { WithoutPRConsistent(v, c, i, e); }
      }
    }
  }

  lemma ProceedConsistent(v: Verdict, c: Config, i: Issue, view: View)
    requires Undecided(v) && !v.storeError
    ensures Consistent(Proceed(v, c, i, view))
    ensures Proceed(v, c, i, view).nextAction == ReconcileTrackerState ==>
      Proceed(v, c, i, view) == v.Block(Blocked, StateMismatch, ReconcileTrackerState)
    ensures Proceed(v, c, i, view).nextAction == v.nextAction ||
            Proceed(v, c, i, view).nextAction != RepairBeforeHandoff
  {
  }

  lemma WithoutPRConsistent(v: Verdict, c: Config, i: Issue, e: Evidence)
    requires Undecided(v) && !v.storeError
    ensures Consistent(WithoutPR(v, c, i, e)) && !WithoutPR(v, c, i, e).canMerge
  {
  }

  /** A merge verdict still asks for reconciliation exactly when the two URLs differ
      as text, although the gate itself compares them trimmed. */
  lemma MergeWithReconciliation(c: Config, i: Issue, pr: PullRequest, e: Evidence)
    requires e.store.Store? && e.artifact.None? && Decide(c, i, Some(pr), e).canMerge
    ensures e.store.read.Found?
    ensures var known := e.store.read.facts.prURL;
      && (Decide(c, i, Some(pr), e).reconciliationNeeded <==> known != "" && known != pr.url)
      && (Trimmed(known) && Trimmed(pr.url) && pr.url != "" ==> !Decide(c, i, Some(pr), e).reconciliationNeeded)
  {
    CanMergeExactly(c, i, Some(pr), e);
    var v := Gathered(Some(pr), e);
    ProceedMerges(Mapped(v, pr.url), c, i, Look(v, c, i, pr, e));
    assert Decide(c, i, Some(pr), e) == Proceed(Mapped(v, pr.url), c, i, Look(v, c, i, pr, e));
    var known := e.store.read.facts.prURL;
    if Trimmed(known) { TrimmedUnchanged(known); }
    if Trimmed(pr.url) { TrimmedUnchanged(pr.url); }
  }

  /** So a merge verdict with a stored URL that has a trailing blank asks for both. */
  lemma BlankInURLGivesBoth(c: Config, i: Issue, pr: PullRequest, e: Evidence, facts: Facts)
    requires DistinctStates(c) && e.store.Store? && e.artifact.None? && Decide(c, i, Some(pr), e).canMerge
    requires e.store.read == Found(facts) && pr.url != "" && Trimmed(pr.url)
    ensures var e' := e.(store := e.store.(read := Found(facts.(prURL := pr.url + " "))));
      Decide(c, i, Some(pr), e').canMerge && Decide(c, i, Some(pr), e').reconciliationNeeded
  {
    var facts' := facts.(prURL := pr.url + " ");
    var e' := e.(store := e.store.(read := Found(facts')));
    TrailingBlank(pr.url);
    CanMergeExactly(c, i, Some(pr), e);
    assert Mergeable(c, i, pr, e');
    CanMergeExactly(c, i, Some(pr), e');
    MergeWithReconciliation(c, i, pr, e');
  }

  lemma TrailingBlank(s: string)
    requires s != "" && Trimmed(s)
    ensures TrimSpace(s + " ") == TrimSpace(s) == s
  {
    TrimmedUnchanged(s);
    var t := s + " ";
    assert TrimLeft(t) == t && t[..|t| - 1] == s;
  }

  // ----- the repair overlay -----

  /** A failed review whose findings can be repaired on the same pull request. */
  predicate Repairable(c: Config, i: Issue, pr: Option<PullRequest>, e: Evidence, v: Verdict) {
    && pr.Some? && StateIsRunnable(c, i.state)
    && v.nextAction in {ReconcileTrackerState, RepairBeforeHandoff}
    && !v.reconciliationNeeded && ValidPR(c, i, pr.value, e)
    && if v.facts.Some? then
         var f := v.facts.value;
         && f.status == "review_failed" && (Blank(f.prURL) || f.prURL == pr.value.url)
         && f.reviewStatus != "passed" && f.reviewClassification == BEHAVIOR_BLOCKER
       else
         && e.record.Some? && e.evaluation.Some?
         && e.record.value.status == "review_failed" && e.record.value.reviewStatus != "passed"
         && e.record.value.reviewClassification == BEHAVIOR_BLOCKER
         && (Blank(e.record.value.prURL) || e.record.value.prURL == pr.value.url)
         && e.evaluation.value.outcome == "review_failed" && e.evaluation.value.shouldRetry
         && e.evaluation.value.nextAction == REPAIR_FINDINGS
         && e.evaluation.value.classification in {"", BEHAVIOR_BLOCKER}
         && (Blank(e.evaluation.value.prURL) || e.evaluation.value.prURL == pr.value.url)
  }

  function Repaired(c: Config, i: Issue, pr: Option<PullRequest>, e: Evidence, v: Verdict): Verdict {
    if Repairable(c, i, pr, e, v)
    then v.Go(ReviewFailed, RepairBeforeHandoff).(blockers := [])
    else v
  }

  /** The overlay neither adds nor removes a merge, keeps every exclusion, and only
      ever turns a blocked, unquarantined verdict into a run. */
  lemma RepairKeepsTheGates(c: Config, i: Issue, pr: Option<PullRequest>, e: Evidence)
    ensures var v, r := Decide(c, i, pr, e), Repaired(c, i, pr, e, Decide(c, i, pr, e));
      && r.canMerge == v.canMerge && (v.canMerge ==> r == v) && Consistent(r)
      && (r != v ==> !v.canRun && v.blockers != [] && !v.shouldQuarantine && r.canRun && !r.reconciliationNeeded)
  {
    VerdictsAreConsistent(c, i, pr, e);
    CanMergeExactly(c, i, pr, e);
    if Repairable(c, i, pr, e, Decide(c, i, pr, e)) { RepairComesFromABlock(c, i, pr.value, e); }
  }

  lemma RepairComesFromABlock(c: Config, i: Issue, pr: PullRequest, e: Evidence)
    requires Decide(c, i, Some(pr), e).nextAction in {ReconcileTrackerState, RepairBeforeHandoff}
    ensures var v := Decide(c, i, Some(pr), e);
      v.blockers == [StateMismatch] && !v.canRun && !v.canMerge && !v.shouldQuarantine && !v.storeError
  {
    var v := Gathered(Some(pr), e);
    GuardsBlock(v, SignsOf(c, i, Some(pr), e));
    if !e.canceled && Guard(v, SignsOf(c, i, Some(pr), e)).None? {
      ProceedConsistent(Mapped(v, pr.url), c, i, Look(v, c, i, pr, e));
    }
  }

  /** A blocked label is decided before any terminal record is looked at. */
  predicate LabelStandsAlone(v: Verdict) {
    v.nextAction == RepairOrClearArtifact ==> BlockedLabel !in v.blockers
  }

  lemma LabelIsNoArtifact(c: Config, i: Issue, pr: Option<PullRequest>, e: Evidence)
    ensures LabelStandsAlone(Decide(c, i, pr, e))
    ensures LabelStandsAlone(Repaired(c, i, pr, e, Decide(c, i, pr, e)))
  {
    RepairKeepsTheGates(c, i, pr, e);
    if !e.canceled {
      var v := Gathered(pr, e);
      GuardLabel(v, SignsOf(c, i, pr, e));
      if Guard(v, SignsOf(c, i, pr, e)).None? {
        if pr.Some? { ProceedLabel(Mapped(v, pr.value.url), c, i, Look(v, c, i, pr.value, e)); }
        else { WithoutPRLabel(v, c, i, e); }
      }
    }
  }

  lemma GuardLabel(v: Verdict, s: Signs)
    requires Undecided(v)
    ensures Guard(v, s).Some? ==> LabelStandsAlone(Guard(v, s).value)
  {
  }

  lemma ProceedLabel(v: Verdict, c: Config, i: Issue, view: View)
    requires Undecided(v)
    ensures LabelStandsAlone(Proceed(v, c, i, view))
  {
  }

  lemma WithoutPRLabel(v: Verdict, c: Config, i: Issue, e: Evidence)
    requires Undecided(v)
    ensures LabelStandsAlone(WithoutPR(v, c, i, e))
  {
  }
}
