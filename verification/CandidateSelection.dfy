/** Which issue is worked on next. */
module CandidateSelection {
  import opened Text
  import opened WorkQueue
  import opened Domain
  import opened Reconciler
  import opened StableSort
  import RetryBackoff

  // ----- the order -----

  /** 9999-01-01, the rank of an issue whose creation time cannot be parsed. */
  const FAR_FUTURE := 253_370_764_800 * SECOND

  datatype Key = Key(stateRank: int, safetyRank: int, priorityRank: int, createdAt: Time)

  function SafetyRank(i: Issue): int {
    if HasLabel(i, "runner-safety") || HasLabel(i, "harness") then 0
    else if HasLabel(i, "docs-only") || HasLabel(i, "low-risk") then 1
    else 2
  }

  function SortKey(i: Issue, readyState: string): Key {
    Key(if i.state == readyState then 0 else 1, SafetyRank(i), if i.priority <= 0 then 99 else i.priority,
        if i.createdAt.Some? then i.createdAt.value else FAR_FUTURE)
  }

  predicate KeyLess(a: Key, b: Key) {
    || a.stateRank < b.stateRank
    || (a.stateRank == b.stateRank
        && (|| a.safetyRank < b.safetyRank
            || (a.safetyRank == b.safetyRank
                && (|| a.priorityRank < b.priorityRank
                    || (a.priorityRank == b.priorityRank && a.createdAt < b.createdAt)))))
  }

  predicate Precedes(a: Issue, b: Issue, ready: string) {
    RankLess(SortKey(a, ready), a.identifier, SortKey(b, ready), b.identifier)
  }

  /** The five-level order: state, safety, priority, age, identifier. */
  function Comparison(ready: string): (Issue, Issue) -> bool {
    (a: Issue, b: Issue) => Precedes(a, b, ready)
  }

  function Ordered(s: seq<Issue>, ready: string): (r: seq<Issue>)
    ensures |r| == |s|
  {
    Sorted(s, Comparison(ready))
  }

  lemma PrecedesIsAnOrder(a: Issue, b: Issue, c: Issue, ready: string)
    ensures !Precedes(a, a, ready)
    ensures Precedes(a, b, ready) && Precedes(b, c, ready) ==> Precedes(a, c, ready)
    ensures Precedes(a, b, ready) && !Precedes(c, b, ready) ==> Precedes(a, c, ready)
    ensures a.identifier != b.identifier ==> Precedes(a, b, ready) || Precedes(b, a, ready)
  {
    KeyOrder(SortKey(a, ready), a.identifier, SortKey(b, ready), b.identifier, SortKey(c, ready), c.identifier);
  }

  // The order in the words of the issues.

  predicate Safe(i: Issue) {
    HasLabel(i, "runner-safety") || HasLabel(i, "harness")
  }

  predicate Light(i: Issue) {
    !Safe(i) && (HasLabel(i, "docs-only") || HasLabel(i, "low-risk"))
  }

  predicate ReadyBefore(a: Issue, b: Issue, ready: string) {
    a.state == ready && b.state != ready
  }

  /** Safety and harness work first, then documentation and low risk, then the rest. */
  predicate SaferThan(a: Issue, b: Issue) {
    (Safe(a) && !Safe(b)) || (Light(a) && !Safe(b) && !Light(b))
  }

  /** The smaller positive priority first; an issue without one comes after 98 and
      before 100. */
  predicate MoreUrgent(a: Issue, b: Issue) {
    if a.priority > 0 && b.priority > 0 then a.priority < b.priority
    else if a.priority > 0 then a.priority <= 98
    else b.priority >= 100
  }

  /** The older first; a creation time that cannot be read comes after every time up to
      the year 9999. */
  predicate Older(a: Issue, b: Issue) {
    match (a.createdAt, b.createdAt)
    case (Some(s), Some(t)) => s < t
    case (Some(s), None) => s < FAR_FUTURE
    case (None, Some(t)) => t > FAR_FUTURE
    case (None, None) => false
  }

  /** Level by level: the first level on which two issues differ decides. */
  predicate GoesBefore(a: Issue, b: Issue, ready: string) {
    || ReadyBefore(a, b, ready)
    || (!ReadyBefore(b, a, ready)
        && (|| SaferThan(a, b)
            || (!SaferThan(b, a)
                && (|| MoreUrgent(a, b)
                    || (!MoreUrgent(b, a)
                        && (Older(a, b) || (!Older(b, a) && Less(a.identifier, b.identifier))))))))
  }

  /** The comparison is exactly this. */
  lemma PrecedesByTheFields(a: Issue, b: Issue, ready: string)
    ensures Precedes(a, b, ready) <==> GoesBefore(a, b, ready)
  {
    var ka, kb := SortKey(a, ready), SortKey(b, ready);
    assert ka.safetyRank < kb.safetyRank <==> SaferThan(a, b);
    assert kb.safetyRank < ka.safetyRank <==> SaferThan(b, a);
    assert ka.priorityRank < kb.priorityRank <==> MoreUrgent(a, b);
    assert kb.priorityRank < ka.priorityRank <==> MoreUrgent(b, a);
    assert ka.createdAt < kb.createdAt <==> Older(a, b);
    assert kb.createdAt < ka.createdAt <==> Older(b, a);
  }

  /** Each level on its own, for issues that are alike on those above it. */
  lemma LevelsInWords(a: Issue, b: Issue, ready: string)
    ensures a.state == ready && b.state != ready ==> Precedes(a, b, ready)
    ensures a.state == b.state && Safe(a) && !Safe(b) ==> Precedes(a, b, ready)
    ensures a.state == b.state && a.labels == b.labels && 0 < a.priority < b.priority ==> Precedes(a, b, ready)
    ensures a.state == b.state && a.labels == b.labels && 0 < a.priority < 99 && b.priority <= 0 ==>
      Precedes(a, b, ready)
    ensures a.state == b.state && a.labels == b.labels && a.priority == b.priority ==>
      a.createdAt.Some? && b.createdAt.Some? && a.createdAt.value < b.createdAt.value ==> Precedes(a, b, ready)
  {
    PrecedesByTheFields(a, b, ready);
  }

  /** The pick in the same words: no runnable candidate goes before it. */
  lemma PickByTheFields(w: World, c: Config, candidates: seq<Issue>, other: Issue)
    requires NoFailures(Judging(w, c), candidates) && other in candidates && Runnable(w, c, other)
    ensures var r := Scan(Judging(w, c), Ordered(candidates, c.readyState));
      r.Picked? && !GoesBefore(other, r.issue, c.readyState)
  {
    PickIsLeast(w, c, candidates);
    var r := Scan(Judging(w, c), Ordered(candidates, c.readyState));
    if r.Picked? { PrecedesByTheFields(other, r.issue, c.readyState); }
  }

  predicate RankLess(ka: Key, ia: string, kb: Key, ib: string) {
    KeyLess(ka, kb) || (ka == kb && Less(ia, ib))
  }

  lemma KeyOrder(ka: Key, ia: string, kb: Key, ib: string, kc: Key, ic: string)
    ensures !RankLess(ka, ia, ka, ia)
    ensures RankLess(ka, ia, kb, ib) && RankLess(kb, ib, kc, ic) ==> RankLess(ka, ia, kc, ic)
    ensures RankLess(ka, ia, kb, ib) && !RankLess(kc, ic, kb, ib) ==> RankLess(ka, ia, kc, ic)
    ensures ia != ib ==> RankLess(ka, ia, kb, ib) || RankLess(kb, ib, ka, ia)
  {
    LessIrreflexive(ia);
    LessTotal(ia, ib);
    LessTotal(ib, ic);
    if Less(ia, ib) && Less(ib, ic) { LessTransitive(ia, ib, ic); }
  }

  lemma ComparisonIsAnOrder(ready: string)
    ensures IsStrictWeakOrder(Comparison(ready))
  {
    var less := Comparison(ready);
    forall a, b, c
      ensures !less(a, a) && (less(a, b) && less(b, c) ==> less(a, c)) && (less(a, b) && !less(c, b) ==> less(a, c))
    {
      PrecedesIsAnOrder(a, b, c, ready);
    }
  }

  /** The sorted list holds the same candidates, none after one it precedes, and
      candidates that tie on all five levels in the tracker's order. */
  lemma OrderedIsAStableSort(s: seq<Issue>, ready: string, x: Issue)
    ensures multiset(Ordered(s, ready)) == multiset(s)
    ensures InOrder(Ordered(s, ready), Comparison(ready))
    ensures TiedWith(x, Ordered(s, ready), Comparison(ready)) == TiedWith(x, s, Comparison(ready))
  {
    ComparisonIsAnOrder(ready);
    SortedIsAPermutation(s, Comparison(ready));
    SortedIsInOrder(s, Comparison(ready));
    SortedIsStable(s, x, Comparison(ready));
  }

  lemma SameMembers(a: seq<Issue>, b: seq<Issue>)
    requires multiset(a) == multiset(b)
    ensures forall i :: i in a <==> i in b
  {
    forall i ensures i in a <==> i in b { assert i in multiset(a) <==> i in multiset(b); }
  }

  lemma OrderedMembers(s: seq<Issue>, ready: string)
    ensures forall i :: i in Ordered(s, ready) <==> i in s
    ensures InOrder(Ordered(s, ready), Comparison(ready))
  {
    ComparisonIsAnOrder(ready);
    SortedIsAPermutation(s, Comparison(ready));
    SortedIsInOrder(s, Comparison(ready));
    SameMembers(Ordered(s, ready), s);
  }

  // ----- what makes a candidate runnable -----

  /** Everything selection looks at, fixed for one selection. `tasks` is None when
      the task table cannot be read. */
  datatype World = World(prs: map<string, PullRequest>, stored: bool, facts: string -> FactsRead,
                         leases: Option<Leases>, tasks: Option<map<string, Task>>, local: Issue -> Evidence,
                         skipReviewResumes: bool, maxBackoff: Time, now: Time)

  function PROf(w: World, i: Issue): Option<PullRequest> {
    if i.identifier in w.prs then Some(w.prs[i.identifier]) else None
  }

  function EvidenceOf(w: World, i: Issue): Evidence {
    w.local(i).(artifact := None, store := if w.stored then Store(w.facts(i.identifier), w.leases) else NoStore)
  }

  function VerdictOf(w: World, c: Config, i: Issue): Verdict {
    var e := EvidenceOf(w, i);
    Repaired(c, i, PROf(w, i), e, Decide(c, i, PROf(w, i), e))
  }

  predicate HeldByReview(w: World, c: Config, i: Issue, v: Verdict) {
    && w.skipReviewResumes && !Blank(c.reviewCommand) && PROf(w, i).Some?
    && v.canRun && v.nextAction == RunSemanticReview
  }

  predicate TaskActive(tasks: map<string, Task>, identifier: string) {
    exists k :: k in tasks && tasks[k].role == "implementation" && tasks[k].issueKey == identifier
                && BlocksDispatch(tasks[k].status)
  }

  predicate AsksForTasks(w: World, i: Issue) {
    w.stored && !Blank(i.identifier)
  }

  datatype RetryGate = NoGate | Gate(open: bool, nextState: string)

  function RetryGateOf(w: World, c: Config, i: Issue): RetryGate {
    if !w.stored then NoGate
    else if i.state == c.needsInfoState || i.state == c.doneState then Gate(false, "")
    else
      var read := w.facts(i.identifier);
      if !read.Found? || read.facts.retryNextState == "" then NoGate
      else if read.facts.retryNextState != "retry_after_backoff" then Gate(false, read.facts.retryNextState)
      else
        Gate(BackoffOver(read.facts.retryCount, read.facts.retryDecidedAt, w.maxBackoff, w.now), "retry_after_backoff")
  }

  predicate BackoffOver(retryCount: int, decidedAt: Option<Time>, max: Time, now: Time) {
    var backoff := RetryBackoff.Delay(retryCount, max);
    backoff <= 0 || decidedAt.None? || now >= decidedAt.value + backoff
  }

  predicate AllowsRepair(v: Verdict, gate: RetryGate)
    requires gate.Gate?
  {
    && v.canRun && v.shouldRetry && !v.reconciliationNeeded
    && (|| (gate.nextState == REPAIR_FINDINGS && v.nextAction == RepairBeforeHandoff)
        || (v.lifecycle == FeedbackRetry && v.nextAction == RetryWithFeedback))
  }

  predicate GateShut(v: Verdict, gate: RetryGate) {
    gate.Gate? && !gate.open && !AllowsRepair(v, gate)
  }

  /** An elapsed backoff lets a retryable terminal record run again. */
  predicate Overrides(v: Verdict, gate: RetryGate, pr: Option<PullRequest>) {
    && gate.Gate? && gate.open && pr.None? && v.runRecord.Some?
    && v.lifecycle == Blocked && v.nextAction == RepairOrClearArtifact
    && RetryableStatus(v.runRecord.value.status)
  }

  predicate Runnable(w: World, c: Config, i: Issue) {
    var v, gate := VerdictOf(w, c, i), RetryGateOf(w, c, i);
    && !HeldByReview(w, c, i, v)
    && !(AsksForTasks(w, i) && (w.tasks.None? || TaskActive(w.tasks.value, i.identifier)))
    && !GateShut(v, gate)
    && !(v.lifecycle == Blocked && BlockedLabel in v.blockers)
    && (v.canRun || Overrides(v, gate, PROf(w, i)))
  }

  /** Looking at this candidate fails the whole selection. */
  predicate LookupFails(w: World, c: Config, i: Issue) {
    AsksForTasks(w, i) && w.tasks.None? && !HeldByReview(w, c, i, VerdictOf(w, c, i))
  }

  /** The retry gate in the words of the stored facts: what shuts it, and when the
      backoff lets it open. */
  lemma RetryGateExactly(w: World, c: Config, i: Issue)
    ensures var gate, read := RetryGateOf(w, c, i), w.facts(i.identifier);
      && (gate.Gate? && !gate.open <==>
            && w.stored
            && (|| i.state == c.needsInfoState || i.state == c.doneState
                || (read.Found? && read.facts.retryNextState !in {"", "retry_after_backoff"})
                || (read.Found? && read.facts.retryNextState == "retry_after_backoff" && read.facts.retryDecidedAt.Some?
                    && RetryBackoff.Delay(read.facts.retryCount, w.maxBackoff) > 0
                    && w.now < read.facts.retryDecidedAt.value
                               + RetryBackoff.Delay(read.facts.retryCount, w.maxBackoff))))
      && (gate.Gate? && gate.open ==> read.Found? && read.facts.retryNextState == "retry_after_backoff")
  {
  }

  /** An issue that is not to be retried is never picked, unless its findings are being
      repaired or its feedback worked in. */
  lemma NoRetryIsNotPicked(w: World, c: Config, i: Issue)
    requires w.stored && w.facts(i.identifier).Found?
    requires w.facts(i.identifier).facts.retryNextState == "no_retry"
    requires VerdictOf(w, c, i).lifecycle != FeedbackRetry
    ensures AnswerOf(w, c, i) != Run
  {
  }

  /** Nor is one whose backoff is still running, or that has an active task. */
  lemma WaitingIsNotPicked(w: World, c: Config, i: Issue)
    requires w.stored && w.facts(i.identifier).Found? && VerdictOf(w, c, i).lifecycle != FeedbackRetry
    requires w.facts(i.identifier).facts.retryNextState == "retry_after_backoff"
    requires w.facts(i.identifier).facts.retryDecidedAt.Some?
    requires var f := w.facts(i.identifier).facts; var delay := RetryBackoff.Delay(f.retryCount, w.maxBackoff);
      delay > 0 && w.now < f.retryDecidedAt.value + delay
    ensures AnswerOf(w, c, i) != Run
  {
  }

  /** Repair gets past a shut gate exactly when the verdict runs a retry that needs no
      reconciliation, with stored findings to repair before the handoff or feedback to
      work in. */
  lemma RepairPassesTheGate(w: World, c: Config, i: Issue)
    requires var gate := RetryGateOf(w, c, i); gate.Gate? && !gate.open
    requires !(AsksForTasks(w, i) && (w.tasks.None? || TaskActive(w.tasks.value, i.identifier)))
    requires !HeldByReview(w, c, i, VerdictOf(w, c, i)) && BlockedLabel !in VerdictOf(w, c, i).blockers
    ensures var v, f := VerdictOf(w, c, i), w.facts(i.identifier);
      AnswerOf(w, c, i) == Run <==>
        && v.canRun && v.shouldRetry && !v.reconciliationNeeded
        && (|| (v.lifecycle == FeedbackRetry && v.nextAction == RetryWithFeedback)
            || (v.nextAction == RepairBeforeHandoff && RetryGateOf(w, c, i).nextState == REPAIR_FINDINGS))
  {
  }

  /** A task keeps an issue from being picked while it waits, is worked on, or is
      quarantined, and no longer; a lookup that fails fails the selection. */
  lemma ActiveTaskIsSkipped(w: World, c: Config, i: Issue)
    requires w.stored && !Blank(i.identifier) && w.tasks.Some?
    ensures TaskActive(w.tasks.value, i.identifier) <==>
      exists k :: k in w.tasks.value && w.tasks.value[k].role == "implementation"
                  && w.tasks.value[k].issueKey == i.identifier
                  && w.tasks.value[k].status in {Queued, Status.Claimed, ReconciliationNeeded}
    ensures TaskActive(w.tasks.value, i.identifier) ==> AnswerOf(w, c, i) == Skip
    ensures !LookupFails(w, c, i)
  {
    var tasks := w.tasks.value;
    assert forall k :: k in tasks ==>
      (BlocksDispatch(tasks[k].status) <==> tasks[k].status in {Queued, Status.Claimed, ReconciliationNeeded});
  }

  /** Without a shut gate, a task, a label or a hold for review, a candidate is picked if
      its verdict runs, or if it is blocked by the record of a retryable end whose
      backoff has elapsed. */
  lemma OpenCandidateIsPicked(w: World, c: Config, i: Issue)
    requires var gate := RetryGateOf(w, c, i); gate.NoGate? || gate.open
    requires !(AsksForTasks(w, i) && (w.tasks.None? || TaskActive(w.tasks.value, i.identifier)))
    requires BlockedLabel !in VerdictOf(w, c, i).blockers
    requires !(w.skipReviewResumes && VerdictOf(w, c, i).nextAction == RunSemanticReview)
    ensures var v := VerdictOf(w, c, i);
      AnswerOf(w, c, i) == Run <==>
        || v.canRun
        || (&& w.stored && PROf(w, i).None? && v.lifecycle == Blocked && v.nextAction == RepairOrClearArtifact
            && v.runRecord.Some? && RetryableStatus(v.runRecord.value.status)
            && w.facts(i.identifier).Found? && w.facts(i.identifier).facts.retryNextState == "retry_after_backoff"
            && i.state != c.needsInfoState && i.state != c.doneState)
  {
  }

  /** A review that could start is left to the review lane when one is configured and
      the runner is told to skip those. */
  lemma ReviewResumesAreLeft(w: World, c: Config, i: Issue)
    requires w.skipReviewResumes && !Blank(c.reviewCommand) && PROf(w, i).Some?
    requires VerdictOf(w, c, i).canRun && VerdictOf(w, c, i).nextAction == RunSemanticReview
    ensures AnswerOf(w, c, i) == Skip
  {
  }

  // ----- one candidate -----

  datatype Answer = Skip | Error | Run

  function AnswerOf(w: World, c: Config, i: Issue): Answer {
    if LookupFails(w, c, i) then Error else if Runnable(w, c, i) then Run else Skip
  }

  method JudgeCandidate(w: World, c: Config, i: Issue) returns (a: Answer)
    ensures a == AnswerOf(w, c, i)
  {
    var pr, e := PROf(w, i), EvidenceOf(w, i);
    var d := Reconcile(c, i, pr, e);
    var v := Repaired(c, i, pr, e, d.Value());
    if HeldByReview(w, c, i, v) { return Skip; }
    if AsksForTasks(w, i) {
      if w.tasks.None? { return Error; }
      if TaskActive(w.tasks.value, i.identifier) { return Skip; }
    }
    var gate := RetryBackoffDecision(w, c, i);
    if w.stored && gate.Gate? && !gate.open && !AllowsRepair(v, gate) { return Skip; }
    if v.lifecycle == Blocked && BlockedLabel in v.blockers { return Skip; }
    return if v.canRun || Overrides(v, gate, pr) then Run else Skip;
  }

  method RetryBackoffDecision(w: World, c: Config, i: Issue) returns (gate: RetryGate)
    ensures gate == RetryGateOf(w, c, i)
  {
    if !w.stored { return NoGate; }
    if i.state == c.needsInfoState || i.state == c.doneState { return Gate(false, ""); }
    var read := w.facts(i.identifier);
    if !read.Found? || read.facts.retryNextState == "" { return NoGate; }
    var next := read.facts.retryNextState;
    if next == "no_retry" { return Gate(false, next); }
    if next != "retry_after_backoff" { return Gate(false, next); }
    var backoff := RetryBackoff.RetryBackoffDuration(read.facts.retryCount, w.maxBackoff);
    if backoff <= 0 || read.facts.retryDecidedAt.None? || w.now >= read.facts.retryDecidedAt.value + backoff {
      return Gate(true, next);
    }
    return Gate(false, next);
  }

  // ----- the list -----

  /** The answers about all candidates, as one function; both scans ask it. */
  function Judging(w: World, c: Config): Issue -> Answer {
    (i: Issue) => AnswerOf(w, c, i)
  }

  datatype Selection = Picked(issue: Issue) | NonePicked | LookupFailed

  /** One scan in order: the first candidate that can run, unless a lookup fails on
      the way there. */
  function Scan(judge: Issue -> Answer, s: seq<Issue>): Selection {
    if s == [] then NonePicked
    else
      match judge(s[0])
      case Error => LookupFailed
      case Run => Picked(s[0])
      case Skip => Scan(judge, s[1..])
  }

  predicate NoFailures(judge: Issue -> Answer, s: seq<Issue>) {
    forall i :: i in s ==> judge(i) != Error
  }

  /** The function gives the answers that the candidates get. */
  ghost predicate Judges(w: World, c: Config, judge: Issue -> Answer) {
    forall i {:trigger AnswerOf(w, c, i)} :: judge(i) == AnswerOf(w, c, i)
  }

  method Ask(w: World, c: Config, i: Issue, ghost judge: Issue -> Answer) returns (a: Answer)
    requires Judges(w, c, judge)
    ensures a == judge(i)
  {
    a := JudgeCandidate(w, c, i);
  }

  method AnyPass(w: World, c: Config, s: seq<Issue>, ghost judge: Issue -> Answer) returns (r: Selection)
    requires Judges(w, c, judge)
    ensures r == Scan(judge, s)
  {
    for k := 0 to |s|
      invariant Scan(judge, s) == Scan(judge, s[k..])
    {
      assert s[k..][0] == s[k] && s[k..][1..] == s[k + 1..];
      var a := Ask(w, c, s[k], judge);
      if a == Error { return LookupFailed; }
      if a == Run { return Picked(s[k]); }
    }
    return NonePicked;
  }

  /** The first pass takes a Ready issue only. */
  method ReadyPass(w: World, c: Config, s: seq<Issue>, ghost judge: Issue -> Answer) returns (r: Option<Selection>)
    requires Judges(w, c, judge)
    ensures r.Some? ==> exists k: nat ::
      && PassStops(judge, c.readyState, s, k)
      && r.value == if judge(s[k]) == Error then LookupFailed else Picked(s[k])
    ensures r.None? ==> forall k :: 0 <= k < |s| ==> PassesOver(judge, c.readyState, s[k])
  {
    for k := 0 to |s|
      invariant forall j :: 0 <= j < k ==> PassesOver(judge, c.readyState, s[j])
    {
      var a := Ask(w, c, s[k], judge);
      if a == Error || (s[k].state == c.readyState && a == Run) {
        assert PassStops(judge, c.readyState, s, k);
        return Some(if a == Error then LookupFailed else Picked(s[k]));
      }
    }
    return None;
  }

  predicate PassesOver(judge: Issue -> Answer, ready: string, i: Issue) {
    judge(i) != Error && !(i.state == ready && judge(i) == Run)
  }

  predicate PassStops(judge: Issue -> Answer, ready: string, s: seq<Issue>, k: nat) {
    k < |s| && !PassesOver(judge, ready, s[k]) && forall j :: 0 <= j < k ==> PassesOver(judge, ready, s[j])
  }

  /** The Ready issues first, then all of them: with no failing lookup the same as
      one scan of the sorted list. */
  method NextRunnableCandidate(w: World, c: Config, candidates: seq<Issue>) returns (r: Selection)
    ensures NoFailures(Judging(w, c), candidates) ==> r == Scan(Judging(w, c), Ordered(candidates, c.readyState))
    ensures r.LookupFailed? ==> !NoFailures(Judging(w, c), candidates)
    ensures r.Picked? ==> r.issue in candidates && Judging(w, c)(r.issue) == Run
  {
    ghost var judge := Judging(w, c);
    var ordered := Ordered(candidates, c.readyState);
    OrderedMembers(candidates, c.readyState);
    var first := ReadyPass(w, c, ordered, judge);
    if first.Some? {
      TwoPassesAreOne(judge, c.readyState, ordered);
      return first.value;
    }
    r := AnyPass(w, c, ordered, judge);
    ScanSound(judge, ordered);
  }

  /** In a sorted list the Ready issues come first, so what stops the first pass
      without an error is what one scan finds. */
  lemma TwoPassesAreOne(judge: Issue -> Answer, ready: string, s: seq<Issue>)
    requires InOrder(s, Comparison(ready))
    ensures forall k: nat :: PassStops(judge, ready, s, k) && judge(s[k]) != Error ==> Scan(judge, s) == Picked(s[k])
  {
    forall k: nat | PassStops(judge, ready, s, k) && judge(s[k]) != Error
      ensures Scan(judge, s) == Picked(s[k])
    {
      ReadyComesFirst(s, k, ready);
      ScanFinds(judge, s, k);
    }
  }

  lemma ReadyComesFirst(s: seq<Issue>, k: nat, ready: string)
    requires InOrder(s, Comparison(ready)) && k < |s| && s[k].state == ready
    ensures forall j :: 0 <= j < k ==> s[j].state == ready
  {
    forall j | 0 <= j < k ensures s[j].state == ready {
      assert !Comparison(ready)(s[k], s[j]);
    }
  }

  lemma {:induction false} ScanFinds(judge: Issue -> Answer, s: seq<Issue>, k: nat)
    requires k < |s| && judge(s[k]) == Run && forall j :: 0 <= j < k ==> judge(s[j]) == Skip
    ensures Scan(judge, s) == Picked(s[k])
  {
    if k > 0 { ScanFinds(judge, s[1..], k - 1); }
  }

  lemma {:induction false} ScanSound(judge: Issue -> Answer, s: seq<Issue>)
    ensures Scan(judge, s).LookupFailed? ==> !NoFailures(judge, s)
    ensures Scan(judge, s).Picked? ==> Scan(judge, s).issue in s && judge(Scan(judge, s).issue) == Run
  {
    if s != [] {
      ScanSound(judge, s[1..]);
      assert s[0] in s && forall i :: i in s[1..] ==> i in s;
    }
  }

  // ----- the choice is the least runnable candidate -----

  predicate Distinct(candidates: seq<Issue>) {
    forall j, k :: 0 <= j < k < |candidates| ==> candidates[j].identifier != candidates[k].identifier
  }

  lemma {:induction false} ScanIsMinimal(judge: Issue -> Answer, s: seq<Issue>, less: (Issue, Issue) -> bool)
    requires IsStrictWeakOrder(less) && InOrder(s, less) && NoFailures(judge, s)
    ensures !Scan(judge, s).LookupFailed?
    ensures Scan(judge, s).NonePicked? <==> forall i :: i in s ==> judge(i) != Run
    ensures Scan(judge, s).Picked? ==>
      var pick := Scan(judge, s).issue;
      && pick in s && judge(pick) == Run
      && forall i :: i in s && judge(i) == Run ==> !less(i, pick)
  {
    if s != [] && judge(s[0]) != Run {
      ScanIsMinimal(judge, s[1..], less);
      assert forall i :: i in s ==> i == s[0] || i in s[1..];
    }
  }

  /** The choice is a runnable candidate that no runnable candidate precedes, and it
      precedes every other one when identifiers are distinct. */
  lemma PickIsLeast(w: World, c: Config, candidates: seq<Issue>)
    requires NoFailures(Judging(w, c), candidates)
    ensures var r := Scan(Judging(w, c), Ordered(candidates, c.readyState));
      && !r.LookupFailed?
      && (r.NonePicked? <==> forall i :: i in candidates ==> !Runnable(w, c, i))
      && (r.Picked? ==>
            && r.issue in candidates && Runnable(w, c, r.issue)
            && (forall i :: i in candidates && Runnable(w, c, i) ==> !Precedes(i, r.issue, c.readyState))
            && (Distinct(candidates) ==>
                  forall i :: i in candidates && Runnable(w, c, i) && i != r.issue ==>
                    Precedes(r.issue, i, c.readyState)))
  {
    var judge, less := Judging(w, c), Comparison(c.readyState);
    OrderedMembers(candidates, c.readyState);
    ComparisonIsAnOrder(c.readyState);
    ScanIsMinimal(judge, Ordered(candidates, c.readyState), less);
    forall i | i in candidates ensures judge(i) == Run <==> Runnable(w, c, i) { assert judge(i) != Error; }
    var r := Scan(judge, Ordered(candidates, c.readyState));
    if r.Picked? {
      forall i | i in candidates && Runnable(w, c, i) ensures !Precedes(i, r.issue, c.readyState) {
        assert !less(i, r.issue);
      }
      if Distinct(candidates) {
        forall i | i in candidates && Runnable(w, c, i) && i != r.issue ensures Precedes(r.issue, i, c.readyState) {
          PrecedesIsAnOrder(r.issue, i, i, c.readyState);
        }
      }
    }
  }

  /** With distinct identifiers the choice does not depend on the order in which the
      tracker returned the candidates. */
  lemma ChoiceIgnoresTrackerOrder(w: World, c: Config, some: seq<Issue>, others: seq<Issue>)
    requires multiset(some) == multiset(others) && Distinct(some) && NoFailures(Judging(w, c), some)
    ensures Scan(Judging(w, c), Ordered(some, c.readyState)) == Scan(Judging(w, c), Ordered(others, c.readyState))
  {
    SameMembers(some, others);
    PickIsLeast(w, c, some);
    PickIsLeast(w, c, others);
    var r1 := Scan(Judging(w, c), Ordered(some, c.readyState));
    var r2 := Scan(Judging(w, c), Ordered(others, c.readyState));
    if r1.Picked? && r2.Picked? { PrecedesIsAnOrder(r1.issue, r2.issue, r1.issue, c.readyState); }
  }
}
