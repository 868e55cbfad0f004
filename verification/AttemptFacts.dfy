/** The durable record of attempts: one row per issue and attempt, side tables that
    are written only by results that have something to say, and the facts read back. */
module AttemptFacts {
  import opened Text
  import opened WorkQueue
  import opened Domain
  import RetryBackoff
  import CandidateSelection

  type AttemptKey = (string, int)

  datatype Attempt = Attempt(workspacePath: string, branchName: string, status: string)
  datatype Mapping = Mapping(attempt: AttemptKey, url: string)
  datatype Review = Review(status: string, classification: string)
  datatype Feedback = Feedback(hash: string, nextAction: string)
  datatype Retry = Retry(count: int, reason: string, nextState: string, decidedAt: Time)
  datatype Terminal = Terminal(outcome: string, reason: string)

  /** Mappings are unique per repository and branch, the side tables per attempt. */
  datatype Tables = Tables(attempts: map<AttemptKey, Attempt>, mappings: map<(string, string), Mapping>,
                           reviews: map<AttemptKey, Review>, feedback: map<AttemptKey, Feedback>,
                           retries: map<AttemptKey, Retry>, terminals: map<AttemptKey, Terminal>)

  const EMPTY := Tables(map[], map[], map[], map[], map[], map[])

  datatype AttemptResult = AttemptResult(issueKey: string, attempt: int, workspacePath: string, branchName: string,
                                         status: string, repository: string, prURL: string, reviewStatus: string,
                                         reviewClassification: string, feedbackHash: string, feedbackNextAction: string,
                                         retryCount: int, retryReason: string, retryNextState: string,
                                         terminalOutcome: string, terminalReason: string)

  function KeyOf(r: AttemptResult): AttemptKey {
    (r.issueKey, if r.attempt <= 0 then 1 else r.attempt)
  }

  function BranchOf(r: AttemptResult): string {
    if r.branchName == "" then r.issueKey else r.branchName
  }

  /** The parts of a result that are written only if it supplies them. */
  datatype Part = Row | PullRequestPart | ReviewPart | RetryPart | TerminalPart

  predicate Supplies(r: AttemptResult, part: Part) {
    match part
    case Row => true
    case PullRequestPart => r.prURL != "" || r.repository != ""
    case ReviewPart => r.reviewStatus != "" || r.reviewClassification != ""
    case RetryPart => r.retryNextState != "" || r.retryReason != ""
    case TerminalPart => r.terminalOutcome != ""
  }

  function CountAfter(retries: map<AttemptKey, Retry>, r: AttemptResult): int {
    if r.retryCount > 0 then r.retryCount
    else if KeyOf(r) in retries then retries[KeyOf(r)].count + 1
    else 1
  }

  function RetriesAfter(retries: map<AttemptKey, Retry>, r: AttemptResult, now: Time): map<AttemptKey, Retry> {
    if Supplies(r, RetryPart)
    then retries[KeyOf(r) := Retry(CountAfter(retries, r), r.retryReason, r.retryNextState, now)]
    else retries
  }

  function Record(t: Tables, r: AttemptResult, now: Time): Tables {
    var k := KeyOf(r);
    Tables(
      t.attempts[k := Attempt(r.workspacePath, BranchOf(r), r.status)],
      if Supplies(r, PullRequestPart)
      then t.mappings[(r.repository, BranchOf(r)) := Mapping(k, r.prURL)] else t.mappings,
      if Supplies(r, ReviewPart) then t.reviews[k := Review(r.reviewStatus, r.reviewClassification)] else t.reviews,
      t.feedback[k := Feedback(r.feedbackHash, r.feedbackNextAction)],
      RetriesAfter(t.retries, r, now),
      if Supplies(r, TerminalPart)
      then t.terminals[k := Terminal(r.terminalOutcome, r.terminalReason)] else t.terminals)
  }

  // ----- what is read back -----

  predicate Highest(t: Tables, issue: string, attempt: int) {
    (issue, attempt) in t.attempts && forall k :: k in t.attempts && k.0 == issue ==> k.1 <= attempt
  }

  /** The URL of a mapping of this attempt, any of them if there are several. */
  predicate MappedURL(t: Tables, k: AttemptKey, url: string) {
    if exists m :: m in t.mappings && t.mappings[m].attempt == k
    then exists m :: m in t.mappings && t.mappings[m].attempt == k && t.mappings[m].url == url
    else url == ""
  }

  function ReviewAt(t: Tables, k: AttemptKey): Review {
    if k in t.reviews then t.reviews[k] else Review("", "")
  }

  function FeedbackAt(t: Tables, k: AttemptKey): Feedback {
    if k in t.feedback then t.feedback[k] else Feedback("", "")
  }

  function TerminalAt(t: Tables, k: AttemptKey): Terminal {
    if k in t.terminals then t.terminals[k] else Terminal("", "")
  }

  datatype RetryView = RetryView(count: int, reason: string, nextState: string, decidedAt: Option<Time>)

  function RetryAt(t: Tables, k: AttemptKey): RetryView {
    if k in t.retries
    then RetryView(t.retries[k].count, t.retries[k].reason, t.retries[k].nextState, Some(t.retries[k].decidedAt))
    else RetryView(0, "", "", None)
  }

  predicate IsFacts(t: Tables, issue: string, f: Facts) {
    var k := (issue, f.attempt);
    && Highest(t, issue, f.attempt) && f.issueKey == issue
    && t.attempts[k] == Attempt(f.workspacePath, f.branchName, f.status)
    && MappedURL(t, k, f.prURL)
    && Review(f.reviewStatus, f.reviewClassification) == ReviewAt(t, k)
    && Feedback(f.feedbackHash, f.feedbackNextAction) == FeedbackAt(t, k)
    && RetryView(f.retryCount, f.retryReason, f.retryNextState, f.retryDecidedAt) == RetryAt(t, k)
    && Terminal(f.terminalOutcome, f.terminalReason) == TerminalAt(t, k)
  }

  /** What one result writes, column by column: the attempt is numbered from one, the
      branch is the issue's own unless another is named, and only the parts that the
      result supplies are written beside the attempt and its feedback. */
  lemma RecordInWords(t: Tables, r: AttemptResult, now: Time)
    ensures var t' := Record(t, r, now);
      var key := (r.issueKey, if r.attempt >= 1 then r.attempt else 1);
      var branch := if r.branchName != "" then r.branchName else r.issueKey;
      && t'.attempts == t.attempts[key := Attempt(r.workspacePath, branch, r.status)]
      && t'.feedback == t.feedback[key := Feedback(r.feedbackHash, r.feedbackNextAction)]
      && t'.mappings == (if r.prURL == "" && r.repository == "" then t.mappings
                         else t.mappings[(r.repository, branch) := Mapping(key, r.prURL)])
      && t'.reviews == (if r.reviewStatus == "" && r.reviewClassification == "" then t.reviews
                        else t.reviews[key := Review(r.reviewStatus, r.reviewClassification)])
      && t'.terminals == (if r.terminalOutcome == "" then t.terminals
                          else t.terminals[key := Terminal(r.terminalOutcome, r.terminalReason)])
  {
  }

  /** The retry row counts on from the stored count, or starts over where the result says
      how many there were. */
  lemma RetryInWords(t: Tables, r: AttemptResult, now: Time)
    ensures var t', key := Record(t, r, now), (r.issueKey, if r.attempt >= 1 then r.attempt else 1);
      if r.retryNextState == "" && r.retryReason == "" then t'.retries == t.retries
      else
        && key in t'.retries
        && t'.retries == t.retries[key := t'.retries[key]]
        && t'.retries[key] == Retry(t'.retries[key].count, r.retryReason, r.retryNextState, now)
        && t'.retries[key].count ==
             if r.retryCount >= 1 then r.retryCount else if key in t.retries then t.retries[key].count + 1 else 1
  {
  }

  /** What is read back about parts that have never been written. */
  lemma UnwrittenIsEmpty(t: Tables, issue: string, f: Facts)
    requires IsFacts(t, issue, f)
    ensures var k := (issue, f.attempt);
      && (k !in t.reviews ==> f.reviewStatus == "" && f.reviewClassification == "")
      && (k !in t.feedback ==> f.feedbackHash == "" && f.feedbackNextAction == "")
      && (k !in t.terminals ==> f.terminalOutcome == "" && f.terminalReason == "")
      && (k !in t.retries ==> f.retryCount == 0 && f.retryReason == "" && f.retryNextState == ""
                              && f.retryDecidedAt == None)
      && ((forall m :: m in t.mappings ==> t.mappings[m].attempt != k) ==> f.prURL == "")
  {
  }

  /** And about those that have. */
  lemma WrittenIsRead(t: Tables, issue: string, f: Facts)
    requires IsFacts(t, issue, f)
    ensures var k := (issue, f.attempt);
      && k in t.attempts && f.workspacePath == t.attempts[k].workspacePath && f.branchName == t.attempts[k].branchName
      && f.status == t.attempts[k].status
      && (k in t.reviews ==> f.reviewStatus == t.reviews[k].status
                             && f.reviewClassification == t.reviews[k].classification)
      && (k in t.feedback ==> f.feedbackHash == t.feedback[k].hash && f.feedbackNextAction == t.feedback[k].nextAction)
      && (k in t.terminals ==> f.terminalOutcome == t.terminals[k].outcome && f.terminalReason == t.terminals[k].reason)
      && (k in t.retries ==>
            && f.retryCount == t.retries[k].count && f.retryReason == t.retries[k].reason
            && f.retryNextState == t.retries[k].nextState && f.retryDecidedAt == Some(t.retries[k].decidedAt))
      && (f.prURL != "" ==> exists m :: m in t.mappings && t.mappings[m] == Mapping(k, f.prURL))
  {
    var k := (issue, f.attempt);
    if m :| m in t.mappings && t.mappings[m].attempt == k && t.mappings[m].url == f.prURL {
      assert t.mappings[m] == Mapping(k, f.prURL);
    }
  }

  class AttemptStore {
    var attempts: map<AttemptKey, Attempt>
    var mappings: map<(string, string), Mapping>
    var reviews: map<AttemptKey, Review>
    var feedback: map<AttemptKey, Feedback>
    var retries: map<AttemptKey, Retry>
    var terminals: map<AttemptKey, Terminal>

    function View(): Tables
      reads this
    {
      Tables(attempts, mappings, reviews, feedback, retries, terminals)
    }

    constructor ()
      ensures View() == EMPTY
    {
      attempts, mappings, reviews, feedback, retries, terminals := map[], map[], map[], map[], map[], map[];
    }

    method UpsertAttemptResult(r: AttemptResult, now: Time) returns (ok: bool)
      modifies this
      ensures ok <==> r.issueKey != ""
      ensures View() == if ok then Record(old(View()), r, now) else old(View())
    {
      if r.issueKey == "" { return false; }
      var attempt := if r.attempt <= 0 then 1 else r.attempt;
      var branch := if r.branchName == "" then r.issueKey else r.branchName;
      var k := (r.issueKey, attempt);
      WriteAttempt(k, branch, r);
      WriteOutcome(k, r, now);
      return true;
    }

    method WriteAttempt(k: AttemptKey, branch: string, r: AttemptResult)
      requires k == KeyOf(r) && branch == BranchOf(r)
      modifies `attempts, `mappings, `reviews
      ensures attempts == old(attempts)[k := Attempt(r.workspacePath, branch, r.status)]
      ensures mappings == if Supplies(r, PullRequestPart)
                          then old(mappings)[(r.repository, branch) := Mapping(k, r.prURL)] else old(mappings)
      ensures reviews == if Supplies(r, ReviewPart)
                         then old(reviews)[k := Review(r.reviewStatus, r.reviewClassification)] else old(reviews)
    {
      attempts := attempts[k := Attempt(r.workspacePath, branch, r.status)];
      WriteMapping(k, branch, r);
      WriteReview(k, r);
    }

    method WriteOutcome(k: AttemptKey, r: AttemptResult, now: Time)
      requires k == KeyOf(r)
      modifies `feedback, `retries, `terminals
      ensures feedback == old(feedback)[k := Feedback(r.feedbackHash, r.feedbackNextAction)]
      ensures retries == RetriesAfter(old(retries), r, now)
      ensures terminals == if Supplies(r, TerminalPart)
                           then old(terminals)[k := Terminal(r.terminalOutcome, r.terminalReason)] else old(terminals)
    {
      feedback := feedback[k := Feedback(r.feedbackHash, r.feedbackNextAction)];
      WriteRetry(k, r, now);
      WriteTerminal(k, r);
    }

    method WriteMapping(k: AttemptKey, branch: string, r: AttemptResult)
      modifies `mappings
      ensures mappings == if Supplies(r, PullRequestPart)
                          then old(mappings)[(r.repository, branch) := Mapping(k, r.prURL)] else old(mappings)
    {
      if r.prURL != "" || r.repository != "" {
        mappings := mappings[(r.repository, branch) := Mapping(k, r.prURL)];
      }
    }

    method WriteReview(k: AttemptKey, r: AttemptResult)
      modifies `reviews
      ensures reviews == if Supplies(r, ReviewPart)
                         then old(reviews)[k := Review(r.reviewStatus, r.reviewClassification)] else old(reviews)
    {
      if r.reviewStatus != "" || r.reviewClassification != "" {
        reviews := reviews[k := Review(r.reviewStatus, r.reviewClassification)];
      }
    }

    method WriteRetry(k: AttemptKey, r: AttemptResult, now: Time)
      requires k == KeyOf(r)
      modifies `retries
      ensures retries == RetriesAfter(old(retries), r, now)
    {
      if r.retryNextState != "" || r.retryReason != "" {
        var count := r.retryCount;
        if count <= 0 {
          count := 1;
          if k in retries { count := retries[k].count + 1; }
        }
        retries := retries[k := Retry(count, r.retryReason, r.retryNextState, now)];
      }
    }

    method WriteTerminal(k: AttemptKey, r: AttemptResult)
      modifies `terminals
      ensures terminals == if Supplies(r, TerminalPart)
                           then old(terminals)[k := Terminal(r.terminalOutcome, r.terminalReason)] else old(terminals)
    {
      if r.terminalOutcome != "" { terminals := terminals[k := Terminal(r.terminalOutcome, r.terminalReason)]; }
    }

    method ReconciliationFacts(issue: string) returns (f: Option<Facts>)
      ensures f.Some? <==> exists k :: k in attempts && k.0 == issue
      ensures f.Some? ==> IsFacts(View(), issue, f.value)
    {
      var rest, best := attempts.Keys, None;
      while rest != {}
        invariant rest <= attempts.Keys
        invariant best.Some? ==> (issue, best.value) in attempts
        invariant forall k :: k in attempts && k.0 == issue && k !in rest ==> best.Some? && k.1 <= best.value
        decreases rest
      {
        var k :| k in rest;
        rest := rest - {k};
        if k.0 == issue && (best.None? || k.1 > best.value) { best := Some(k.1); }
      }
      if best.None? { return None; }
      var k := (issue, best.value);
      var row, url := attempts[k], "";
      if m :| m in mappings && mappings[m].attempt == k { url := mappings[m].url; }
      var review := if k in reviews then reviews[k] else Review("", "");
      var fb := if k in feedback then feedback[k] else Feedback("", "");
      var end := if k in terminals then terminals[k] else Terminal("", "");
      var retry := if k in retries then retries[k] else Retry(0, "", "", 0);
      return Some(Facts(issue, best.value, row.workspacePath, row.branchName, row.status, url,
                        review.status, review.classification, retry.nextState, retry.reason, retry.count,
                        if k in retries then Some(retry.decidedAt) else None, fb.hash, fb.nextAction,
                        end.outcome, end.reason));
    }
  }

  // ----- histories -----

  datatype Entry = Entry(result: AttemptResult, now: Time)

  function Replay(t: Tables, h: seq<Entry>): Tables {
    if h == [] then t else Record(Replay(t, h[..|h| - 1]), h[|h| - 1].result, h[|h| - 1].now)
  }

  predicate Writes(e: Entry, k: AttemptKey, part: Part) {
    KeyOf(e.result) == k && Supplies(e.result, part)
  }

  /** The last entry that supplies this part for this attempt, or -1. */
  function Last(h: seq<Entry>, k: AttemptKey, part: Part): (i: int)
    ensures -1 <= i < |h|
    ensures i >= 0 ==> Writes(h[i], k, part)
    ensures forall j :: i < j < |h| ==> !Writes(h[j], k, part)
  {
    if h == [] then -1
    else if Writes(h[|h| - 1], k, part) then |h| - 1
    else Last(h[..|h| - 1], k, part)
  }

  lemma {:induction false} RowIsTheLast(t: Tables, h: seq<Entry>, k: AttemptKey)
    ensures var t', row := Replay(t, h), Last(h, k, Row);
      && (k in t'.attempts <==> row >= 0 || k in t.attempts)
      && (row < 0 && k in t.attempts ==> t'.attempts[k] == t.attempts[k])
      && (row >= 0 ==> var r := h[row].result; t'.attempts[k] == Attempt(r.workspacePath, BranchOf(r), r.status))
      && FeedbackAt(t', k) ==
           if row < 0 then FeedbackAt(t, k)
           else Feedback(h[row].result.feedbackHash, h[row].result.feedbackNextAction)
  {
    if h != [] { RowIsTheLast(t, h[..|h| - 1], k); }
  }

  lemma {:induction false} ReviewIsTheLastSupplied(t: Tables, h: seq<Entry>, k: AttemptKey)
    ensures var last := Last(h, k, ReviewPart);
      ReviewAt(Replay(t, h), k) ==
        if last < 0 then ReviewAt(t, k) else Review(h[last].result.reviewStatus, h[last].result.reviewClassification)
  {
    if h != [] { ReviewIsTheLastSupplied(t, h[..|h| - 1], k); }
  }

  lemma {:induction false} TerminalIsTheLastSupplied(t: Tables, h: seq<Entry>, k: AttemptKey)
    ensures var last := Last(h, k, TerminalPart);
      TerminalAt(Replay(t, h), k) ==
        if last < 0 then TerminalAt(t, k) else Terminal(h[last].result.terminalOutcome, h[last].result.terminalReason)
  {
    if h != [] { TerminalIsTheLastSupplied(t, h[..|h| - 1], k); }
  }

  /** The retry counter: a positive count in a result sets it, any other retry result
      adds one. */
  function Streak(h: seq<Entry>, k: AttemptKey, start: int): int {
    if h == [] then start
    else
      var e, before := h[|h| - 1], Streak(h[..|h| - 1], k, start);
      if !Writes(e, k, RetryPart) then before
      else if e.result.retryCount > 0 then e.result.retryCount
      else before + 1
  }

  lemma {:induction false} RetryIsTheLastSupplied(t: Tables, h: seq<Entry>, k: AttemptKey)
    ensures var last := Last(h, k, RetryPart);
      RetryAt(Replay(t, h), k) ==
        if last < 0 then RetryAt(t, k)
        else RetryView(Streak(h, k, RetryAt(t, k).count), h[last].result.retryReason, h[last].result.retryNextState,
                       Some(h[last].now))
    ensures RetryAt(Replay(t, h), k).count == Streak(h, k, RetryAt(t, k).count)
  {
    if h != [] { RetryIsTheLastSupplied(t, h[..|h| - 1], k); }
  }

  /** No other attempt maps, or is mapped by, this attempt's repository and branch. */
  predicate OwnBranch(h: seq<Entry>, k: AttemptKey, repository: string, branch: string) {
    forall i :: 0 <= i < |h| && Supplies(h[i].result, PullRequestPart) ==>
      (KeyOf(h[i].result) == k <==> (h[i].result.repository, BranchOf(h[i].result)) == (repository, branch))
  }

  /** The tables map this attempt at its own repository and branch only. */
  predicate OwnMapping(t: Tables, k: AttemptKey, repository: string, branch: string) {
    forall m :: m in t.mappings ==> (t.mappings[m].attempt == k <==> m == (repository, branch))
  }

  function URLAt(t: Tables, repository: string, branch: string): string {
    if (repository, branch) in t.mappings then t.mappings[(repository, branch)].url else ""
  }

  lemma {:induction false} MappingIsTheLastSupplied(t: Tables, h: seq<Entry>, k: AttemptKey,
                                                    repository: string, branch: string)
    requires OwnBranch(h, k, repository, branch) && OwnMapping(t, k, repository, branch)
    ensures OwnMapping(Replay(t, h), k, repository, branch)
    ensures var last := Last(h, k, PullRequestPart);
      URLAt(Replay(t, h), repository, branch) ==
        if last < 0 then URLAt(t, repository, branch) else h[last].result.prURL
  {
    if h != [] {
      var before := h[..|h| - 1];
      assert OwnBranch(before, k, repository, branch) by {
        forall i | 0 <= i < |before| ensures before[i] == h[i] {}
      }
      MappingIsTheLastSupplied(t, before, k, repository, branch);
      assert h[|h| - 1] in h;
    }
  }

  /** The facts of an issue are the fold of its history over the tables it started
      from: attempt row and feedback of the last result, and the review, retry,
      terminal and pull-request values of the last result that supplied each, or
      the earlier ones if none did. */
  lemma FactsAreTheFold(t: Tables, h: seq<Entry>, issue: string, attempt: int, repository: string, branch: string,
                        f: Facts)
    requires Last(h, (issue, attempt), Row) >= 0 || (issue, attempt) in t.attempts
    requires forall i :: 0 <= i < |h| && h[i].result.issueKey == issue ==> KeyOf(h[i].result).1 <= attempt
    requires forall k :: k in t.attempts && k.0 == issue ==> k.1 <= attempt
    requires OwnBranch(h, (issue, attempt), repository, branch) && OwnMapping(t, (issue, attempt), repository, branch)
    requires IsFacts(Replay(t, h), issue, f)
    ensures var k := (issue, attempt);
      var row, pr, review, retry, end := Last(h, k, Row), Last(h, k, PullRequestPart), Last(h, k, ReviewPart),
                                         Last(h, k, RetryPart), Last(h, k, TerminalPart);
      && f.attempt == attempt
      && Attempt(f.workspacePath, f.branchName, f.status) ==
           (if row < 0 then t.attempts[k]
            else Attempt(h[row].result.workspacePath, BranchOf(h[row].result), h[row].result.status))
      && Feedback(f.feedbackHash, f.feedbackNextAction) ==
           (if row < 0 then FeedbackAt(t, k)
            else Feedback(h[row].result.feedbackHash, h[row].result.feedbackNextAction))
      && f.prURL == (if pr < 0 then URLAt(t, repository, branch) else h[pr].result.prURL)
      && Review(f.reviewStatus, f.reviewClassification) ==
           (if review < 0 then ReviewAt(t, k)
            else Review(h[review].result.reviewStatus, h[review].result.reviewClassification))
      && RetryView(f.retryCount, f.retryReason, f.retryNextState, f.retryDecidedAt) ==
           (if retry < 0 then RetryAt(t, k)
            else RetryView(Streak(h, k, RetryAt(t, k).count), h[retry].result.retryReason,
                           h[retry].result.retryNextState, Some(h[retry].now)))
      && Terminal(f.terminalOutcome, f.terminalReason) ==
           (if end < 0 then TerminalAt(t, k)
            else Terminal(h[end].result.terminalOutcome, h[end].result.terminalReason))
  {
    var k := (issue, attempt);
    HighestAttempt(t, h, issue, attempt, f);
    RowIsTheLast(t, h, k);
    ReviewIsTheLastSupplied(t, h, k);
    RetryIsTheLastSupplied(t, h, k);
    TerminalIsTheLastSupplied(t, h, k);
    MappingIsTheLastSupplied(t, h, k, repository, branch);
  }

  lemma HighestAttempt(t: Tables, h: seq<Entry>, issue: string, attempt: int, f: Facts)
    requires Last(h, (issue, attempt), Row) >= 0 || (issue, attempt) in t.attempts
    requires forall i :: 0 <= i < |h| && h[i].result.issueKey == issue ==> KeyOf(h[i].result).1 <= attempt
    requires forall k :: k in t.attempts && k.0 == issue ==> k.1 <= attempt
    requires IsFacts(Replay(t, h), issue, f)
    ensures f.attempt == attempt
  {
    RowIsTheLast(t, h, (issue, attempt));
    RowIsTheLast(t, h, (issue, f.attempt));
  }

  // ----- what the results of other issues do -----

  /** The result moves this mapping to its own issue. */
  predicate Takes(r: AttemptResult, m: (string, string)) {
    Supplies(r, PullRequestPart) && (r.repository, BranchOf(r)) == m
  }

  /** For the attempt, nothing but the mapping that the result takes is lost. */
  lemma MappingsLeft(t: Tables, r: AttemptResult, now: Time, k: AttemptKey, m: (string, string))
    requires r.issueKey != k.0
    ensures var t' := Record(t, r, now);
      (m in t'.mappings && t'.mappings[m].attempt == k) <==>
        (m in t.mappings && t.mappings[m].attempt == k && !Takes(r, m))
    ensures m in t.mappings && !Takes(r, m) ==> Record(t, r, now).mappings[m] == t.mappings[m]
  {
  }

  /** Another issue's result keeps every fact of this one but the URL, which becomes
      one that the mappings left to the attempt offer. */
  lemma OthersKeepAllButTheURL(t: Tables, r: AttemptResult, now: Time, issue: string, f: Facts, url: string)
    requires r.issueKey != issue && IsFacts(t, issue, f)
    ensures IsFacts(Record(t, r, now), issue, f.(prURL := url)) <==>
            MappedURL(Record(t, r, now), (issue, f.attempt), url)
  {
    var t' := Record(t, r, now);
    assert forall k: AttemptKey :: k.0 == issue ==> (k in t'.attempts <==> k in t.attempts);
  }

  /** Exactly when another issue's result changes the facts of an attempt with its own
      repository and branch: it supplies a pull-request part for that repository and
      branch, and there was a URL to lose. */
  lemma OthersChangeExactly(t: Tables, r: AttemptResult, now: Time, issue: string, repository: string,
                            branch: string, f: Facts)
    requires r.issueKey != issue && IsFacts(t, issue, f) && OwnMapping(t, (issue, f.attempt), repository, branch)
    ensures IsFacts(Record(t, r, now), issue, f) <==> !(Takes(r, (repository, branch)) && f.prURL != "")
  {
    var t', k := Record(t, r, now), (issue, f.attempt);
    OthersKeepAllButTheURL(t, r, now, issue, f, f.prURL);
    forall m
      ensures (m in t'.mappings && t'.mappings[m].attempt == k) <==>
              (m in t.mappings && m == (repository, branch) && !Takes(r, m))
    {
      MappingsLeft(t, r, now, k, m);
    }
    MappingsLeft(t, r, now, k, (repository, branch));
  }

  /** A result that takes no mapping of this issue changes no fact of it, whatever
      mappings there are. */
  lemma OthersChangeNothing(t: Tables, r: AttemptResult, now: Time, issue: string, f: Facts)
    requires r.issueKey != issue && IsFacts(t, issue, f) && LeavesMapping(t, r, issue)
    ensures IsFacts(Record(t, r, now), issue, f)
  {
    OthersKeepAllButTheURL(t, r, now, issue, f, f.prURL);
    forall m { MappingsLeft(t, r, now, (issue, f.attempt), m); }
    if m :| m in t.mappings && t.mappings[m].attempt == (issue, f.attempt) && t.mappings[m].url == f.prURL {
      MappingsLeft(t, r, now, (issue, f.attempt), m);
    }
  }

  predicate LeavesMapping(t: Tables, r: AttemptResult, issue: string) {
    forall m :: Takes(r, m) && m in t.mappings ==> t.mappings[m].attempt.0 != issue
  }

  /** Without mappings there is one answer. */
  lemma FactsAreUnique(t: Tables, issue: string, f: Facts)
    requires IsFacts(t, issue, f) && forall m :: m in t.mappings ==> t.mappings[m].attempt != (issue, f.attempt)
    ensures forall f' :: IsFacts(t, issue, f') <==> f' == f
  {
    forall f' | IsFacts(t, issue, f') ensures f' == f {
      assert (issue, f.attempt) in t.attempts && (issue, f'.attempt) in t.attempts;
    }
  }

  lemma URLIsLost(t: Tables, r: AttemptResult, now: Time, issue: string, repository: string, branch: string, f: Facts)
    requires r.issueKey != issue && IsFacts(t, issue, f) && OwnMapping(t, (issue, f.attempt), repository, branch)
    requires Takes(r, (repository, branch))
    ensures IsFacts(Record(t, r, now), issue, f.(prURL := ""))
    ensures var t' := Record(t, r, now);
      forall m :: m in t'.mappings ==> t'.mappings[m].attempt != (issue, f.attempt)
  {
    var t' := Record(t, r, now);
    forall m | m in t'.mappings ensures t'.mappings[m].attempt != (issue, f.attempt) {
      MappingsLeft(t, r, now, (issue, f.attempt), m);
    }
    OthersKeepAllButTheURL(t, r, now, issue, f, "");
  }

  /** On a shared branch the mapping moves: the facts read afterwards are exactly the
      earlier ones without their URL. */
  lemma SharedBranchTakesTheMapping(t: Tables, r: AttemptResult, now: Time, issue: string, repository: string,
                                    branch: string, f: Facts)
    requires r.issueKey != issue && IsFacts(t, issue, f) && OwnMapping(t, (issue, f.attempt), repository, branch)
    requires Takes(r, (repository, branch))
    ensures forall f' :: IsFacts(Record(t, r, now), issue, f') <==> f' == f.(prURL := "")
  {
    URLIsLost(t, r, now, issue, repository, branch, f);
    FactsAreUnique(Record(t, r, now), issue, f.(prURL := ""));
  }

  // ----- the retry gate over a run of failures -----

  /** How a finished run becomes a result: a retryable status fills the retry part. */
  function Projected(raw: AttemptResult, error: string, budgetExceeded: string): AttemptResult {
    if RetryableStatus(raw.status)
    then raw.(retryReason := FirstNonBlank(error, FirstNonBlank(budgetExceeded, raw.status)),
              retryNextState := "retry_after_backoff")
    else raw
  }

  /** A retryable result that leaves the counting to the store. */
  ghost predicate IsRetryable(e: Entry, k: AttemptKey) {
    && KeyOf(e.result) == k && RetryableStatus(e.result.status) && e.result.retryCount <= 0
    && exists raw: AttemptResult, error: string, budget: string ::
         raw.status == e.result.status && e.result == Projected(raw, error, budget)
  }

  lemma {:induction false} StreakOfRetries(h: seq<Entry>, k: AttemptKey, start: int)
    requires forall i :: 0 <= i < |h| ==> IsRetryable(h[i], k)
    ensures Streak(h, k, start) == start + |h|
  {
    if h != [] { StreakOfRetries(h[..|h| - 1], k, start); }
  }

  /** After n consecutive retryable results the stored count is n, and the gate opens
      exactly min(max, 2^(n-1) s) after the last of them. */
  lemma GateOpensOnSchedule(t: Tables, h: seq<Entry>, issue: string, attempt: int, f: Facts, max: Time, now: Time)
    requires h != [] && forall i :: 0 <= i < |h| ==> IsRetryable(h[i], (issue, attempt))
    requires (issue, attempt) !in t.retries && forall k :: k in t.attempts && k.0 == issue ==> k.1 <= attempt
    requires IsFacts(Replay(t, h), issue, f)
    requires 0 < max && (max <= RetryBackoff.LAST_DOUBLING || |h| <= 34)
    ensures f.retryCount == |h| && f.retryNextState == "retry_after_backoff"
    ensures CandidateSelection.BackoffOver(f.retryCount, f.retryDecidedAt, max, now) <==>
      now >= h[|h| - 1].now + RetryBackoff.Min(RetryBackoff.Pow2(|h| - 1) * SECOND, max)
  {
    var k := (issue, attempt);
    assert Writes(h[|h| - 1], k, Row) && Writes(h[|h| - 1], k, RetryPart);
    HighestAttempt(t, h, issue, attempt, f);
    RetryIsTheLastSupplied(t, h, k);
    StreakOfRetries(h, k, 0);
    RetryBackoff.DelayIsIntended(|h|, max);
    assert RetryBackoff.Pow2(0) == 1;
  }
}
