/** The values the decisions are about: issues, pull requests, durable facts and
    the runner's configuration. */
module Domain {
  import opened Text
  import opened WorkQueue

  datatype Config = Config(readyState: string, runningState: string, needsInfoState: string,
                           handoffState: string, doneState: string, activeStates: seq<string>,
                           baseBranch: string, gitlab: bool, reviewCommand: string)

  /** A tracker issue; `createdAt` is None when the text is no RFC 3339 time. */
  datatype Issue = Issue(identifier: string, state: string, priority: int,
                         createdAt: Option<Time>, labels: seq<string>)

  datatype Check = Check(typename: string, status: string, conclusion: string, state: string)

  datatype PullRequest = PullRequest(url: string, headRefName: string, baseRefName: string, mergeable: string,
                                     mergeStateStatus: string, reviewDecision: string, checks: seq<Check>)

  /** A run artifact, as far as decisions read it. */
  datatype RunRecord = RunRecord(status: string, prURL: string, reviewStatus: string, reviewClassification: string)

  /** What the store says about an issue's latest attempt. */
  datatype Facts = Facts(issueKey: string, attempt: int, workspacePath: string, branchName: string, status: string,
                         prURL: string, reviewStatus: string, reviewClassification: string,
                         retryNextState: string, retryReason: string, retryCount: int, retryDecidedAt: Option<Time>,
                         feedbackHash: string, feedbackNextAction: string,
                         terminalOutcome: string, terminalReason: string)

  predicate HasLabel(i: Issue, name: string) {
    exists k :: 0 <= k < |i.labels| && ToLower(TrimSpace(i.labels[k])) == name
  }

  /** Case and surrounding white space of a label do not count. */
  lemma LabelsAreNormalized(i: Issue, k: nat, name: string)
    requires k < |i.labels| && ToLower(TrimSpace(i.labels[k])) == name
    ensures HasLabel(i, name)
    ensures name in {"blocked", "needs-info"} ==> BlockedCandidate(i)
  {
  }

  predicate BlockedCandidate(i: Issue) {
    HasLabel(i, "blocked") || HasLabel(i, "needs-info")
  }

  predicate StateIsRunnable(c: Config, state: string) {
    state == "" || state == c.readyState || state == c.runningState || state in c.activeStates
  }

  predicate TerminalStatus(status: string) {
    status in {"success", "review_failed", "failed", "github_app_error", "canceled", "cancelled", "needs_info",
               "needs_info_failed", "timeout", "budget_exceeded", "merged", "superseded", "manual_repair"}
  }

  predicate RetryableStatus(status: string) {
    ToLower(TrimSpace(status)) in {"failed", "failure", "blocked", "timeout", "budget_exceeded"}
  }

  function WorkspaceBranch(identifier: string): string {
    "am/" + TrimSpace(identifier) + "-workspace"
  }
}
