/** What a pull request itself must show before it may be merged. */
module MergeGate {
  import opened Text
  import opened Domain

  predicate Green(check: Check) {
    || (check.typename == "CheckRun" && EqualFold(check.status, "COMPLETED") && EqualFold(check.conclusion, "SUCCESS"))
    || (check.typename == "StatusContext" && EqualFold(check.state, "SUCCESS"))
  }

  /** Absent checks are not green checks. */
  predicate AllGreen(checks: seq<Check>) {
    checks != [] && forall k :: 0 <= k < |checks| ==> Green(checks[k])
  }

  predicate Conflicting(pr: PullRequest) {
    EqualFold(pr.mergeable, "CONFLICTING") || EqualFold(pr.mergeStateStatus, "DIRTY")
  }

  predicate Open(pr: PullRequest) {
    !Conflicting(pr) && EqualFold(pr.mergeable, "MERGEABLE") && AllGreen(pr.checks)
  }

  datatype Gate = Eligible | Conflict | MergeableUnknown | ChecksBlock

  method ChecksBlocked(checks: seq<Check>) returns (blocked: bool)
    ensures blocked <==> !AllGreen(checks)
  {
    if checks == [] { return true; }
    for i := 0 to |checks|
      invariant forall k :: 0 <= k < i ==> Green(checks[k])
    {
      var check := checks[i];
      if check.typename == "CheckRun" {
        if !EqualFold(check.status, "COMPLETED") || !EqualFold(check.conclusion, "SUCCESS") { return true; }
      } else if check.typename == "StatusContext" {
        if !EqualFold(check.state, "SUCCESS") { return true; }
      } else {
        return true;
      }
    }
    return false;
  }

  /** The gate names the first obstacle in the order conflict, mergeability, checks. */
  method EvaluatePullRequest(pr: PullRequest) returns (gate: Gate)
    ensures gate == Eligible <==> Open(pr)
    ensures gate == Conflict <==> Conflicting(pr)
    ensures gate == MergeableUnknown <==> !Conflicting(pr) && !EqualFold(pr.mergeable, "MERGEABLE")
    ensures gate == ChecksBlock <==> !Conflicting(pr) && EqualFold(pr.mergeable, "MERGEABLE") && !AllGreen(pr.checks)
  {
    if EqualFold(pr.mergeable, "CONFLICTING") || EqualFold(pr.mergeStateStatus, "DIRTY") { return Conflict; }
    if !EqualFold(pr.mergeable, "MERGEABLE") { return MergeableUnknown; }
    var blocked := ChecksBlocked(pr.checks);
    return if blocked then ChecksBlock else Eligible;
  }

  method Blocks(pr: PullRequest) returns (blocked: bool)
    ensures blocked <==> !Open(pr)
  {
    var gate := EvaluatePullRequest(pr);
    return gate != Eligible;
  }

  // ----- the status a review worker waits for -----

  datatype Readiness = Success | Pending | Unavailable | FailedChecks

  predicate Unknown(check: Check) {
    || (check.typename == "CheckRun" && (EqualFold(check.status, "UNKNOWN") || EqualFold(check.conclusion, "UNKNOWN")))
    || (check.typename == "StatusContext" && EqualFold(check.state, "UNKNOWN"))
  }

  predicate Unfinished(check: Check) {
    || (check.typename == "CheckRun" && !EqualFold(check.status, "COMPLETED"))
    || (check.typename == "StatusContext" && EqualFold(check.state, "PENDING"))
  }

  /** check i is the first one that is unknown or unfinished. */
  predicate FirstOpen(checks: seq<Check>, i: int) {
    && 0 <= i < |checks| && (Unknown(checks[i]) || Unfinished(checks[i]))
    && forall k :: 0 <= k < i ==> !Unknown(checks[k]) && !Unfinished(checks[k])
  }

  method ChecksStatus(checks: seq<Check>) returns (r: Readiness)
    ensures r == Success <==> AllGreen(checks)
    ensures r == Unavailable <==> checks == [] || exists i :: FirstOpen(checks, i) && Unknown(checks[i])
    ensures r == Pending <==> exists i :: FirstOpen(checks, i) && !Unknown(checks[i])
    ensures r == FailedChecks <==>
      && checks != [] && !AllGreen(checks)
      && forall k :: 0 <= k < |checks| ==> !Unknown(checks[k]) && !Unfinished(checks[k])
  {
    if checks == [] { return Unavailable; }
    var blocked := ChecksBlocked(checks);
    if !blocked {
      GreenIsSettled(checks);
      return Success;
    }
    for i := 0 to |checks|
      invariant forall k :: 0 <= k < i ==> !Unknown(checks[k]) && !Unfinished(checks[k])
    {
      if Unknown(checks[i]) {
        assert FirstOpen(checks, i);
        return Unavailable;
      }
      if Unfinished(checks[i]) {
        assert FirstOpen(checks, i);
        return Pending;
      }
    }
    return FailedChecks;
  }

  /** A green check is neither unknown nor unfinished, so the four answers exclude
      one another. */
  lemma GreenIsSettled(checks: seq<Check>)
    requires AllGreen(checks)
    ensures forall k :: 0 <= k < |checks| ==> !Unknown(checks[k]) && !Unfinished(checks[k])
  {
    forall k | 0 <= k < |checks| ensures !Unknown(checks[k]) && !Unfinished(checks[k]) {
      assert Green(checks[k]);
      Folded(checks[k].status);
      Folded(checks[k].conclusion);
      Folded(checks[k].state);
    }
  }

  lemma Folded(s: string)
    ensures EqualFold(s, "SUCCESS") ==> !EqualFold(s, "UNKNOWN") && !EqualFold(s, "PENDING")
    ensures EqualFold(s, "COMPLETED") ==> !EqualFold(s, "UNKNOWN")
  {
    if EqualFold(s, "SUCCESS") {
      assert FoldChar(s[0]) == FoldChar("SUCCESS"[0]) == 's';
      assert FoldChar("UNKNOWN"[0]) == 'u' && FoldChar("PENDING"[0]) == 'p';
    }
  }

  // ----- the checks by their kind -----

  /** A check run counts by status and conclusion, a status context by its state, and
      anything else never is green, unknown or unfinished. */
  lemma ChecksByKind(check: Check)
    ensures check.typename == "CheckRun" ==>
      && (Green(check) <==> EqualFold(check.status, "COMPLETED") && EqualFold(check.conclusion, "SUCCESS"))
      && (Unknown(check) <==> EqualFold(check.status, "UNKNOWN") || EqualFold(check.conclusion, "UNKNOWN"))
      && (Unfinished(check) <==> !EqualFold(check.status, "COMPLETED"))
    ensures check.typename == "StatusContext" ==>
      && (Green(check) <==> EqualFold(check.state, "SUCCESS"))
      && (Unknown(check) <==> EqualFold(check.state, "UNKNOWN"))
      && (Unfinished(check) <==> EqualFold(check.state, "PENDING"))
    ensures check.typename !in {"CheckRun", "StatusContext"} ==>
      !Green(check) && !Unknown(check) && !Unfinished(check)
  {
  }

  /** What closes the gate: no checks at all, any one that is not green, either sign of a
      conflict, or anything but mergeable; and nothing else does. */
  lemma OpenExactly(pr: PullRequest)
    ensures !Open(pr) <==>
      || pr.checks == [] || (exists check :: check in pr.checks && !Green(check))
      || EqualFold(pr.mergeable, "CONFLICTING") || EqualFold(pr.mergeStateStatus, "DIRTY")
      || !EqualFold(pr.mergeable, "MERGEABLE")
    ensures Conflicting(pr) <==> EqualFold(pr.mergeable, "CONFLICTING") || EqualFold(pr.mergeStateStatus, "DIRTY")
  {
    if check :| check in pr.checks && !Green(check) {
      var k :| 0 <= k < |pr.checks| && pr.checks[k] == check;
      assert !AllGreen(pr.checks);
    }
  }

  /** There is one first open check, if any check is unknown or unfinished. */
  lemma {:induction false} FirstOpenExists(checks: seq<Check>, k: nat) returns (i: nat)
    requires k < |checks| && (Unknown(checks[k]) || Unfinished(checks[k]))
    ensures FirstOpen(checks, i) && i <= k && forall j :: FirstOpen(checks, j) ==> j == i
    decreases k
  {
    if j: nat :| j < k && (Unknown(checks[j]) || Unfinished(checks[j])) {
      i := FirstOpenExists(checks, j);
    } else {
      i := k;
    }
  }
}
