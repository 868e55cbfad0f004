/** The explain command: a second implementation of selection and of the merge
    gate that has to predict what the runner does. */
module Explain {
  import opened Text
  import opened WorkQueue
  import opened Domain
  import opened Reconciler
  import opened CandidateSelection
  import opened StableSort
  import MergeGate

  predicate WouldRun(w: World, c: Config, i: Issue) {
    var v := VerdictOf(w, c, i);
    v.canRun && !(v.lifecycle == Blocked && BlockedLabel in v.blockers)
  }

  function Asking(w: World, c: Config): Issue -> bool {
    (i: Issue) => WouldRun(w, c, i)
  }

  method AskCandidate(w: World, c: Config, i: Issue) returns (run: bool)
    ensures run == WouldRun(w, c, i)
  {
    var pr, e := PROf(w, i), EvidenceOf(w, i);
    var d := Reconcile(c, i, pr, e);
    var v := Repaired(c, i, pr, e, d.Value());
    return v.canRun && !(v.lifecycle == Blocked && BlockedLabel in v.blockers);
  }

  function FirstToRun(asks: Issue -> bool, s: seq<Issue>): Option<Issue> {
    if s == [] then None else if asks(s[0]) then Some(s[0]) else FirstToRun(asks, s[1..])
  }

  function NameOf(pick: Option<Issue>): string {
    if pick.Some? then pick.value.identifier else ""
  }

  lemma {:induction false} FirstToRunIs(asks: Issue -> bool, s: seq<Issue>, k: nat)
    requires k < |s| && asks(s[k]) && forall j :: 0 <= j < k ==> !asks(s[j])
    ensures FirstToRun(asks, s) == Some(s[k])
  {
    if k > 0 { FirstToRunIs(asks, s[1..], k - 1); }
  }

  lemma {:induction false} NothingToRun(asks: Issue -> bool, s: seq<Issue>)
    requires forall j :: 0 <= j < |s| ==> !asks(s[j])
    ensures FirstToRun(asks, s) == None
  {
    if s != [] { NothingToRun(asks, s[1..]); }
  }

  /** The function says which candidates would run. */
  ghost predicate Asks(w: World, c: Config, asks: Issue -> bool) {
    forall i {:trigger WouldRun(w, c, i)} :: asks(i) == WouldRun(w, c, i)
  }

  method Ask(w: World, c: Config, i: Issue, ghost asks: Issue -> bool) returns (run: bool)
    requires Asks(w, c, asks)
    ensures run == asks(i)
  {
    run := AskCandidate(w, c, i);
  }

  /** Two passes that stop as soon as a non-empty name has been found. */
  method SelectName(w: World, c: Config, s: seq<Issue>, ghost asks: Issue -> bool) returns (selected: string)
    requires Asks(w, c, asks) && InOrder(s, Comparison(c.readyState))
    ensures selected == NameOf(FirstToRun(asks, s))
  {
    selected := "";
    var pass := 0;
    while pass < 2 && selected == ""
      invariant 0 <= pass <= 2
      invariant selected != "" || pass == 2 ==> selected == NameOf(FirstToRun(asks, s))
    {
      var k, found := 0, false;
      while k < |s| && !found
        invariant k <= |s|
        invariant forall j :: 0 <= j < k ==> !(asks(s[j]) && (pass == 1 || s[j].state == c.readyState))
        invariant found ==> k < |s| && asks(s[k]) && (pass == 1 || s[k].state == c.readyState)
        decreases |s| - k, !found
      {
        var run := Ask(w, c, s[k], asks);
        if run && (pass == 1 || s[k].state == c.readyState) { found := true; } else { k := k + 1; }
      }
      if found {
        selected := s[k].identifier;
        if pass == 0 { ReadyComesFirst(s, k, c.readyState); }
        FirstToRunIs(asks, s, k);
      } else if pass == 1 {
        NothingToRun(asks, s);
      }
      pass := pass + 1;
    }
  }

  /** One mark per candidate that bears the selected name. */
  method ExplainCandidateSelection(w: World, c: Config, candidates: seq<Issue>)
    returns (selected: string, marks: seq<bool>)
    ensures selected == NameOf(FirstToRun(Asking(w, c), Ordered(candidates, c.readyState)))
    ensures |marks| == |candidates|
    ensures forall k :: 0 <= k < |marks| ==> marks[k] == Marked(Ordered(candidates, c.readyState), selected, k)
  {
    var ordered := Ordered(candidates, c.readyState);
    OrderedMembers(candidates, c.readyState);
    selected := SelectName(w, c, ordered, Asking(w, c));
    marks := MarksOf(ordered, selected);
  }

  method MarksOf(s: seq<Issue>, selected: string) returns (marks: seq<bool>)
    ensures |marks| == |s| && forall k :: 0 <= k < |marks| ==> marks[k] == Marked(s, selected, k)
  {
    marks := [];
    for k := 0 to |s|
      invariant |marks| == k && forall j :: 0 <= j < k ==> marks[j] == Marked(s, selected, j)
    {
      marks := marks + [s[k].identifier == selected];
    }
  }

  predicate Marked(s: seq<Issue>, selected: string, k: int) {
    0 <= k < |s| && s[k].identifier == selected
  }

  predicate PlainRun(w: World) {
    !w.stored && !w.skipReviewResumes
  }

  /** What the runner asks and explain does not. */
  predicate Busy(w: World, i: Issue) {
    AsksForTasks(w, i) && (w.tasks.None? || TaskActive(w.tasks.value, i.identifier))
  }

  /** A candidate about which both say the same: one that may run is not held for a
      review, not worked on, and not behind a shut retry gate; one that may not is not
      let through by an elapsed backoff, unless it is worked on. */
  predicate Agrees(w: World, c: Config, i: Issue) {
    var v, gate := VerdictOf(w, c, i), RetryGateOf(w, c, i);
    if v.canRun then !HeldByReview(w, c, i, v) && !Busy(w, i) && !GateShut(v, gate)
    else !Overrides(v, gate, PROf(w, i)) || Busy(w, i)
  }

  /** Runner and explain agree on a candidate exactly then, for every store. */
  lemma ExplainAgreesExactly(w: World, c: Config, i: Issue)
    ensures (Runnable(w, c, i) <==> WouldRun(w, c, i)) <==> Agrees(w, c, i)
  {
    RepairKeepsTheGates(c, i, PROf(w, i), EvidenceOf(w, i));
    LabelIsNoArtifact(c, i, PROf(w, i), EvidenceOf(w, i));
  }

  /** If they agree on every candidate and no lookup fails, explain names the very
      candidate the runner picks. */
  lemma {:induction false} AgreementPredicts(w: World, c: Config, s: seq<Issue>)
    requires forall i :: i in s ==> !LookupFails(w, c, i) && Agrees(w, c, i)
    ensures var pick := FirstToRun(Asking(w, c), s);
      Scan(Judging(w, c), s) == if pick.Some? then Picked(pick.value) else NonePicked
  {
    if s != [] {
      ExplainAgreesExactly(w, c, s[0]);
      AgreementPredicts(w, c, s[1..]);
    }
  }

  /** Without a store and with default options they agree, for every list and every
      pull-request map. */
  lemma ExplainPredicts(w: World, c: Config, s: seq<Issue>)
    requires PlainRun(w)
    ensures NoFailures(Judging(w, c), s)
    ensures var pick := FirstToRun(Asking(w, c), s);
      Scan(Judging(w, c), s) == if pick.Some? then Picked(pick.value) else NonePicked
  {
    forall i | i in s ensures !LookupFails(w, c, i) && Agrees(w, c, i) && Judging(w, c)(i) != Error {
      PlainCandidates(w, c, i);
      ExplainAgreesExactly(w, c, i);
    }
    AgreementPredicts(w, c, s);
  }

  lemma PlainCandidates(w: World, c: Config, i: Issue)
    requires PlainRun(w)
    ensures WouldRun(w, c, i) <==> Runnable(w, c, i)
    ensures AnswerOf(w, c, i) == if WouldRun(w, c, i) then Run else Skip
  {
  }

  ghost predicate OneMark(s: seq<Issue>, selected: string) {
    exists k :: Marked(s, selected, k) && forall j :: Marked(s, selected, j) ==> j == k
  }

  /** Exactly one entry is marked whenever something would run, whatever that is, if
      and only if no two candidates share an identifier. */
  lemma MarksExactly(candidates: seq<Issue>, ready: string)
    ensures var s := Ordered(candidates, ready);
      (forall asks: Issue -> bool :: FirstToRun(asks, s).Some? ==> OneMark(s, NameOf(FirstToRun(asks, s))))
        <==> Distinct(candidates)
  {
    var s := Ordered(candidates, ready);
    SortedIsAPermutation(candidates, Comparison(ready));
    if Distinct(candidates) {
      forall asks: Issue -> bool | FirstToRun(asks, s).Some? ensures OneMark(s, NameOf(FirstToRun(asks, s))) {
        OneMarkIfDistinct(candidates, s, asks);
      }
    } else {
      var j, k := SharedIdentifier(candidates, s);
      TwoMarks(s, j, k);
    }
  }

  lemma OneMarkIfDistinct(candidates: seq<Issue>, s: seq<Issue>, asks: Issue -> bool)
    requires Distinct(candidates) && multiset(s) == multiset(candidates) && FirstToRun(asks, s).Some?
    ensures OneMark(s, NameOf(FirstToRun(asks, s)))
  {
    var k := PickIsListed(asks, s);
    assert Marked(s, s[k].identifier, k);
    forall j | Marked(s, s[k].identifier, j) ensures j == k { OneIndex(candidates, s, j, k); }
  }

  /** When nothing would run, no entry is marked if and only if no identifier is
      empty. */
  lemma NoMarkExactly(candidates: seq<Issue>, ready: string, asks: Issue -> bool)
    requires FirstToRun(asks, Ordered(candidates, ready)).None?
    ensures var s := Ordered(candidates, ready);
      (forall k :: !Marked(s, NameOf(FirstToRun(asks, s)), k)) <==> forall i :: i in candidates ==> i.identifier != ""
  {
    var s := Ordered(candidates, ready);
    OrderedMembers(candidates, ready);
    assert NameOf(FirstToRun(asks, s)) == "";
    if i :| i in candidates && i.identifier == "" {
      assert i in s;
      var k :| 0 <= k < |s| && s[k] == i;
      assert Marked(s, "", k);
    } else {
      forall k ensures !Marked(s, "", k) {
        if 0 <= k < |s| { assert s[k] in candidates; }
      }
    }
  }

  lemma SharedIdentifier(candidates: seq<Issue>, s: seq<Issue>) returns (j: nat, k: nat)
    requires multiset(s) == multiset(candidates) && !Distinct(candidates)
    ensures j < k < |s| && s[j].identifier == s[k].identifier
  {
    if Distinct(s) {
      j, k :| 0 <= j < k < |candidates| && candidates[j].identifier == candidates[k].identifier;
      OneIndex(s, candidates, j, k);
    } else {
      j, k :| 0 <= j < k < |s| && s[j].identifier == s[k].identifier;
    }
  }

  /** If only the issue at j would run, the entry at k is marked with it. */
  lemma TwoMarks(s: seq<Issue>, j: nat, k: nat)
    requires j < k < |s| && s[j].identifier == s[k].identifier
    ensures exists asks: Issue -> bool :: FirstToRun(asks, s).Some? && !OneMark(s, NameOf(FirstToRun(asks, s)))
  {
    var asks := (i: Issue) => i == s[j];
    var m := FirstAt(s, j);
    FirstToRunIs(asks, s, m);
    assert Marked(s, s[j].identifier, j) && Marked(s, s[j].identifier, k);
  }

  lemma {:induction false} FirstAt(s: seq<Issue>, j: nat) returns (m: nat)
    requires j < |s|
    ensures m <= j && s[m] == s[j] && forall i :: 0 <= i < m ==> s[i] != s[j]
  {
    if i: nat :| i < j && s[i] == s[j] { m := FirstAt(s, i); } else { m := j; }
  }

  /** Two candidates with one identifier, the first of which can run in an empty
      workspace without a store: explain marks both. */
  lemma RepeatedIdentifierMarksBoth() returns (w: World, c: Config, candidates: seq<Issue>)
    ensures PlainRun(w) && |candidates| == 2
    ensures var s := Ordered(candidates, c.readyState); var pick := FirstToRun(Asking(w, c), s);
      pick.Some? && Marked(s, NameOf(pick), 0) && Marked(s, NameOf(pick), 1)
  {
    c := Config("Ready", "Running", "Needs Info", "Handoff", "Done", [], "main", false, "");
    var first, second := Issue("AM-1", "Ready", 1, Option.None, []), Issue("AM-1", "Ready", 2, Option.None, []);
    candidates := [first, second];
    var quiet := Evidence(false, 0, NoStore, Option.None, Option.None, Option.None, Option.None,
                          false, false, false, true, true);
    w := World(map[], false, (key: string) => NoFacts, Option.None, Option.None, (i: Issue) => quiet, false, 0, 0);
    QuietCandidateRuns(w, c, first, quiet);
    BothMarked(Asking(w, c), candidates, c.readyState);
  }

  lemma BothMarked(asks: Issue -> bool, candidates: seq<Issue>, ready: string)
    requires |candidates| == 2 && candidates[0].identifier == candidates[1].identifier && asks(candidates[0])
    ensures var s := Ordered(candidates, ready); var pick := FirstToRun(asks, s);
      pick.Some? && Marked(s, NameOf(pick), 0) && Marked(s, NameOf(pick), 1)
  {
    var s := Ordered(candidates, ready);
    OrderedMembers(candidates, ready);
    assert candidates[0] in s;
    var m :| 0 <= m < |s| && s[m] == candidates[0];
    if FirstToRun(asks, s).None? { NothingFound(asks, s, m); }
    var k := PickIsListed(asks, s);
    forall j | 0 <= j < |s| ensures s[j].identifier == candidates[0].identifier { assert s[j] in candidates; }
  }

  lemma {:induction false} NothingFound(asks: Issue -> bool, s: seq<Issue>, m: nat)
    requires FirstToRun(asks, s).None? && m < |s|
    ensures !asks(s[m])
  {
    if m > 0 { NothingFound(asks, s[1..], m - 1); }
  }

  lemma QuietCandidateRuns(w: World, c: Config, i: Issue, quiet: Evidence)
    requires PlainRun(w) && w.prs == map[] && w.local(i) == quiet && i.labels == [] && i.state == c.readyState
    requires c.readyState != c.needsInfoState && c.readyState != c.doneState
    requires !quiet.canceled && quiet.record.None? && !quiet.runLock && !quiet.reviewFailure
    ensures WouldRun(w, c, i)
  {
    CanRunExactly(c, i, Option.None, EvidenceOf(w, i));
    VerdictsAreConsistent(c, i, Option.None, EvidenceOf(w, i));
  }

  lemma {:induction false} PickIsListed(asks: Issue -> bool, s: seq<Issue>) returns (k: nat)
    requires FirstToRun(asks, s).Some?
    ensures k < |s| && Some(s[k]) == FirstToRun(asks, s)
  {
    if asks(s[0]) { k := 0; }
    else {
      var j := PickIsListed(asks, s[1..]);
      k := j + 1;
    }
  }

  /** With distinct non-empty identifiers and no store: one mark, on the runner's
      pick, when some candidate can run, and none otherwise. */
  lemma ExplainMarksThePick(w: World, c: Config, candidates: seq<Issue>)
    requires PlainRun(w) && Distinct(candidates) && forall i :: i in candidates ==> i.identifier != ""
    ensures var s := Ordered(candidates, c.readyState);
      var selected, pick := NameOf(FirstToRun(Asking(w, c), s)), Scan(Judging(w, c), s);
      && (pick.Picked? <==> exists i :: i in candidates && Runnable(w, c, i))
      && (forall k :: 0 <= k < |s| ==> (Marked(s, selected, k) <==> pick == Picked(s[k])))
      && (pick.Picked? ==> OneMark(s, selected))
  {
    var s := Ordered(candidates, c.readyState);
    OrderedMembers(candidates, c.readyState);
    SortedIsAPermutation(candidates, Comparison(c.readyState));
    ExplainPredicts(w, c, s);
    ExplainPredicts(w, c, candidates);
    PickIsLeast(w, c, candidates);
    DistinctMarks(candidates, s, FirstToRun(Asking(w, c), s));
    if FirstToRun(Asking(w, c), s).Some? { var k := PickIsListed(Asking(w, c), s); }
  }

  lemma DistinctMarks(candidates: seq<Issue>, s: seq<Issue>, pick: Option<Issue>)
    requires Distinct(candidates) && multiset(s) == multiset(candidates)
    requires (forall i :: i in s ==> i.identifier != "") && (pick.Some? ==> pick.value in s)
    ensures forall k :: 0 <= k < |s| ==> (Marked(s, NameOf(pick), k) <==> pick == Some(s[k]))
    ensures pick.Some? ==> OneMark(s, NameOf(pick))
  {
    if pick.Some? {
      var k :| 0 <= k < |s| && s[k] == pick.value;
      forall j | Marked(s, NameOf(pick), j) ensures j == k { OneIndex(candidates, s, j, k); }
      assert Marked(s, NameOf(pick), k);
    }
  }

  /** A permutation of issues with distinct identifiers has distinct identifiers. */
  lemma OneIndex(a: seq<Issue>, b: seq<Issue>, j: nat, k: nat)
    requires Distinct(a) && multiset(a) == multiset(b) && j < |b| && k < |b| && b[j].identifier == b[k].identifier
    ensures j == k
  {
    SameMembers(a, b);
    if j != k {
      var lo, hi := if j < k then j else k, if j < k then k else j;
      assert b[lo] in a && b[hi] in a;
      Twice(b, lo, hi);
      OnceEach(a, b[lo]);
    }
  }

  lemma Twice(b: seq<Issue>, lo: nat, hi: nat)
    requires lo < hi < |b| && b[lo] == b[hi]
    ensures multiset(b)[b[lo]] >= 2
  {
    assert b == b[..hi] + b[hi..];
    assert b[..hi][lo] == b[lo] && b[hi..][0] == b[lo];
    assert b[lo] in multiset(b[..hi]) && b[lo] in multiset(b[hi..]);
  }

  lemma {:induction false} OnceEach(a: seq<Issue>, x: Issue)
    requires Distinct(a)
    ensures multiset(a)[x] <= 1
  {
    if a != [] {
      OnceEach(a[1..], x);
      assert a == [a[0]] + a[1..];
      forall k | 0 <= k < |a| - 1 ensures a[1..][k] != a[0] {
        assert a[k + 1].identifier != a[0].identifier;
      }
    }
  }

  /** With a store the two part ways: once a runnable candidate has an active task
      row, the runner skips it and explain still says it would run. */
  lemma ActiveTaskIsNotExplained(w: World, c: Config, i: Issue, key: string, task: Task)
    requires w.stored && w.tasks.Some? && !Blank(i.identifier) && WouldRun(w, c, i)
    requires task.role == "implementation" && task.issueKey == i.identifier && BlocksDispatch(task.status)
    ensures var w' := w.(tasks := Some(w.tasks.value[key := task]));
      WouldRun(w', c, i) && AnswerOf(w', c, i) == Skip
  {
    var w' := w.(tasks := Some(w.tasks.value[key := task]));
    assert VerdictOf(w', c, i) == VerdictOf(w, c, i) by { assert EvidenceOf(w', i) == EvidenceOf(w, i); }
    assert key in w'.tasks.value;
  }

  /** The merge column repeats the pull-request gates; they add nothing to the
      decision, so explain and the merge worker agree. */
  predicate ExplainsMerge(w: World, c: Config, i: Issue, pr: PullRequest) {
    MergeGate.Open(pr) && VerdictOf(w, c, i).canMerge && pr.reviewDecision == "APPROVED"
  }

  lemma MergeColumnIsTheDecision(w: World, c: Config, i: Issue, pr: PullRequest)
    requires PROf(w, i) == Some(pr)
    ensures ExplainsMerge(w, c, i, pr) <==> Decide(c, i, Some(pr), EvidenceOf(w, i)).canMerge
    ensures ExplainsMerge(w, c, i, pr) <==> Mergeable(c, i, pr, EvidenceOf(w, i))
  {
    CanMergeExactly(c, i, Some(pr), EvidenceOf(w, i));
    RepairKeepsTheGates(c, i, Some(pr), EvidenceOf(w, i));
  }
}
