/** Which workspaces are deleted. */
module Cleanup {
  import opened Text
  import opened Domain

  datatype Category =
    | Unsafe | Dirty | ReconciliationNeeded | NonTerminal | NotDone | MergedPR | Terminal(status: string)

  datatype CleanupFacts = CleanupFacts(issueKey: string, workspacePath: string, branchName: string, baseBranch: string,
                                       status: string, terminalOutcome: string, prURL: string)

  datatype FactsRead = FactsError | NoRow | Row(facts: CleanupFacts)

  datatype PRFacts = PRFacts(headRefName: string, baseRefName: string, merged: bool, state: string)

  /** A directory entry and everything cleanup finds out about it. `canceled` also
      stands for a root that cannot be checked, `changes` is None when git cannot be
      asked, and paths are cleaned. */
  datatype Entry = Entry(name: string, isDir: bool, pathOk: bool, canceled: bool, safe: bool, changes: Option<bool>,
                         canceledLater: bool, path: string, read: FactsRead, pr: Option<PRFacts>,
                         stillSafe: bool, removable: bool)

  datatype Decision = Decision(delete: bool, category: Category)

  datatype Judgement = DecisionFailed | Judged(decision: Decision)

  function Keep(category: Category): Judgement {
    Judged(Decision(false, category))
  }

  function DurableStatus(f: CleanupFacts): string {
    if f.status == "" then f.terminalOutcome else f.status
  }

  predicate IsDone(done: set<string>, e: Entry, f: CleanupFacts) {
    f.issueKey in done || (e.name in done && e.name != f.issueKey)
  }

  // ----- the decision -----

  function Judge(e: Entry, done: set<string>): Judgement {
    if e.canceled then DecisionFailed
    else if !e.safe then Keep(Unsafe)
    else if e.changes.None? then DecisionFailed
    else if e.changes.value then Keep(Dirty)
    else if e.canceledLater then DecisionFailed
    else FromStore(e, done)
  }

  function FromStore(e: Entry, done: set<string>): Judgement {
    match e.read
    case FactsError => DecisionFailed
    case NoRow => Keep(ReconciliationNeeded)
    case Row(f) =>
      if f.workspacePath != "" && f.workspacePath != e.path then Keep(ReconciliationNeeded)
      else if e.name != "" && e.name != f.issueKey then Keep(ReconciliationNeeded)
      else if !TerminalStatus(DurableStatus(f)) then
        if IsDone(done, e, f) then FromMergedPR(e, f) else Keep(NonTerminal)
      else if IsDone(done, e, f) then Judged(Decision(true, Terminal(DurableStatus(f))))
      else Keep(NotDone)
  }

  function FromMergedPR(e: Entry, f: CleanupFacts): Judgement {
    var expected := WorkspaceBranch(f.issueKey);
    if Blank(f.prURL) then Keep(ReconciliationNeeded)
    else if Blank(f.branchName) || TrimSpace(f.branchName) != expected then Keep(ReconciliationNeeded)
    else if e.pr.None? then Keep(ReconciliationNeeded)
    else if e.pr.value.headRefName != expected then Keep(ReconciliationNeeded)
    else if !Blank(f.baseBranch) && e.pr.value.baseRefName != "" && e.pr.value.baseRefName != TrimSpace(f.baseBranch)
    then Keep(ReconciliationNeeded)
    else if e.pr.value.merged || EqualFold(e.pr.value.state, "MERGED") then Judged(Decision(true, MergedPR))
    else Keep(ReconciliationNeeded)
  }

  /** The pull request of the issue's own branch has been merged. */
  predicate MergedFromOwnBranch(e: Entry, f: CleanupFacts) {
    && !Blank(f.prURL) && TrimSpace(f.branchName) == WorkspaceBranch(f.issueKey) && e.pr.Some?
    && e.pr.value.headRefName == WorkspaceBranch(f.issueKey)
    && (Blank(f.baseBranch) || e.pr.value.baseRefName in {"", TrimSpace(f.baseBranch)})
    && (e.pr.value.merged || EqualFold(e.pr.value.state, "MERGED"))
  }

  /** What must hold before a workspace is deleted. */
  predicate Allowed(e: Entry, done: set<string>) {
    && !e.canceled && e.safe && e.changes == Some(false) && !e.canceledLater && e.read.Row?
    && var f := e.read.facts;
       && (f.workspacePath == "" || f.workspacePath == e.path) && (e.name == "" || e.name == f.issueKey)
       && IsDone(done, e, f)
       && (TerminalStatus(DurableStatus(f)) || MergedFromOwnBranch(e, f))
  }

  predicate Deletes(e: Entry, done: set<string>) {
    Judge(e, done).Judged? && Judge(e, done).decision.delete
  }

  /** The decision says delete if and only if the workspace is safe, clean, backed by
      its own row, its issue is Done, and its work has ended. */
  lemma DeletesExactly(e: Entry, done: set<string>)
    ensures Deletes(e, done) <==> Allowed(e, done)
    ensures Deletes(e, done) && e.name != "" ==> e.name in done && e.read.facts.issueKey == e.name
  {
    if e.read.Row? {
      MergedPRExactly(e, e.read.facts);
    }
  }

  /** The rules in full: which evidence a deletion needs. */
  lemma AllowedInWords(e: Entry, done: set<string>)
    requires e.name != ""
    ensures Allowed(e, done) <==>
      && !e.canceled && !e.canceledLater && e.safe && e.changes == Some(false) && e.read.Row?
      && var f := e.read.facts;
         && f.issueKey == e.name && e.name in done && f.workspacePath in {"", e.path}
         && (|| (f.status != "" && TerminalStatus(f.status))
             || (f.status == "" && TerminalStatus(f.terminalOutcome))
             || (&& !Blank(f.prURL) && TrimSpace(f.branchName) == "am/" + TrimSpace(e.name) + "-workspace"
                 && e.pr.Some? && e.pr.value.headRefName == "am/" + TrimSpace(e.name) + "-workspace"
                 && (Blank(f.baseBranch) || e.pr.value.baseRefName == ""
                     || e.pr.value.baseRefName == TrimSpace(f.baseBranch))
                 && (e.pr.value.merged || EqualFold(e.pr.value.state, "MERGED"))))
  {
  }

  lemma MergedPRExactly(e: Entry, f: CleanupFacts)
    ensures FromMergedPR(e, f) ==
      if MergedFromOwnBranch(e, f) then Judged(Decision(true, MergedPR)) else Keep(ReconciliationNeeded)
  {
    BranchIsNotBlank(f.issueKey);
  }

  /** The decision cannot be made: the pass was canceled, git cannot be asked about a safe
      workspace, or the store cannot about a clean one. */
  predicate Undecidable(e: Entry) {
    || e.canceled
    || (e.safe && e.changes.None?)
    || (e.safe && e.changes == Some(false) && (e.canceledLater || e.read.FactsError?))
  }

  /** The category a workspace is counted under, in the words of the evidence. */
  predicate Fits(category: Category, e: Entry, done: set<string>) {
    match category
    case Unsafe => !e.safe
    case Dirty => e.safe && e.changes == Some(true)
    case MergedPR => Allowed(e, done) && !TerminalStatus(DurableStatus(e.read.facts))
    case Terminal(status) => Allowed(e, done) && TerminalStatus(status) && status == DurableStatus(e.read.facts)
    case NonTerminal => OwnRow(e) && !TerminalStatus(DurableStatus(e.read.facts)) && !IsDone(done, e, e.read.facts)
    case NotDone => OwnRow(e) && TerminalStatus(DurableStatus(e.read.facts)) && !IsDone(done, e, e.read.facts)
    case ReconciliationNeeded =>
      e.safe && e.changes == Some(false)
      && (!OwnRow(e) || (&& !TerminalStatus(DurableStatus(e.read.facts)) && IsDone(done, e, e.read.facts)
                         && !MergedFromOwnBranch(e, e.read.facts)))
  }

  /** A safe, clean workspace with a row for its own issue and path. */
  predicate OwnRow(e: Entry) {
    && e.safe && e.changes == Some(false) && e.read.Row?
    && (e.read.facts.workspacePath == "" || e.read.facts.workspacePath == e.path)
    && (e.name == "" || e.name == e.read.facts.issueKey)
  }

  /** Every workspace gets a decision unless one cannot be made, and the category that
      fits. */
  lemma JudgedExactly(e: Entry, done: set<string>)
    ensures Judge(e, done).DecisionFailed? <==> Undecidable(e)
    ensures Judge(e, done).Judged? ==> Fits(Judge(e, done).decision.category, e, done)
  {
    DeletesExactly(e, done);
    if e.read.Row? { MergedPRExactly(e, e.read.facts); }
  }

  lemma BranchIsNotBlank(identifier: string)
    ensures WorkspaceBranch(identifier) != ""
  {
  }

  // ----- one pass over the workspace root -----

  predicate Visible(e: Entry) {
    e.isDir && !("." <= e.name) && e.name != "state"
  }

  /** A pass looks at directories only, and not at hidden ones or the store's own. */
  lemma VisibleExactly(e: Entry)
    ensures Visible(e) <==> e.isDir && (e.name == "" || e.name[0] != '.') && e.name !in {"state"}
  {
    assert e.name != "" && e.name[0] == '.' ==> "." <= e.name;
  }

  /** What a pass makes of one entry. */
  datatype Fate = Hidden | Failed | Kept(category: Category) | Chosen(category: Category, deletable: bool)

  function FateOf(e: Entry, done: set<string>): Fate {
    if !Visible(e) then Hidden
    else if !e.pathOk || Judge(e, done).DecisionFailed? then Failed
    else
      var decision := Judge(e, done).decision;
      if decision.delete then Chosen(decision.category, e.stillSafe && e.removable) else Kept(decision.category)
  }

  function Decider(done: set<string>): Entry -> Fate {
    (e: Entry) => FateOf(e, done)
  }

  predicate Stops(fate: Fate, apply: bool) {
    fate.Failed? || (apply && fate.Chosen? && !fate.deletable)
  }

  /** What a pass counts. */
  datatype Tally = Tally(kept: nat, eligible: seq<string>, categories: multiset<Category>)

  function Count(t: Tally, name: string, fate: Fate): Tally {
    match fate
    case Hidden => t
    case Failed => t
    case Kept(category) => t.(kept := t.kept + 1, categories := t.categories + multiset{category})
    case Chosen(category, _) => t.(eligible := t.eligible + [name], categories := t.categories + multiset{category})
  }

  /** The tally of the first n entries; its `eligible` lists the directories that the
      decision allows to delete, in order. */
  function TallyOf(decide: Entry -> Fate, entries: seq<Entry>, n: nat): Tally
    requires n <= |entries|
  {
    if n == 0 then Tally(0, [], multiset{})
    else Count(TallyOf(decide, entries, n - 1), entries[n - 1].name, decide(entries[n - 1]))
  }

  function Eligible(decide: Entry -> Fate, entries: seq<Entry>): seq<string> {
    TallyOf(decide, entries, |entries|).eligible
  }

  /** How many of the first n entries are directories that were looked at. */
  function Considered(decide: Entry -> Fate, entries: seq<Entry>, n: nat): nat
    requires n <= |entries|
  {
    if n == 0 then 0 else Considered(decide, entries, n - 1) + if decide(entries[n - 1]).Hidden? then 0 else 1
  }

  /** Conservation: every directory considered is either eligible or kept, and counted
      in one category. */
  lemma {:induction false} CountsAgree(decide: Entry -> Fate, entries: seq<Entry>, n: nat)
    requires n <= |entries| && forall k :: 0 <= k < n ==> !decide(entries[k]).Failed?
    ensures var t := TallyOf(decide, entries, n);
      |t.eligible| + t.kept == |t.categories| == Considered(decide, entries, n)
  {
    if n > 0 { CountsAgree(decide, entries, n - 1); }
  }

  lemma {:induction false} EligibleGrows(decide: Entry -> Fate, entries: seq<Entry>, n: nat, m: nat)
    requires n <= m <= |entries|
    ensures TallyOf(decide, entries, n).eligible <= TallyOf(decide, entries, m).eligible
  {
    if n < m { EligibleGrows(decide, entries, n, m - 1); }
  }

  lemma {:induction false} EligibleMembers(decide: Entry -> Fate, entries: seq<Entry>, n: nat, name: string)
    requires n <= |entries|
    ensures name in TallyOf(decide, entries, n).eligible <==>
      exists k :: 0 <= k < n && entries[k].name == name && decide(entries[k]).Chosen?
  {
    if n > 0 { EligibleMembers(decide, entries, n - 1, name); }
  }

  // ----- what a pass does, in the words of the rules -----

  /** A visible workspace whose path is in order and that may be deleted. */
  predicate MayGo(e: Entry, done: set<string>) {
    Visible(e) && e.pathOk && Allowed(e, done)
  }

  function Goes(done: set<string>): Entry -> bool {
    (e: Entry) => MayGo(e, done)
  }

  /** The names of those among the first n that go, in order. */
  function NamesOf(goes: Entry -> bool, entries: seq<Entry>, n: nat): seq<string>
    requires n <= |entries|
  {
    if n == 0 then []
    else NamesOf(goes, entries, n - 1) + if goes(entries[n - 1]) then [entries[n - 1].name] else []
  }

  function AllowedNames(entries: seq<Entry>, done: set<string>): seq<string> {
    NamesOf(Goes(done), entries, |entries|)
  }

  lemma {:induction false} NamesMembers(goes: Entry -> bool, entries: seq<Entry>, n: nat, name: string)
    requires n <= |entries|
    ensures name in NamesOf(goes, entries, n) <==> exists k :: 0 <= k < n && entries[k].name == name && goes(entries[k])
  {
    if n > 0 { NamesMembers(goes, entries, n - 1, name); }
  }

  lemma {:induction false} ChosenAreNamed(decide: Entry -> Fate, goes: Entry -> bool, entries: seq<Entry>, n: nat)
    requires n <= |entries| && forall k :: 0 <= k < n ==> (decide(entries[k]).Chosen? <==> goes(entries[k]))
    ensures TallyOf(decide, entries, n).eligible == NamesOf(goes, entries, n)
  {
    if n > 0 { ChosenAreNamed(decide, goes, entries, n - 1); }
  }

  /** What a pass finds eligible is exactly what may go. */
  lemma EligibleExactly(entries: seq<Entry>, done: set<string>)
    ensures Eligible(Decider(done), entries) == AllowedNames(entries, done)
  {
    forall k | 0 <= k < |entries| ensures Decider(done)(entries[k]).Chosen? <==> Goes(done)(entries[k]) {
      DeletesExactly(entries[k], done);
    }
    ChosenAreNamed(Decider(done), Goes(done), entries, |entries|);
  }

  lemma AllowedMembers(entries: seq<Entry>, done: set<string>, name: string)
    ensures name in AllowedNames(entries, done) <==> exists k ::
      0 <= k < |entries| && entries[k].name == name && MayGo(entries[k], done)
  {
    NamesMembers(Goes(done), entries, |entries|, name);
    if k :| 0 <= k < |entries| && entries[k].name == name && MayGo(entries[k], done) {
      assert Goes(done)(entries[k]);
    }
  }

  /** An entry ends the pass with an error: its path cannot be checked, nothing can be
      decided about it, or it is to be deleted and cannot be. */
  predicate Breaks(e: Entry, done: set<string>, apply: bool) {
    && Visible(e)
    && (!e.pathOk || Undecidable(e) || (apply && Allowed(e, done) && !(e.stillSafe && e.removable)))
  }

  lemma StopsExactly(e: Entry, done: set<string>, apply: bool)
    ensures Stops(Decider(done)(e), apply) <==> Breaks(e, done, apply)
  {
    DeletesExactly(e, done);
    JudgedExactly(e, done);
  }

  class Worker {
    var deleted: seq<string>

    constructor ()
      ensures deleted == []
    {
      deleted := [];
    }

    /** Goes through the root, counts, and deletes what the decision allows; the
        first error ends the pass. */
    method Execute(entries: seq<Entry>, decide: Entry -> Fate, apply: bool)
      returns (ok: bool, removed: seq<string>, tally: Tally)
      modifies this
      ensures ok <==> forall k :: 0 <= k < |entries| ==> !Stops(decide(entries[k]), apply)
      ensures deleted == old(deleted) + removed && removed <= Eligible(decide, entries)
      ensures !apply ==> removed == []
      ensures ok && apply ==> removed == Eligible(decide, entries)
      ensures ok ==> tally == TallyOf(decide, entries, |entries|)
      ensures ok ==> |tally.eligible| + tally.kept == |tally.categories| == Considered(decide, entries, |entries|)
    {
      ok, removed, tally := true, [], Tally(0, [], multiset{});
      ghost var before := deleted;
      var k := 0;
      while k < |entries| && ok
        invariant k <= |entries| && deleted == before + removed
        invariant ok ==> forall j :: 0 <= j < k ==> !Stops(decide(entries[j]), apply)
        invariant !ok ==> k < |entries| && Stops(decide(entries[k]), apply)
        invariant removed == if apply then TallyOf(decide, entries, k).eligible else []
        invariant ok ==> tally == TallyOf(decide, entries, k)
        decreases |entries| - k, ok
      {
        tally := Count(tally, entries[k].name, decide(entries[k]));
        var gone;
        ok, gone := Treat(entries[k].name, decide(entries[k]), apply);
        removed := removed + gone;
        if ok { k := k + 1; }
      }
      EligibleGrows(decide, entries, k, |entries|);
      if ok { CountsAgree(decide, entries, k); }
    }

    /** One entry of a pass. */
    method Treat(name: string, fate: Fate, apply: bool) returns (ok: bool, gone: seq<string>)
      modifies this
      ensures ok <==> !Stops(fate, apply)
      ensures deleted == old(deleted) + gone
      ensures gone == if ok && apply && fate.Chosen? then [name] else []
    {
      if fate.Failed? { return false, []; }
      if !fate.Chosen? || !apply { return true, []; }
      if !fate.deletable { return false, []; }
      deleted := deleted + [name];
      return true, [name];
    }

    /** The pass with the store's decisions. It fails exactly when some entry breaks it;
        what it removes is allowed, whatever fails; and an error-free apply removes
        everything that is. */
    method CleanupWorkspaces(entries: seq<Entry>, done: set<string>, apply: bool)
      returns (ok: bool, removed: seq<string>)
      modifies this
      ensures ok <==> forall k :: 0 <= k < |entries| ==> !Breaks(entries[k], done, apply)
      ensures deleted == old(deleted) + removed && (!apply ==> removed == [])
      ensures removed <= AllowedNames(entries, done)
      ensures ok && apply ==> removed == AllowedNames(entries, done)
      ensures forall name :: name in removed && name != "" ==>
        && name in done &&
        exists k :: 0 <= k < |entries| && entries[k].name == name && Visible(entries[k]) && Allowed(entries[k], done)
      ensures ok && apply ==> forall name :: name in removed <==> exists k ::
        0 <= k < |entries| && entries[k].name == name && MayGo(entries[k], done)
    {
      var tally;
      ok, removed, tally := Execute(entries, Decider(done), apply);
      EligibleExactly(entries, done);
      forall k | 0 <= k < |entries|
        ensures Stops(Decider(done)(entries[k]), apply) <==> Breaks(entries[k], done, apply)
      {
        StopsExactly(entries[k], done, apply);
      }
      forall name | name in removed && name != ""
        ensures name in done && exists k ::
          0 <= k < |entries| && entries[k].name == name && Visible(entries[k]) && Allowed(entries[k], done)
      {
        assert name in Eligible(Decider(done), entries);
        OnlyAllowedAreEligible(entries, done, name);
      }
      forall name { AllowedMembers(entries, done, name); }
    }

    /** The queued form. `claim` is what claiming a task answered: an error, nothing to
        do, or the task of entry `e`. Whatever comes of the entry, its task is completed
        once, and an error of that write (`finishOk` is false) is reported as well. */
    method RunQueued(claim: Option<bool>, e: Entry, rootOk: bool, payloadPath: string, done: Option<set<string>>,
                     present: Option<bool>, finishOk: bool) returns (ran: bool, err: bool)
      modifies this
      ensures ran <==> claim == Some(true)
      ensures deleted == old(deleted) +
        if ran && QueuedDeletes(e, rootOk, payloadPath, done, present) then [e.name] else []
      ensures err <==> claim.None? || (ran && (!finishOk || QueuedFails(e, rootOk, payloadPath, done, present)))
    {
      if claim.None? { return false, true; }
      if !claim.value { return false, false; }
      var failed := RunClaimed(e, rootOk, payloadPath, done, present);
      return true, failed || !finishOk;
    }

    /** One workspace, decided afresh with the issues that are Done now. */
    method RunClaimed(e: Entry, rootOk: bool, payloadPath: string, done: Option<set<string>>, present: Option<bool>)
      returns (failed: bool)
      modifies this
      ensures deleted == old(deleted) + if QueuedDeletes(e, rootOk, payloadPath, done, present) then [e.name] else []
      ensures failed <==> QueuedFails(e, rootOk, payloadPath, done, present)
    {
      if done.Some? { DeletesExactly(e, done.value); JudgedExactly(e, done.value); }
      if !rootOk || !e.pathOk { return true; }
      if payloadPath != "" && payloadPath != e.path { return true; }
      if done.None? || present.None? { return true; }
      if !present.value { return false; }
      var judgement := Judge(e, done.value);
      if judgement.DecisionFailed? { return true; }
      if !judgement.decision.delete { return false; }
      if !e.stillSafe || !e.removable { return true; }
      deleted := deleted + [e.name];
      return false;
    }
  }

  predicate QueuedFails(e: Entry, rootOk: bool, payloadPath: string, done: Option<set<string>>,
                        present: Option<bool>)
  {
    || !rootOk || !e.pathOk || (payloadPath != "" && payloadPath != e.path) || done.None? || present.None?
    || (present.value && (Undecidable(e) || (Allowed(e, done.value) && !(e.stillSafe && e.removable))))
  }

  predicate QueuedDeletes(e: Entry, rootOk: bool, payloadPath: string, done: Option<set<string>>,
                          present: Option<bool>)
  {
    && rootOk && e.pathOk && (payloadPath == "" || payloadPath == e.path)
    && done.Some? && present == Some(true) && Allowed(e, done.value) && e.stillSafe && e.removable
  }

  /** The queued form in words: the entry goes exactly when root, path and payload agree,
      the Done issues and the directory can be looked up, and the rules allow it; and it
      fails when one of these cannot be told, or when it may go and does not. */
  lemma QueuedExactly(e: Entry, rootOk: bool, payloadPath: string, done: Option<set<string>>, present: Option<bool>)
    ensures var known := rootOk && e.pathOk && payloadPath in {"", e.path} && done.Some? && present.Some?;
      && (QueuedDeletes(e, rootOk, payloadPath, done, present) <==>
            known && present.value && Allowed(e, done.value) && e.stillSafe && e.removable)
      && (QueuedFails(e, rootOk, payloadPath, done, present) <==>
            if !known then true
            else if !present.value then false
            else if Undecidable(e) then true
            else if !Allowed(e, done.value) then false
            else !e.stillSafe || !e.removable)
  {
    if done.Some? { DeletesExactly(e, done.value); JudgedExactly(e, done.value); }
  }

  /** Nothing is deleted that the rules do not allow, whatever fails on the way. */
  lemma OnlyAllowedAreEligible(entries: seq<Entry>, done: set<string>, name: string)
    requires name in Eligible(Decider(done), entries) && name != ""
    ensures name in done && exists k :: 0 <= k < |entries| && entries[k].name == name
                                        && Visible(entries[k]) && Allowed(entries[k], done)
  {
    EligibleMembers(Decider(done), entries, |entries|, name);
    var k :| 0 <= k < |entries| && entries[k].name == name && Decider(done)(entries[k]).Chosen?;
    DeletesExactly(entries[k], done);
  }
}
