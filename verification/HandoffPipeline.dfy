/** The staged handoff: payload refs wait in a table and each executed claim passes
    its work on to a later stage. */
module HandoffPipeline {
  import opened Text

  datatype Stage = PRHandoff | Review | Handoff

  /** A ref is unique per role and phase (one stage), issue and attempt. */
  datatype RefKey = RefKey(stage: Stage, issue: string, attempt: int)

  datatype RefStatus = Pending | Completed | Failed

  datatype Ref = Ref(status: RefStatus, path: string)

  type Refs = map<RefKey, Ref>

  type Intents = map<(string, int), RefStatus>

  /** A pull request that is terminal already ends the work without passing it on:
      without an error, or with one that still completes the ref. */
  datatype Outcome = Succeeded | TerminalPR | TerminalError | Broken

  /** One execution of a claimed ref. `issue` is the issue its payload names; the
      flags say which of the writes went through, in the order they are made: the
      intent, the own ref again, the ref of the next stage, the review's progress
      file, and the two final marks. */
  datatype Step = Step(key: RefKey, issue: string, path: string, reviewConfigured: bool, outcome: Outcome,
                       intentRecorded: bool, refRecorded: bool, passedOn: bool, progressWritten: bool,
                       intentMarked: bool, marked: bool)

  // ----- one execution -----

  /** A pull-request handoff first records its own ref again, under the payload's
      issue and attempt 1. */
  function Own(s: Step): RefKey {
    RefKey(PRHandoff, s.issue, 1)
  }

  function NextStage(s: Step): Stage {
    if s.key.stage.PRHandoff? && s.reviewConfigured then Review else Handoff
  }

  function NextRef(s: Step): RefKey {
    RefKey(NextStage(s), s.issue, 1)
  }

  predicate Recorded(s: Step) {
    s.key.stage.PRHandoff? && s.intentRecorded && s.refRecorded
  }

  predicate PassesOn(s: Step) {
    && !s.key.stage.Handoff? && s.outcome.Succeeded? && s.passedOn
    && (s.key.stage.PRHandoff? ==> Recorded(s))
  }

  /** The errors that are marked as failures. A failed write of the review ref, or of the
      progress file after it, is one; a failed write of the handoff ref is not, and
      neither is a terminal pull request. */
  predicate Errs(s: Step) {
    || (s.key.stage.PRHandoff? && !Recorded(s))
    || s.outcome.Broken?
    || (s.key.stage.PRHandoff? && s.outcome.Succeeded? && s.reviewConfigured && !(s.passedOn && s.progressWritten))
  }

  /** The error the execution returns: a terminal pull request may be one, and a mark
      that fails is one too. */
  predicate Reports(s: Step) {
    Errs(s) || s.outcome.TerminalError? || !s.marked || (s.key.stage.PRHandoff? && !s.intentMarked)
  }

  function Final(s: Step): RefStatus {
    if Errs(s) then Failed else Completed
  }

  /** The refs before the final mark. */
  function Unmarked(refs: Refs, s: Step): Refs {
    var own := if Recorded(s) then refs[Own(s) := Ref(Pending, s.path)] else refs;
    if PassesOn(s) then own[NextRef(s) := Ref(Pending, s.path)] else own
  }

  function After(refs: Refs, s: Step): Refs {
    var next := Unmarked(refs, s);
    if s.marked && s.key in next then next[s.key := next[s.key].(status := Final(s))] else next
  }

  /** Recording an intent keeps a final status; completing one acts on a pending
      intent only. */
  function RecordIntent(intents: Intents, k: (string, int)): Intents {
    if k in intents && intents[k] != Pending then intents else intents[k := Pending]
  }

  function CompleteIntent(intents: Intents, k: (string, int), status: RefStatus): Intents {
    if k in intents && intents[k] == Pending then intents[k := status] else intents
  }

  function IntentsAfter(intents: Intents, s: Step): Intents {
    var k := (s.issue, 1);
    var recorded := if s.key.stage.PRHandoff? && s.intentRecorded then RecordIntent(intents, k) else intents;
    if s.key.stage.PRHandoff? && s.intentMarked then CompleteIntent(recorded, k, Final(s)) else recorded
  }

  /** The error of an execution before its marks. */
  datatype Problem = NoError | Terminal | Failure

  function ProblemOf(outcome: Outcome): Problem {
    match outcome
    case Broken => Failure
    case TerminalError => Terminal
    case _ => NoError
  }

  function MarkFor(p: Problem): RefStatus {
    if p.Failure? then Failed else Completed
  }

  class Pipeline {
    var refs: Refs
    var intents: Intents

    constructor ()
      ensures refs == map[] && intents == map[]
    {
      refs, intents := map[], map[];
    }

    method Upsert(key: RefKey, path: string)
      modifies `refs
      ensures refs == old(refs)[key := Ref(Pending, path)]
    {
      refs := refs[key := Ref(Pending, path)];
    }

    /** The deferred write: it runs however the execution ended. */
    method Mark(s: Step, p: Problem) returns (failed: bool)
      modifies `refs
      ensures failed == !s.marked
      ensures refs == if s.marked && s.key in old(refs)
                      then old(refs)[s.key := old(refs)[s.key].(status := MarkFor(p))]
                      else old(refs)
    {
      if s.marked && s.key in refs {
        refs := refs[s.key := refs[s.key].(status := MarkFor(p))];
      }
      return !s.marked;
    }

    method MarkIntent(s: Step, p: Problem) returns (failed: bool)
      modifies `intents
      ensures failed == !s.intentMarked
      ensures intents == if s.intentMarked
                         then CompleteIntent(old(intents), (s.issue, 1), MarkFor(p))
                         else old(intents)
    {
      var k := (s.issue, 1);
      if s.intentMarked && k in intents && intents[k] == Pending {
        intents := intents[k := MarkFor(p)];
      }
      return !s.intentMarked;
    }

    method RecordPRHandoff(s: Step) returns (err: bool)
      modifies this
      ensures err <==> !(s.intentRecorded && s.refRecorded)
      ensures intents == if s.intentRecorded then RecordIntent(old(intents), (s.issue, 1)) else old(intents)
      ensures refs == if err then old(refs) else old(refs)[Own(s) := Ref(Pending, s.path)]
    {
      if !s.intentRecorded { return true; }
      var k := (s.issue, 1);
      if !(k in intents && intents[k] != Pending) { intents := intents[k := Pending]; }
      if !s.refRecorded { return true; }
      Upsert(RefKey(PRHandoff, s.issue, 1), s.path);
      return false;
    }

    method ExecutePRHandoff(s: Step) returns (err: bool)
      requires s.key.stage.PRHandoff?
      modifies this
      ensures refs == After(old(refs), s) && intents == IntentsAfter(old(intents), s) && err == Reports(s)
    {
      var unrecorded := RecordPRHandoff(s);
      var p := if unrecorded then Failure else ProblemOf(s.outcome);
      if !unrecorded && s.outcome.Succeeded? {
        if s.reviewConfigured {
          if s.passedOn { Upsert(RefKey(Review, s.issue, 1), s.path); }
          if !s.passedOn || !s.progressWritten { p := Failure; }
        } else if s.passedOn {
          Upsert(RefKey(Handoff, s.issue, 1), s.path);
        }
      }
      var intentErr := MarkIntent(s, p);
      var markErr := Mark(s, p);
      err := p != NoError || intentErr || markErr;
    }

    method ExecuteReview(s: Step) returns (err: bool)
      requires s.key.stage.Review?
      modifies this
      ensures refs == After(old(refs), s) && intents == IntentsAfter(old(intents), s) && err == Reports(s)
    {
      var p := ProblemOf(s.outcome);
      if s.outcome.Succeeded? && s.passedOn { Upsert(RefKey(Handoff, s.issue, 1), s.path); }
      var markErr := Mark(s, p);
      err := p != NoError || markErr;
    }

    method ExecuteHandoff(s: Step) returns (err: bool)
      requires s.key.stage.Handoff?
      modifies this
      ensures refs == After(old(refs), s) && intents == IntentsAfter(old(intents), s) && err == Reports(s)
    {
      var p := ProblemOf(s.outcome);
      var markErr := Mark(s, p);
      err := p != NoError || markErr;
    }
  }

  // ----- what an execution does, stage by stage -----

  /** No ref of this stage is new, gone or changed. */
  ghost predicate StageUntouched(before: Refs, after: Refs, stage: Stage) {
    forall k: RefKey :: k.stage == stage ==>
      (k in after <==> k in before) && (k in before ==> after[k] == before[k])
  }

  /** A pull request handed over in full goes to the review if one is configured, and
      past it otherwise. */
  lemma HandoffGoesToReview(refs: Refs, s: Step)
    requires s.key.stage.PRHandoff? && s.outcome.Succeeded?
    requires s.intentRecorded && s.refRecorded && s.passedOn
    ensures var after, review, handoff := After(refs, s), RefKey(Review, s.issue, 1), RefKey(Handoff, s.issue, 1);
      if s.reviewConfigured
      then review in after && after[review] == Ref(Pending, s.path) && StageUntouched(refs, after, Handoff)
      else handoff in after && after[handoff] == Ref(Pending, s.path) && StageUntouched(refs, after, Review)
  {
  }

  /** A finished review is handed off; the review refs of others stay. */
  lemma ReviewGoesToHandoff(refs: Refs, s: Step)
    requires s.key.stage.Review? && s.outcome.Succeeded? && s.passedOn
    ensures var after, handoff := After(refs, s), RefKey(Handoff, s.issue, 1);
      && handoff in after && after[handoff] == Ref(Pending, s.path) && StageUntouched(refs, after, PRHandoff)
      && forall k :: k in refs && k.stage == Review && k != s.key ==> k in after && after[k] == refs[k]
  {
  }

  /** In every other case nothing is passed on: no ref of a later stage is new or
      waits again. */
  lemma NothingIsPassedOn(refs: Refs, s: Step)
    requires || s.key.stage.Handoff? || !s.outcome.Succeeded? || !s.passedOn
             || (s.key.stage.PRHandoff? && !(s.intentRecorded && s.refRecorded))
    ensures forall k: RefKey :: !k.stage.PRHandoff? && k != s.key ==>
      (k in After(refs, s) <==> k in refs) && (k in refs ==> After(refs, s)[k] == refs[k])
    ensures !s.key.stage.PRHandoff? && s.key in refs ==>
      s.key in After(refs, s) && After(refs, s)[s.key].path == refs[s.key].path
      && (!s.marked ==> After(refs, s)[s.key] == refs[s.key])
  {
  }

  /** The pull-request handoff is recorded again under the payload's issue, with the
      ref's path, once its intent is; no other handoff is touched. */
  lemma HandoffIsRecordedAgain(refs: Refs, s: Step)
    requires s.key.stage.PRHandoff?
    ensures var after, own := After(refs, s), RefKey(PRHandoff, s.issue, 1);
      && (s.intentRecorded && s.refRecorded ==>
            own in after && after[own].path == s.path && (own != s.key || !s.marked ==> after[own].status == Pending))
      && (!(s.intentRecorded && s.refRecorded) && s.key != own ==>
            (own in after <==> own in refs) && (own in refs ==> after[own] == refs[own]))
      && forall k :: k in refs && k.stage == PRHandoff && k != own && k != s.key ==> k in after && after[k] == refs[k]
  {
  }

  /** What goes wrong in an execution, step by step: an intent or ref that cannot be
      recorded, the work itself, the review ref, or the progress file after it. */
  predicate GoesWrong(s: Step) {
    if s.key.stage.PRHandoff? then
      || !s.intentRecorded || !s.refRecorded || s.outcome == Broken
      || (s.outcome == Succeeded && s.reviewConfigured && (!s.passedOn || !s.progressWritten))
    else s.outcome == Broken
  }

  /** A ref is marked failed exactly then, and completed otherwise, a terminal pull
      request included; its intent gets the same mark unless it is final already. */
  lemma MarksExactly(refs: Refs, intents: Intents, s: Step)
    ensures s.marked && s.key in refs ==>
      s.key in After(refs, s) && After(refs, s)[s.key].status == if GoesWrong(s) then Failed else Completed
    ensures var k, after := (s.issue, 1), IntentsAfter(intents, s);
      && (!s.key.stage.PRHandoff? ==> after == intents)
      && (k in intents && intents[k] != Pending ==> k in after && after[k] == intents[k])
      && (s.key.stage.PRHandoff? && !(k in intents && intents[k] != Pending) && (s.intentRecorded || k in intents) ==>
            k in after && after[k] ==
              if !s.intentMarked then Pending else if GoesWrong(s) then Failed else Completed)
      && (forall other :: other != k ==> (other in after <==> other in intents)
                                         && (other in intents ==> after[other] == intents[other]))
  {
  }

  /** An execution reports no error exactly when nothing went wrong, no terminal pull
      request is in the error, and every mark was written. */
  lemma ReportsExactly(s: Step)
    ensures !Reports(s) <==>
      && !GoesWrong(s) && s.outcome != TerminalError && s.marked && (s.key.stage.PRHandoff? ==> s.intentMarked)
  {
  }

  // ----- the weight of what is pending -----

  predicate Waits(refs: Refs, k: RefKey) {
    k in refs && refs[k].status == Pending
  }

  ghost function Waiting(refs: Refs, stage: Stage): set<RefKey> {
    set k | k in refs && k.stage == stage && refs[k].status == Pending
  }

  function WeightOf(stage: Stage): nat {
    match stage case PRHandoff => 3 case Review => 2 case Handoff => 1
  }

  ghost function Weight(refs: Refs): nat {
    3 * |Waiting(refs, PRHandoff)| + 2 * |Waiting(refs, Review)| + |Waiting(refs, Handoff)|
  }

  /** Writing one row changes the weight by that row's part in it. */
  lemma WriteWeight(refs: Refs, k: RefKey, row: Ref)
    ensures Weight(refs[k := row]) == Weight(refs)
              + (if row.status == Pending then WeightOf(k.stage) else 0)
              - (if Waits(refs, k) then WeightOf(k.stage) else 0)
  {
    StageWeight(refs, k, row, PRHandoff);
    StageWeight(refs, k, row, Review);
    StageWeight(refs, k, row, Handoff);
  }

  lemma StageWeight(refs: Refs, k: RefKey, row: Ref, stage: Stage)
    ensures |Waiting(refs[k := row], stage)| == |Waiting(refs, stage)|
              + (if stage == k.stage && row.status == Pending then 1 else 0)
              - (if stage == k.stage && Waits(refs, k) then 1 else 0)
  {
    var before, after := Waiting(refs, stage), Waiting(refs[k := row], stage);
    var others := before - {k};
    assert after == if stage == k.stage && row.status == Pending then others + {k} else others;
    assert before == if stage == k.stage && Waits(refs, k) then others + {k} else others;
  }

  /** What an execution adds to the weight: its own handoff again, unless that is the
      ref it retires, and the ref of the next stage. */
  function Added(refs: Refs, s: Step): nat {
    (if Recorded(s) && !Waits(refs, Own(s)) && !(s.marked && Own(s) == s.key) then WeightOf(PRHandoff) else 0)
    + (if PassesOn(s) && !Waits(refs, NextRef(s)) then WeightOf(NextStage(s)) else 0)
  }

  /** What it takes away. */
  function Retired(refs: Refs, s: Step): nat {
    if s.marked && Waits(refs, s.key) then WeightOf(s.key.stage) else 0
  }

  lemma UnmarkedWeight(refs: Refs, s: Step)
    ensures Weight(Unmarked(refs, s)) == Weight(refs)
              + (if Recorded(s) && !Waits(refs, Own(s)) then WeightOf(PRHandoff) else 0)
              + (if PassesOn(s) && !Waits(refs, NextRef(s)) then WeightOf(NextStage(s)) else 0)
  {
    var own := if Recorded(s) then refs[Own(s) := Ref(Pending, s.path)] else refs;
    WriteWeight(refs, Own(s), Ref(Pending, s.path));
    WriteWeight(own, NextRef(s), Ref(Pending, s.path));
  }

  lemma MarkWeight(next: Refs, s: Step)
    ensures s.key in next ==>
      Weight(next[s.key := next[s.key].(status := Final(s))])
        == Weight(next) - (if Waits(next, s.key) then WeightOf(s.key.stage) else 0)
  {
    if s.key in next { WriteWeight(next, s.key, next[s.key].(status := Final(s))); }
  }

  /** The weight after any execution, for all payloads, outcomes and write failures. */
  lemma WeightAfter(refs: Refs, s: Step)
    ensures Weight(After(refs, s)) == Weight(refs) + Added(refs, s) - Retired(refs, s)
  {
    UnmarkedWeight(refs, s);
    MarkWeight(Unmarked(refs, s), s);
    assert Waits(Unmarked(refs, s), s.key) <==> Waits(refs, s.key) || (Recorded(s) && Own(s) == s.key);
  }

  /** An execution strictly lowers the weight if and only if its ref was still waiting,
      is retired, and no other pull-request handoff is revived. The ref need not wait
      any more: somebody else may have executed it since it was listed, and then
      executing it again never lowers the weight. */
  lemma ExecutionLowersTheWeight(refs: Refs, s: Step)
    ensures Weight(After(refs, s)) < Weight(refs) <==>
      Waits(refs, s.key) && s.marked && (Recorded(s) ==> Own(s) == s.key || Waits(refs, Own(s)))
    ensures !Waits(refs, s.key) ==> Weight(After(refs, s)) >= Weight(refs)
  {
    WeightAfter(refs, s);
  }

  /** It creates at most one ref, and that one is of a strictly later stage, apart
      from recording its own pull-request handoff again. */
  lemma ExecutionTouchesOnly(refs: Refs, s: Step, k: RefKey)
    ensures After(refs, s).Keys <= refs.Keys + {Own(s), NextRef(s)}
    ensures k !in {s.key, Own(s), NextRef(s)} && k in refs ==> After(refs, s)[k] == refs[k]
    ensures PassesOn(s) ==> WeightOf(NextRef(s).stage) < WeightOf(s.key.stage) && Waits(After(refs, s), NextRef(s))
    ensures s.marked && s.key in refs ==> After(refs, s)[s.key].status == Final(s)
  {
  }

  /** A ref that names its own issue and attempt. */
  predicate OwnPayload(s: Step) {
    s.key.stage.PRHandoff? ==> Own(s) == s.key
  }

  ghost predicate IsDrain(states: seq<Refs>, steps: seq<Step>) {
    && |states| == |steps| + 1
    && forall i :: 0 <= i < |steps| ==>
         && Waits(states[i], steps[i].key) && steps[i].marked && OwnPayload(steps[i])
         && states[i + 1] == After(states[i], steps[i])
  }

  /** Draining terminates: however the executions go, there are at most as many as
      the weight at the start. */
  lemma {:induction false} DrainTerminates(states: seq<Refs>, steps: seq<Step>)
    requires IsDrain(states, steps)
    ensures |steps| + Weight(states[|steps|]) <= Weight(states[0])
  {
    if steps != [] {
      var n := |steps| - 1;
      assert IsDrain(states[..n + 1], steps[..n]);
      DrainTerminates(states[..n + 1], steps[..n]);
      ExecutionLowersTheWeight(states[n], steps[n]);
    }
  }

  /** A payload that names another issue breaks it: the execution may leave more
      work than it found. */
  lemma ForeignPayloadAddsWork(refs: Refs, s: Step)
    requires Waits(refs, s.key) && Recorded(s) && PassesOn(s) && s.marked
    requires !Waits(refs, Own(s)) && !Waits(refs, NextRef(s))
    ensures Weight(After(refs, s)) > Weight(refs)
  {
    WeightAfter(refs, s);
  }

  /** The claim lists refs before it takes the lock and does not look again: a ref that
      was executed in between runs a second time, and adds work if and only if it
      revives its own handoff or passes on a ref that is not waiting. */
  lemma StaleClaimAddsWork(refs: Refs, s: Step)
    requires !Waits(refs, s.key)
    ensures Weight(After(refs, s)) > Weight(refs) <==>
      || (Recorded(s) && !Waits(refs, Own(s)) && !(s.marked && Own(s) == s.key))
      || (PassesOn(s) && !Waits(refs, NextRef(s)))
  {
    WeightAfter(refs, s);
  }

  // ----- intents -----

  ghost predicate IsIntentRun(states: seq<Intents>, steps: seq<Step>) {
    && |states| == |steps| + 1
    && forall i :: 0 <= i < |steps| ==> states[i + 1] == IntentsAfter(states[i], steps[i])
  }

  /** The first final status of an intent is its last, over every run. */
  lemma {:induction false} FinalIntentsStay(states: seq<Intents>, steps: seq<Step>, k: (string, int), i: nat, j: nat)
    requires IsIntentRun(states, steps) && i <= j < |states|
    requires k in states[i] && states[i][k] != Pending
    ensures k in states[j] && states[j][k] == states[i][k]
    decreases j
  {
    if i < j { FinalIntentsStay(states, steps, k, i, j - 1); }
  }

  // ----- claiming -----

  datatype Payload = Payload(issue: string, workspace: string, prURL: string)

  datatype Listed = Listed(key: RefKey, path: string, workspace: string, prURL: string)

  datatype Lock = Taken | Busy | LockError

  datatype Claim = Nothing | Claimed(ref: Listed, payload: Payload) | ClaimError

  /** What the payload leaves blank is filled in from the ref. */
  function Normalized(p: Payload, ref: Listed): Payload {
    Payload(FirstNonBlank(p.issue, ref.key.issue), FirstNonBlank(p.workspace, ref.workspace),
            FirstNonBlank(p.prURL, ref.prURL))
  }

  /** A pull-request handoff must know its issue, the later stages their URL. */
  predicate Complete(p: Payload, stage: Stage) {
    if stage.PRHandoff? then !Blank(p.issue) else !Blank(p.prURL)
  }

  predicate Usable(ref: Listed, read: string -> Option<Payload>) {
    read(ref.path).Some? && Complete(Normalized(read(ref.path).value, ref), ref.key.stage)
  }

  predicate Passed(ref: Listed, read: string -> Option<Payload>, lock: Payload -> Lock) {
    Usable(ref, read) && lock(Normalized(read(ref.path).value, ref)) == Busy
  }

  /** What is passed over in words: a ref whose payload can be read and, filled in from
      the ref, names its issue or its pull request, and whose workspace is locked. */
  lemma PassedExactly(ref: Listed, read: string -> Option<Payload>, lock: Payload -> Lock)
    ensures Passed(ref, read, lock) <==>
      && read(ref.path) != None
      && var p := read(ref.path).value;
         var issue := if Blank(p.issue) then ref.key.issue else p.issue;
         var url := if Blank(p.prURL) then ref.prURL else p.prURL;
         var workspace := if Blank(p.workspace) then ref.workspace else p.workspace;
         && (if ref.key.stage == PRHandoff then !Blank(issue) else !Blank(url))
         && lock(Payload(issue, workspace, url)).Busy?
  {
  }

  /** Takes the first ref whose workspace is not locked; a ref that cannot be used
      stops the scan with an error. */
  method ClaimNext(refs: seq<Listed>, read: string -> Option<Payload>, lock: Payload -> Lock) returns (c: Claim)
    ensures c.Nothing? <==> forall i :: 0 <= i < |refs| ==> Passed(refs[i], read, lock)
    ensures !c.Nothing? ==> exists i ::
      && 0 <= i < |refs| && !Passed(refs[i], read, lock)
      && (forall j :: 0 <= j < i ==> Passed(refs[j], read, lock))
      && c == if Usable(refs[i], read) && lock(Normalized(read(refs[i].path).value, refs[i])) == Taken
              then Claimed(refs[i], Normalized(read(refs[i].path).value, refs[i])) else ClaimError
  {
    for i := 0 to |refs|
      invariant forall j :: 0 <= j < i ==> Passed(refs[j], read, lock)
    {
      var ref := refs[i];
      var file := read(ref.path);
      if file.None? { return ClaimError; }
      var payload := Normalized(file.value, ref);
      if !Complete(payload, ref.key.stage) { return ClaimError; }
      match lock(payload) {
        case Busy =>
        case LockError => return ClaimError;
        case Taken => return Claimed(ref, payload);
      }
    }
    return Nothing;
  }

  /** A payload that leaves its issue blank, or names the ref's, is the ref's own:
      the condition under which draining is proved. */
  lemma BlankPayloadIsOwn(p: Payload, ref: Listed, s: Step)
    requires s.key == ref.key && s.issue == Normalized(p, ref).issue && ref.key.attempt == 1
    ensures OwnPayload(s) <==> ref.key.stage.PRHandoff? ==> Blank(p.issue) || p.issue == ref.key.issue
  {
  }
}
