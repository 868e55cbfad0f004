/** The merge worker: the one place that merges pull requests, and the order of its
    side effects. */
module MergeWorker {
  import opened Text
  import opened Domain
  import opened Reconciler
  import MergeGate

  /** Side effects that went through, by pull-request number. */
  datatype Effect =
    | SquashMerge(pr: int) | DeleteBranch(pr: int) | MoveToDone(pr: int) | RemoveWorkspace(pr: int)
    | WriteFeedback(pr: int) | MoveToReady(pr: int)

  datatype Phase = SquashPhase | BranchPhase | DonePhase | WorkspacePhase

  datatype Event =
    | MergeBlocked(pr: int) | MergeAttempted(pr: int) | MergeFailed(pr: int, phase: Phase) | MergeSucceeded(pr: int)
    | BranchAttempted(pr: int) | BranchFinished(pr: int, ok: bool)
    | DoneAttempted(pr: int) | DoneFinished(pr: int, ok: bool) | MergeCompleted(pr: int)
    | ErrorRecorded(pr: int)

  datatype Lookup = LookupError | NoIssue | FoundIssue(issue: Issue)

  /** How the outside world answers while one pull request is handled: which calls
      succeed, where the context turns out to be canceled, and which of the events it
      appends are stored. A failed append is only reported to the operator's log. */
  datatype World = World(canceled: bool, lookup: Lookup, statesRead: bool, evidence: Evidence,
                         canceledBeforeMerge: bool, squashed: bool, canceledAfterSquash: bool,
                         branchDeleted: bool, canceledAfterDelete: bool,
                         doneStateExists: bool, movedToDone: bool, workspaceRemoved: bool,
                         feedbackCollected: bool, feedbackAddressed: bool, directoryMade: bool, feedbackWritten: bool,
                         readyStateExists: bool, movedToReady: bool, appended: nat -> bool)

  /** A pull request, its number, and the world it will meet. */
  datatype Item = Item(number: int, pr: PullRequest, world: World)

  // ----- what happens to one pull request -----

  /** `recorded` says whether the error is an event: a canceled context is not. */
  datatype Route = Leave | Error(recorded: bool) | BlockedOut | Conflict | Quarantine
                 | Approve(canMerge: bool) | Rework | Wait

  function DecisionFor(c: Config, i: Issue, item: Item): Verdict {
    Decide(c, i, Some(item.pr), item.world.evidence)
  }

  function RouteOf(c: Config, item: Item): Route {
    var w, pr := item.world, item.pr;
    if w.canceled then Error(false)
    else if w.lookup.LookupError? then Error(true)
    else if w.lookup.NoIssue? || w.lookup.issue.state != c.handoffState then Leave
    else if !ValidPR(c, w.lookup.issue, pr, w.evidence) then BlockedOut
    else if !w.statesRead then Error(true)
    else if MergeGate.Conflicting(pr) then Conflict
    else if DecisionFor(c, w.lookup.issue, item).shouldQuarantine && DecisionFor(c, w.lookup.issue, item).blockers != []
    then Quarantine
    else if pr.reviewDecision == "APPROVED" then Approve(DecisionFor(c, w.lookup.issue, item).canMerge)
    else if pr.reviewDecision == "CHANGES_REQUESTED" then Rework
    else Wait
  }

  predicate Merges(c: Config, item: Item) {
    RouteOf(c, item) == Approve(true) && !item.world.canceledBeforeMerge
  }

  /** The whole merge, in order. */
  function Sequence(item: Item): seq<Effect> {
    [SquashMerge(item.number), DeleteBranch(item.number)]
    + (if item.world.doneStateExists then [MoveToDone(item.number)] else [])
    + [RemoveWorkspace(item.number)]
  }

  predicate FinishFails(w: World) {
    (w.doneStateExists && !w.movedToDone) || !w.workspaceRemoved
  }

  /** The effects of the last two steps. */
  function FinishEffects(item: Item): seq<Effect> {
    var w := item.world;
    (if w.doneStateExists && w.movedToDone then [MoveToDone(item.number)] else [])
    + (if FinishFails(w) then [] else [RemoveWorkspace(item.number)])
  }

  /** The effects after the squash. */
  function BranchEffects(item: Item): seq<Effect> {
    if !item.world.branchDeleted then []
    else [DeleteBranch(item.number)] + if item.world.canceledAfterDelete then [] else FinishEffects(item)
  }

  /** The effects of an attempted merge. */
  function MergeEffects(item: Item): seq<Effect> {
    if !item.world.squashed then []
    else [SquashMerge(item.number)] + if item.world.canceledAfterSquash then [] else BranchEffects(item)
  }

  predicate BranchFails(w: World) {
    !w.branchDeleted || w.canceledAfterDelete || FinishFails(w)
  }

  predicate MergeFails(w: World) {
    !w.squashed || w.canceledAfterSquash || BranchFails(w)
  }

  /** They are a prefix of the whole merge, and all of it exactly when nothing fails. */
  lemma MergeIsAPrefix(item: Item)
    ensures MergeEffects(item) <= Sequence(item)
    ensures MergeEffects(item) == Sequence(item) <==> !MergeFails(item.world)
  {
  }

  predicate FeedbackFails(w: World) {
    !w.directoryMade || !w.feedbackWritten || (w.readyStateExists && !w.movedToReady)
  }

  function FeedbackEffects(item: Item): seq<Effect> {
    var w := item.world;
    if !w.directoryMade || !w.feedbackWritten then []
    else [WriteFeedback(item.number)]
         + (if w.readyStateExists && w.movedToReady then [MoveToReady(item.number)] else [])
  }

  function EffectsFor(route: Route, item: Item): seq<Effect> {
    var w := item.world;
    match route
    case Approve(true) => if w.canceledBeforeMerge then [] else MergeEffects(item)
    case Conflict => FeedbackEffects(item)
    case Rework => if w.feedbackCollected && !w.feedbackAddressed then FeedbackEffects(item) else []
    case _ => []
  }

  predicate FailsFor(route: Route, item: Item) {
    var w := item.world;
    match route
    case Error(_) => true
    case Conflict => FeedbackFails(w)
    case Approve(canMerge) => w.canceledBeforeMerge || (canMerge && MergeFails(w))
    case Rework => !w.feedbackCollected || !w.directoryMade || (!w.feedbackAddressed && FeedbackFails(w))
    case _ => false
  }

  /** The events that an attempted merge appends. */
  function MergeEvents(item: Item): seq<Event> {
    var n, w := item.number, item.world;
    [MergeAttempted(n)]
    + if !w.squashed then [MergeFailed(n, SquashPhase), ErrorRecorded(n)]
      else if w.canceledAfterSquash then []
      else BranchEvents(item)
  }

  function BranchEvents(item: Item): seq<Event> {
    [MergeSucceeded(item.number), BranchAttempted(item.number)] + BranchEnd(item)
  }

  function BranchEnd(item: Item): seq<Event> {
    if item.world.branchDeleted then DeletionEvents(item)
    else [BranchFinished(item.number, false), MergeFailed(item.number, BranchPhase), ErrorRecorded(item.number)]
  }

  /** After the branch has been deleted. */
  function DeletionEvents(item: Item): seq<Event> {
    if item.world.canceledAfterDelete then [] else [BranchFinished(item.number, true)] + DoneEvents(item)
  }

  function DoneEvents(item: Item): seq<Event> {
    var n, w := item.number, item.world;
    if w.doneStateExists && !w.movedToDone
    then [DoneAttempted(n), DoneFinished(n, false), MergeFailed(n, DonePhase), ErrorRecorded(n)]
    else (if w.doneStateExists then [DoneAttempted(n), DoneFinished(n, true)] else [])
         + if w.workspaceRemoved then [MergeCompleted(n)] else [MergeFailed(n, WorkspacePhase), ErrorRecorded(n)]
  }

  function EventsFor(route: Route, item: Item): seq<Event> {
    match route
    case Error(recorded) => if recorded then [ErrorRecorded(item.number)] else []
    case BlockedOut => [MergeBlocked(item.number)]
    case Conflict => [MergeBlocked(item.number)]
    case Quarantine => [MergeBlocked(item.number)]
    case Approve(canMerge) =>
      if item.world.canceledBeforeMerge then []
      else if canMerge then MergeEvents(item)
      else [MergeBlocked(item.number)]
    case _ => []
  }

  function EffectsOf(c: Config, item: Item): seq<Effect> {
    EffectsFor(RouteOf(c, item), item)
  }

  /** The events that handling an item appends, and those that are stored. */
  function EventsOf(c: Config, item: Item): seq<Event> {
    EventsFor(RouteOf(c, item), item)
  }

  function LogOf(c: Config, item: Item): seq<Event> {
    Stored(EventsOf(c, item), item.world.appended, |EventsOf(c, item)|)
  }

  /** Those of the first k appends that go through. */
  function Stored(appends: seq<Event>, ok: nat -> bool, k: nat): seq<Event>
    requires k <= |appends|
  {
    if k == 0 then [] else Stored(appends, ok, k - 1) + if ok(k - 1) then [appends[k - 1]] else []
  }

  lemma {:induction false} StoredPrefix(appends: seq<Event>, e: Event, ok: nat -> bool, k: nat)
    requires k <= |appends|
    ensures Stored(appends + [e], ok, k) == Stored(appends, ok, k)
  {
    if k > 0 { StoredPrefix(appends, e, ok, k - 1); }
  }

  lemma {:induction false} StoredMembers(appends: seq<Event>, ok: nat -> bool, k: nat, e: Event)
    requires k <= |appends|
    ensures e in Stored(appends, ok, k) <==> exists j: nat :: j < k && appends[j] == e && ok(j)
  {
    if k > 0 {
      StoredMembers(appends, ok, k - 1, e);
      if appends[k - 1] == e && ok(k - 1) { assert e in Stored(appends, ok, k); }
    }
  }

  predicate Fails(c: Config, item: Item) {
    FailsFor(RouteOf(c, item), item)
  }

  /** Reads and decides; the side effects come after. */
  method Classify(c: Config, item: Item) returns (route: Route)
    ensures route == RouteOf(c, item)
    ensures route == Approve(true) ==>
      item.world.lookup.FoundIssue? && Mergeable(c, item.world.lookup.issue, item.pr, item.world.evidence)
  {
    var w := item.world;
    if w.canceled { return Error(false); }
    if w.lookup.LookupError? { return Error(true); }
    if w.lookup.NoIssue? || w.lookup.issue.state != c.handoffState { return Leave; }
    var issue := w.lookup.issue;
    if !ValidPR(c, issue, item.pr, w.evidence) { return BlockedOut; }
    if !w.statesRead { return Error(true); }
    if MergeGate.Conflicting(item.pr) { return Conflict; }
    var d := Reconcile(c, issue, Some(item.pr), w.evidence);
    if d.shouldQuarantine && d.blockers != [] { return Quarantine; }
    if item.pr.reviewDecision == "APPROVED" {
      CanMergeExactly(c, issue, Some(item.pr), w.evidence);
      return Approve(d.canMerge);
    }
    return if item.pr.reviewDecision == "CHANGES_REQUESTED" then Rework else Wait;
  }

  class Worker {
    var effects: seq<Effect>
    var events: seq<Event>
    // The appends asked for since the current pull request was begun, how many they
    // are, and the events stored before it.
    ghost var appends: seq<Event>
    var asked: nat
    ghost var earlier: seq<Event>

    constructor ()
      ensures effects == [] && events == []
    {
      effects, events, asked := [], [], 0;
      appends, earlier := [], [];
    }

    /** Of the appends for the current pull request, those that went through have been
        added to the events from before it. */
    ghost predicate Logs(w: World)
      reads this
    {
      asked == |appends| && events == earlier + Stored(appends, w.appended, |appends|)
    }

    method Happens(e: Effect)
      modifies `effects
      ensures effects == old(effects) + [e]
    {
      effects := effects + [e];
    }

    method Note(w: World, e: Event)
      requires Logs(w)
      modifies `events, `appends, `asked
      ensures Logs(w) && appends == old(appends) + [e]
    {
      StoredPrefix(appends, e, w.appended, |appends|);
      if w.appended(asked) { events := events + [e]; }
      appends, asked := appends + [e], asked + 1;
    }

    method Fail(w: World, n: int, phase: Phase)
      requires Logs(w)
      modifies `events, `appends, `asked
      ensures Logs(w) && appends == old(appends) + [MergeFailed(n, phase), ErrorRecorded(n)]
    {
      Note(w, MergeFailed(n, phase));
      Note(w, ErrorRecorded(n));
    }

    method FailStep(w: World, ended: Event, n: int, phase: Phase)
      requires Logs(w)
      modifies `events, `appends, `asked
      ensures Logs(w) && appends == old(appends) + [ended, MergeFailed(n, phase), ErrorRecorded(n)]
    {
      Note(w, ended);
      Fail(w, n, phase);
    }

    method HandlePullRequest(c: Config, item: Item) returns (err: bool)
      modifies this
      ensures effects == old(effects) + EffectsOf(c, item)
      ensures events == old(events) + LogOf(c, item)
      ensures err == Fails(c, item)
    {
      earlier, appends, asked := events, [], 0;
      var route := Classify(c, item);
      err := Follow(route, item);
      assert appends == EventsOf(c, item);
    }

    method Follow(route: Route, item: Item) returns (err: bool)
      requires Logs(item.world)
      modifies `effects, `events, `appends, `asked
      ensures effects == old(effects) + EffectsFor(route, item)
      ensures Logs(item.world) && appends == old(appends) + EventsFor(route, item)
      ensures err == FailsFor(route, item)
    {
      var w := item.world;
      match route {
        case Error(recorded) =>
          if recorded { Note(w, ErrorRecorded(item.number)); }
          err := true;
        case Leave => err := false;
        case Wait => err := false;
        case BlockedOut => Note(w, MergeBlocked(item.number)); err := false;
        case Quarantine => Note(w, MergeBlocked(item.number)); err := false;
        case Conflict => Note(w, MergeBlocked(item.number)); err := CaptureFeedback(item);
        case Rework => err := HandleChangesRequested(item);
        case Approve(canMerge) => err := HandleApproved(item, canMerge);
      }
    }

    method CaptureFeedback(item: Item) returns (err: bool)
      modifies `effects
      ensures effects == old(effects) + FeedbackEffects(item) && err == FeedbackFails(item.world)
    {
      var w := item.world;
      if !w.directoryMade { return true; }
      if !w.feedbackWritten { return true; }
      Happens(WriteFeedback(item.number));
      if w.readyStateExists {
        if !w.movedToReady { return true; }
        Happens(MoveToReady(item.number));
      }
      return false;
    }

    method HandleChangesRequested(item: Item) returns (err: bool)
      modifies `effects
      ensures effects == old(effects) + if item.world.feedbackCollected && !item.world.feedbackAddressed
                                        then FeedbackEffects(item) else []
      ensures err <==> !item.world.feedbackCollected || !item.world.directoryMade
                       || (!item.world.feedbackAddressed && FeedbackFails(item.world))
    {
      if !item.world.feedbackCollected { return true; }
      if !item.world.directoryMade { return true; }
      if item.world.feedbackAddressed { return false; }
      err := CaptureFeedback(item);
    }

    method HandleApproved(item: Item, canMerge: bool) returns (err: bool)
      requires Logs(item.world)
      modifies `effects, `events, `appends, `asked
      ensures effects == old(effects) + EffectsFor(Approve(canMerge), item)
      ensures Logs(item.world) && appends == old(appends) + EventsFor(Approve(canMerge), item)
      ensures err == FailsFor(Approve(canMerge), item)
    {
      var w := item.world;
      if w.canceledBeforeMerge { return true; }
      if !canMerge { Note(w, MergeBlocked(item.number)); return false; }
      err := Merge(item);
    }

    method Merge(item: Item) returns (err: bool)
      requires Logs(item.world)
      modifies `effects, `events, `appends, `asked
      ensures effects == old(effects) + MergeEffects(item)
      ensures Logs(item.world) && appends == old(appends) + MergeEvents(item)
      ensures err == MergeFails(item.world)
    {
      var w, n := item.world, item.number;
      Note(w, MergeAttempted(n));
      if !w.squashed {
        Fail(w, n, SquashPhase);
        return true;
      }
      Happens(SquashMerge(n));
      if w.canceledAfterSquash { return true; }
      err := AfterSquash(item);
    }

    method AfterSquash(item: Item) returns (err: bool)
      requires Logs(item.world) && item.world.squashed && !item.world.canceledAfterSquash
      modifies `effects, `events, `appends, `asked
      ensures effects == old(effects) + BranchEffects(item)
      ensures Logs(item.world) && appends == old(appends) + BranchEvents(item)
      ensures err == BranchFails(item.world)
    {
      Note(item.world, MergeSucceeded(item.number));
      Note(item.world, BranchAttempted(item.number));
      err := DeleteTheBranch(item);
    }

    method DeleteTheBranch(item: Item) returns (err: bool)
      requires Logs(item.world)
      modifies `effects, `events, `appends, `asked
      ensures effects == old(effects) + BranchEffects(item)
      ensures Logs(item.world) && appends == old(appends) + BranchEnd(item)
      ensures err == BranchFails(item.world)
    {
      if !item.world.branchDeleted {
        FailStep(item.world, BranchFinished(item.number, false), item.number, BranchPhase);
        return true;
      }
      Happens(DeleteBranch(item.number));
      err := AfterDelete(item);
    }

    method AfterDelete(item: Item) returns (err: bool)
      requires Logs(item.world)
      modifies `effects, `events, `appends, `asked
      ensures effects == old(effects) + if item.world.canceledAfterDelete then [] else FinishEffects(item)
      ensures Logs(item.world) && appends == old(appends) + DeletionEvents(item)
      ensures err == (item.world.canceledAfterDelete || FinishFails(item.world))
    {
      if item.world.canceledAfterDelete { return true; }
      Note(item.world, BranchFinished(item.number, true));
      err := Finish(item);
    }

    method Finish(item: Item) returns (err: bool)
      requires Logs(item.world)
      modifies `effects, `events, `appends, `asked
      ensures effects == old(effects) + FinishEffects(item)
      ensures Logs(item.world) && appends == old(appends) + DoneEvents(item)
      ensures err == FinishFails(item.world)
    {
      var w, n := item.world, item.number;
      if w.doneStateExists {
        Note(w, DoneAttempted(n));
        if !w.movedToDone {
          FailStep(w, DoneFinished(n, false), n, DonePhase);
          return true;
        }
        Happens(MoveToDone(n));
        Note(w, DoneFinished(n, true));
      }
      if !w.workspaceRemoved {
        Fail(w, n, WorkspacePhase);
        return true;
      }
      Happens(RemoveWorkspace(n));
      Note(w, MergeCompleted(n));
      return false;
    }

    /** Handles the list in order and stops at the first error. */
    method MergeApprovedPRs(c: Config, items: seq<Item>) returns (err: bool)
      modifies this
      ensures effects == old(effects) + RunFrom(EffectsBy(c), FailsBy(c), items, 0)
      ensures events == old(events) + RunFrom(LogBy(c), FailsBy(c), items, 0)
      ensures err == FailsFrom(FailsBy(c), items, 0)
    {
      err := HandleAll(c, items, EffectsBy(c), LogBy(c), FailsBy(c));
    }

    method HandleAll(c: Config, items: seq<Item>, ghost part: Item -> seq<Effect>, ghost log: Item -> seq<Event>,
                     ghost fails: Item -> bool) returns (err: bool)
      requires Describes(c, part, log, fails)
      modifies this
      ensures effects == old(effects) + RunFrom(part, fails, items, 0)
      ensures events == old(events) + RunFrom(log, fails, items, 0)
      ensures err == FailsFrom(fails, items, 0)
    {
      var k := 0;
      while k < |items|
        invariant k <= |items| && FailsFrom(fails, items, k) == FailsFrom(fails, items, 0)
        invariant effects + RunFrom(part, fails, items, k) == old(effects) + RunFrom(part, fails, items, 0)
        invariant events + RunFrom(log, fails, items, k) == old(events) + RunFrom(log, fails, items, 0)
      {
        ghost var effects0, events0 := effects, events;
        var failed := Handle(c, items[k], part, log, fails);
        RunStep(effects0, part, fails, items, k);
        RunStep(events0, log, fails, items, k);
        if failed { return true; }
        k := k + 1;
      }
      Neutral(effects);
      Neutral(events);
      return false;
    }

    method Handle(c: Config, item: Item, ghost part: Item -> seq<Effect>, ghost log: Item -> seq<Event>,
                  ghost fails: Item -> bool) returns (err: bool)
      requires Describes(c, part, log, fails)
      modifies this
      ensures effects == old(effects) + part(item) && events == old(events) + log(item) && err == fails(item)
    {
      err := HandlePullRequest(c, item);
    }
  }

  // ----- lists -----

  function EffectsBy(c: Config): Item -> seq<Effect> {
    (item: Item) => EffectsOf(c, item)
  }

  function LogBy(c: Config): Item -> seq<Event> {
    (item: Item) => LogOf(c, item)
  }

  function FailsBy(c: Config): Item -> bool {
    (item: Item) => Fails(c, item)
  }

  /** The functions say what handling an item does. */
  ghost predicate Describes(c: Config, part: Item -> seq<Effect>, log: Item -> seq<Event>, fails: Item -> bool) {
    forall item {:trigger EffectsOf(c, item)} ::
      part(item) == EffectsOf(c, item) && log(item) == LogOf(c, item) && fails(item) == Fails(c, item)
  }

  /** What a run logs from item k on: it ends after the first item that fails. */
  function RunFrom<T>(part: Item -> seq<T>, fails: Item -> bool, items: seq<Item>, k: nat): seq<T>
    requires k <= |items|
    decreases |items| - k
  {
    if k == |items| then []
    else if fails(items[k]) then part(items[k])
    else part(items[k]) + RunFrom(part, fails, items, k + 1)
  }

  predicate FailsFrom(fails: Item -> bool, items: seq<Item>, k: nat)
    requires k <= |items|
    decreases |items| - k
  {
    k < |items| && (fails(items[k]) || FailsFrom(fails, items, k + 1))
  }

  /** A run that starts at item `from` gets to item k. */
  predicate Reaches(fails: Item -> bool, items: seq<Item>, from: nat, k: nat)
    requires from <= |items| && k < |items|
    decreases |items| - from
  {
    from == k || (from < k && !fails(items[from]) && Reaches(fails, items, from + 1, k))
  }

  /** What is logged after item k, with what is still to come. */
  lemma RunStep<T>(log: seq<T>, part: Item -> seq<T>, fails: Item -> bool, items: seq<Item>, k: nat)
    requires k < |items|
    ensures log + RunFrom(part, fails, items, k) ==
      if fails(items[k]) then log + part(items[k]) else (log + part(items[k])) + RunFrom(part, fails, items, k + 1)
  {
    assert (log + part(items[k])) + RunFrom(part, fails, items, k + 1)
        == log + (part(items[k]) + RunFrom(part, fails, items, k + 1));
  }

  lemma Neutral<T>(s: seq<T>)
    ensures s + [] == s
  {
  }

  /** The elements of the first k that satisfy f. */
  function Keep<T>(s: seq<T>, f: T -> bool, k: nat): seq<T>
    requires k <= |s|
  {
    if k == 0 then [] else Keep(s, f, k - 1) + if f(s[k - 1]) then [s[k - 1]] else []
  }

  lemma {:induction false} KeepPrefix<T>(a: seq<T>, b: seq<T>, f: T -> bool, k: nat)
    requires k <= |a|
    ensures Keep(a + b, f, k) == Keep(a, f, k)
  {
    if k > 0 { KeepPrefix(a, b, f, k - 1); }
  }

  lemma {:induction false} KeepConcat<T>(a: seq<T>, b: seq<T>, f: T -> bool, k: nat)
    requires k <= |b|
    ensures Keep(a + b, f, |a| + k) == Keep(a, f, |a|) + Keep(b, f, k)
  {
    if k == 0 {
      KeepPrefix(a, b, f, |a|);
    } else {
      KeepConcat(a, b, f, k - 1);
      assert (a + b)[|a| + k - 1] == b[k - 1];
    }
  }

  lemma {:induction false} KeepAll<T>(s: seq<T>, f: T -> bool, k: nat)
    requires k <= |s| && AllOf(s, f)
    ensures Keep(s, f, k) == s[..k]
  {
    if k > 0 { KeepAll(s, f, k - 1); }
  }

  lemma {:induction false} KeepNone<T>(s: seq<T>, f: T -> bool, k: nat)
    requires k <= |s| && NoneOf(s, f)
    ensures Keep(s, f, k) == []
  {
    if k > 0 { KeepNone(s, f, k - 1); }
  }

  function EffectOn(n: int): Effect -> bool {
    (e: Effect) => e.pr == n
  }

  function EventOn(n: int): Event -> bool {
    (e: Event) => e.pr == n
  }

  /** The effects on one pull request, and its events. */
  function On(effects: seq<Effect>, n: int): seq<Effect> {
    Keep(effects, EffectOn(n), |effects|)
  }

  function EventsOn(events: seq<Event>, n: int): seq<Event> {
    Keep(events, EventOn(n), |events|)
  }

  predicate DistinctNumbers(items: seq<Item>) {
    forall j, k :: 0 <= j < k < |items| ==> items[j].number != items[k].number
  }

  predicate AllOf<T>(s: seq<T>, f: T -> bool) {
    forall j :: 0 <= j < |s| ==> f(s[j])
  }

  predicate NoneOf<T>(s: seq<T>, f: T -> bool) {
    forall j :: 0 <= j < |s| ==> !f(s[j])
  }

  /** Item k's part is told apart by f: all of it satisfies f, and nothing of any
      other item does. */
  predicate Separates<T>(part: Item -> seq<T>, f: T -> bool, items: seq<Item>, k: nat) {
    && k < |items|
    && AllOf(part(items[k]), f)
    && (forall j :: 0 <= j < |items| && j != k ==> NoneOf(part(items[j]), f))
  }

  /** What a run logs about one item is that item's part, if the run got there. */
  lemma {:induction false} RunOnOne<T>(part: Item -> seq<T>, fails: Item -> bool, f: T -> bool, items: seq<Item>,
                                       from: nat, k: nat)
    requires Separates(part, f, items, k) && from <= |items|
    ensures var run := RunFrom(part, fails, items, from);
      Keep(run, f, |run|) == if Reaches(fails, items, from, k) then part(items[k]) else []
    decreases |items| - from
  {
    if from < |items| {
      var own, rest := part(items[from]), RunFrom(part, fails, items, from + 1);
      RunOnOne(part, fails, f, items, from + 1, k);
      KeepOwn(part, f, items, from, k);
      KeepConcat(own, rest, f, |rest|);
    }
  }

  lemma KeepOwn<T>(part: Item -> seq<T>, f: T -> bool, items: seq<Item>, j: nat, k: nat)
    requires Separates(part, f, items, k) && j < |items|
    ensures Keep(part(items[j]), f, |part(items[j])|) == if j == k then part(items[j]) else []
  {
    var own := part(items[j]);
    if j == k {
      KeepAll(own, f, |own|);
      assert own[..|own|] == own;
    } else {
      KeepNone(own, f, |own|);
    }
  }

  lemma EffectsAreOwn(c: Config, item: Item)
    ensures AllOf(EffectsOf(c, item), EffectOn(item.number)) && AllOf(LogOf(c, item), EventOn(item.number))
  {
    OwnEffects(RouteOf(c, item), item);
    OwnEvents(RouteOf(c, item), item);
    var log, appends := LogOf(c, item), EventsOf(c, item);
    forall j | 0 <= j < |log| ensures EventOn(item.number)(log[j]) {
      StoredMembers(appends, item.world.appended, |appends|, log[j]);
    }
  }

  lemma OwnEffects(route: Route, item: Item)
    ensures AllOf(EffectsFor(route, item), EffectOn(item.number))
  {
  }

  lemma OwnEvents(route: Route, item: Item)
    ensures AllOf(EventsFor(route, item), EventOn(item.number))
  {
  }

  lemma NumbersSeparate(c: Config, items: seq<Item>, k: nat)
    requires DistinctNumbers(items) && k < |items|
    ensures Separates(EffectsBy(c), EffectOn(items[k].number), items, k)
    ensures Separates(LogBy(c), EventOn(items[k].number), items, k)
  {
    EffectsAreOwn(c, items[k]);
    forall j | 0 <= j < |items| && j != k
      ensures NoneOf(EffectsBy(c)(items[j]), EffectOn(items[k].number))
      ensures NoneOf(LogBy(c)(items[j]), EventOn(items[k].number))
    {
      EffectsAreOwn(c, items[j]);
      Others(EffectsOf(c, items[j]), LogOf(c, items[j]), items[j].number, items[k].number);
    }
  }

  lemma Others(effects: seq<Effect>, events: seq<Event>, n: int, m: int)
    requires AllOf(effects, EffectOn(n)) && AllOf(events, EventOn(n)) && n != m
    ensures NoneOf(effects, EffectOn(m)) && NoneOf(events, EventOn(m))
  {
    forall j | 0 <= j < |effects| ensures !EffectOn(m)(effects[j]) { assert EffectOn(n)(effects[j]); }
    forall j | 0 <= j < |events| ensures !EventOn(m)(events[j]) { assert EventOn(n)(events[j]); }
  }

  /** In a run over pull requests with distinct numbers, effects and events of each
      are those of handling it, if the run got there. */
  lemma RunOnEach(c: Config, items: seq<Item>, k: nat)
    requires DistinctNumbers(items) && k < |items|
    ensures var n, reached := items[k].number, Reaches(FailsBy(c), items, 0, k);
      && On(RunFrom(EffectsBy(c), FailsBy(c), items, 0), n) == (if reached then EffectsOf(c, items[k]) else [])
      && EventsOn(RunFrom(LogBy(c), FailsBy(c), items, 0), n) == (if reached then LogOf(c, items[k]) else [])
  {
    NumbersSeparate(c, items, k);
    RunOnOne(EffectsBy(c), FailsBy(c), EffectOn(items[k].number), items, 0, k);
    RunOnOne(LogBy(c), FailsBy(c), EventOn(items[k].number), items, 0, k);
  }

  // ----- the promises -----

  /** A squash happens exactly when every merge gate holds and nothing is canceled
      before it: the worker's own checks add nothing to the reconciler's decision. */
  lemma MergesExactly(c: Config, item: Item)
    ensures Merges(c, item) <==>
      && !item.world.canceled && item.world.lookup.FoundIssue? && item.world.statesRead
      && !item.world.canceledBeforeMerge && Mergeable(c, item.world.lookup.issue, item.pr, item.world.evidence)
  {
    if item.world.lookup.FoundIssue? {
      CanMergeExactly(c, item.world.lookup.issue, Some(item.pr), item.world.evidence);
      VerdictsAreConsistent(c, item.world.lookup.issue, Some(item.pr), item.world.evidence);
    }
  }

  lemma NoOtherMerges(c: Config, item: Item)
    ensures SquashMerge(item.number) in EffectsOf(c, item) <==> Merges(c, item) && item.world.squashed
  {
    if Merges(c, item) && item.world.squashed { assert EffectsOf(c, item)[0] == SquashMerge(item.number); }
  }

  /** Merge side effects are ordered, for every list and every pattern of failures:
      on each pull request they are nothing, the capture of feedback, or a prefix of
      squash, delete branch, move to Done if there is such a state, and remove
      workspace. */
  lemma EffectsAreAPrefix(c: Config, items: seq<Item>, k: nat)
    requires DistinctNumbers(items) && k < |items|
    ensures var es := On(RunFrom(EffectsBy(c), FailsBy(c), items, 0), items[k].number);
      && (es <= Sequence(items[k]) || es <= [WriteFeedback(items[k].number), MoveToReady(items[k].number)])
      && (SquashMerge(items[k].number) in es ==>
            && Merges(c, items[k]) && items[k].pr.reviewDecision == "APPROVED"
            && Decide(c, items[k].world.lookup.issue, Some(items[k].pr), items[k].world.evidence).canMerge)
  {
    RunOnEach(c, items, k);
    EffectShapes(c, items[k], On(RunFrom(EffectsBy(c), FailsBy(c), items, 0), items[k].number));
  }

  lemma EffectShapes(c: Config, item: Item, es: seq<Effect>)
    requires es == [] || es == EffectsOf(c, item)
    ensures es <= Sequence(item) || es <= [WriteFeedback(item.number), MoveToReady(item.number)]
    ensures SquashMerge(item.number) in es ==>
      && Merges(c, item) && item.pr.reviewDecision == "APPROVED"
      && Decide(c, item.world.lookup.issue, Some(item.pr), item.world.evidence).canMerge
  {
    NoOtherMerges(c, item);
    MergeIsAPrefix(item);
  }

  /** What the log says about a pull request, for every list and every pattern of
      failures, failed appends included. Completion is logged if and only if the whole
      sequence went through and the last append did; the success of the squash if and
      only if it happened, the context did not end right after it, and the second append
      went through; the attempt if and only if the run got there, every merge gate
      holds, and the first append went through. */
  lemma CompletionIsLogged(c: Config, items: seq<Item>, k: nat)
    requires DistinctNumbers(items) && k < |items|
    ensures var n, w, reached := items[k].number, items[k].world, Reaches(FailsBy(c), items, 0, k);
      var es := On(RunFrom(EffectsBy(c), FailsBy(c), items, 0), n);
      var log := EventsOn(RunFrom(LogBy(c), FailsBy(c), items, 0), n);
      && (MergeCompleted(n) in log <==> es == Sequence(items[k]) && w.appended(LastAppend(items[k])))
      && (MergeSucceeded(n) in log <==> SquashMerge(n) in es && !w.canceledAfterSquash && w.appended(1))
      && (MergeAttempted(n) in log <==> reached && Merges(c, items[k]) && w.appended(0))
  {
    RunOnEach(c, items, k);
    LogOfOne(c, items[k]);
  }

  /** The number of appends that a complete merge makes before the last one. */
  function LastAppend(item: Item): nat {
    if item.world.doneStateExists then 6 else 4
  }

  lemma LogOfOne(c: Config, item: Item)
    ensures MergeCompleted(item.number) in LogOf(c, item) <==>
      EffectsOf(c, item) == Sequence(item) && item.world.appended(LastAppend(item))
    ensures MergeSucceeded(item.number) in LogOf(c, item) <==>
      SquashMerge(item.number) in EffectsOf(c, item) && !item.world.canceledAfterSquash && item.world.appended(1)
    ensures MergeAttempted(item.number) in LogOf(c, item) <==> Merges(c, item) && item.world.appended(0)
  {
    NoOtherMerges(c, item);
    StoredWhere(c, item, MergeCompleted(item.number));
    StoredWhere(c, item, MergeSucceeded(item.number));
    StoredWhere(c, item, MergeAttempted(item.number));
    if Merges(c, item) {
      MergeIsAPrefix(item);
      EventPlaces(item);
      CompletionPlace(item);
    }
  }

  lemma StoredWhere(c: Config, item: Item, e: Event)
    ensures e in LogOf(c, item) <==>
      exists j: nat :: j < |EventsOf(c, item)| && EventsOf(c, item)[j] == e && item.world.appended(j)
  {
    StoredMembers(EventsOf(c, item), item.world.appended, |EventsOf(c, item)|, e);
  }

  /** Where an attempted merge appends its attempt, the squash and its completion. */
  lemma EventPlaces(item: Item)
    ensures var es, n, w := MergeEvents(item), item.number, item.world;
      && (forall j :: 0 <= j < |es| ==> (es[j] == MergeAttempted(n) <==> j == 0))
      && (forall j :: 0 <= j < |es| ==>
            (es[j] == MergeSucceeded(n) <==> j == 1 && w.squashed && !w.canceledAfterSquash))
      && |es| > 0 && (w.squashed && !w.canceledAfterSquash ==> |es| > 1)
  {
  }

  lemma CompletionPlace(item: Item)
    ensures var es := MergeEvents(item);
      && (forall j :: 0 <= j < |es| ==>
            (es[j] == MergeCompleted(item.number) <==> j == LastAppend(item) && !MergeFails(item.world)))
      && (!MergeFails(item.world) ==> |es| == LastAppend(item) + 1)
  {
  }
}
