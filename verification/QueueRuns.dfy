/** Whole runs of the work queue: any sequence of statements, issued by any
    number of processes in any interleaving. */
module QueueRuns {
  import opened Text
  import opened WorkQueue

  /** qs[i] is the queue before statement ops[i]. */
  ghost predicate IsRun(qs: seq<Queue>, ops: seq<Op>) {
    && |qs| == |ops| + 1
    && forall i :: 0 <= i < |ops| ==> qs[i + 1] == Apply(qs[i], ops[i])
  }

  ghost predicate Claims(q: Queue, op: Op, key: string) {
    ClaimedKey(q, op) == Some(key)
  }

  /** The statement writes status queued into this key. */
  ghost predicate Queues(q: Queue, op: Op, key: string) {
    match op
    case Upsert(k, task) => k == key && task.status == Queued
    case Complete(k, status, now) => k == key && HasStatus(q, k, Claimed) && status == Queued
    case Requeue(k, now) => k == key && HasStatus(q, k, ReconciliationNeeded)
    case _ => false
  }

  // ----- claims are exclusive -----

  /** A claim takes a queued task, leaves it claimed, and takes no other; nothing
      but a queueing statement makes a task queued. */
  lemma StepOnStatus(q: Queue, op: Op, key: string)
    ensures Claims(q, op, key) ==> HasStatus(q, key, Queued) && HasStatus(Apply(q, op), key, Claimed)
    ensures HasStatus(Apply(q, op), key, Queued) ==>
              Queues(q, op, key) || (HasStatus(q, key, Queued) && !Claims(q, op, key))
    ensures forall other :: Claims(q, op, key) && Claims(q, op, other) ==> other == key
  {
  }

  /** Complete and touch change a row only while it is claimed. */
  lemma OnlyClaimedTasksComplete(q: Queue, op: Op, key: string)
    requires op.Complete? || op.Touch? || op.Quarantine?
    requires key in q.tasks && Apply(q, op).tasks[key] != q.tasks[key]
    ensures q.tasks[key].status == Claimed && op.key == key
    ensures Apply(q, op).tasks[key] ==
              q.tasks[key].(updatedAt := op.now, status :=
                if op.Complete? then op.status else if op.Touch? then Claimed else ReconciliationNeeded)
  {
  }

  /** Between two claims of one key some statement queued it again. */
  lemma {:induction false} ClaimsAreSeparated(qs: seq<Queue>, ops: seq<Op>, key: string, i: nat, j: nat)
    requires IsRun(qs, ops) && i < j < |ops|
    requires Claims(qs[i], ops[i], key) && Claims(qs[j], ops[j], key)
    ensures exists m :: i < m < j && Queues(qs[m], ops[m], key)
  {
    StepOnStatus(qs[i], ops[i], key);
    StepOnStatus(qs[j], ops[j], key);
    var m := LastQueued(qs, ops, key, i + 1, j);
  }

  /** Where a key became queued, given that it was not at `lo` and is at `hi`. */
  lemma {:induction false} LastQueued(qs: seq<Queue>, ops: seq<Op>, key: string, lo: nat, hi: nat) returns (m: nat)
    requires IsRun(qs, ops) && lo <= hi <= |ops|
    requires !HasStatus(qs[lo], key, Queued) && HasStatus(qs[hi], key, Queued)
    ensures lo <= m < hi && Queues(qs[m], ops[m], key)
    decreases hi
  {
    StepOnStatus(qs[hi - 1], ops[hi - 1], key);
    if Queues(qs[hi - 1], ops[hi - 1], key) { m := hi - 1; }
    else { m := LastQueued(qs, ops, key, lo, hi - 1); }
  }

  ghost function ClaimCount(qs: seq<Queue>, ops: seq<Op>, key: string, n: nat): nat
    requires IsRun(qs, ops) && n <= |ops|
  {
    if n == 0 then 0
    else ClaimCount(qs, ops, key, n - 1) + (if Claims(qs[n - 1], ops[n - 1], key) then 1 else 0)
  }

  ghost function QueueCount(qs: seq<Queue>, ops: seq<Op>, key: string, n: nat): nat
    requires IsRun(qs, ops) && n <= |ops|
  {
    if n == 0 then 0
    else QueueCount(qs, ops, key, n - 1) + (if Queues(qs[n - 1], ops[n - 1], key) then 1 else 0)
  }

  ghost function One(b: bool): nat { if b then 1 else 0 }

  /** Claims so far, plus one if the key is queued now, never exceed the writes
      that queued it, plus one if it was queued at the start. */
  lemma {:induction false} ClaimAccounting(qs: seq<Queue>, ops: seq<Op>, key: string, n: nat)
    requires IsRun(qs, ops) && n <= |ops|
    ensures ClaimCount(qs, ops, key, n) + One(HasStatus(qs[n], key, Queued))
         <= QueueCount(qs, ops, key, n) + One(HasStatus(qs[0], key, Queued))
  {
    if n > 0 {
      ClaimAccounting(qs, ops, key, n - 1);
      StepOnStatus(qs[n - 1], ops[n - 1], key);
    }
  }

  // ----- bounded waiting -----

  /** The queued tasks of this key's role that are not behind it. */
  ghost function Ahead(q: Queue, key: string): set<string>
    requires key in q.tasks
  {
    set x | x in q.tasks && q.tasks[x].status == Queued && q.tasks[x].role == q.tasks[key].role
            && (x == key || Before(q.tasks[x], x, q.tasks[key], key))
  }

  /** A claim-next for this key's role, late enough for the key to be available. */
  predicate Serves(op: Op, role: string, available: Time) {
    op.ClaimNext? && op.role == role && op.now >= available
  }

  ghost function Served(qs: seq<Queue>, ops: seq<Op>, role: string, available: Time, n: nat): nat
    requires IsRun(qs, ops) && n <= |ops|
  {
    if n == 0 then 0
    else Served(qs, ops, role, available, n - 1) + One(Serves(ops[n - 1], role, available))
  }

  /** The statement does not rewrite this key's row, and whatever it queues for
      the same role lands behind it. */
  ghost predicate LandsBehind(q: Queue, op: Op, key: string)
    requires key in q.tasks
  {
    && (op.Upsert? ==> op.key != key)
    && forall x :: Queues(q, op, x) && Apply(q, op).tasks[x].role == q.tasks[key].role
             ==> Before(q.tasks[key], key, Apply(q, op).tasks[x], x)
  }

  lemma AheadStep(q: Queue, op: Op, key: string)
    requires HasStatus(q, key, Queued) && LandsBehind(q, op, key) && !Claims(q, op, key)
    ensures var q' := Apply(q, op);
      && key in q'.tasks && q'.tasks[key] == q.tasks[key]
      && |Ahead(q', key)| + One(Serves(op, q.tasks[key].role, q.tasks[key].availableAt)) <= |Ahead(q, key)|
  {
    var q' := Apply(q, op);
    assert q'.tasks[key] == q.tasks[key];
    forall x | x in Ahead(q', key) ensures x in Ahead(q, key) {
      StepOnStatus(q, op, x);
      if x != key && Queues(q, op, x) { BeforeTotal(q.tasks[key], key, q'.tasks[x], x); }
    }
    assert Ahead(q', key) <= Ahead(q, key);
    if Serves(op, q.tasks[key].role, q.tasks[key].availableAt) {
      assert Claimable(q, key, op.role, op.now);
      SomethingIsNext(q, op.role, op.now);
      var k := ClaimedKey(q, op).value;
      assert IsNext(q, k, op.role, op.now);
      assert k in Ahead(q, key) && k !in Ahead(q', key);
      SmallerSet(Ahead(q', key), Ahead(q, key), k);
    } else {
      NoLargerSet(Ahead(q', key), Ahead(q, key));
    }
  }

  lemma NoLargerSet<T>(a: set<T>, b: set<T>)
    requires a <= b
    ensures |a| <= |b|
  {
    assert b == a + (b - a);
  }

  lemma SmallerSet<T>(a: set<T>, b: set<T>, x: T)
    requires a <= b && x in b && x !in a
    ensures |a| + 1 <= |b|
  {
    NoLargerSet(a, b - {x});
  }

  lemma {:induction false} WaitingSoFar(qs: seq<Queue>, ops: seq<Op>, key: string, n: nat)
    requires IsRun(qs, ops) && n <= |ops| && HasStatus(qs[0], key, Queued)
    requires forall i :: 0 <= i < n ==> key in qs[i].tasks ==> LandsBehind(qs[i], ops[i], key)
    requires forall i :: 0 <= i < n ==> !Claims(qs[i], ops[i], key)
    ensures HasStatus(qs[n], key, Queued) && qs[n].tasks[key] == qs[0].tasks[key]
    ensures |Ahead(qs[n], key)| + Served(qs, ops, qs[0].tasks[key].role, qs[0].tasks[key].availableAt, n)
         <= |Ahead(qs[0], key)|
    ensures |Ahead(qs[n], key)| > 0
  {
    if n > 0 {
      WaitingSoFar(qs, ops, key, n - 1);
      AheadStep(qs[n - 1], ops[n - 1], key);
    }
    assert key in Ahead(qs[n], key);
  }

  /** A queued task is claimed within as many claim-nexts of its role as there are
      queued tasks of that role at or before it. */
  lemma {:induction false} BoundedWaiting(qs: seq<Queue>, ops: seq<Op>, key: string)
    requires IsRun(qs, ops) && HasStatus(qs[0], key, Queued)
    requires forall i :: 0 <= i < |ops| ==> key in qs[i].tasks ==> LandsBehind(qs[i], ops[i], key)
    requires Served(qs, ops, qs[0].tasks[key].role, qs[0].tasks[key].availableAt, |ops|) >= |Ahead(qs[0], key)|
    ensures exists i :: 0 <= i < |ops| && Claims(qs[i], ops[i], key)
  {
    if forall i :: 0 <= i < |ops| ==> !Claims(qs[i], ops[i], key) {
      WaitingSoFar(qs, ops, key, |ops|);
    }
  }

  // ----- failure backoff -----

  /** An enqueue or an operator requeue of this key. */
  predicate Reschedules(op: Op, key: string) {
    (op.Upsert? || op.Requeue?) && op.key == key
  }

  /** Only an enqueue or an operator requeue moves a key's availability. */
  lemma {:induction false} AvailabilityFrozen(qs: seq<Queue>, ops: seq<Op>, key: string, i: nat, j: nat)
    requires IsRun(qs, ops) && i <= j <= |ops| && key in qs[i].tasks
    requires forall m :: i <= m < j ==> !Reschedules(ops[m], key)
    ensures key in qs[j].tasks && qs[j].tasks[key].availableAt == qs[i].tasks[key].availableAt
    decreases j
  {
    if i < j { AvailabilityFrozen(qs, ops, key, i, j - 1); }
  }

  /** A failure that finished at f and was on record when the enqueuer read the
      results (step r) holds back every claim that arises from that enqueue
      (step e, at time `now`), until it is enqueued or repaired again. */
  lemma BackoffEnforced(qs: seq<Queue>, ops: seq<Op>, key: string, role: string, r: nat, e: nat, now: Time, c: nat)
    requires IsRun(qs, ops) && r <= e < c < |ops|
    requires ops[e].Upsert? && ops[e].key == key
    requires ops[e].task.availableAt == AvailableAt(qs[r].results, key, role, now)
    requires Claims(qs[c], ops[c], key)
    requires forall m :: e < m < c ==> !Reschedules(ops[m], key)
    ensures ops[c].now >= now
    ensures (&& key != "" && role != "" && key in qs[r].results
             && qs[r].results[key].role == role && qs[r].results[key].status == Failed)
              ==> ops[c].now >= qs[r].results[key].finishedAt + RetryBackoff(role)
  {
    AvailabilityFrozen(qs, ops, key, e + 1, c);
  }

  /** The operator's requeue is the one way round it. */
  lemma RequeueBypassesBackoff()
    ensures exists q: Queue, now: Time ::
      && HasStatus(q, "review:CAG-1:1:resume", ReconciliationNeeded)
      && AvailableAt(q.results, "review:CAG-1:1:resume", "review", now) > now
      && Claims(Apply(q, Requeue("review:CAG-1:1:resume", now)),
                Claim("review:CAG-1:1:resume", now), "review:CAG-1:1:resume")
  {
    var key := "review:CAG-1:1:resume";
    var q := Queue(map[key := Task("review", "CAG-1", ReconciliationNeeded, 0, 0, "", 0, 0)],
                   map[key := WorkerResult("review", Failed, 10)]);
    var q' := Apply(q, Requeue(key, 20));
    assert q'.tasks[key].availableAt == 20;
    assert AvailableAt(q.results, key, "review", 20) > 20;
    assert Claims(q', Claim(key, 20), key);
  }

  // ----- recovery -----

  /** The decision to quarantine and the write are separate statements, and the
      write only asks whether the row is claimed. So a decision about one claim can
      hit the next claim of the same key, which no recovery would have chosen. */
  lemma StaleDecisionHitsTheNextClaim(q: Queue, leases: Leases, beats: Beats, key: string, now: Time,
                                      staleAfter: Time, status: Status, task: Task, later: Time)
    requires Recoverable(q, leases, beats, key, now, staleAfter) && staleAfter > 0
    requires task.status == Queued && task.availableAt <= later && now <= later
    ensures var q' := Apply(Apply(Apply(q, Complete(key, status, now)), Upsert(key, task)), Claim(key, later));
      && HasStatus(q', key, Claimed)
      && (forall leases', beats' :: !Recoverable(q', leases', beats', key, now, staleAfter))
      && HasStatus(Apply(q', Quarantine(key, now)), key, ReconciliationNeeded)
  {
    var q1 := Apply(Apply(q, Complete(key, status, now)), Upsert(key, task));
    assert ClaimedKey(q1, Claim(key, later)) == Some(key);
  }

  ghost predicate Rewrites(q: Queue, op: Op, key: string) {
    key in q.tasks && key in Apply(q, op).tasks && Apply(q, op).tasks[key] != q.tasks[key]
  }

  /** The update time a statement writes. */
  function StampOf(op: Op): Time {
    match op
    case Upsert(_, task) => task.updatedAt
    case PutResult(_, result) => result.finishedAt
    case _ => op.now
  }

  lemma RowStep(q: Queue, op: Op, key: string)
    requires key in q.tasks
    ensures key in Apply(q, op).tasks
    ensures Rewrites(q, op, key) ==> Apply(q, op).tasks[key].updatedAt == StampOf(op)
  {
  }

  /** Every rewrite of the row between the two steps is stamped after the cutoff. */
  ghost predicate RewritesAfter(qs: seq<Queue>, ops: seq<Op>, key: string, d: nat, m: nat, cutoff: Time)
    requires IsRun(qs, ops) && m <= |ops|
  {
    forall i :: d <= i < m && Rewrites(qs[i], ops[i], key) ==> StampOf(ops[i]) > cutoff
  }

  ghost predicate Untouched(qs: seq<Queue>, ops: seq<Op>, key: string, d: nat, m: nat)
    requires IsRun(qs, ops) && m <= |ops|
  {
    forall i :: d <= i < m ==> !Rewrites(qs[i], ops[i], key)
  }

  lemma {:induction false} RowSince(qs: seq<Queue>, ops: seq<Op>, key: string, d: nat, m: nat, cutoff: Time)
    requires IsRun(qs, ops) && d <= m <= |ops| && key in qs[d].tasks && RewritesAfter(qs, ops, key, d, m, cutoff)
    ensures key in qs[m].tasks
    ensures Untouched(qs, ops, key, d, m) ==> qs[m].tasks[key] == qs[d].tasks[key]
    ensures !Untouched(qs, ops, key, d, m) ==> qs[m].tasks[key].updatedAt > cutoff
    decreases m
  {
    if d < m {
      RowSince(qs, ops, key, d, m - 1, cutoff);
      RowStep(qs[m - 1], ops[m - 1], key);
    }
  }

  /** From the decision to quarantine (at step d) to the write that carries it out (at
      step m), in any run whose rewrites in between are stamped after the decision's
      cutoff: the row that is marked is the one that was decided on if and only if no
      statement rewrote it, which the mark could tell by its update time alone. If one
      did, the marked claim is newer than the cutoff, and no decision with this cutoff
      covers it, whatever leases and heartbeats say. */
  lemma MarkMeetsItsDecision(qs: seq<Queue>, ops: seq<Op>, key: string, leases: Leases, beats: Beats,
                             d: nat, m: nat, now: Time, staleAfter: Time)
    requires IsRun(qs, ops) && d <= m < |ops| && ops[m] == Quarantine(key, now)
    requires Recoverable(qs[d], leases, beats, key, now, staleAfter)
    requires RewritesAfter(qs, ops, key, d, m, now - staleAfter)
    ensures key in qs[m].tasks && key in qs[m + 1].tasks
    ensures qs[m].tasks[key] == qs[d].tasks[key] <==> Untouched(qs, ops, key, d, m)
    ensures qs[m].tasks[key] == qs[d].tasks[key] <==> qs[m].tasks[key].updatedAt <= now - staleAfter
    ensures Untouched(qs, ops, key, d, m) ==>
      qs[m + 1].tasks[key] == qs[d].tasks[key].(status := ReconciliationNeeded, updatedAt := now)
    ensures !Untouched(qs, ops, key, d, m) ==>
      forall leases', beats' :: !Recoverable(qs[m], leases', beats', key, now, staleAfter)
  {
    RowSince(qs, ops, key, d, m, now - staleAfter);
    RowStep(qs[m], ops[m], key);
  }
}
