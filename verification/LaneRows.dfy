/** What the lane cycle does with the lane's own row, and in which order a runner gives
    up what it holds. */
module LaneRows {
  import opened Text
  import opened WorkQueue
  import opened LaneProtocol

  /** No runner of this key has passed the check of its cycle and not written yet. */
  ghost predicate NobodyChecked(s: State, key: string) {
    forall id :: id in s.runners && s.runners[id].taskKey == key ==> !s.runners[id].phase.Checked?
  }

  /** The statement is the enqueue of a runner of this key that has passed its check. */
  predicate CheckedEnqueues(s: State, a: Action, key: string) {
    a.EnqueueLane? && PhaseOf(s, a.id).Checked? && s.runners[a.id].taskKey == key
  }

  /** A cycle that finds its row claimed or quarantined ends before it writes. */
  lemma CheckStopsTheCycle(s: State, id: nat)
    requires id in s.runners && s.runners[id].phase.Started?
    ensures var r := Next(s, Check(id)).runners[id];
      r == s.runners[id].(phase :=
        if s.runners[id].taskKey in s.queue.tasks
           && s.queue.tasks[s.runners[id].taskKey].status in {Status.Claimed, ReconciliationNeeded}
        then Idle else Checked(s.runners[id].phase.at))
  {
  }

  /** A step takes a runner past its check only if it is the check, and its row is
      neither claimed nor quarantined. */
  lemma CheckedFrom(s: State, a: Action, id: nat)
    requires id in Moved(s, a).runners && Moved(s, a).runners[id].phase.Checked?
    ensures id in s.runners && Moved(s, a).runners[id].taskKey == s.runners[id].taskKey
    ensures s.runners[id].phase.Checked? ||
      (&& !HasStatus(s.queue, s.runners[id].taskKey, Status.Claimed)
       && !HasStatus(s.queue, s.runners[id].taskKey, ReconciliationNeeded))
  {
    if !Outside(a) && a.id in s.runners {
      OneMoves(s, a);
      if a.id == id && Holds(s, id) { HolderIsUnchecked(s, a, id); }
      else if a.id == id { CheckedBy(s, a, id); }
    }
  }

  lemma HolderIsUnchecked(s: State, a: Action, id: nat)
    requires Holds(s, id)
    ensures !MovedHolder(s, a, id, s.runners[id], s.runners[id].phase).runners[id].phase.Checked?
  {
  }

  lemma CheckedBy(s: State, a: Action, id: nat)
    requires id in s.runners && !Holds(s, id)
    requires MovedRunner(s, a, id, s.runners[id], s.runners[id].phase).runners[id].phase.Checked?
    ensures s.runners[id].phase.Checked? ||
      (&& !HasStatus(s.queue, s.runners[id].taskKey, Status.Claimed)
       && !HasStatus(s.queue, s.runners[id].taskKey, ReconciliationNeeded))
  {
  }

  /** While the row is claimed or quarantined nobody newly passes the check. */
  lemma NobodyPasses(s: State, a: Action, key: string)
    requires NobodyChecked(s, key)
    requires HasStatus(s.queue, key, Status.Claimed) || HasStatus(s.queue, key, ReconciliationNeeded)
    ensures NobodyChecked(Next(s, a), key)
  {
    forall id | id in Next(s, a).runners && Next(s, a).runners[id].taskKey == key
      ensures !Next(s, a).runners[id].phase.Checked?
    {
      if Next(s, a).runners[id].phase.Checked? { CheckedFrom(s, a, id); }
    }
  }

  /** The statements that upsert a runner's row are those enqueues. */
  lemma UpsertsAreEnqueues(s: State, a: Action, key: string)
    requires Inv(s) && RunnerKey(key) && Statement(s, a).Some?
    requires Statement(s, a).value.Upsert? && Statement(s, a).value.key == key
    ensures CheckedEnqueues(s, a, key) && Statement(s, a).value.task.status == Queued
  {
    if a.EnqueueFound? {
      assert RunnerOk(s, a.id);
      RunnerLeases(key);
    }
  }

  /** What one step does to a quarantined lane row: it changes if and only if the
      operator requeues it or a runner enqueues that checked it before. */
  lemma QuarantinedLaneRowStep(s: State, a: Action, key: string)
    requires Inv(s) && RunnerKey(key) && HasStatus(s.queue, key, ReconciliationNeeded)
    ensures key in Next(s, a).queue.tasks
    ensures Next(s, a).queue.tasks[key] != s.queue.tasks[key] <==>
      OperatorRequeues(a, key) || CheckedEnqueues(s, a, key)
    ensures OperatorRequeues(a, key) || CheckedEnqueues(s, a, key) ==> HasStatus(Next(s, a).queue, key, Queued)
  {
    var op := Statement(s, a);
    if op.Some? {
      QuarantinedRow(s.queue, op.value, key);
      StatementsAreTame(s, a);
      if op.value.Upsert? && op.value.key == key { UpsertsAreEnqueues(s, a, key); }
    }
  }

  lemma QuarantinedRow(q: Queue, op: Op, key: string)
    requires HasStatus(q, key, ReconciliationNeeded)
    ensures key in Apply(q, op).tasks
    ensures op.Requeue? && op.key == key ==> HasStatus(Apply(q, op), key, Queued)
    ensures op.Upsert? && op.key == key ==> Apply(q, op).tasks[key].status == op.task.status
    ensures !(op.Requeue? && op.key == key) && !(op.Upsert? && op.key == key) ==>
      Apply(q, op).tasks[key] == q.tasks[key]
  {
  }

  /** Over every timely run: once a lane's row is quarantined and no runner is past its
      check, the row stays exactly as it is until the operator requeues it. */
  lemma {:induction false} LaneQuarantineIsSticky(states: seq<State>, actions: seq<Action>, key: string, i: nat, j: nat)
    requires TimelyRun(states, actions) && i <= j < |states| && RunnerKey(key)
    requires HasStatus(states[i].queue, key, ReconciliationNeeded) && NobodyChecked(states[i], key)
    requires forall m :: i <= m < j ==> !OperatorRequeues(actions[m], key)
    ensures key in states[j].queue.tasks && states[j].queue.tasks[key] == states[i].queue.tasks[key]
    ensures NobodyChecked(states[j], key)
    decreases j
  {
    if i < j {
      LaneQuarantineIsSticky(states, actions, key, i, j - 1);
      InvHolds(states, actions, j - 1);
      QuarantinedLaneRowStep(states[j - 1], actions[j - 1], key);
      NobodyPasses(states[j - 1], actions[j - 1], key);
    }
  }

  /** A claimed lane row is not overwritten either: it can only be touched, completed or
      quarantined, and nobody passes the check meanwhile. */
  lemma ClaimedLaneRowStep(states: seq<State>, actions: seq<Action>, key: string, i: nat)
    requires TimelyRun(states, actions) && i < |actions| && RunnerKey(key)
    requires HasStatus(states[i].queue, key, Status.Claimed) && NobodyChecked(states[i], key)
    ensures NobodyChecked(states[i + 1], key) && key in states[i + 1].queue.tasks
    ensures var row, row' := states[i].queue.tasks[key], states[i + 1].queue.tasks[key];
      row'.status != Queued && row' == row.(status := row'.status, updatedAt := row'.updatedAt)
  {
    InvHolds(states, actions, i);
    var s, a := states[i], actions[i];
    NobodyPasses(s, a, key);
    var op := Statement(s, a);
    if op.Some? {
      StatementsAreTame(s, a);
      if op.value.Upsert? && op.value.key == key { UpsertsAreEnqueues(s, a, key); }
      StatementOnBlockedRow(s.queue, op.value, key);
    }
  }

  /** Without that condition it fails: check and enqueue are two statements, so a runner
      that checked before the quarantine overwrites it. */
  lemma EnqueueAfterAnEarlierCheck(s: State, id: nat, at: Time)
    requires Inv(s) && id in s.runners && s.runners[id].phase.Checked?
    requires HasStatus(s.queue, s.runners[id].taskKey, ReconciliationNeeded)
    ensures HasStatus(Next(s, EnqueueLane(id, at)).queue, s.runners[id].taskKey, Queued)
  {
    QuarantinedLaneRowStep(s, EnqueueLane(id, at), s.runners[id].taskKey);
  }

  // ----- the order in which a holder gives up what it has -----

  function Rank(stage: Stage): nat {
    match stage
    case Acquired => 0
    case Running => 1
    case Returned => 2
    case Joined => 3
    case Settled => 4
  }

  /** A holder goes through its stages one at a time, and stops holding, unless it
      crashes, only after the last. Its lease is touched by its renewals until then. */
  lemma StagesInOrder(s: State, a: Action, id: nat)
    requires Holds(s, id)
    ensures id in Moved(s, a).runners
    ensures var p, p' := s.runners[id].phase, Moved(s, a).runners[id].phase;
      && (p'.Holding? ==> Rank(p.stage) <= Rank(p'.stage) <= Rank(p.stage) + 1)
      && (!p'.Holding? ==> (a == Crash(id) && p'.Crashed?) || (p.stage == Settled && p'.Idle?))
      && (p'.Holding? && Rank(p'.stage) >= Rank(Joined) > Rank(p.stage) ==> !p'.supervised)
  {
    if !Outside(a) && a.id in s.runners {
      OneMoves(s, a);
      if a.id == id { HolderStages(s, a, id); }
    }
  }

  lemma HolderStages(s: State, a: Action, id: nat)
    requires Holds(s, id) && !Outside(a) && a.id == id
    ensures var p := s.runners[id].phase;
      var p' := MovedHolder(s, a, id, s.runners[id], p).runners[id].phase;
      && (p'.Holding? ==> Rank(p.stage) <= Rank(p'.stage) <= Rank(p.stage) + 1)
      && (!p'.Holding? ==> (a.Crash? && p'.Crashed?) || (p.stage == Settled && p'.Idle?))
      && (p'.Holding? && Rank(p'.stage) >= Rank(Joined) > Rank(p.stage) ==> !p'.supervised)
  {
  }

  /** The task row of a holder is completed by it in the step to the last stage, and by
      no other step of it; until then its supervision ends as soon as it finds the row
      no longer claimed, or the lease released. */
  lemma SettlingCompletes(s: State, id: nat, status: Status)
    requires Holds(s, id) && status in {Completed, Failed}
    ensures var t, key := Next(s, SettleTask(id, status)), s.runners[id].taskKey;
      if s.runners[id].phase.stage == Joined
      then t.runners[id].phase == s.runners[id].phase.(stage := Settled)
           && (HasStatus(s.queue, key, Status.Claimed) ==> HasStatus(t.queue, key, status))
           && (!HasStatus(s.queue, key, Status.Claimed) ==> t.queue == s.queue)
      else t == s
  {
  }

  lemma SupervisionEnds(s: State, id: nat, tick: Time)
    requires Holds(s, id) && s.runners[id].phase.supervised && tick <= s.now
    ensures Next(s, TouchLane(id, tick)).runners[id].phase ==
      s.runners[id].phase.(supervised := HasStatus(s.queue, s.runners[id].taskKey, Status.Claimed))
    ensures Next(s, Renew(id, tick)).runners[id].phase ==
      if s.runners[id].leaseName in s.leases && s.leases[s.runners[id].leaseName].releasedAt.None?
      then s.runners[id].phase.(deadline := tick + LEASE_TTL)
      else s.runners[id].phase.(supervised := false)
  {
  }

  /** A runner whose lease is refused fails its claim and begins a new cycle. */
  lemma RefusedClaimFails(s: State, id: nat)
    requires id in s.runners && s.runners[id].phase.Refused?
    ensures var t, key := Next(s, FailClaim(id)), s.runners[id].taskKey;
      && t.runners[id].phase == Idle && t.leases == s.leases
      && (HasStatus(s.queue, key, Status.Claimed) ==> HasStatus(t.queue, key, Failed))
  {
  }

  // ----- what a cycle writes -----

  /** The row a cycle queues: its own key, role and lease, no issue, no priority, updated
      when the cycle read the clock. */
  lemma EnqueueWrites(s: State, id: nat, at: Time)
    requires id in s.runners && s.runners[id].phase.Checked?
    ensures var r, q := s.runners[id], Next(s, EnqueueLane(id, at)).queue;
      && q.tasks == s.queue.tasks[r.taskKey := q.tasks[r.taskKey]] && q.results == s.queue.results
      && var row := q.tasks[r.taskKey];
         && row == Task(r.role, "", Queued, 0, at, r.leaseName, row.createdAt, r.phase.at)
         && row.createdAt == if r.taskKey in s.queue.tasks then s.queue.tasks[r.taskKey].createdAt else r.phase.at
    ensures Next(s, EnqueueLane(id, at)).runners[id].phase == Enqueued(s.runners[id].phase.at)
  {
  }

  /** A supervised holder's touch moves the update time of its claimed row to the tick,
      which may be now, and nothing else. */
  lemma TouchWrites(s: State, id: nat, tick: Time)
    requires Holds(s, id) && s.runners[id].phase.supervised && tick <= s.now
    ensures var key, q := s.runners[id].taskKey, Next(s, TouchLane(id, tick)).queue;
      q == if key in s.queue.tasks && s.queue.tasks[key].status == Status.Claimed
           then s.queue.(tasks := s.queue.tasks[key := s.queue.tasks[key].(updatedAt := tick)])
           else s.queue
  {
  }

  /** A claimed runner takes the lease for one time to live from its clock reading, unless
      somebody has it in force then or the store fails; and then it is refused. */
  lemma AcquireTakesOrRefuses(s: State, id: nat)
    requires id in s.runners && s.runners[id].phase.Claimed?
    ensures var r, at := s.runners[id], s.runners[id].phase.at;
      var t := Next(s, Acquire(id));
      if r.leaseName in s.leases && s.leases[r.leaseName].releasedAt == None && at < s.leases[r.leaseName].expiresAt
      then t.runners[id].phase == Refused && t.leases == s.leases
      else
        && t.runners[id].phase == Holding(at + 5 * MINUTE, Acquired, true, None)
        && t.leases == s.leases[r.leaseName := Lease(r.process, at, at, at + 5 * MINUTE, None)]
    ensures Next(s, FailAcquire(id)) == SetPhase(s, id, Refused)
  {
  }

  /** Supervision that has ended, or a tick that has not come, does nothing. */
  lemma NoTickNoWrite(s: State, id: nat, tick: Time)
    requires Holds(s, id) && (!s.runners[id].phase.supervised || tick > s.now)
    ensures Next(s, TouchLane(id, tick)) == s && Next(s, Renew(id, tick)) == s
  {
  }
}
