/** Runs that show what the lane protocol does not promise: why the timing
    assumption is there, and that the task row alone excludes nobody. */
module LaneWitnesses {
  import opened Text
  import opened WorkQueue
  import opened LaneProtocol

  /** Every body ends or is renewed in time; nothing is said about a runner that
      has left its body and not released yet. */
  ghost predicate BodiesTimely(s: State) {
    forall id :: InBody(s, id) ==> s.now < s.runners[id].phase.deadline
  }

  /** `t` is reached from `s`; if `timely`, through states with timely bodies only. */
  ghost predicate Reaches(s: State, t: State, timely: bool) {
    exists states, actions :: Path(states, actions, s, t, timely)
  }

  ghost predicate Path(states: seq<State>, actions: seq<Action>, s: State, t: State, timely: bool) {
    && IsRun(states, actions) && states[0] == s && states[|actions|] == t
    && (timely ==> forall i :: 0 <= i < |states| ==> BodiesTimely(states[i]))
  }

  lemma Here(s: State, timely: bool)
    requires timely ==> BodiesTimely(s)
    ensures Reaches(s, s, timely)
  {
    assert Path([s], [], s, s, timely);
  }

  lemma Then(s: State, t: State, a: Action, timely: bool)
    requires Reaches(s, t, timely) && (timely ==> BodiesTimely(Next(t, a)))
    ensures Reaches(s, Next(t, a), timely)
  {
    var states, actions :| Path(states, actions, s, t, timely);
    assert Path(states + [Next(t, a)], actions + [a], s, Next(t, a), timely);
  }

  /** A runner that passed its check takes the lease if the lease is free, even if
      another runner's claim of the same row is overwritten on the way. */
  lemma EnterFromChecked(s: State, t: State, id: nat, timely: bool) returns (u: State)
    requires Reaches(s, t, timely) && (timely ==> BodiesTimely(t))
    requires id in t.runners && t.runners[id].phase.Checked?
    requires !Refuses(t.leases, t.runners[id].leaseName, t.runners[id].phase.at)
    requires timely ==> t.now < t.runners[id].phase.at + LEASE_TTL
    ensures var r, at := t.runners[id], t.runners[id].phase.at;
      && Reaches(s, u, timely) && u.now == t.now && (timely ==> BodiesTimely(u))
      && u.runners == t.runners[id := r.(phase := Holding(at + LEASE_TTL, Running, true, None))]
      && u.leases == AcquireLease(t.leases, r.leaseName, r.process, at, LEASE_TTL)
      && HasStatus(u.queue, r.taskKey, Status.Claimed)
  {
    var r, at := t.runners[id], t.runners[id].phase.at;
    var t1 := Next(t, EnqueueLane(id, at));
    assert t1.runners == t.runners[id := r.(phase := Enqueued(at))];
    Then(s, t, EnqueueLane(id, at), timely);
    var t2 := ClaimIt(s, t1, id, timely);
    u := EnterFromClaimed(s, t2, id, timely);
    assert u.runners == t.runners[id := r.(phase := Holding(at + LEASE_TTL, Running, true, None))];
  }

  lemma EnterFromClaimed(s: State, t: State, id: nat, timely: bool) returns (u: State)
    requires Reaches(s, t, timely) && (timely ==> BodiesTimely(t))
    requires id in t.runners && t.runners[id].phase.Claimed?
    requires !Refuses(t.leases, t.runners[id].leaseName, t.runners[id].phase.at)
    requires timely ==> t.now < t.runners[id].phase.at + LEASE_TTL
    ensures var r, at := t.runners[id], t.runners[id].phase.at;
      && Reaches(s, u, timely) && u.now == t.now && (timely ==> BodiesTimely(u)) && u.queue == t.queue
      && u.runners == t.runners[id := r.(phase := Holding(at + LEASE_TTL, Running, true, None))]
      && u.leases == AcquireLease(t.leases, r.leaseName, r.process, at, LEASE_TTL)
  {
    var r, at := t.runners[id], t.runners[id].phase.at;
    var t1 := Next(t, Acquire(id));
    assert t1.runners == t.runners[id := r.(phase := Holding(at + LEASE_TTL, Acquired, true, None))];
    Then(s, t, Acquire(id), timely);
    u := Next(t1, EnterBody(id));
    assert u.runners == t.runners[id := r.(phase := Holding(at + LEASE_TTL, Running, true, None))];
    Then(s, t1, EnterBody(id), timely);
  }

  lemma ClaimIt(s: State, t: State, id: nat, timely: bool) returns (u: State)
    requires Reaches(s, t, timely) && (timely ==> BodiesTimely(t))
    requires id in t.runners && t.runners[id].phase.Enqueued?
    requires HasStatus(t.queue, t.runners[id].taskKey, Queued)
    requires t.queue.tasks[t.runners[id].taskKey].availableAt <= t.runners[id].phase.at
    ensures Reaches(s, u, timely) && u.now == t.now && u.leases == t.leases && (timely ==> BodiesTimely(u))
    ensures u.runners == t.runners[id := t.runners[id].(phase := Phase.Claimed(t.runners[id].phase.at))]
    ensures HasStatus(u.queue, t.runners[id].taskKey, Status.Claimed)
  {
    u := Next(t, ClaimLane(id));
    assert ClaimedKey(t.queue, Op.Claim(t.runners[id].taskKey, t.runners[id].phase.at)) == Some(t.runners[id].taskKey);
    assert u.runners == t.runners[id := t.runners[id].(phase := Phase.Claimed(t.runners[id].phase.at))];
    Then(s, t, ClaimLane(id), timely);
  }

  /** A fresh cycle of a runner whose row is neither claimed nor quarantined. */
  lemma PassCheck(s: State, t: State, id: nat, timely: bool) returns (u: State)
    requires Reaches(s, t, timely) && (timely ==> BodiesTimely(t))
    requires id in t.runners && t.runners[id].phase.Idle?
    requires !HasStatus(t.queue, t.runners[id].taskKey, Status.Claimed)
    requires !HasStatus(t.queue, t.runners[id].taskKey, ReconciliationNeeded)
    ensures Reaches(s, u, timely) && (timely ==> BodiesTimely(u))
    ensures u == SetPhase(t, id, Checked(t.now))
  {
    var t1 := Next(t, Start(id));
    assert t1 == SetPhase(t, id, Started(t.now));
    Then(s, t, Start(id), timely);
    u := Next(t1, Check(id));
    assert u == SetPhase(t, id, Checked(t.now));
    Then(s, t1, Check(id), timely);
  }

  /** A runner of some lane, as the daemon starts it. The witnesses below work for
      the lane of any such runner. */
  predicate IsLane(lane: Runner) {
    lane.phase.Idle? && Owned(lane.taskKey, lane.leaseName)
  }

  function At(lane: Runner, phase: Phase): Runner {
    lane.(phase := phase)
  }

  /** The lease as its first owner took it at time zero. */
  function Taken(lane: Runner): Leases {
    map[lane.leaseName := Lease(lane.process, 0, 0, LEASE_TTL, None)]
  }

  function Empty(): State {
    State(0, Queue(map[], map[]), map[], map[])
  }

  lemma SpawnLane(lane: Runner, t: State, id: nat, timely: bool) returns (u: State)
    requires IsLane(lane)
    requires Reaches(Empty(), t, timely) && id !in t.runners && BodiesTimely(t)
    ensures u == t.(runners := t.runners[id := At(lane, Idle)])
    ensures Reaches(Empty(), u, timely) && BodiesTimely(u)
  {
    var a := Spawn(id, lane.process, lane.taskKey, lane.role);
    u := Next(t, a);
    Then(Empty(), t, a, timely);
  }

  /** Three idle runners of one lane over an empty store. */
  lemma ThreeRunners(lane: Runner, timely: bool) returns (s: State)
    requires IsLane(lane)
    ensures Initial(Empty()) && Reaches(Empty(), s, timely) && BodiesTimely(s)
    ensures s == Empty().(runners := map[1 := At(lane, Idle), 2 := At(lane, Idle), 3 := At(lane, Idle)])
  {
    Here(Empty(), timely);
    s := SpawnLane(lane, Empty(), 1, timely);
    s := SpawnLane(lane, s, 2, timely);
    s := SpawnLane(lane, s, 3, timely);
  }

  /** Both checked the row before either claimed it: runner 1 is in the body and
      runner 2 has claimed the very same row after overwriting it. */
  lemma RowIsClaimedTwice(lane: Runner, timely: bool) returns (s: State)
    requires IsLane(lane)
    ensures Initial(Empty()) && Reaches(Empty(), s, timely) && BodiesTimely(s) && s.now == 0
    ensures InBody(s, 1) && 2 in s.runners && s.runners[2].phase == Phase.Claimed(0)
    ensures s.runners[1].taskKey == s.runners[2].taskKey == lane.taskKey
    ensures HasStatus(s.queue, lane.taskKey, Status.Claimed)
    ensures s.leases == Taken(lane)
    ensures s.runners == map[1 := At(lane, Holding(LEASE_TTL, Running, true, None)), 2 := At(lane, Phase.Claimed(0)),
                             3 := At(lane, Idle)]
  {
    var s3 := OneInside(lane, timely);
    var s4 := Next(s3, EnqueueLane(2, 0));
    assert s4.runners == s3.runners[2 := At(lane, Enqueued(0))];
    Then(Empty(), s3, EnqueueLane(2, 0), timely);
    s := ClaimIt(Empty(), s4, 2, timely);
  }

  lemma OneInside(lane: Runner, timely: bool) returns (s: State)
    requires IsLane(lane)
    ensures Reaches(Empty(), s, timely) && BodiesTimely(s) && s.now == 0
    ensures s.leases == Taken(lane)
    ensures s.runners == map[1 := At(lane, Holding(LEASE_TTL, Running, true, None)),
                             2 := At(lane, Checked(0)), 3 := At(lane, Idle)]
    ensures HasStatus(s.queue, lane.taskKey, Status.Claimed)
  {
    var s0 := ThreeRunners(lane, timely);
    var s1 := PassCheck(Empty(), s0, 2, timely);
    var s2 := PassCheck(Empty(), s1, 1, timely);
    s := EnterFromChecked(Empty(), s2, 1, timely);
  }

  /** If a body outlives its lease, exclusion is lost. */
  lemma OverrunBreaksExclusion(lane: Runner)
    requires IsLane(lane)
    ensures exists s: State :: Reaches(Empty(), s, false) && InBody(s, 1) && InBody(s, 2)
              && s.runners[1].leaseName == s.runners[2].leaseName == lane.leaseName
  {
    var s0 := RowIsClaimedTwice(lane, false);
    var s1 := Next(s0, Acquire(2));
    assert s1 == SetPhase(s0, 2, Refused);
    Then(Empty(), s0, Acquire(2), false);
    var s2 := Next(s1, FailClaim(2));
    assert s2.runners == s0.runners[2 := At(lane, Idle)] && HasStatus(s2.queue, lane.taskKey, Failed);
    Then(Empty(), s1, FailClaim(2), false);
    var s3 := Next(s2, Tick(LEASE_TTL));
    Then(Empty(), s2, Tick(LEASE_TTL), false);
    var s4 := PassCheck(Empty(), s3, 2, false);
    var s5 := EnterFromChecked(Empty(), s4, 2, false);
    assert InBody(s5, 1) && InBody(s5, 2);
  }

  /** Ending every body in time is not enough: a release that comes after the
      expiry frees the next owner's lease, because nobody compares owners. */
  lemma LateReleaseBreaksExclusion(lane: Runner)
    requires IsLane(lane)
    ensures exists s: State :: Reaches(Empty(), s, true) && InBody(s, 2) && InBody(s, 3)
              && s.runners[2].leaseName == s.runners[3].leaseName == lane.leaseName
  {
    var s1 := SlowRelease(lane);
    var s2 := EnterFromChecked(Empty(), s1, 2, true);
    var s3 := Next(s2, Release(1));
    assert s3.runners == s2.runners[1 := At(lane, Idle)];
    Then(Empty(), s2, Release(1), true);
    var s4 := EnterFromChecked(Empty(), s3, 3, true);
    assert InBody(s4, 2) && InBody(s4, 3);
  }

  /** Runner 1 has left its body in time and not released; its lease has run out
      and two other runners have passed their check, one just before the expiry. */
  lemma SlowRelease(lane: Runner) returns (s: State)
    requires IsLane(lane)
    ensures Reaches(Empty(), s, true) && BodiesTimely(s) && s.now == LEASE_TTL
    ensures s.leases == Taken(lane)
    ensures s.runners == map[1 := At(lane, Holding(LEASE_TTL, Settled, false, None)),
                             2 := At(lane, Checked(LEASE_TTL)), 3 := At(lane, Checked(LEASE_TTL - 1))]
  {
    var s1 := OneSettled(lane);
    var s2 := Wait(s1, LEASE_TTL - 1);
    var s3 := PassCheck(Empty(), s2, 3, true);
    var s4 := Wait(s3, LEASE_TTL);
    s := PassCheck(Empty(), s4, 2, true);
  }

  lemma Wait(s: State, to: Time) returns (u: State)
    requires Reaches(Empty(), s, true) && BodiesTimely(s) && s.now <= to
    requires forall id :: id in s.runners ==> !InBody(s, id)
    ensures Reaches(Empty(), u, true) && BodiesTimely(u) && u == s.(now := to)
  {
    u := Next(s, Tick(to));
    Then(Empty(), s, Tick(to), true);
  }

  lemma OneSettled(lane: Runner) returns (s: State)
    requires IsLane(lane)
    ensures Reaches(Empty(), s, true) && BodiesTimely(s) && s.now == 0
    ensures s.leases == Taken(lane)
    ensures s.runners == map[1 := At(lane, Holding(LEASE_TTL, Settled, false, None)),
                             2 := At(lane, Idle), 3 := At(lane, Idle)]
    ensures HasStatus(s.queue, lane.taskKey, Completed)
  {
    var s0 := ThreeRunners(lane, true);
    var s1 := PassCheck(Empty(), s0, 1, true);
    var s2 := EnterFromChecked(Empty(), s1, 1, true);
    s := Settle(lane, s2);
  }

  /** Runner 1 returns, joins its supervision and completes its row in time. */
  lemma Settle(lane: Runner, s: State) returns (u: State)
    requires Reaches(Empty(), s, true) && BodiesTimely(s)
    requires s.runners == map[1 := At(lane, Holding(LEASE_TTL, Running, true, None)),
                              2 := At(lane, Idle), 3 := At(lane, Idle)]
    requires HasStatus(s.queue, lane.taskKey, Status.Claimed)
    ensures Reaches(Empty(), u, true) && BodiesTimely(u) && u.now == s.now && u.leases == s.leases
    ensures u.runners == s.runners[1 := At(lane, Holding(LEASE_TTL, Settled, false, None))]
    ensures HasStatus(u.queue, lane.taskKey, Completed)
  {
    var t := Leave(lane, s);
    u := Next(t, SettleTask(1, Completed));
    assert u.runners == s.runners[1 := At(lane, Holding(LEASE_TTL, Settled, false, None))];
    Then(Empty(), t, SettleTask(1, Completed), true);
  }

  lemma Leave(lane: Runner, s: State) returns (u: State)
    requires Reaches(Empty(), s, true) && BodiesTimely(s)
    requires s.runners == map[1 := At(lane, Holding(LEASE_TTL, Running, true, None)),
                              2 := At(lane, Idle), 3 := At(lane, Idle)]
    ensures Reaches(Empty(), u, true) && BodiesTimely(u)
    ensures u == SetPhase(s, 1, Holding(LEASE_TTL, Joined, false, None))
  {
    var t := Next(s, LeaveBody(1));
    assert t == SetPhase(s, 1, Holding(LEASE_TTL, Returned, true, None));
    Then(Empty(), s, LeaveBody(1), true);
    u := Next(t, JoinSupervision(1));
    assert u == SetPhase(s, 1, Holding(LEASE_TTL, Joined, false, None));
    Then(Empty(), t, JoinSupervision(1), true);
  }

  /** A lane as the daemon configures it, by its name. */
  lemma SourceLane(process: string, name: string, role: string) returns (lane: Runner)
    requires Trimmed(name) && name != ""
    ensures IsLane(lane) && lane.taskKey == "continuous" + ":" + name && lane.leaseName == "lane:" + name
  {
    LaneKey(name);
    lane := Runner(process, "continuous" + ":" + name, role, "lane:" + name, Idle);
  }

  /** Two scheduler bodies at once, if the first outlives its lease: what the exclusion
      of a second enqueuer rests on. */
  lemma TwoSchedulers(process: string)
    ensures exists s: State :: Reaches(Empty(), s, false) && SchedulerBody(s, 1) && SchedulerBody(s, 2)
  {
    var lane := SourceLane(process, "scheduler", "scheduler");
    assert lane.leaseName == SCHEDULER_LEASE;
    OverrunBreaksExclusion(lane);
  }
}
