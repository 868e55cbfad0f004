/** The lane protocol: any number of lane runners, in any number of daemons,
    interleaving their SQL statements on the shared store, crashing at will, and
    racing with every other reader and writer of the same tables.

    A run is a sequence of states; `Next` says what one step does, and does
    nothing when the step is not enabled. */
module LaneProtocol {
  import opened Text
  import opened WorkQueue

  const LEASE_TTL := 5 * MINUTE
  const SCHEDULER_LEASE := "lane:scheduler"

  // ----- task keys -----

  /** The part of a task key before its first colon. */
  function KeyRole(key: string): string {
    if key == "" || key[0] == ':' then "" else [key[0]] + KeyRole(key[1..])
  }

  /** The roles whose per-issue tasks the scheduler lane enqueues. */
  predicate Scheduled(key: string) {
    KeyRole(key) in {"cleanup", "merge", "review", "implementation"}
  }

  /** The part after it. */
  function AfterColon(key: string): string {
    if key == "" then "" else if key[0] == ':' then key[1..] else AfterColon(key[1..])
  }

  /** The rows that only lane runners and worker processes enqueue, each its own. */
  predicate RunnerKey(key: string) {
    KeyRole(key) in {"continuous", "process"}
  }

  /** The lease of a runner's row. */
  function LeaseOf(key: string): string {
    (if KeyRole(key) == "continuous" then "lane:" else "worker:") + AfterColon(key)
  }

  /** Lease names that lane runners and worker processes take. */
  predicate IsRunnerLease(name: string) {
    "lane:" <= name || "worker:" <= name
  }

  // ----- state -----

  /** How far a runner that owns its lease has come. The lease is released only
      after the body has returned, supervision has been joined and the task row
      has been completed. */
  datatype Stage = Acquired | Running | Returned | Joined | Settled

  datatype Phase =
    | Idle
    | Started(at: Time)    // the clock has been read
    | Checked(at: Time)    // the row was read and does not stop this cycle
    | Enqueued(at: Time)
    | Claimed(at: Time)
    | Refused              // another owner has the lease; the claim is to be failed
    | Holding(deadline: Time, stage: Stage, supervised: bool, pending: Option<string>)
    | Crashed

  /** One lane of one process. `pending` in its phase is a key that a scheduler
      body has found dispatchable and not written yet. */
  datatype Runner = Runner(process: string, taskKey: string, role: string, leaseName: string, phase: Phase)

  datatype State = State(now: Time, queue: Queue, leases: Leases, runners: map<nat, Runner>)

  datatype Action =
    | Tick(to: Time)
    | Spawn(id: nat, process: string, taskKey: string, role: string)
    | Crash(id: nat)
    | Start(id: nat)
    | Check(id: nat)
    | EnqueueLane(id: nat, availableAt: Time)
    | ClaimLane(id: nat)
    | Acquire(id: nat)
    | FailAcquire(id: nat)                 // the store reports an error
    | FailClaim(id: nat)
    | EnterBody(id: nat)
    | Renew(id: nat, tick: Time)
    | TouchLane(id: nat, tick: Time)
    | StopSupervision(id: nat)
    | LeaveBody(id: nat)
    | JoinSupervision(id: nat)
    | SettleTask(id: nat, status: Status)
    | Release(id: nat)
    | FailRelease(id: nat)                 // logged, and the lease is left to expire
    | FindDispatchable(id: nat, key: string)
    | EnqueueFound(id: nat, task: Task)
    | AbandonFound(id: nat)
    | Other(op: Op)                        // any other process's statement on the queue
    | OtherLease(name: string, row: Lease) // any write to a lease no runner uses

  predicate Holds(s: State, id: nat) {
    id in s.runners && s.runners[id].phase.Holding?
  }

  /** The body's goroutine exists: the work may touch the lane's resources. */
  predicate InBody(s: State, id: nat) {
    Holds(s, id) && s.runners[id].phase.stage == Running
  }

  predicate SchedulerBody(s: State, id: nat) {
    InBody(s, id) && s.runners[id].leaseName == SCHEDULER_LEASE
  }

  function SetPhase(s: State, id: nat, phase: Phase): State
    requires id in s.runners
  {
    s.(runners := s.runners[id := s.runners[id].(phase := phase)])
  }

  /** The statements other processes may issue at any moment: everything the
      source guards by a status, and enqueues of keys that neither the scheduler nor
      a runner owns. */
  predicate OthersMay(op: Op) {
    && (op.Upsert? ==> !Scheduled(op.key) && !RunnerKey(op.key))
    && (op.Complete? ==> op.status != Queued)
  }

  // ----- steps -----

  function PhaseOf(s: State, id: nat): Phase {
    if id in s.runners then s.runners[id].phase else Crashed
  }

  /** The statement on the queue that a step issues, if the step is enabled. */
  function Statement(s: State, a: Action): Option<Op> {
    match a
    case Other(op) => if OthersMay(op) then Some(op) else None
    case EnqueueLane(id, availableAt) =>
      var p := PhaseOf(s, id);
      if p.Checked? then
        var r := s.runners[id];
        Some(Upsert(r.taskKey, Task(r.role, "", Queued, 0, availableAt, r.leaseName, p.at, p.at)))
      else None
    case ClaimLane(id) =>
      var p := PhaseOf(s, id);
      if p.Enqueued? then Some(Op.Claim(s.runners[id].taskKey, p.at)) else None
    case FailClaim(id) =>
      if PhaseOf(s, id).Refused? then Some(Op.Complete(s.runners[id].taskKey, Failed, s.now)) else None
    case TouchLane(id, tick) =>
      var p := PhaseOf(s, id);
      if p.Holding? && p.supervised && tick <= s.now then Some(Op.Touch(s.runners[id].taskKey, tick)) else None
    case SettleTask(id, status) =>
      var p := PhaseOf(s, id);
      if p.Holding? && p.stage == Joined && status in {Completed, Failed}
      then Some(Op.Complete(s.runners[id].taskKey, status, s.now)) else None
    case EnqueueFound(id, task) =>
      var p := PhaseOf(s, id);
      if p.Holding? && p.pending.Some? && task.status == Queued && task.role == KeyRole(p.pending.value)
      then Some(Upsert(p.pending.value, task)) else None
    case _ => None
  }

  ghost function Next(s: State, a: Action): State {
    var op := Statement(s, a);
    Moved(s, a).(queue := if op.Some? then Apply(s.queue, op.value) else s.queue)
  }

  /** What a step does to the clock, the leases and the runners. */
  ghost function Moved(s: State, a: Action): State {
    match a
    case Tick(to) => if to >= s.now then s.(now := to) else s
    case Spawn(id, process, taskKey, role) =>
      if id !in s.runners && RunnerKey(taskKey) && Trimmed(LeaseOf(taskKey))
      then s.(runners := s.runners[id := Runner(process, taskKey, role, LeaseOf(taskKey), Idle)]) else s
    case Other(op) => s
    case OtherLease(name, row) => if IsRunnerLease(name) then s else s.(leases := s.leases[name := row])
    case _ =>
      if a.id !in s.runners then s
      else if s.runners[a.id].phase.Holding? then MovedHolder(s, a, a.id, s.runners[a.id], s.runners[a.id].phase)
      else MovedRunner(s, a, a.id, s.runners[a.id], s.runners[a.id].phase)
  }

  /** The step moved one runner and, at most, rewrote the lease of its name. */
  ghost predicate OnlyRunner(s: State, t: State, id: nat)
    requires id in s.runners
  {
    && id in t.runners && t == SetPhase(s, id, t.runners[id].phase).(leases := t.leases)
    && SameButFor(s.leases, t.leases, s.runners[id].leaseName)
  }

  ghost predicate SameButFor(before: Leases, after: Leases, name: string) {
    forall n :: n in before && n != name ==> n in after && after[n] == before[n]
  }

  ghost function MovedRunner(s: State, a: Action, id: nat, r: Runner, p: Phase): (t: State)
    requires id in s.runners && s.runners[id] == r && r.phase == p
    ensures OnlyRunner(s, t, id)
  {
    match a
    case Crash(_) => SetPhase(s, id, Crashed)
    case Start(_) => if p.Idle? then SetPhase(s, id, Started(s.now)) else s
    case Check(_) =>
      if !p.Started? then s
      else if HasStatus(s.queue, r.taskKey, Status.Claimed) || HasStatus(s.queue, r.taskKey, ReconciliationNeeded)
      then SetPhase(s, id, Idle)
      else SetPhase(s, id, Checked(p.at))
    case EnqueueLane(_, _) => if p.Checked? then SetPhase(s, id, Enqueued(p.at)) else s
    case ClaimLane(_) =>
      if !p.Enqueued? then s
      else if ClaimedKey(s.queue, Op.Claim(r.taskKey, p.at)) == Some(r.taskKey)
      then SetPhase(s, id, Phase.Claimed(p.at))
      else SetPhase(s, id, Idle)
    case Acquire(_) =>
      if !p.Claimed? then s
      else if Refuses(s.leases, r.leaseName, p.at) then SetPhase(s, id, Refused)
      else SetPhase(s, id, Holding(p.at + LEASE_TTL, Acquired, true, None))
             .(leases := AcquireLease(s.leases, r.leaseName, r.process, p.at, LEASE_TTL))
    case FailAcquire(_) => if p.Claimed? then SetPhase(s, id, Refused) else s
    case FailClaim(_) => if p.Refused? then SetPhase(s, id, Idle) else s
    case _ => s
  }

  ghost function MovedHolder(s: State, a: Action, id: nat, r: Runner, p: Phase): (t: State)
    requires id in s.runners && s.runners[id] == r && r.phase == p && p.Holding?
    ensures OnlyRunner(s, t, id)
  {
    match a
    case Crash(_) => SetPhase(s, id, Crashed)
    case EnterBody(_) => if p.stage == Acquired then SetPhase(s, id, p.(stage := Running)) else s
    case Renew(_, tick) =>
      if !p.supervised || tick > s.now then s
      else if Renewable(s.leases, r.leaseName)
      then SetPhase(s, id, p.(deadline := tick + LEASE_TTL))
             .(leases := RenewLease(s.leases, r.leaseName, tick, tick + LEASE_TTL))
      else SetPhase(s, id, p.(supervised := false))
    case TouchLane(_, tick) =>
      if !p.supervised || tick > s.now then s
      else SetPhase(s, id, p.(supervised := HasStatus(s.queue, r.taskKey, Status.Claimed)))
    case StopSupervision(_) => SetPhase(s, id, p.(supervised := false))
    case LeaveBody(_) =>
      if p.stage == Running then SetPhase(s, id, p.(stage := Returned, pending := None)) else s
    case JoinSupervision(_) =>
      if p.stage == Returned then SetPhase(s, id, p.(stage := Joined, supervised := false)) else s
    case SettleTask(_, status) =>
      if p.stage == Joined && status in {Completed, Failed} then SetPhase(s, id, p.(stage := Settled)) else s
    case Release(_) =>
      if p.stage == Settled
      then SetPhase(s, id, Idle).(leases := ReleaseLease(s.leases, r.leaseName, s.now)) else s
    case FailRelease(_) => if p.stage == Settled then SetPhase(s, id, Idle) else s
    case FindDispatchable(_, key) =>
      if SchedulerBody(s, id) && p.pending.None? && Scheduled(key) && !DispatchBlocked(s.queue, key, KeyRole(key))
      then SetPhase(s, id, p.(pending := Some(key))) else s
    case EnqueueFound(_, task) =>
      if Statement(s, a).Some? then SetPhase(s, id, p.(pending := None)) else s
    case AbandonFound(_) => SetPhase(s, id, p.(pending := None))
    case _ => s
  }

  ghost predicate IsRun(states: seq<State>, actions: seq<Action>) {
    && |states| == |actions| + 1
    && forall i :: 0 <= i < |actions| ==> states[i + 1] == Next(states[i], actions[i])
  }

  /** A fresh store nobody works on yet; rows left by earlier daemons may exist,
      as long as they are as those daemons write them: a scheduled key carries its
      own role, and a runner's row its own lease. */
  ghost predicate Initial(s: State) {
    s.runners == map[] && RowsMatchKeys(s.queue)
  }

  ghost predicate RowsMatchKeys(q: Queue) {
    RolesMatchKeys(q) && LeasesMatchKeys(q)
  }

  ghost predicate LeasesMatchKeys(q: Queue) {
    forall k :: k in q.tasks && RunnerKey(k) ==> q.tasks[k].leaseName == LeaseOf(k)
  }

  ghost predicate RolesMatchKeys(q: Queue) {
    forall k :: k in q.tasks && Scheduled(k) ==> q.tasks[k].role == KeyRole(k)
  }

  /** The timing assumption: whoever took a lease renews or releases it before the
      expiry it last wrote. */
  ghost predicate Timely(s: State) {
    forall id :: Holds(s, id) ==> s.now < s.runners[id].phase.deadline
  }

  ghost predicate TimelyRun(states: seq<State>, actions: seq<Action>) {
    && IsRun(states, actions) && Initial(states[0])
    && forall i :: 0 <= i < |states| ==> Timely(states[i])
  }

  // ----- the invariant -----

  /** The lease row is there, unreleased, and expires when its holder thinks. */
  predicate Backed(leases: Leases, name: string, deadline: Time) {
    name in leases && leases[name].releasedAt.None? && leases[name].expiresAt == deadline
  }

  /** A scheduled key that can still be dispatched. */
  predicate Free(q: Queue, key: string) {
    Scheduled(key) && (key in q.tasks ==> !BlocksDispatch(q.tasks[key].status))
  }

  /** Clock readings are not ahead of the clock, a holder is backed by its lease
      row, and a key found by a scheduler body is still free. */
  predicate Consistent(now: Time, q: Queue, leases: Leases, r: Runner) {
    var p := r.phase;
    && (p.Started? || p.Checked? || p.Enqueued? || p.Claimed? ==> p.at <= now)
    && (p.Holding? ==>
          && Backed(leases, r.leaseName, p.deadline)
          && (p.pending.Some? ==>
                p.stage == Running && r.leaseName == SCHEDULER_LEASE && Free(q, p.pending.value)))
  }

  predicate RunnerOk(s: State, id: nat)
    requires id in s.runners
  {
    Consistent(s.now, s.queue, s.leases, s.runners[id])
  }

  ghost predicate OneHolder(s: State) {
    forall i, j :: Holds(s, i) && Holds(s, j) && s.runners[i].leaseName == s.runners[j].leaseName ==> i == j
  }

  /** A runner has a runner's key, and the lease that goes with it. */
  predicate Owned(taskKey: string, leaseName: string) {
    RunnerKey(taskKey) && leaseName == LeaseOf(taskKey) && Trimmed(leaseName)
  }

  ghost predicate Identities(s: State) {
    forall id :: id in s.runners ==> Owned(s.runners[id].taskKey, s.runners[id].leaseName)
  }

  ghost predicate Guarded(s: State) {
    (forall id :: id in s.runners ==> RunnerOk(s, id)) && OneHolder(s)
  }

  ghost predicate Inv(s: State) {
    Identities(s) && Guarded(s) && RowsMatchKeys(s.queue)
  }

  ghost predicate OnlyHolder(s: State, id: nat, name: string) {
    forall j :: Holds(s, j) && s.runners[j].leaseName == name ==> j == id
  }

  /** Moving one runner, and perhaps rewriting the lease of its name, keeps the
      holders apart as long as nobody else holds that lease. */
  lemma RunnerStep(s: State, id: nat, phase: Phase, leases: Leases)
    requires Guarded(s) && id in s.runners
    requires Consistent(s.now, s.queue, leases, s.runners[id].(phase := phase))
    requires SameButFor(s.leases, leases, s.runners[id].leaseName)
    requires leases == s.leases || OnlyHolder(s, id, s.runners[id].leaseName)
    requires phase.Holding? ==> OnlyHolder(s, id, s.runners[id].leaseName)
    ensures Guarded(SetPhase(s, id, phase).(leases := leases))
  {
    var s' := SetPhase(s, id, phase).(leases := leases);
    forall j | j in s'.runners ensures RunnerOk(s', j) {
      if j != id {
        assert RunnerOk(s, j);
        if s.runners[j].phase.Holding? { assert Holds(s, j); }
      }
    }
    assert forall j :: Holds(s', j) && j != id ==> Holds(s, j);
  }

  lemma RunnerLeases(key: string)
    ensures IsRunnerLease(LeaseOf(key)) && (RunnerKey(key) ==> !Scheduled(key))
  {
    assert LeaseOf(key)[..5] == "lane:" || LeaseOf(key)[..7] == "worker:";
  }

  lemma HolderIsOnly(s: State, id: nat)
    requires Guarded(s) && Holds(s, id)
    ensures OnlyHolder(s, id, s.runners[id].leaseName)
  {
  }

  /** The only way to get a lease is to find it released or expired; a timely
      holder's is neither. */
  lemma NobodyHoldsWhatIsFree(s: State, id: nat, name: string, at: Time)
    requires Guarded(s) && Timely(s) && at <= s.now && !Refuses(s.leases, name, at)
    ensures OnlyHolder(s, id, name)
  {
    forall j | Holds(s, j) ensures s.runners[j].leaseName != name {
      assert RunnerOk(s, j);
    }
  }

  lemma TimePasses(s: State, to: Time)
    requires Guarded(s) && to >= s.now
    ensures Guarded(s.(now := to))
  {
    var s' := s.(now := to);
    forall j | j in s'.runners ensures RunnerOk(s', j) { assert RunnerOk(s, j); }
    assert forall j :: Holds(s', j) ==> Holds(s, j);
  }

  lemma RunnerAppears(s: State, id: nat, r: Runner)
    requires Guarded(s) && id !in s.runners && r.phase.Idle?
    ensures Guarded(s.(runners := s.runners[id := r]))
  {
    var s' := s.(runners := s.runners[id := r]);
    forall j | j in s'.runners ensures RunnerOk(s', j) { if j != id { assert RunnerOk(s, j); } }
    assert forall j :: Holds(s', j) ==> j != id && Holds(s, j);
  }

  lemma OtherLeaseWritten(s: State, name: string, row: Lease)
    requires Identities(s) && Guarded(s) && !IsRunnerLease(name)
    ensures Guarded(s.(leases := s.leases[name := row]))
  {
    var s' := s.(leases := s.leases[name := row]);
    forall j | j in s'.runners ensures RunnerOk(s', j) {
      assert RunnerOk(s, j);
      RunnerLeases(s.runners[j].taskKey);
    }
    assert forall j :: Holds(s', j) ==> Holds(s, j);
  }

  // A queue statement on top.

  /** No statement blocks a free scheduled key, except an upsert of that key. */
  lemma FreeKeyStaysFree(q: Queue, op: Op, key: string)
    requires Free(q, key)
    requires op.Upsert? ==> op.key != key
    requires op.Complete? ==> op.status != Queued
    ensures Free(Apply(q, op), key)
  {
  }

  lemma RowsKept(q: Queue, op: Op)
    requires RowsMatchKeys(q)
    requires op.Upsert? && Scheduled(op.key) ==> op.task.role == KeyRole(op.key)
    requires op.Upsert? && RunnerKey(op.key) ==> op.task.leaseName == LeaseOf(op.key)
    ensures RowsMatchKeys(Apply(q, op))
  {
  }

  ghost predicate Pending(s: State, id: nat, key: string) {
    Holds(s, id) && s.runners[id].phase.pending == Some(key)
  }

  /** A statement keeps a found key free if it upserts a scheduled key only while
      nobody is about to. */
  lemma QueueStep(s: State, op: Op)
    requires Guarded(s)
    requires op.Upsert? && Scheduled(op.key) ==>
      forall id :: id in s.runners ==> !Pending(s, id, op.key)
    requires op.Complete? ==> op.status != Queued
    ensures Guarded(s.(queue := Apply(s.queue, op)))
  {
    var s' := s.(queue := Apply(s.queue, op));
    forall j | j in s'.runners ensures RunnerOk(s', j) {
      assert RunnerOk(s, j);
      var p := s.runners[j].phase;
      if p.Holding? && p.pending.Some? {
        assert Pending(s, j, p.pending.value);
        FreeKeyStaysFree(s.queue, op, p.pending.value);
      }
    }
    assert forall j :: Holds(s', j) ==> Holds(s, j);
  }

  /** After a scheduler body has taken its key off its hands, nobody else has it:
      by exclusion there is no other scheduler body. */
  lemma FoundByOne(s: State, id: nat, key: string, phase: Phase)
    requires Guarded(s) && Pending(s, id, key) && phase.Holding? && phase.pending.None?
    ensures forall j :: j in s.runners ==> !Pending(SetPhase(s, id, phase), j, key)
  {
    assert RunnerOk(s, id);
    forall j | j in s.runners && j != id ensures !Pending(s, j, key) {
      assert RunnerOk(s, j);
    }
  }

  // Putting the steps together.

  predicate Outside(a: Action) {
    a.Tick? || a.Spawn? || a.Other? || a.OtherLease?
  }

  lemma HolderMoves(s: State, a: Action, id: nat)
    requires Guarded(s) && RolesMatchKeys(s.queue) && Holds(s, id) && !Outside(a) && a.id == id
    ensures Guarded(MovedHolder(s, a, id, s.runners[id], s.runners[id].phase))
  {
    var s' := MovedHolder(s, a, id, s.runners[id], s.runners[id].phase);
    assert RunnerOk(s, id);
    HolderIsOnly(s, id);
    RunnerStep(s, id, s'.runners[id].phase, s'.leases);
  }

  lemma RunnerMoves(s: State, a: Action, id: nat)
    requires Guarded(s) && Timely(s) && id in s.runners && !Holds(s, id) && !Outside(a) && a.id == id
    ensures Guarded(MovedRunner(s, a, id, s.runners[id], s.runners[id].phase))
  {
    var s' := MovedRunner(s, a, id, s.runners[id], s.runners[id].phase);
    assert RunnerOk(s, id);
    if s'.runners[id].phase.Holding? {
      NobodyHoldsWhatIsFree(s, id, s.runners[id].leaseName, s.runners[id].phase.at);
    }
    RunnerStep(s, id, s'.runners[id].phase, s'.leases);
  }

  lemma MovedStep(s: State, a: Action)
    requires Inv(s) && Timely(s)
    ensures Guarded(Moved(s, a))
  {
    if Moved(s, a) == s { }
    else if a.Tick? { TimePasses(s, a.to); }
    else if a.Spawn? { RunnerAppears(s, a.id, Moved(s, a).runners[a.id]); }
    else if a.OtherLease? { OtherLeaseWritten(s, a.name, a.row); }
    else if Holds(s, a.id) { HolderMoves(s, a, a.id); }
    else { RunnerMoves(s, a, a.id); }
  }

  lemma OneMoves(s: State, a: Action)
    requires !Outside(a) && a.id in s.runners
    ensures OnlyRunner(s, Moved(s, a), a.id)
  {
  }

  lemma SameIdentities(s: State, t: State, id: nat)
    requires Identities(s) && id in s.runners && OnlyRunner(s, t, id)
    ensures Identities(t)
  {
  }

  /** No step changes a runner's key or lease name. */
  lemma IdentitiesKept(s: State, a: Action)
    requires Identities(s)
    ensures Identities(Moved(s, a))
  {
    if Outside(a) {
    } else if a.id in s.runners {
      OneMoves(s, a);
      SameIdentities(s, Moved(s, a), a.id);
    }
  }

  lemma MovedKeepsQueue(s: State, a: Action)
    ensures Moved(s, a).queue == s.queue
  {
  }

  /** When a step upserts a scheduled key, nobody is left who is about to. */
  lemma UpsertIsAlone(s: State, a: Action, op: Op)
    requires Inv(s) && Statement(s, a) == Some(op) && op.Upsert? && Scheduled(op.key)
    ensures op.task.role == KeyRole(op.key)
    ensures forall id :: id in Moved(s, a).runners ==> !Pending(Moved(s, a), id, op.key)
  {
    if a.EnqueueFound? {
      var phase := s.runners[a.id].phase.(pending := None);
      FoundByOne(s, a.id, op.key, phase);
      assert Moved(s, a) == SetPhase(s, a.id, phase);
    } else {
      StatementOfOthers(s, a);
    }
  }

  lemma InvStep(s: State, a: Action)
    requires Inv(s) && Timely(s)
    ensures Inv(Next(s, a))
  {
    MovedStep(s, a);
    IdentitiesKept(s, a);
    MovedKeepsQueue(s, a);
    var op := Statement(s, a);
    if op.Some? {
      if op.value.Upsert? && Scheduled(op.value.key) { UpsertIsAlone(s, a, op.value); }
      if op.value.Upsert? && RunnerKey(op.value.key) { UpsertsOwnLease(s, a, op.value); }
      if op.value.Complete? { CompletesOnce(s, a); }
      QueueStep(Moved(s, a), op.value);
      RowsKept(s.queue, op.value);
    }
  }

  /** A runner's row is upserted by runners of that key only, with their lease. */
  lemma UpsertsOwnLease(s: State, a: Action, op: Op)
    requires Inv(s) && Statement(s, a) == Some(op) && op.Upsert? && RunnerKey(op.key)
    ensures op.task.leaseName == LeaseOf(op.key)
  {
    if a.EnqueueFound? {
      assert RunnerOk(s, a.id);
      RunnerLeases(op.key);
    }
  }

  lemma CompletesOnce(s: State, a: Action)
    requires Statement(s, a).Some? && Statement(s, a).value.Complete?
    ensures Statement(s, a).value.status != Queued
  {
  }

  /** Only the scheduler body upserts scheduled keys. */
  lemma StatementOfOthers(s: State, a: Action)
    requires Inv(s) && Statement(s, a).Some? && Statement(s, a).value.Upsert? && !a.EnqueueFound?
    ensures !Scheduled(Statement(s, a).value.key)
  {
    if a.EnqueueLane? { RunnerLeases(s.runners[a.id].taskKey); }
  }

  lemma {:induction false} InvHolds(states: seq<State>, actions: seq<Action>, i: nat)
    requires TimelyRun(states, actions) && i < |states|
    ensures Inv(states[i])
  {
    if i > 0 {
      InvHolds(states, actions, i - 1);
      InvStep(states[i - 1], actions[i - 1]);
    }
  }

  // ----- the theorems -----

  /** In every timely run at most one process is inside the body of a lane, and
      at most one owns its lease. */
  lemma LaneMutualExclusion(states: seq<State>, actions: seq<Action>)
    requires TimelyRun(states, actions)
    ensures forall i, a, b :: (0 <= i < |states| && InBody(states[i], a) && InBody(states[i], b)
              && states[i].runners[a].leaseName == states[i].runners[b].leaseName) ==> a == b
    ensures forall i :: 0 <= i < |states| ==> OneHolder(states[i])
  {
    forall i | 0 <= i < |states| ensures OneHolder(states[i]) {
      InvHolds(states, actions, i);
    }
  }

  /** The scheduler reads the row and writes it in two statements, yet whenever it
      writes, the check it made earlier would still succeed. */
  lemma EnqueueIsAtomic(states: seq<State>, actions: seq<Action>, i: nat)
    requires TimelyRun(states, actions) && i < |actions|
    requires actions[i].EnqueueFound? && Holds(states[i], actions[i].id)
    requires states[i].runners[actions[i].id].phase.pending.Some?
    ensures var key := states[i].runners[actions[i].id].phase.pending.value;
      && Scheduled(key) && !DispatchBlocked(states[i].queue, key, KeyRole(key))
      && (key in states[i].queue.tasks ==> !BlocksDispatch(states[i].queue.tasks[key].status))
  {
    InvHolds(states, actions, i);
    assert RunnerOk(states[i], actions[i].id);
  }

  predicate OperatorRequeues(a: Action, key: string) {
    a.Other? && a.op.Requeue? && a.op.key == key
  }

  /** A step never completes a task as queued, never upserts a scheduled key that
      blocks dispatch, and requeues only by the operator's hand. */
  lemma StatementsAreTame(s: State, a: Action)
    requires Inv(s) && Statement(s, a).Some?
    ensures var op := Statement(s, a).value;
      && (op.Complete? ==> op.status != Queued)
      && (op.Requeue? ==> OperatorRequeues(a, op.key))
      && (op.Upsert? && Scheduled(op.key) && op.key in s.queue.tasks ==>
            !BlocksDispatch(s.queue.tasks[op.key].status))
  {
    if a.EnqueueFound? { assert RunnerOk(s, a.id); }
    else if a.EnqueueLane? { RunnerLeases(s.runners[a.id].taskKey); }
  }

  /** What such a statement can do to a row that blocks dispatch. */
  lemma StatementOnBlockedRow(q: Queue, op: Op, key: string)
    requires key in q.tasks && !(op.Upsert? && op.key == key) && !(op.Complete? && op.status == Queued)
    ensures key in Apply(q, op).tasks
    ensures var row, row' := q.tasks[key], Apply(q, op).tasks[key];
      && (row.status == ReconciliationNeeded && !(op.Requeue? && op.key == key) ==> row' == row)
      && (row.status == Status.Claimed ==>
            row'.status != Queued && row' == row.(status := row'.status, updatedAt := row'.updatedAt))
      && (row.status == Queued ==>
            row' == row || row' == row.(status := Status.Claimed, updatedAt := row'.updatedAt))
  {
  }

  /** One step on the row of a blocking scheduled key. */
  lemma BlockedRowStep(s: State, a: Action, key: string)
    requires Inv(s) && Timely(s) && Scheduled(key)
    requires key in s.queue.tasks && BlocksDispatch(s.queue.tasks[key].status)
    ensures key in Next(s, a).queue.tasks
    ensures var row, row' := s.queue.tasks[key], Next(s, a).queue.tasks[key];
      && (row.status == ReconciliationNeeded && !OperatorRequeues(a, key) ==> row' == row)
      && (row.status == Status.Claimed ==>
            row'.status != Queued && row' == row.(status := row'.status, updatedAt := row'.updatedAt))
      && (row.status == Queued ==>
            row' == row || row' == row.(status := Status.Claimed, updatedAt := row'.updatedAt))
  {
    if Statement(s, a).Some? {
      StatementsAreTame(s, a);
      StatementOnBlockedRow(s.queue, Statement(s, a).value, key);
    }
  }

  lemma BlockedRowInRun(states: seq<State>, actions: seq<Action>, key: string, i: nat)
    requires TimelyRun(states, actions) && i < |actions| && Scheduled(key)
    requires key in states[i].queue.tasks && BlocksDispatch(states[i].queue.tasks[key].status)
    ensures key in states[i + 1].queue.tasks
    ensures var row, row' := states[i].queue.tasks[key], states[i + 1].queue.tasks[key];
      && (row.status == ReconciliationNeeded && !OperatorRequeues(actions[i], key) ==> row' == row)
      && (row.status == Status.Claimed ==>
            row'.status != Queued && row' == row.(status := row'.status, updatedAt := row'.updatedAt))
  {
    InvHolds(states, actions, i);
    BlockedRowStep(states[i], actions[i], key);
  }

  /** Quarantine is sticky: only the operator's requeue lets a quarantined issue
      task go, and until then its row does not change at all. */
  lemma {:induction false} QuarantineIsSticky(states: seq<State>, actions: seq<Action>, key: string, i: nat, j: nat)
    requires TimelyRun(states, actions) && i <= j < |states|
    requires Scheduled(key) && HasStatus(states[i].queue, key, ReconciliationNeeded)
    requires forall m :: i <= m < j ==> !OperatorRequeues(actions[m], key)
    ensures key in states[j].queue.tasks && states[j].queue.tasks[key] == states[i].queue.tasks[key]
    decreases j
  {
    if i < j {
      QuarantineIsSticky(states, actions, key, i, j - 1);
      BlockedRowInRun(states, actions, key, j - 1);
    }
  }

  /** A claimed issue task is never overwritten: it can only be touched, completed
      or quarantined. */
  lemma ClaimedTaskIsNotOverwritten(states: seq<State>, actions: seq<Action>, key: string, i: nat)
    requires TimelyRun(states, actions) && i < |actions|
    requires Scheduled(key) && HasStatus(states[i].queue, key, Status.Claimed)
    ensures key in states[i + 1].queue.tasks
    ensures var row, row' := states[i].queue.tasks[key], states[i + 1].queue.tasks[key];
      row'.status != Queued && row' == row.(status := row'.status, updatedAt := row'.updatedAt)
  {
    BlockedRowInRun(states, actions, key, i);
  }

  /** Stale recovery finds nothing to do on the row of a runner that holds its lease,
      whatever the heartbeats say and however late its clock reading is used; nor on
      any other row that names this lease. */
  lemma LiveLaneIsNotRecoverable(states: seq<State>, actions: seq<Action>, i: nat, id: nat,
                                 beats: Beats, now: Time, staleAfter: Time)
    requires TimelyRun(states, actions) && i < |states| && Holds(states[i], id) && now <= states[i].now
    ensures !Recoverable(states[i].queue, states[i].leases, beats, states[i].runners[id].taskKey, now, staleAfter)
    ensures forall key :: (key in states[i].queue.tasks
              && states[i].queue.tasks[key].leaseName == states[i].runners[id].leaseName) ==>
                !Recoverable(states[i].queue, states[i].leases, beats, key, now, staleAfter)
  {
    InvHolds(states, actions, i);
    assert RunnerOk(states[i], id);
    TrimmedUnchanged(states[i].runners[id].leaseName);
  }

  /** In every timely run the row of a runner's key names that runner's lease. */
  lemma RunnerRowNamesItsLease(states: seq<State>, actions: seq<Action>, i: nat, key: string)
    requires TimelyRun(states, actions) && i < |states| && key in states[i].queue.tasks && RunnerKey(key)
    ensures states[i].queue.tasks[key].leaseName == LeaseOf(key)
  {
    InvHolds(states, actions, i);
  }

  // ----- the keys the source builds -----

  lemma {:induction false} KeyRoleOf(role: string, rest: string)
    requires ':' !in role
    ensures KeyRole(role + ":" + rest) == role && AfterColon(role + ":" + rest) == rest
  {
    var key := role + ":" + rest;
    if role != "" {
      KeyRoleOf(role[1..], rest);
      assert key[1..] == role[1..] + ":" + rest;
    }
  }

  /** Every lane's key is a runner's, with the lease of that lane. */
  lemma LaneKey(name: string)
    requires Trimmed(name) && name != ""
    ensures Owned("continuous" + ":" + name, "lane:" + name)
  {
    SourceKeys("continuous", name);
  }

  /** Issue tasks are scheduled keys, lane and process tasks are not. */
  lemma SourceKeys(role: string, rest: string)
    requires role in {"cleanup", "merge", "review", "implementation", "continuous", "process"}
    ensures Scheduled(role + ":" + rest) <==> role != "continuous" && role != "process"
    ensures RunnerKey(role + ":" + rest) <==> role == "continuous" || role == "process"
    ensures LeaseOf("continuous" + ":" + rest) == "lane:" + rest && LeaseOf("process" + ":" + rest) == "worker:" + rest
  {
    KeyRoleOf(role, rest);
    KeyRoleOf("continuous", rest);
    KeyRoleOf("process", rest);
  }
}
