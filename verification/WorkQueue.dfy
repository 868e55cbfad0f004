/** The shared rows of the durable work queue and what each SQL statement does to
    them. Every function here is one statement or one transaction, so any
    interleaving of processes is a sequence of these steps. */
module WorkQueue {
  import opened Text

  /** Nanoseconds since the epoch. */
  type Time = int

  const SECOND := 1_000_000_000
  const MINUTE := 60 * SECOND

  datatype Status =
    | Queued | Claimed | Completed | Failed | Canceled | ReconciliationNeeded
    | Other(text: string)

  /** A worker_tasks row; the payload and the identifiers that are only carried
      along are left out. */
  datatype Task = Task(role: string, issueKey: string, status: Status, priority: int,
                       availableAt: Time, leaseName: string, createdAt: Time, updatedAt: Time)

  /** A worker_results row; there is one per task key. */
  datatype WorkerResult = WorkerResult(role: string, status: Status, finishedAt: Time)

  datatype Lease = Lease(owner: string, acquiredAt: Time, renewedAt: Time, expiresAt: Time,
                         releasedAt: Option<Time>)

  datatype Queue = Queue(tasks: map<string, Task>, results: map<string, WorkerResult>)

  type Leases = map<string, Lease>

  // ----- leases -----

  /** A lease refuses a new owner while it is unreleased and expires after `now`. */
  predicate Refuses(leases: Leases, name: string, now: Time) {
    name in leases && leases[name].releasedAt.None? && leases[name].expiresAt > now
  }

  function AcquireLease(leases: Leases, name: string, owner: string, now: Time, ttl: Time): Leases {
    if Refuses(leases, name, now) then leases
    else leases[name := Lease(owner, now, now, now + ttl, None)]
  }

  predicate Renewable(leases: Leases, name: string) {
    name in leases && leases[name].releasedAt.None?
  }

  /** Extends whatever unreleased row has this name: the owner is not compared. */
  function RenewLease(leases: Leases, name: string, at: Time, expiresAt: Time): Leases {
    if Renewable(leases, name)
    then leases[name := leases[name].(renewedAt := at, expiresAt := expiresAt)]
    else leases
  }

  /** Releases whatever row has this name: the owner is not compared. */
  function ReleaseLease(leases: Leases, name: string, at: Time): Leases {
    if name in leases then leases[name := leases[name].(releasedAt := Some(at))] else leases
  }

  // ----- tasks -----

  predicate HasStatus(q: Queue, key: string, status: Status) {
    key in q.tasks && q.tasks[key].status == status
  }

  function SetStatus(q: Queue, key: string, status: Status, now: Time): Queue
    requires key in q.tasks
  {
    q.(tasks := q.tasks[key := q.tasks[key].(status := status, updatedAt := now)])
  }

  /** The statuses that keep a second enqueue of the same key away. */
  predicate BlocksDispatch(status: Status) {
    status == Queued || status == Claimed || status == ReconciliationNeeded
  }

  /** What an enqueuer sees: it lists the tasks of its role and looks for the key. */
  predicate DispatchBlocked(q: Queue, key: string, role: string) {
    key in q.tasks && q.tasks[key].role == role && BlocksDispatch(q.tasks[key].status)
  }

  // ----- claim order -----

  /** The place of a timestamp among RFC 3339 texts that drop trailing zeros:
      whole seconds first, then the fraction digit by digit, where the end of the
      text ('Z') sorts after every digit. */
  function TextRank(t: Time): int {
    NineDigits();
    (t / SECOND) * 2_357_947_691 + FractionRank(t % SECOND, 9)
  }

  function FractionRank(fraction: nat, digits: nat): int
    requires fraction < Pow10(digits)
    decreases digits
  {
    if digits == 0 then 0
    else if fraction == 0 then 10 * Pow11(digits - 1)
    else FirstOf(fraction, digits) * Pow11(digits - 1) + FractionRank(RestOf(fraction, digits), digits - 1)
  }

  lemma {:induction false} RankBound(fraction: nat, digits: nat)
    requires fraction < Pow10(digits)
    ensures 0 <= FractionRank(fraction, digits) < Pow11(digits)
    decreases digits
  {
    if digits > 0 && fraction > 0 {
      RankBound(RestOf(fraction, digits), digits - 1);
      BelowTen(FirstOf(fraction, digits), Pow11(digits - 1), FractionRank(RestOf(fraction, digits), digits - 1));
    }
  }

  /** The text of a fraction of a second from the decimal point on, without it:
      digits up to the last one that is not zero, then the zone. */
  function FractionText(fraction: nat, digits: nat): (text: string)
    requires fraction < Pow10(digits)
    ensures text != "" && (fraction > 0 && digits > 0 <==> text[0] != 'Z')
    decreases digits
  {
    if digits == 0 || fraction == 0 then "Z"
    else [DigitOf(FirstOf(fraction, digits))] + FractionText(RestOf(fraction, digits), digits - 1)
  }

  function DigitOf(d: nat): (c: char)
    requires d <= 9
    ensures c < 'Z'
  {
    ('0' as int + d) as char
  }

  /** The rank orders fractions as their texts are ordered byte by byte; with the
      point in front, which also sorts before the zone, this is the order of the
      stored timestamps within a second. */
  lemma {:induction false} RankIsTextOrder(a: nat, b: nat, digits: nat)
    requires a < Pow10(digits) && b < Pow10(digits)
    ensures Less(FractionText(a, digits), FractionText(b, digits)) <==>
            FractionRank(a, digits) < FractionRank(b, digits)
    decreases digits
  {
    if digits == 0 || a == b {
      SameText(a, b, digits);
    } else if b == 0 {
      ZeroComesLast(a, digits);
    } else if a == 0 {
      ZeroComesLast(b, digits);
    } else {
      RankIsTextOrder(RestOf(a, digits), RestOf(b, digits), digits - 1);
      RankStep(a, b, digits);
    }
  }

  lemma SameText(a: nat, b: nat, digits: nat)
    requires a < Pow10(digits) && b < Pow10(digits) && (digits == 0 || a == b)
    ensures a == b && !Less(FractionText(a, digits), FractionText(b, digits))
  {
    LessIrreflexive(FractionText(a, digits));
  }

  lemma ZeroComesLast(a: nat, digits: nat)
    requires digits > 0 && 0 < a < Pow10(digits)
    ensures Less(FractionText(a, digits), "Z") && !Less("Z", FractionText(a, digits))
    ensures FractionRank(a, digits) < FractionRank(0, digits)
  {
    RankSplits(a, digits);
  }

  lemma RankStep(a: nat, b: nat, digits: nat)
    requires digits > 0 && 0 < a < Pow10(digits) && 0 < b < Pow10(digits)
    requires Less(FractionText(RestOf(a, digits), digits - 1), FractionText(RestOf(b, digits), digits - 1)) <==>
             FractionRank(RestOf(a, digits), digits - 1) < FractionRank(RestOf(b, digits), digits - 1)
    ensures Less(FractionText(a, digits), FractionText(b, digits)) <==>
            FractionRank(a, digits) < FractionRank(b, digits)
  {
    var da, ra := FirstOf(a, digits), RestOf(a, digits);
    var db, rb := FirstOf(b, digits), RestOf(b, digits);
    RankSplits(a, digits);
    RankSplits(b, digits);
    RankBound(ra, digits - 1);
    RankBound(rb, digits - 1);
    FirstDigits(da, db, Pow11(digits - 1), FractionRank(ra, digits - 1), FractionRank(rb, digits - 1));
    FirstCharacters(da, db, FractionText(ra, digits - 1), FractionText(rb, digits - 1));
  }

  function FirstOf(fraction: nat, digits: nat): (d: nat)
    requires digits > 0 && fraction < Pow10(digits)
    ensures d <= 9
  {
    DivisionBound(fraction, Pow10(digits - 1));
    fraction / Pow10(digits - 1)
  }

  function RestOf(fraction: nat, digits: nat): (rest: nat)
    requires digits > 0 && fraction < Pow10(digits)
    ensures rest < Pow10(digits - 1)
  {
    fraction % Pow10(digits - 1)
  }

  /** A fraction that is not zero is text and rank of its first digit, then of the
      rest, and ranks below zero's. */
  lemma RankSplits(fraction: nat, digits: nat)
    requires digits > 0 && fraction < Pow10(digits)
    ensures fraction > 0 ==>
      && FractionText(fraction, digits) ==
           [DigitOf(FirstOf(fraction, digits))] + FractionText(RestOf(fraction, digits), digits - 1)
      && FractionRank(fraction, digits) ==
           FirstOf(fraction, digits) * Pow11(digits - 1) + FractionRank(RestOf(fraction, digits), digits - 1)
      && FractionRank(fraction, digits) < 10 * Pow11(digits - 1)
  {
    if fraction > 0 {
      RankBound(RestOf(fraction, digits), digits - 1);
      BelowTen(FirstOf(fraction, digits), Pow11(digits - 1), FractionRank(RestOf(fraction, digits), digits - 1));
    }
  }

  lemma FirstCharacters(a: nat, b: nat, ta: string, tb: string)
    requires a <= 9 && b <= 9
    ensures Less([DigitOf(a)] + ta, [DigitOf(b)] + tb) <==> a < b || (a == b && Less(ta, tb))
  {
    assert ([DigitOf(a)] + ta)[1..] == ta && ([DigitOf(b)] + tb)[1..] == tb;
  }

  /** Ranks compare by the first digit, then by the rest. */
  lemma FirstDigits(a: nat, b: nat, place: nat, ra: nat, rb: nat)
    requires ra < place && rb < place
    ensures a * place + ra < b * place + rb <==> a < b || (a == b && ra < rb)
  {
    if a < b { ProductBound(a + 1, b, place); }
    if b < a { ProductBound(b + 1, a, place); }
  }

  function Pow10(n: nat): (p: nat)
    ensures p > 0
  {
    if n == 0 then 1 else 10 * Pow10(n - 1)
  }

  function Pow11(n: nat): (p: nat)
    ensures p > 0
  {
    if n == 0 then 1 else 11 * Pow11(n - 1)
  }

  lemma NineDigits()
    ensures Pow10(9) == SECOND && Pow11(9) == 2_357_947_691
  {
    assert Pow10(3) == 1000 && Pow11(3) == 1331;
    assert Pow10(6) == 1_000_000 && Pow11(6) == 1_771_561;
  }

  lemma DivisionBound(fraction: nat, unit: nat)
    requires 0 < unit && fraction < 10 * unit
    ensures fraction / unit <= 9
  {
  }

  lemma BelowTen(d: nat, place: nat, rest: nat)
    requires d <= 9 && rest < place
    ensures 0 <= d * place + rest < 10 * place < 11 * place
  {
    ProductBound(d, 9, place);
  }

  lemma ProductBound(a: nat, b: nat, p: nat)
    requires a <= b
    ensures a * p <= b * p
  {
  }

  /** ORDER BY available_at, priority DESC, task_key, where available_at is the
      stored text. */
  predicate Before(a: Task, ka: string, b: Task, kb: string) {
    var ra, rb := TextRank(a.availableAt), TextRank(b.availableAt);
    ra < rb || (ra == rb && (a.priority > b.priority || (a.priority == b.priority && Less(ka, kb))))
  }

  /** The claim filter; availability is compared as time. */
  predicate Claimable(q: Queue, key: string, role: string, now: Time) {
    HasStatus(q, key, Queued) && q.tasks[key].role == role && q.tasks[key].availableAt <= now
  }

  predicate IsNext(q: Queue, key: string, role: string, now: Time) {
    && Claimable(q, key, role, now)
    && forall k :: k in q.tasks && Claimable(q, k, role, now) && k != key
                   ==> Before(q.tasks[key], key, q.tasks[k], k)
  }

  ghost function NextKey(q: Queue, role: string, now: Time): Option<string> {
    if exists k :: k in q.tasks && IsNext(q, k, role, now)
    then var k :| k in q.tasks && IsNext(q, k, role, now); Some(k)
    else None
  }

  // ----- one statement -----

  datatype Op =
    | Upsert(key: string, task: Task)
    | Claim(key: string, now: Time)
    | ClaimNext(role: string, now: Time)
    | Complete(key: string, status: Status, now: Time)
    | Touch(key: string, now: Time)
    | Requeue(key: string, now: Time)
    | Quarantine(key: string, now: Time)
    | PutResult(key: string, result: WorkerResult)

  /** INSERT ... ON CONFLICT: every column but created_at is overwritten, whatever
      the status was. */
  function UpsertTask(q: Queue, key: string, task: Task): Queue {
    q.(tasks := q.tasks[key := if key in q.tasks then task.(createdAt := q.tasks[key].createdAt) else task])
  }

  /** The key a statement moves from queued to claimed. */
  ghost function ClaimedKey(q: Queue, op: Op): Option<string> {
    match op
    case Claim(key, now) =>
      if HasStatus(q, key, Queued) && q.tasks[key].availableAt <= now then Some(key) else None
    case ClaimNext(role, now) => NextKey(q, role, now)
    case _ => None
  }

  ghost function Apply(q: Queue, op: Op): Queue {
    match op
    case Upsert(key, task) => UpsertTask(q, key, task)
    case Claim(key, now) =>
      if ClaimedKey(q, op) == Some(key) then SetStatus(q, key, Claimed, now) else q
    case ClaimNext(role, now) =>
      var next := NextKey(q, role, now);
      if next.Some? then SetStatus(q, next.value, Claimed, now) else q
    case Complete(key, status, now) =>
      if HasStatus(q, key, Claimed) then SetStatus(q, key, status, now) else q
    case Touch(key, now) =>
      if HasStatus(q, key, Claimed) then SetStatus(q, key, Claimed, now) else q
    case Requeue(key, now) =>
      if HasStatus(q, key, ReconciliationNeeded)
      then q.(tasks := q.tasks[key := q.tasks[key].(status := Queued, availableAt := now, updatedAt := now)])
      else q
    case Quarantine(key, now) =>
      if HasStatus(q, key, Claimed)
      then SetStatus(q, key, ReconciliationNeeded, now)
             .(results := q.results[key := WorkerResult(q.tasks[key].role, ReconciliationNeeded, now)])
      else q
    case PutResult(key, result) => q.(results := q.results[key := result])
  }

  // ----- failure backoff -----

  function RetryBackoff(role: string): Time {
    if role == "implementation" || role == "work" then 5 * MINUTE
    else if role == "review" || role == "handoff" || role == "merge" then 2 * MINUTE
    else MINUTE
  }

  /** When a key that is enqueued at `now` may be claimed. */
  function AvailableAt(results: map<string, WorkerResult>, key: string, role: string, now: Time): Time {
    if key != "" && role != "" && key in results && results[key].role == role && results[key].status == Failed
       && results[key].finishedAt + RetryBackoff(role) > now
    then results[key].finishedAt + RetryBackoff(role)
    else now
  }

  // ----- stale claims -----

  /** Heartbeat rows, by process and lane. */
  type Beats = map<(string, string), Time>

  predicate FreshHeartbeat(beats: Beats, owner: string, cutoff: Time) {
    exists row :: row in beats && row.0 == owner && beats[row] > cutoff
  }

  /** Nothing durable says that somebody still works under this lease. */
  predicate Abandoned(leases: Leases, beats: Beats, leaseName: string, now: Time, cutoff: Time) {
    var name := TrimSpace(leaseName);
    || name == ""
    || name !in leases
    || leases[name].releasedAt.Some?
    || (leases[name].expiresAt <= now
        && (Blank(leases[name].owner) || !FreshHeartbeat(beats, leases[name].owner, cutoff)))
  }

  /** A claim that recovery takes away. */
  predicate Recoverable(q: Queue, leases: Leases, beats: Beats, key: string, now: Time, staleAfter: Time) {
    && HasStatus(q, key, Claimed)
    && q.tasks[key].updatedAt <= now - staleAfter
    && Abandoned(leases, beats, q.tasks[key].leaseName, now, now - staleAfter)
  }

  // ----- properties of single statements -----

  lemma {:induction false} BeforeTotal(a: Task, ka: string, b: Task, kb: string)
    requires ka != kb
    ensures Before(a, ka, b, kb) != Before(b, kb, a, ka)
  {
    LessTotal(ka, kb);
    if Less(ka, kb) && Less(kb, ka) { LessTransitive(ka, kb, ka); LessIrreflexive(ka); }
  }

  lemma {:induction false} BeforeTransitive(a: Task, ka: string, b: Task, kb: string, c: Task, kc: string)
    requires Before(a, ka, b, kb) && Before(b, kb, c, kc)
    ensures Before(a, ka, c, kc)
  {
    if Less(ka, kb) && Less(kb, kc) { LessTransitive(ka, kb, kc); }
  }

  /** Among rows that become available at the same time the larger priority goes first,
      and among those the smaller key. */
  lemma TiesGoToPriority(a: Task, ka: string, b: Task, kb: string)
    requires a.availableAt == b.availableAt
    ensures Before(a, ka, b, kb) <==> a.priority > b.priority || (a.priority == b.priority && Less(ka, kb))
  {
  }

  /** Of a role's rows that can be claimed, the one that is next has the largest priority
      among those that became available with it. */
  lemma NextHasPriority(q: Queue, key: string, other: string, role: string, now: Time)
    requires IsNext(q, key, role, now) && Claimable(q, other, role, now)
    requires q.tasks[other].availableAt == q.tasks[key].availableAt
    ensures q.tasks[key].priority >= q.tasks[other].priority
  {
    if other != key { TiesGoToPriority(q.tasks[key], key, q.tasks[other], other); }
  }

  // ----- the failure backoff -----

  /** Implementation waits five minutes, the stages after it two, everything else one. */
  lemma BackoffByRole(role: string)
    ensures role in {"implementation", "work"} ==> RetryBackoff(role) == 300 * SECOND
    ensures role in {"review", "handoff", "merge"} ==> RetryBackoff(role) == 120 * SECOND
    ensures role !in {"implementation", "work", "review", "handoff", "merge"} ==> RetryBackoff(role) == 60 * SECOND
  {
  }

  /** A key becomes available at once, unless its last result on record is a failure in
      the same role; then when the backoff after that failure ends, if that is later. */
  lemma AvailableExactly(results: map<string, WorkerResult>, key: string, role: string, now: Time)
    requires key != "" && role != ""
    ensures var at := AvailableAt(results, key, role, now);
      if key in results && results[key].role == role && results[key].status == Failed
      then at >= now && at >= results[key].finishedAt + RetryBackoff(role)
           && at in {now, results[key].finishedAt + RetryBackoff(role)}
      else at == now
  {
  }

  // ----- what protects a claim from recovery -----

  /** A lease keeps others out while it is not released and before it expires; at the
      moment it expires it can be taken. */
  lemma InForceExactly(leases: Leases, name: string, now: Time)
    ensures Refuses(leases, name, now) <==>
      name in leases && leases[name].releasedAt == None && now < leases[name].expiresAt
  {
  }

  /** A claim is protected by a lease of its name that is neither released nor expired,
      or by one that has expired under an owner who has sent a heartbeat since the
      cutoff; and by nothing else. */
  lemma ProtectedExactly(leases: Leases, beats: Beats, leaseName: string, now: Time, cutoff: Time)
    ensures var name := TrimSpace(leaseName);
      !Abandoned(leases, beats, leaseName, now, cutoff) <==>
        && name != "" && name in leases && leases[name].releasedAt == None
        && (|| now < leases[name].expiresAt
            || (!Blank(leases[name].owner)
                && exists row :: row in beats && row.0 == leases[name].owner && cutoff < beats[row]))
  {
  }

  lemma FreshHeartbeatProtects(q: Queue, leases: Leases, beats: Beats, key: string, row: (string, string),
                               now: Time, staleAfter: Time)
    requires key in q.tasks && Trimmed(q.tasks[key].leaseName) && q.tasks[key].leaseName != ""
    requires q.tasks[key].leaseName in leases && leases[q.tasks[key].leaseName].releasedAt.None?
    requires row in beats && row.0 == leases[q.tasks[key].leaseName].owner && !Blank(row.0)
    requires beats[row] > now - staleAfter
    ensures !Recoverable(q, leases, beats, key, now, staleAfter)
  {
    TrimmedUnchanged(q.tasks[key].leaseName);
    ProtectedExactly(leases, beats, q.tasks[key].leaseName, now, now - staleAfter);
  }

  /** A fresh row is never recovered, nor one that is not claimed. */
  lemma FreshRowIsNotRecoverable(q: Queue, leases: Leases, beats: Beats, key: string, now: Time, staleAfter: Time)
    ensures Recoverable(q, leases, beats, key, now, staleAfter) ==>
      key in q.tasks && q.tasks[key].status == Claimed && q.tasks[key].updatedAt + staleAfter <= now
    ensures (key in q.tasks && q.tasks[key].status == Claimed && q.tasks[key].updatedAt + staleAfter <= now
             && TrimSpace(q.tasks[key].leaseName) !in leases) ==> Recoverable(q, leases, beats, key, now, staleAfter)
  {
  }

  // ----- when the claim order follows time -----

  /** The unit of the last digit that the text of a fraction keeps; a whole second if
      it keeps none. */
  function LastPlace(fraction: nat, digits: nat): (unit: nat)
    requires fraction < Pow10(digits)
    decreases digits
  {
    if digits == 0 || fraction == 0 then Pow10(digits) else LastPlace(RestOf(fraction, digits), digits - 1)
  }

  function PlaceOf(t: Time): nat {
    NineDigits();
    LastPlace(t % SECOND, 9)
  }

  /** One more in the last place stays within the second. */
  lemma {:induction false} LastPlaceFits(fraction: nat, digits: nat)
    requires fraction < Pow10(digits)
    ensures 0 < LastPlace(fraction, digits) <= Pow10(digits) - fraction
    decreases digits
  {
    if digits > 0 && fraction > 0 {
      LastPlaceFits(RestOf(fraction, digits), digits - 1);
      ProductBound(FirstOf(fraction, digits), 9, Pow10(digits - 1));
    }
  }

  lemma {:induction false} LastPlaceIsTheLast(fraction: nat, digits: nat)
    requires fraction < Pow10(digits)
    ensures |FractionText(fraction, digits)| <= digits + 1
    ensures LastPlace(fraction, digits) == Pow10(digits + 1 - |FractionText(fraction, digits)|)
    decreases digits
  {
    if digits > 0 && fraction > 0 { LastPlaceIsTheLast(RestOf(fraction, digits), digits - 1); }
  }

  /** Of two fractions, the smaller has the smaller rank if and only if the other is at
      least one more in its last place. Different fractions have different ranks. */
  lemma {:induction false} FractionOrder(a: nat, b: nat, digits: nat)
    requires a < b < Pow10(digits)
    ensures FractionRank(a, digits) < FractionRank(b, digits) <==> b - a >= LastPlace(a, digits)
    ensures FractionRank(a, digits) != FractionRank(b, digits)
    decreases digits
  {
    if a == 0 {
      ZeroComesLast(b, digits);
    } else {
      FractionDigits(a, b, digits);
      if FirstOf(a, digits) == FirstOf(b, digits) {
        FractionOrder(RestOf(a, digits), RestOf(b, digits), digits - 1);
        SameFirstDigit(a, b, digits);
      }
    }
  }

  lemma SameFirstDigit(a: nat, b: nat, digits: nat)
    requires digits > 0 && 0 < a < Pow10(digits) && 0 < b < Pow10(digits)
    requires FirstOf(a, digits) == FirstOf(b, digits)
    ensures FractionRank(a, digits) - FractionRank(b, digits)
         == FractionRank(RestOf(a, digits), digits - 1) - FractionRank(RestOf(b, digits), digits - 1)
    ensures LastPlace(a, digits) == LastPlace(RestOf(a, digits), digits - 1)
  {
    RankSplits(a, digits);
    RankSplits(b, digits);
  }

  /** The first digit decides, if it can. */
  lemma FractionDigits(a: nat, b: nat, digits: nat)
    requires digits > 0 && 0 < a < b < Pow10(digits)
    ensures FirstOf(a, digits) <= FirstOf(b, digits)
    ensures FirstOf(a, digits) < FirstOf(b, digits) ==>
      FractionRank(a, digits) < FractionRank(b, digits) && b - a >= LastPlace(a, digits)
    ensures FirstOf(a, digits) == FirstOf(b, digits) ==> b - a == RestOf(b, digits) - RestOf(a, digits)
  {
    var da, db := FirstOf(a, digits), FirstOf(b, digits);
    FirstAndRest(a, digits);
    FirstAndRest(b, digits);
    LastPlaceFits(RestOf(a, digits), digits - 1);
    Apart(da, db, Pow10(digits - 1), RestOf(a, digits), RestOf(b, digits), LastPlace(RestOf(a, digits), digits - 1));
    if da < db { RankByFirst(a, b, digits); }
  }

  lemma Apart(da: nat, db: nat, place: nat, ra: nat, rb: nat, unit: nat)
    requires 0 < unit <= place - ra && rb < place && da * place + ra < db * place + rb
    ensures da <= db
    ensures da < db ==> (db * place + rb) - (da * place + ra) >= unit
    ensures da == db ==> (db * place + rb) - (da * place + ra) == rb - ra
  {
    if da < db { ProductBound(da + 1, db, place); }
    if db < da { ProductBound(db + 1, da, place); }
  }

  lemma FirstAndRest(fraction: nat, digits: nat)
    requires digits > 0 && fraction < Pow10(digits)
    ensures fraction == FirstOf(fraction, digits) * Pow10(digits - 1) + RestOf(fraction, digits)
  {
  }

  lemma RankByFirst(a: nat, b: nat, digits: nat)
    requires digits > 0 && 0 < a < Pow10(digits) && 0 < b < Pow10(digits)
    requires FirstOf(a, digits) < FirstOf(b, digits)
    ensures FractionRank(a, digits) < FractionRank(b, digits)
  {
    var ra, rb := RestOf(a, digits), RestOf(b, digits);
    RankSplits(a, digits);
    RankSplits(b, digits);
    RankBound(ra, digits - 1);
    RankBound(rb, digits - 1);
    FirstDigits(FirstOf(a, digits), FirstOf(b, digits), Pow11(digits - 1),
                FractionRank(ra, digits - 1), FractionRank(rb, digits - 1));
  }

  /** The text of an earlier time sorts first if and only if the later time is at least
      one more in the last place the earlier text keeps. */
  lemma TextOrderExactly(a: Time, b: Time)
    requires a < b
    ensures TextRank(a) < TextRank(b) <==> b - a >= PlaceOf(a)
    ensures TextRank(a) != TextRank(b)
  {
    NineDigits();
    if a / SECOND == b / SECOND {
      FractionOrder(a % SECOND, b % SECOND, 9);
    } else {
      TextOrderAcrossSeconds(a, b);
      LastPlaceFits(a % SECOND, 9);
    }
  }

  /** So a row that is available earlier is claimed before another, whatever the two
      priorities and keys, if and only if their times are that far apart. */
  lemma EarlierGoesFirst(a: Task, ka: string, b: Task, kb: string)
    requires a.availableAt < b.availableAt
    ensures Before(a, ka, b, kb) <==> b.availableAt - a.availableAt >= PlaceOf(a.availableAt)
  {
    TextOrderExactly(a.availableAt, b.availableAt);
  }

  /** From one second to the next they always are ... */
  lemma TextOrderAcrossSeconds(a: Time, b: Time)
    requires a / SECOND < b / SECOND
    ensures TextRank(a) < TextRank(b)
  {
    NineDigits();
    RankBound(a % SECOND, 9);
    RankBound(b % SECOND, 9);
  }

  /** ... but half a second later sorts before the full second, and 0.55 seconds before
      0.5 seconds. */
  lemma TextOrderWithinASecond()
    ensures TextRank(500_000_000) < TextRank(0) && TextRank(550_000_000) < TextRank(500_000_000)
  {
    NineDigits();
    assert Pow10(8) == 100_000_000;
    TextOrderExactly(0, 500_000_000);
    TextOrderExactly(500_000_000, 550_000_000);
    assert RestOf(500_000_000, 9) == 0;
  }

  /** Among some rows, the one that no other claimable row comes before. */
  lemma {:induction false} LeastOf(q: Queue, keys: set<string>, role: string, now: Time) returns (best: string)
    requires keys <= q.tasks.Keys && exists k :: k in keys && Claimable(q, k, role, now)
    ensures best in keys && Claimable(q, best, role, now)
    ensures forall k :: k in keys && Claimable(q, k, role, now) && k != best ==>
              Before(q.tasks[best], best, q.tasks[k], k)
    decreases keys
  {
    var x :| x in keys && Claimable(q, x, role, now);
    var rest := keys - {x};
    best := x;
    if exists k :: k in rest && Claimable(q, k, role, now) {
      var y := LeastOf(q, rest, role, now);
      BeforeTotal(q.tasks[x], x, q.tasks[y], y);
      if Before(q.tasks[y], y, q.tasks[x], x) {
        best := y;
      } else {
        forall k | k in rest && Claimable(q, k, role, now) && k != y ensures Before(q.tasks[x], x, q.tasks[k], k) {
          BeforeTransitive(q.tasks[x], x, q.tasks[y], y, q.tasks[k], k);
        }
      }
    }
  }

  /** A claim-next finds a task whenever there is one to claim. */
  lemma SomethingIsNext(q: Queue, role: string, now: Time)
    ensures NextKey(q, role, now).Some? <==> exists k :: k in q.tasks && Claimable(q, k, role, now)
  {
    if exists k :: k in q.tasks && Claimable(q, k, role, now) {
      var k := LeastOf(q, q.tasks.Keys, role, now);
      assert IsNext(q, k, role, now);
    }
  }

  /** A second key is never next: the claim is granted to one caller. */
  lemma NextIsUnique(q: Queue, k1: string, k2: string, role: string, now: Time)
    requires IsNext(q, k1, role, now) && IsNext(q, k2, role, now)
    ensures k1 == k2
  {
    if k1 != k2 { BeforeTotal(q.tasks[k1], k1, q.tasks[k2], k2); }
  }
}
