/** The durable store as the processes use it: one table per field, one method per
    store call. Each method is proved against the statement it stands for. */
module StateStore {
  import opened Text
  import opened WorkQueue

  datatype StoreError = MissingField | BadPayload | LeaseHeld | NotFound | WrongStatus | BadStaleAfter

  datatype Result<+T> = Ok(value: T) | Err(error: StoreError)

  /** What an enqueue did: the row that blocks it, or the row it wrote. */
  datatype Enqueue = Blocked(row: Task) | Wrote(row: Task)

  /** The event of an operator's repair. */
  datatype Repair = Repair(taskKey: string, role: string, issueKey: string, reason: string, at: Time)

  const UNSET := Other("")
  const REQUEUED_BY_OPERATOR := "operator_requeued_reconciliation_task"

  // ----- what recovery as a whole does -----

  /** The rows `done` quarantined at `now`, each with its result row. */
  ghost function QuarantineAll(q: Queue, done: set<string>, now: Time): Queue
    requires done <= q.tasks.Keys
  {
    Queue(
      map k | k in q.tasks ::
        if k in done then q.tasks[k].(status := ReconciliationNeeded, updatedAt := now) else q.tasks[k],
      map k | k in q.results.Keys + done ::
        if k in done then WorkerResult(q.tasks[k].role, ReconciliationNeeded, now) else q.results[k])
  }

  lemma QuarantineOneMore(q: Queue, done: set<string>, key: string, now: Time)
    requires done <= q.tasks.Keys && key !in done && HasStatus(q, key, Claimed)
    ensures Apply(QuarantineAll(q, done, now), Op.Quarantine(key, now)) == QuarantineAll(q, done + {key}, now)
  {
    var q', all := Apply(QuarantineAll(q, done, now), Op.Quarantine(key, now)), QuarantineAll(q, done + {key}, now);
    assert q'.tasks == all.tasks;
    assert q'.results == all.results;
  }

  ghost function Stale(q: Queue, leases: Leases, beats: Beats, now: Time, staleAfter: Time): set<string> {
    set k | k in q.tasks && Recoverable(q, leases, beats, k, now, staleAfter)
  }

  /** Recovery decides key by key while it writes; the earlier writes change
      nothing about the later decisions. */
  lemma DecisionsAreIndependent(q: Queue, leases: Leases, beats: Beats, done: set<string>, key: string,
                                now: Time, staleAfter: Time)
    requires done <= q.tasks.Keys && key !in done
    ensures Recoverable(QuarantineAll(q, done, now), leases, beats, key, now, staleAfter)
       <==> Recoverable(q, leases, beats, key, now, staleAfter)
  {
  }

  /** A second recovery at the same moment finds nothing to do. */
  lemma RecoveryLeavesNothing(q: Queue, leases: Leases, beats: Beats, now: Time, staleAfter: Time)
    ensures Stale(QuarantineAll(q, Stale(q, leases, beats, now, staleAfter), now), leases, beats, now, staleAfter) == {}
  {
    var done := Stale(q, leases, beats, now, staleAfter);
    forall k | k in q.tasks
      ensures !Recoverable(QuarantineAll(q, done, now), leases, beats, k, now, staleAfter)
    {
      if k !in done { DecisionsAreIndependent(q, leases, beats, done, k, now, staleAfter); }
    }
  }

  class Store {
    var leases: Leases
    var tasks: map<string, Task>
    var results: map<string, WorkerResult>
    var beats: Beats
    var repairs: seq<Repair>

    constructor ()
      ensures leases == map[] && View() == Queue(map[], map[]) && beats == map[] && repairs == []
    {
      leases, tasks, results, beats, repairs := map[], map[], map[], map[], [];
    }

    function View(): Queue
      reads this
    {
      Queue(tasks, results)
    }

    // ----- leases -----

    method AcquireLease(name: string, scope: string, owner: string, now: Time, ttl: Time) returns (r: Result<bool>)
      modifies `leases
      ensures r == (if name == "" || scope == "" || owner == "" then Err(MissingField)
                    else Ok(!Refuses(old(leases), name, now)))
      ensures leases == if r.Ok? then WorkQueue.AcquireLease(old(leases), name, owner, now, ttl) else old(leases)
    {
      if name == "" || scope == "" || owner == "" { return Err(MissingField); }
      if name in leases {
        var row := leases[name];
        if row.releasedAt.None? && row.expiresAt > now { return Ok(false); }
      }
      leases := leases[name := Lease(owner, now, now, now + ttl, None)];
      return Ok(true);
    }

    method RenewLease(name: string, at: Time, expiresAt: Time) returns (r: Result<()>)
      modifies `leases
      ensures r == (if name == "" then Err(MissingField)
                    else if Renewable(old(leases), name) then Ok(()) else Err(LeaseHeld))
      ensures leases == if r.Ok? then WorkQueue.RenewLease(old(leases), name, at, expiresAt) else old(leases)
    {
      if name == "" { return Err(MissingField); }
      if name !in leases || leases[name].releasedAt.Some? { return Err(LeaseHeld); }
      leases := leases[name := leases[name].(renewedAt := at, expiresAt := expiresAt)];
      return Ok(());
    }

    method ReleaseLease(name: string, at: Time) returns (r: Result<()>)
      modifies `leases
      ensures r == (if name == "" then Err(MissingField)
                    else if name in old(leases) then Ok(()) else Err(LeaseHeld))
      ensures leases == if r.Ok? then WorkQueue.ReleaseLease(old(leases), name, at) else old(leases)
    {
      if name == "" { return Err(MissingField); }
      if name !in leases { return Err(LeaseHeld); }
      leases := leases[name := leases[name].(releasedAt := Some(at))];
      return Ok(());
    }

    // ----- tasks -----

    /** The payload column is not modelled; `validJSON` says whether it can be stored. */
    method UpsertWorkerTask(key: string, task: Task, validJSON: bool) returns (r: Result<()>)
      modifies `tasks
      ensures r == (if key == "" || task.role == "" then Err(MissingField)
                    else if validJSON then Ok(()) else Err(BadPayload))
      ensures r.Err? ==> View() == old(View())
      ensures r.Ok? ==> View() == Apply(old(View()),
                Op.Upsert(key, if task.status == UNSET then task.(status := Queued) else task))
    {
      if key == "" || task.role == "" { return Err(MissingField); }
      if !validJSON { return Err(BadPayload); }
      var row := if task.status == UNSET then task.(status := Queued) else task;
      if key in tasks { row := row.(createdAt := tasks[key].createdAt); }
      tasks := tasks[key := row];
      return Ok(());
    }

    method ClaimWorkerTask(key: string, now: Time) returns (r: Result<Option<Task>>)
      modifies `tasks
      ensures key == "" ==> r == Err(MissingField) && View() == old(View())
      ensures key != "" ==> View() == Apply(old(View()), Op.Claim(key, now))
      ensures key != "" ==>
        r == Ok(if ClaimedKey(old(View()), Op.Claim(key, now)) == Some(key) then Some(tasks[key]) else None)
    {
      if key == "" { return Err(MissingField); }
      if key !in tasks || tasks[key].status != Queued || tasks[key].availableAt > now { return Ok(None); }
      tasks := tasks[key := tasks[key].(status := Claimed, updatedAt := now)];
      return Ok(Some(tasks[key]));
    }

    /** Grants the task that is next in the claim order, if any can be claimed. */
    method ClaimNextWorkerTask(role: string, now: Time) returns (r: Result<Option<(string, Task)>>)
      modifies `tasks
      ensures role == "" ==> r == Err(MissingField) && View() == old(View())
      ensures role != "" ==> r.Ok? && View() == Apply(old(View()), Op.ClaimNext(role, now))
      ensures role != "" && r.value.None? ==>
        forall k :: k in old(tasks) ==> !Claimable(old(View()), k, role, now)
      ensures role != "" && r.value.Some? ==>
        var key := r.value.value.0;
        IsNext(old(View()), key, role, now) && key in tasks && r.value.value.1 == tasks[key]
    {
      if role == "" { return Err(MissingField); }
      SomethingIsNext(View(), role, now);
      if k :| k in tasks && IsNext(View(), k, role, now) {
        NextIsUnique(View(), k, NextKey(View(), role, now).value, role, now);
        tasks := tasks[k := tasks[k].(status := Claimed, updatedAt := now)];
        return Ok(Some((k, tasks[k])));
      }
      return Ok(None);
    }

    method CompleteWorkerTask(key: string, status: Status, now: Time) returns (r: Result<()>)
      modifies `tasks
      ensures r == (if key == "" || status == UNSET then Err(MissingField)
                    else if HasStatus(old(View()), key, Claimed) then Ok(()) else Err(LeaseHeld))
      ensures View() == if r.Ok? then Apply(old(View()), Op.Complete(key, status, now)) else old(View())
    {
      if key == "" || status == UNSET { return Err(MissingField); }
      if key !in tasks || tasks[key].status != Claimed { return Err(LeaseHeld); }
      tasks := tasks[key := tasks[key].(status := status, updatedAt := now)];
      return Ok(());
    }

    method TouchClaimedWorkerTask(key: string, now: Time) returns (r: Result<()>)
      modifies `tasks
      ensures r == (if key == "" then Err(MissingField)
                    else if HasStatus(old(View()), key, Claimed) then Ok(()) else Err(LeaseHeld))
      ensures View() == if r.Ok? then Apply(old(View()), Op.Touch(key, now)) else old(View())
    {
      if key == "" { return Err(MissingField); }
      if key !in tasks || tasks[key].status != Claimed { return Err(LeaseHeld); }
      tasks := tasks[key := tasks[key].(updatedAt := now)];
      return Ok(());
    }

    /** The operator's repair: the only way out of quarantine. The row and the event
        about it are written together. */
    method RequeueReconciliationNeeded(rawKey: string, reason: string, now: Time) returns (r: Result<Task>)
      modifies `tasks, `repairs
      ensures var key := TrimSpace(rawKey);
        && (key == "" ==> r == Err(MissingField))
        && (key != "" && key !in old(tasks) ==> r == Err(NotFound))
        && (key != "" && key in old(tasks) && old(tasks)[key].status != ReconciliationNeeded ==> r == Err(WrongStatus))
        && (key != "" && HasStatus(old(View()), key, ReconciliationNeeded) ==> key in tasks && r == Ok(tasks[key]))
      ensures View() == if r.Ok? then Apply(old(View()), Op.Requeue(TrimSpace(rawKey), now)) else old(View())
      ensures repairs == old(repairs) +
        if r.Err? then []
        else [Repair(TrimSpace(rawKey), r.value.role, r.value.issueKey,
                     if Blank(reason) then REQUEUED_BY_OPERATOR else reason, now)]
    {
      var key := TrimSpace(rawKey);
      if key == "" { return Err(MissingField); }
      if key !in tasks { return Err(NotFound); }
      if tasks[key].status != ReconciliationNeeded { return Err(WrongStatus); }
      tasks := tasks[key := tasks[key].(status := Queued, availableAt := now, updatedAt := now)];
      var why := if Blank(reason) then REQUEUED_BY_OPERATOR else reason;
      repairs := repairs + [Repair(key, tasks[key].role, tasks[key].issueKey, why, now)];
      return Ok(tasks[key]);
    }

    // ----- stale claims -----

    /** The claimed rows that have not been updated since the cutoff. */
    method StaleKeys(cutoff: Time) returns (keys: seq<string>)
      ensures forall k :: k in keys <==> HasStatus(View(), k, Claimed) && tasks[k].updatedAt <= cutoff
      ensures forall i, j :: 0 <= i < j < |keys| ==> keys[i] != keys[j]
    {
      keys := [];
      var rest := tasks.Keys;
      while rest != {}
        invariant rest <= tasks.Keys
        invariant forall k :: k in keys ==> k !in rest
        invariant forall k :: k in keys <==>
          k in tasks && k !in rest && tasks[k].status == Claimed && tasks[k].updatedAt <= cutoff
        invariant forall i, j :: 0 <= i < j < |keys| ==> keys[i] != keys[j]
        decreases rest
      {
        var k :| k in rest;
        rest := rest - {k};
        if tasks[k].status == Claimed && tasks[k].updatedAt <= cutoff { keys := keys + [k]; }
      }
    }

    method IsRecoverable(row: Task, now: Time, cutoff: Time) returns (r: bool)
      ensures r <==> Abandoned(leases, beats, row.leaseName, now, cutoff)
    {
      var name := TrimSpace(row.leaseName);
      if name == "" { return true; }
      if name !in leases || leases[name].releasedAt.Some? { return true; }
      var lease := leases[name];
      if lease.expiresAt > now { return false; }
      if Blank(lease.owner) { return true; }
      return !exists beat :: beat in beats && beat.0 == lease.owner && beats[beat] > cutoff;
    }

    /** Moves to reconciliation_needed exactly the recoverable claims, and changes
        nothing else. */
    method MarkStaleClaimed(now: Time, staleAfter: Time) returns (r: Result<seq<string>>)
      modifies `tasks, `results
      ensures staleAfter <= 0 ==> r == Err(BadStaleAfter) && View() == old(View())
      ensures staleAfter > 0 ==> (
        && r.Ok?
        && (forall k :: k in r.value <==> k in Stale(old(View()), leases, beats, now, staleAfter))
        && (forall i, j :: 0 <= i < j < |r.value| ==> r.value[i] != r.value[j])
        && View() == QuarantineAll(old(View()), Stale(old(View()), leases, beats, now, staleAfter), now))
    {
      if staleAfter <= 0 { return Err(BadStaleAfter); }
      var cutoff := now - staleAfter;
      var keys := StaleKeys(cutoff);
      var recovered := [];
      ghost var q, done := View(), {};
      assert View().tasks == QuarantineAll(q, done, now).tasks;
      assert View().results == QuarantineAll(q, done, now).results;
      for i := 0 to |keys|
        invariant done <= q.tasks.Keys && View() == QuarantineAll(q, done, now)
        invariant forall k :: k in done <==> k in keys[..i] && Recoverable(q, leases, beats, k, now, staleAfter)
        invariant forall k :: k in recovered <==> k in done
        invariant forall i, j :: 0 <= i < j < |recovered| ==> recovered[i] != recovered[j]
      {
        var gone := MarkIfAbandoned(keys[i], now, staleAfter, q, done);
        if gone {
          done := done + {keys[i]};
          recovered := recovered + [keys[i]];
        }
      }
      assert done == Stale(q, leases, beats, now, staleAfter);
      return Ok(recovered);
    }

    /** One stale row: decided on the row as it is now, after `done` has been marked. */
    method MarkIfAbandoned(key: string, now: Time, staleAfter: Time, ghost q: Queue, ghost done: set<string>)
      returns (gone: bool)
      requires done <= q.tasks.Keys && key !in done && View() == QuarantineAll(q, done, now)
      requires HasStatus(q, key, Claimed) && q.tasks[key].updatedAt <= now - staleAfter
      modifies `tasks, `results
      ensures gone <==> Recoverable(q, leases, beats, key, now, staleAfter)
      ensures View() == QuarantineAll(q, if gone then done + {key} else done, now)
    {
      DecisionsAreIndependent(q, leases, beats, done, key, now, staleAfter);
      gone := IsRecoverable(tasks[key], now, now - staleAfter);
      if gone {
        Mark(key, now);
        QuarantineOneMore(q, done, key, now);
      }
    }

    /** One transaction: the row is tested again and its result is written with it. */
    method Mark(key: string, now: Time)
      modifies `tasks, `results
      ensures View() == Apply(old(View()), Op.Quarantine(key, now))
    {
      if key in tasks && tasks[key].status == Claimed {
        tasks := tasks[key := tasks[key].(status := ReconciliationNeeded, updatedAt := now)];
        results := results[key := WorkerResult(tasks[key].role, ReconciliationNeeded, now)];
      }
    }

    // ----- results and backoff -----

    method UpsertWorkerResult(key: string, result: WorkerResult, validJSON: bool) returns (r: Result<()>)
      modifies `results
      ensures r == (if key == "" || result.role == "" || result.status == UNSET then Err(MissingField)
                    else if validJSON then Ok(()) else Err(BadPayload))
      ensures View() == if r.Ok? then Apply(old(View()), Op.PutResult(key, result)) else old(View())
    {
      if key == "" || result.role == "" || result.status == UNSET { return Err(MissingField); }
      if !validJSON { return Err(BadPayload); }
      results := results[key := result];
      return Ok(());
    }

    /** The result rows of a role, in some order. */
    method WorkerResults(role: string) returns (rows: seq<(string, WorkerResult)>)
      ensures forall row :: row in rows <==>
        row.0 in results && row.1 == results[row.0] && (role == "" || row.1.role == role)
    {
      rows := [];
      var rest := results.Keys;
      while rest != {}
        invariant rest <= results.Keys
        invariant forall row :: row in rows <==>
          row.0 in results && row.0 !in rest && row.1 == results[row.0] && (role == "" || row.1.role == role)
        decreases rest
      {
        var k :| k in rest;
        rest := rest - {k};
        if role == "" || results[k].role == role { rows := rows + [(k, results[k])]; }
      }
    }

    method AvailableAtAfterLatestFailure(key: string, role: string, now: Time) returns (at: Time)
      ensures at == AvailableAt(results, key, role, now)
    {
      if key == "" || role == "" { return now; }
      var rows := WorkerResults(role);
      assert key in results && results[key].role == role ==> (key, results[key]) in rows;
      for i := 0 to |rows|
        invariant forall row :: row in rows[..i] ==> row.0 != key
      {
        var row := rows[i];
        assert row in rows;
        if row.0 == key {
          if row.1.status != Failed { return now; }
          var at := row.1.finishedAt + RetryBackoff(role);
          return if at > now then at else now;
        }
      }
      return now;
    }

    /** Enqueues a key unless its row blocks it; a recent failure pushes the row's
        availability back. */
    method EnqueueUnlessBlocked(key: string, role: string, issueKey: string, priority: int, leaseName: string,
                                now: Time) returns (r: Result<Enqueue>)
      modifies `tasks
      ensures DispatchBlocked(old(View()), key, role) ==>
        r == Ok(Blocked(old(tasks)[key])) && View() == old(View())
      ensures !DispatchBlocked(old(View()), key, role) && (key == "" || role == "") ==>
        r == Err(MissingField) && View() == old(View())
      ensures !DispatchBlocked(old(View()), key, role) && key != "" && role != "" ==>
        var row := Task(role, issueKey, Queued, priority, AvailableAt(results, key, role, now), leaseName, now, now);
        r == Ok(Wrote(row)) && View() == Apply(old(View()), Op.Upsert(key, row))
    {
      if key in tasks && tasks[key].role == role && BlocksDispatch(tasks[key].status) {
        return Ok(Blocked(tasks[key]));
      }
      var at := AvailableAtAfterLatestFailure(key, role, now);
      var row := Task(role, issueKey, Queued, priority, at, leaseName, now, now);
      var done := UpsertWorkerTask(key, row, true);
      if done.Err? { return Err(done.error); }
      return Ok(Wrote(row));
    }

    /** Completing a claim takes two writes. The second happens even when the first
        found the row no longer claimed, so a worker that was quarantined still
        replaces the result row, and never its status. */
    method CompleteClaimed(key: string, role: string, status: Status, finishedAt: Time) returns (r: Result<()>)
      requires role != ""
      modifies `tasks, `results
      ensures key == "" ==> r == Ok(()) && View() == old(View())
      ensures key != "" ==>
        var final := if status == UNSET then Completed else status;
        && View() == Apply(Apply(old(View()), Op.Complete(key, final, finishedAt)),
                           Op.PutResult(key, WorkerResult(role, final, finishedAt)))
        && r == if HasStatus(old(View()), key, Claimed) then Ok(()) else Err(LeaseHeld)
    {
      if key == "" { return Ok(()); }
      var final := if status == UNSET then Completed else status;
      var completed := CompleteWorkerTask(key, final, finishedAt);
      var recorded := UpsertWorkerResult(key, WorkerResult(role, final, finishedAt), true);
      return if completed.Err? then completed else recorded;
    }
  }
}
