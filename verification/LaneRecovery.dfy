/** Recovery against live lanes over whole runs: the decision to quarantine is made in
    one state and carried out in a later one, while lanes go on working. */
module LaneRecovery {
  import opened Text
  import opened WorkQueue
  import opened LaneProtocol

  /** The row's update time never moves back. */
  ghost predicate StampsGrow(states: seq<State>, key: string) {
    forall i :: 0 <= i < |states| - 1 && key in states[i].queue.tasks ==> StampGrows(states[i], states[i + 1], key)
  }

  predicate StampGrows(s: State, t: State, key: string)
    requires key in s.queue.tasks
  {
    key in t.queue.tasks && s.queue.tasks[key].updatedAt <= t.queue.tasks[key].updatedAt
  }

  /** A runner that has claimed its row finds it stamped with its own clock reading, or
      later. */
  predicate ClaimIsStamped(s: State, key: string, id: nat) {
    id in s.runners && s.runners[id].taskKey == key && s.runners[id].phase.Claimed? ==>
      key in s.queue.tasks && s.queue.tasks[key].updatedAt >= s.runners[id].phase.at
  }

  lemma {:induction false} ClaimsAreStamped(states: seq<State>, actions: seq<Action>, key: string, i: nat, id: nat)
    requires IsRun(states, actions) && Initial(states[0]) && StampsGrow(states, key) && i < |states|
    ensures ClaimIsStamped(states[i], key, id)
    decreases i
  {
    if i > 0 {
      ClaimsAreStamped(states, actions, key, i - 1, id);
      var s := states[i - 1];
      assert key in s.queue.tasks ==> StampGrows(s, states[i - 1 + 1], key);
      ClaimStep(s, actions[i - 1], key, id);
    }
  }

  lemma ClaimStep(s: State, a: Action, key: string, id: nat)
    requires ClaimIsStamped(s, key, id)
    requires key in s.queue.tasks ==> StampGrows(s, Next(s, a), key)
    ensures ClaimIsStamped(Next(s, a), key, id)
  {
    var t := Next(s, a);
    if id in t.runners && t.runners[id].taskKey == key && t.runners[id].phase.Claimed? {
      ClaimedFrom(s, a, id);
      if s.runners[id].phase.Enqueued? { ClaimStamps(s, a, id); }
    }
  }

  lemma ClaimedFrom(s: State, a: Action, id: nat)
    requires id in Moved(s, a).runners && Moved(s, a).runners[id].phase.Claimed?
    ensures id in s.runners
    ensures var r, r' := s.runners[id], Moved(s, a).runners[id];
      r' == r || (a == ClaimLane(id) && r == r'.(phase := Enqueued(r'.phase.at))
                  && ClaimedKey(s.queue, Op.Claim(r.taskKey, r'.phase.at)) == Some(r.taskKey))
  {
    if !Outside(a) && a.id in s.runners {
      OneMoves(s, a);
      if a.id == id && Holds(s, id) { HolderIsPastIt(s, a, id); }
      else if a.id == id { ClaimedBy(s, a, id); }
    }
  }

  lemma ClaimedBy(s: State, a: Action, id: nat)
    requires id in s.runners && !Holds(s, id)
    requires MovedRunner(s, a, id, s.runners[id], s.runners[id].phase).runners[id].phase.Claimed?
    ensures var r, r' := s.runners[id], MovedRunner(s, a, id, s.runners[id], s.runners[id].phase).runners[id];
      r' == r || (a.ClaimLane? && r == r'.(phase := Enqueued(r'.phase.at))
                  && ClaimedKey(s.queue, Op.Claim(r.taskKey, r'.phase.at)) == Some(r.taskKey))
  {
  }

  lemma HolderIsPastIt(s: State, a: Action, id: nat)
    requires Holds(s, id)
    ensures !MovedHolder(s, a, id, s.runners[id], s.runners[id].phase).runners[id].phase.Claimed?
  {
  }

  lemma ClaimStamps(s: State, a: Action, id: nat)
    requires a == ClaimLane(id) && id in s.runners && s.runners[id].phase.Enqueued?
    requires ClaimedKey(s.queue, Op.Claim(s.runners[id].taskKey, s.runners[id].phase.at)) == Some(s.runners[id].taskKey)
    ensures s.runners[id].taskKey in Next(s, a).queue.tasks
    ensures Next(s, a).queue.tasks[s.runners[id].taskKey].updatedAt == s.runners[id].phase.at
  {
  }

  /** Whoever holds the lease of this key's row got it after the decision, so the row
      is stamped later than one time to live before it. */
  predicate HolderIsRecent(s: State, key: string, id: nat, decided: Time) {
    Holds(s, id) && s.runners[id].taskKey == key ==>
      key in s.queue.tasks && s.queue.tasks[key].updatedAt > decided - LEASE_TTL
  }

  lemma HolderStep(s: State, a: Action, t: State, key: string, id: nat, decided: Time)
    requires HolderIsRecent(s, key, id, decided) && ClaimIsStamped(s, key, id)
    requires t == Next(s, a) && Timely(t) && decided <= s.now
    requires key in s.queue.tasks ==> StampGrows(s, t, key)
    ensures HolderIsRecent(t, key, id, decided)
  {
    ClockStep(s, a);
    if Holds(t, id) { HeldFrom(s, a, id); }
    if Holds(t, id) && t.runners[id].taskKey == key && !Holds(s, id) {
      assert t.now < t.runners[id].phase.deadline;
    }
  }

  /** The clock does not run back. */
  lemma ClockStep(s: State, a: Action)
    ensures s.now <= Moved(s, a).now
  {
    if !Outside(a) && a.id in s.runners { OneMoves(s, a); }
  }

  /** A lease is got by acquiring it after a claim. */
  lemma HeldFrom(s: State, a: Action, id: nat)
    requires Holds(Moved(s, a), id)
    ensures id in s.runners && Moved(s, a).runners[id].taskKey == s.runners[id].taskKey
    ensures !Holds(s, id) ==>
      s.runners[id].phase.Claimed? && Moved(s, a).runners[id].phase.deadline == s.runners[id].phase.at + LEASE_TTL
  {
    if !Outside(a) && a.id in s.runners {
      OneMoves(s, a);
      if a.id == id && !Holds(s, id) { AcquiredBy(s, a, id); }
    }
  }

  lemma AcquiredBy(s: State, a: Action, id: nat)
    requires id in s.runners && !Holds(s, id)
    requires MovedRunner(s, a, id, s.runners[id], s.runners[id].phase).runners[id].phase.Holding?
    ensures var r' := MovedRunner(s, a, id, s.runners[id], s.runners[id].phase).runners[id];
      s.runners[id].phase.Claimed? && r'.phase.deadline == s.runners[id].phase.at + LEASE_TTL
  {
  }

  lemma {:induction false} ClockGrows(states: seq<State>, actions: seq<Action>, d: nat, i: nat)
    requires IsRun(states, actions) && d <= i < |states|
    ensures states[d].now <= states[i].now
    decreases i
  {
    if d < i {
      ClockGrows(states, actions, d, i - 1);
      ClockStep(states[i - 1], actions[i - 1]);
    }
  }

  lemma {:induction false} HoldersAreRecent(states: seq<State>, actions: seq<Action>, key: string, d: nat, i: nat,
                                            id: nat)
    requires TimelyRun(states, actions) && StampsGrow(states, key) && d <= i < |states|
    requires HolderIsRecent(states[d], key, id, states[d].now)
    ensures HolderIsRecent(states[i], key, id, states[d].now)
    decreases i
  {
    if d < i {
      HoldersAreRecent(states, actions, key, d, i - 1, id);
      ClockGrows(states, actions, d, i - 1);
      HolderInRun(states, actions, key, i - 1, id, states[d].now);
    }
  }

  lemma HolderInRun(states: seq<State>, actions: seq<Action>, key: string, i: nat, id: nat, decided: Time)
    requires TimelyRun(states, actions) && StampsGrow(states, key) && i < |actions| && decided <= states[i].now
    requires HolderIsRecent(states[i], key, id, decided)
    ensures HolderIsRecent(states[i + 1], key, id, decided)
  {
    ClaimsAreStamped(states, actions, key, i, id);
    var t := states[i + 1];
    assert key in states[i].queue.tasks ==> StampGrows(states[i], t, key);
    assert t == Next(states[i], actions[i]) && Timely(t);
    HolderStep(states[i], actions[i], t, key, id, decided);
  }

  /** Somebody decided on this row in state d, with a cutoff at least one time to live
      back, and its update time at the mark in state m is still not past that cutoff. */
  ghost predicate CarriesOut(states: seq<State>, key: string, d: nat, m: nat, beats: Beats, now: Time,
                             staleAfter: Time)
  {
    && d <= m < |states| && now <= states[d].now && staleAfter >= LEASE_TTL
    && Recoverable(states[d].queue, states[d].leases, beats, key, now, staleAfter)
    && key in states[m].queue.tasks && states[m].queue.tasks[key].updatedAt <= now - staleAfter
  }

  /** In a timely run in which the row's stamps do not move back, a mark that carries
      out a decision never hits the row of a runner that holds its lease, however many
      steps lie between the two: no live lane is quarantined. */
  lemma NoLiveLaneIsQuarantined(states: seq<State>, actions: seq<Action>, key: string, d: nat, m: nat, id: nat,
                                beats: Beats, now: Time, staleAfter: Time)
    requires TimelyRun(states, actions) && StampsGrow(states, key)
    requires CarriesOut(states, key, d, m, beats, now, staleAfter)
    ensures Holds(states[m], id) ==> states[m].runners[id].taskKey != key
  {
    if Holds(states[d], id) { LiveLaneIsNotRecoverable(states, actions, d, id, beats, now, staleAfter); }
    HoldersAreRecent(states, actions, key, d, m, id);
  }

  /** Every mark on a runner's row carries out some decision, and finds stamps that have
      not moved back. */
  ghost predicate Disciplined(states: seq<State>, actions: seq<Action>) {
    forall m :: 0 <= m < |actions| && MarksRunner(actions[m]) ==> Justified(states, actions[m].op.key, m)
  }

  predicate MarksRunner(a: Action) {
    a.Other? && a.op.Quarantine? && RunnerKey(a.op.key)
  }

  ghost predicate Justified(states: seq<State>, key: string, m: nat) {
    StampsGrow(states, key)
    && exists d, beats, now, staleAfter :: CarriesOut(states, key, d, m, beats, now, staleAfter)
  }

  /** So under disciplined recovery no step of a timely run marks the row of a runner
      that holds its lease. */
  lemma LiveLanesAreNeverMarked(states: seq<State>, actions: seq<Action>, m: nat, id: nat)
    requires TimelyRun(states, actions) && Disciplined(states, actions) && m < |actions|
    requires actions[m].Other? && actions[m].op.Quarantine? && Holds(states[m], id)
    ensures states[m].runners[id].taskKey != actions[m].op.key
  {
    var key := actions[m].op.key;
    InvHolds(states, actions, m);
    if states[m].runners[id].taskKey == key {
      assert Justified(states, key, m);
      var d, beats, now, staleAfter :| CarriesOut(states, key, d, m, beats, now, staleAfter);
      NoLiveLaneIsQuarantined(states, actions, key, d, m, id, beats, now, staleAfter);
    }
  }
}
