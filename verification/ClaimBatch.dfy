/** The batch of one implementation cycle: claims are gathered up to a capacity, and
    then either all of them run or all of their locks are given back. */
module ClaimBatch {
  import opened Text

  /** What the k-th round finds: an ended context, an error, or a claim with its lock. */
  datatype Offer = Offer(canceled: bool, failed: bool, lock: Option<int>, didWork: bool)

  predicate Grants(o: Offer) {
    !o.canceled && !o.failed && o.lock.Some?
  }

  /** The locks of the first n rounds, all of which granted one. */
  function Locks(offer: nat -> Offer, n: nat): seq<int> {
    if n == 0 then []
    else Locks(offer, n - 1) + if offer(n - 1).lock.Some? then [offer(n - 1).lock.value] else []
  }

  /** Gathering ends in round n: the batch is full, or this round grants nothing. */
  predicate EndsIn(offer: nat -> Offer, capacity: nat, n: nat) {
    n <= capacity && (forall j: nat :: j < n ==> Grants(offer(j))) && (n < capacity ==> !Grants(offer(n)))
  }

  predicate Aborts(offer: nat -> Offer, capacity: nat, n: nat) {
    n < capacity && (offer(n).canceled || offer(n).failed)
  }

  function Capacity(capacity: int): nat {
    if capacity < 1 then 1 else capacity
  }

  /** There is exactly one round in which gathering ends. */
  lemma EndIsUnique(offer: nat -> Offer, capacity: nat, n: nat, m: nat)
    requires EndsIn(offer, capacity, n) && EndsIn(offer, capacity, m)
    ensures n == m
  {
  }

  /** Where gathering ends, in words: after at most as many claims as there is room for,
      and at least one, each of them with a lock and without an error; earlier only if
      the context ends, a claim fails, or there is nothing to claim. Only the first two
      of these abort the batch. */
  lemma EndsExactly(offer: nat -> Offer, capacity: int, n: nat)
    ensures EndsIn(offer, Capacity(capacity), n) <==>
      && (n <= 1 || n <= capacity)
      && (forall j: nat :: j < n ==> !offer(j).canceled && !offer(j).failed && offer(j).lock != None)
      && (n == 0 || n < capacity ==> offer(n).canceled || offer(n).failed || offer(n).lock == None)
    ensures EndsIn(offer, Capacity(capacity), n) ==>
      (Aborts(offer, Capacity(capacity), n) <==> (n == 0 || n < capacity) && (offer(n).canceled || offer(n).failed))
  {
    assert forall j: nat :: Grants(offer(j)) <==> !offer(j).canceled && !offer(j).failed && offer(j).lock != None;
  }

  class Batch {
    var released: seq<int>
    var executed: seq<int>

    constructor ()
      ensures released == [] && executed == []
    {
      released, executed := [], [];
    }

    /** Every lock taken is used exactly once: given back if a later round fails or
        is canceled, handed to an execution otherwise, and never more than the
        capacity. */
    method Run(canceled: bool, capacity: int, offer: nat -> Offer, breaks: int -> bool)
      returns (didWork: bool, err: bool, ghost rounds: nat)
      modifies this
      ensures canceled ==> err && !didWork && released == old(released) && executed == old(executed)
      ensures !canceled ==> EndsIn(offer, Capacity(capacity), rounds) && |Locks(offer, rounds)| == rounds
      ensures !canceled && Aborts(offer, Capacity(capacity), rounds) ==>
        && err && released == old(released) + Locks(offer, rounds) && executed == old(executed)
      ensures !canceled && !Aborts(offer, Capacity(capacity), rounds) ==>
        && released == old(released) && executed == old(executed) + Locks(offer, rounds)
        && (err <==> exists j :: 0 <= j < rounds && breaks(Locks(offer, rounds)[j]))
        && (rounds > 0 ==> didWork)
    {
      rounds, didWork, err := 0, false, false;
      if canceled { return false, true, 0; }
      var room := if capacity < 1 then 1 else capacity;
      var claims, open := [], true;
      while |claims| < room && open && !err
        invariant |claims| == rounds <= room && claims == Locks(offer, rounds)
        invariant forall j: nat :: j < rounds ==> Grants(offer(j))
        invariant !open || err ==> rounds < room && !Grants(offer(rounds))
        invariant err <==> Aborts(offer, room, rounds) && !open
        decreases room - |claims|, open
      {
        var o := offer(|claims|);
        if o.canceled {
          open, err := false, true;
        } else {
          didWork := didWork || o.didWork;
          if o.failed {
            open, err := false, true;
          } else if o.lock.None? {
            open := false;
          } else {
            claims := claims + [o.lock.value];
            rounds := rounds + 1;
          }
        }
      }
      if err {
        released := released + claims;
        return;
      }
      executed := executed + claims;
      for k := 0 to |claims|
        invariant err <==> exists j :: 0 <= j < k && breaks(claims[j])
      {
        err := err || breaks(claims[k]);
      }
      didWork := didWork || claims != [];
    }
  }
}
