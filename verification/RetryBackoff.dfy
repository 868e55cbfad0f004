/** The exponential backoff between attempts, on 64-bit nanoseconds. */
module RetryBackoff {
  import opened Text
  import opened WorkQueue

  const TWO_63 := 0x8000_0000_0000_0000
  const TWO_64 := 0x1_0000_0000_0000_0000

  /** The largest doubling of a second that fits: 2^33 seconds. */
  const LAST_DOUBLING := 0x2_0000_0000 * SECOND

  predicate IsInt64(x: int) {
    -TWO_63 <= x < TWO_63
  }

  /** Two's complement: what 64 bits keep of a product. */
  function Wrap(x: int): (w: int)
    ensures IsInt64(w) && (IsInt64(x) ==> w == x)
  {
    (x + TWO_63) % TWO_64 - TWO_63
  }

  function Pow2(n: nat): (p: nat)
    ensures p > 0
  {
    if n == 0 then 1 else 2 * Pow2(n - 1)
  }

  function Min(a: int, b: int): int {
    if a < b then a else b
  }

  /** The delay that is meant: doubling from one second, capped. */
  function Intended(retryCount: int, max: Time): Time {
    if max <= 0 then 0
    else if retryCount <= 1 then Min(SECOND, max)
    else Min(Pow2(retryCount - 1) * SECOND, max)
  }

  /** A second after k doublings in 64 bits. */
  function Doubled(k: nat): int {
    if k == 0 then SECOND else Wrap(2 * Doubled(k - 1))
  }

  lemma {:induction false} PowersGrow(a: nat, b: nat)
    requires a <= b
    ensures Pow2(a) <= Pow2(b)
  {
    if a < b { PowersGrow(a, b - 1); }
  }

  lemma TwoTo33()
    ensures Pow2(33) == 0x2_0000_0000 && Pow2(34) == 0x4_0000_0000
  {
    assert Pow2(8) == 256;
    assert Pow2(16) == 65536;
    assert Pow2(24) == 0x100_0000;
    assert Pow2(32) == 0x1_0000_0000;
  }

  lemma {:induction false} ExactUpTo33(k: nat)
    requires k <= 33
    ensures Doubled(k) == Pow2(k) * SECOND <= LAST_DOUBLING
  {
    TwoTo33();
    PowersGrow(k, 33);
    if k > 0 { ExactUpTo33(k - 1); }
  }

  /** The wrapped values of doublings 34 to 55. */
  const WRAPPED := [
    -1266874889709551616, -2533749779419103232, -5067499558838206464, 8311744956033138688,
    -1823254161643274240, -3646508323286548480, -7293016646573096960, 3860710780563357696,
    7721421561126715392, -3003900951456120832, -6007801902912241664, 6431140267885068288,
    -5584463537939415040, 7277816997830721536, -3891110078048108544, -7782220156096217088,
    2882303761517117440, 5764607523034234880, -6917529027641081856, 4611686018427387904,
    -9223372036854775808, 0]

  lemma WrappedSteps()
    ensures |WRAPPED| == 22 && WRAPPED[0] == Wrap(2 * LAST_DOUBLING) && WRAPPED[21] == 0
    ensures forall j :: 0 <= j < 21 ==> WRAPPED[j + 1] == Wrap(2 * WRAPPED[j])
    ensures forall j :: 0 <= j < 22 ==> WRAPPED[j] < LAST_DOUBLING
  {
  }

  lemma {:induction false} WrappedValue(k: nat, j: nat)
    requires j < 22 && k == 34 + j
    ensures Doubled(k) == WRAPPED[j]
  {
    WrappedSteps();
    if j == 0 { ExactUpTo33(k - 1); TwoTo33(); } else { WrappedValue(k - 1, j - 1); }
  }

  /** From the 34th doubling on the value has wrapped, and no later value ever
      comes back up to 2^33 seconds; after the 54th it is zero. */
  lemma {:induction false} WrappedFrom34(k: nat)
    requires k >= 34
    ensures Doubled(k) < LAST_DOUBLING
    ensures k >= 55 ==> Doubled(k) == 0
  {
    WrappedSteps();
    if k <= 55 { WrappedValue(k, k - 34); } else { WrappedFrom34(k - 1); }
  }

  /** What the doubling loop computes: the cap once some doubling reaches it. */
  function Delay(retryCount: int, max: Time): Time {
    var n := if retryCount < 1 then 1 else retryCount;
    if max <= 0 then 0
    else if exists k :: 1 <= k < n && Doubled(k) >= max then max
    else Min(Doubled(n - 1), max)
  }

  method RetryBackoffDuration(retryCount: int, max: Time) returns (d: Time)
    ensures d == Delay(retryCount, max)
  {
    if max <= 0 { return 0; }
    var n := if retryCount < 1 then 1 else retryCount;
    d := SECOND;
    var i := 1;
    while i < n
      invariant 1 <= i <= n
      invariant d == Doubled(i - 1)
      invariant forall k :: 1 <= k < i ==> Doubled(k) < max
    {
      d := Wrap(2 * d);
      if d >= max {
        assert Doubled(i) >= max;
        return max;
      }
      i := i + 1;
    }
    if d > max { return max; }
  }

  /** With at most 34 retries no doubling has wrapped. */
  lemma FewRetries(n: nat, max: Time)
    requires 1 <= n <= 34 && 0 < max
    ensures Delay(n, max) == Min(Pow2(n - 1) * SECOND, max)
  {
    ExactUpTo33(n - 1);
    forall k: nat | k < n ensures Doubled(k) == Pow2(k) * SECOND <= Pow2(n - 1) * SECOND {
      ExactUpTo33(k);
      PowersGrow(k, n - 1);
    }
    assert Pow2(0) == 1;
  }

  /** Later the cap has been reached, if it is at most 2^33 seconds ... */
  lemma ManyRetriesSmallCap(n: nat, max: Time)
    requires n >= 35 && 0 < max <= LAST_DOUBLING
    ensures Delay(n, max) == max
  {
    ExactUpTo33(33);
    TwoTo33();
    assert Doubled(33) >= max;
  }

  /** ... and otherwise it never is. */
  lemma ManyRetriesLargeCap(n: nat, max: Time)
    requires n >= 35 && max > LAST_DOUBLING
    ensures Delay(n, max) < LAST_DOUBLING
  {
    forall k: nat | k < n ensures Doubled(k) <= LAST_DOUBLING {
      if k <= 33 { ExactUpTo33(k); } else { WrappedFrom34(k); }
    }
    WrappedFrom34(n - 1);
  }

  /** The loop computes the intended delay if and only if the cap is at most 2^33
      seconds or there have been at most 34 retries. */
  lemma DelayIsIntended(retryCount: int, max: Time)
    ensures Delay(retryCount, max) == Intended(retryCount, max) <==> max <= LAST_DOUBLING || retryCount <= 34
  {
    if max > 0 {
      var n: nat := if retryCount < 1 then 1 else retryCount;
      assert Delay(retryCount, max) == Delay(n, max);
      assert Pow2(0) == 1;
      if n <= 34 {
        FewRetries(n, max);
      } else {
        TwoTo33();
        PowersGrow(34, n - 1);
        if max <= LAST_DOUBLING { ManyRetriesSmallCap(n, max); } else { ManyRetriesLargeCap(n, max); }
      }
    }
  }

  /** Where the loop is right the delay is positive, capped and never shrinks. */
  lemma DelayIsMonotone(fewer: int, more: int, max: Time)
    requires fewer <= more && 0 < max && (max <= LAST_DOUBLING || more <= 34)
    ensures 0 < Delay(fewer, max) <= Delay(more, max) <= max
  {
    DelayIsIntended(fewer, max);
    DelayIsIntended(more, max);
    if 1 < fewer { PowersGrow(fewer - 1, more - 1); }
  }

  /** Where it is not, the 35th retry is not delayed at all. */
  lemma OverflowMeansNoDelay(max: Time)
    requires max > LAST_DOUBLING
    ensures Delay(35, max) < 0
  {
    forall k: nat | k < 34 ensures Doubled(k) < max { ExactUpTo33(k); }
    WrappedValue(34, 0);
  }
}
