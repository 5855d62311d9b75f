/** Exponential backoff: the stateful generator, the loop around it, and its closed form. */
module Backoff {
  import opened Common

  const STOP: int := -1

  /** The interval handed out by call number `k` after a reset: doubled each time, cut off at `max`. */
  function Interval(base: int, max: int, k: nat): int
  {
    if k == 0 then base else Min(2 * Interval(base, max, k - 1), max)
  }

  /** The last interval of calls 0 .. k, or the maximum as soon as one of them says stop. */
  function Looped(base: int, max: int, k: nat): int
  {
    if k > 0 && StopsBy(base, max, k - 1) then max
    else if Interval(base, max, k) == STOP then max
    else Interval(base, max, k)
  }

  predicate StopsBy(base: int, max: int, k: nat)
  {
    Interval(base, max, k) == STOP || (k > 0 && StopsBy(base, max, k - 1))
  }

  function Delay(base: int, max: int, attempts: nat): int
  {
    if attempts == 0 then base else Looped(base, max, attempts)
  }

  /** The deterministic generator (multiplier 2, no randomization, no elapsed-time limit). */
  class ExponentialBackOff {
    const initial: int
    const max: int
    var current: int
    ghost var calls: nat

    ghost predicate Valid()
      reads this
    {
      current == Interval(initial, max, calls)
    }

    constructor (initial: int, max: int)
      ensures Valid() && calls == 0 && this.initial == initial && this.max == max
    {
      this.initial, this.max := initial, max;
      current, calls := initial, 0;
    }

    method NextBackOff() returns (next: int)
      requires Valid()
      modifies this
      ensures Valid() && calls == old(calls) + 1
      ensures next == Interval(initial, max, old(calls))
    {
      next := current;
      current := Min(2 * current, max);
      calls := calls + 1;
    }
  }

  method CalculateBackoff(base: int, max: int, attempts: nat) returns (delay: int)
    ensures delay == Delay(base, max, attempts)
  {
    if attempts == 0 { return base; }
    var b := new ExponentialBackOff(base, max);
    delay := 0;
    var i := 0;
    while i <= attempts
      invariant i <= attempts + 1 && b.Valid() && b.calls == i && b.initial == base && b.max == max
      invariant i > 0 ==> !StopsBy(base, max, i - 1) && delay == Interval(base, max, i - 1)
      invariant fresh(b)
    {
      delay := b.NextBackOff();
      if delay == STOP {
        StopIsFinal(base, max, i, attempts);
        return max;
      }
      i := i + 1;
    }
  }

  lemma {:induction false} StopIsFinal(base: int, max: int, k: nat, n: nat)
    requires k <= n && StopsBy(base, max, k)
    ensures StopsBy(base, max, n) && Looped(base, max, n) == max
  {
    if k < n { StopIsFinal(base, max, k, n - 1); }
  }

  // --- Closed form ---------------------------------------------------------------------------

  lemma {:induction false} Pow2Monotone(m: nat, n: nat)
    requires m <= n
    ensures Pow2(m) <= Pow2(n)
  {
    if m < n { Pow2Monotone(m, n - 1); }
  }

  lemma ScaleMonotone(a: int, x: int, y: int)
    requires 0 < a && x <= y
    ensures a * x <= a * y
  {
  }

  lemma Doubling(base: int, k: nat)
    requires k > 0
    ensures base * Pow2(k) == 2 * (base * Pow2(k - 1))
  {
  }

  /** From the first call on, the generator hands out base * 2^k cut off at the maximum; it is never negative. */
  lemma {:induction false} IntervalClosedForm(base: int, max: int, k: nat)
    requires 0 < base && 0 < max
    ensures Interval(base, max, k) == if k == 0 then base else Min(base * Pow2(k), max)
    ensures Interval(base, max, k) > 0 && !StopsBy(base, max, k)
  {
    if k > 0 {
      IntervalClosedForm(base, max, k - 1);
      var before := base * Pow2(k - 1);
      Doubling(base, k);
      Pow2Monotone(0, k - 1);
      ScaleMonotone(base, 1, Pow2(k - 1));
      assert Min(2 * before, max) == Min(2 * Min(before, max), max);
    }
  }

  /** For positive settings the loop computes base * 2^attempts, cut off at the maximum, and never says stop. */
  lemma BackoffClosedForm(base: int, max: int, attempts: nat)
    requires 0 < base && 0 < max
    ensures Delay(base, max, attempts) == if attempts == 0 then base else Min(base * Pow2(attempts), max)
    ensures !StopsBy(base, max, attempts)
  {
    IntervalClosedForm(base, max, attempts);
    if attempts > 0 { IntervalClosedForm(base, max, attempts - 1); }
  }

  /** The delay respects the maximum exactly when the base does, or at least one attempt was made. */
  lemma DelayIsCapped(base: int, max: int, attempts: nat)
    requires 0 < base && 0 < max
    ensures Delay(base, max, attempts) <= max <==> base <= max || attempts > 0
  {
    BackoffClosedForm(base, max, attempts);
  }

  /** Delays never decrease from one attempt count to a larger one, for all counts exactly when base <= max. */
  lemma DelayIsMonotone(base: int, max: int)
    requires 0 < base && 0 < max
    ensures (forall m: nat, n: nat | m <= n :: Delay(base, max, m) <= Delay(base, max, n)) <==> base <= max
  {
    BackoffClosedForm(base, max, 0);
    BackoffClosedForm(base, max, 1);
    if base <= max {
      forall m: nat, n: nat | m <= n ensures Delay(base, max, m) <= Delay(base, max, n) {
        BackoffClosedForm(base, max, m);
        BackoffClosedForm(base, max, n);
        Pow2Monotone(m, n);
        ScaleMonotone(base, Pow2(m), Pow2(n));
        Pow2Monotone(0, n);
        ScaleMonotone(base, 1, Pow2(n));
      }
    } else {
      assert Delay(base, max, 1) < Delay(base, max, 0);
    }
  }
}
