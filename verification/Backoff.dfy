/** The retry delays of the worker's outcome reports. */
module Backoff {
  import opened Types

  /** The settings after the clean-up the worker applies to its configuration. */
  datatype RetryPolicy = RetryPolicy(maxAttempts: nat, initialMs: nat, maxMs: nat, multiplier: real)

  function Configure(attempts: int, initialMs: int, maxMs: int, multiplier: real): (p: RetryPolicy)
    ensures PolicyOk(p)
  {
    var initial := Max(initialMs, 1);
    RetryPolicy(Max(attempts, 1), initial, Max(maxMs, initial), if multiplier >= 1.0 then multiplier else 1.0)
  }

  predicate PolicyOk(p: RetryPolicy) {
    1 <= p.maxAttempts && 1 <= p.initialMs <= p.maxMs && p.multiplier >= 1.0
  }

  function Grown(p: RetryPolicy, backoffMs: nat): nat
    requires PolicyOk(p)
  {
    Min((backoffMs as real * p.multiplier).Floor, p.maxMs)
  }

  /** Settings that make sense are taken as they are, others are raised to the least that does. */
  lemma ConfigureKeeps(attempts: int, initialMs: int, maxMs: int, multiplier: real)
    ensures var p := Configure(attempts, initialMs, maxMs, multiplier);
            && p.maxAttempts == (if attempts >= 1 then attempts else 1)
            && p.initialMs == (if initialMs >= 1 then initialMs else 1)
            && p.maxMs == (if maxMs >= p.initialMs then maxMs else p.initialMs)
            && p.multiplier == (if multiplier >= 1.0 then multiplier else 1.0)
  {}

  /** The backoff grows by the multiplier, less what truncating to whole milliseconds loses, up to the cap. */
  lemma GrowthIsTruncated(p: RetryPolicy, backoffMs: nat)
    requires PolicyOk(p)
    ensures var exact := backoffMs as real * p.multiplier;
            var grown := Grown(p, backoffMs);
            && grown <= p.maxMs && grown as real <= exact
            && (grown < p.maxMs ==> exact < grown as real + 1.0)
  {}

  /** The backoff after `k` failed attempts beyond the first. */
  function BackoffMs(p: RetryPolicy, k: nat): nat
    requires PolicyOk(p)
  {
    if k == 0 then p.initialMs else Grown(p, BackoffMs(p, k - 1))
  }

  const MIN_WINDOW_MS := 50

  function WindowOf(p: RetryPolicy, backoffMs: nat): nat { Max(MIN_WINDOW_MS, Min(backoffMs, p.maxMs)) }

  function WindowMs(p: RetryPolicy, k: nat): nat
    requires PolicyOk(p)
  {
    WindowOf(p, BackoffMs(p, k))
  }

  function Power(m: nat, k: nat): nat { if k == 0 then 1 else m * Power(m, k - 1) }

  lemma ScaledUp(b: nat, x: real)
    requires x >= 1.0
    ensures (b as real * x).Floor >= b
  {
    assert b as real * (x - 1.0) >= 0.0;
    assert b as real * x == b as real * (x - 1.0) + b as real;
  }

  lemma GrownWithin(p: RetryPolicy, b: nat)
    requires PolicyOk(p) && b <= p.maxMs
    ensures b <= Grown(p, b) <= p.maxMs
  {
    ScaledUp(b, p.multiplier);
  }

  lemma {:induction false} BackoffGrows(p: RetryPolicy, k: nat)
    requires PolicyOk(p)
    ensures p.initialMs <= BackoffMs(p, k) <= Grown(p, BackoffMs(p, k)) <= p.maxMs
  {
    if k > 0 { BackoffGrows(p, k - 1); }
    GrownWithin(p, BackoffMs(p, k));
  }

  /** Windows never shrink and never exceed the larger of 50 ms and the configured maximum. */
  lemma {:induction false} WindowsGrow(p: RetryPolicy, j: nat, k: nat)
    requires PolicyOk(p) && j <= k
    ensures 50 <= WindowMs(p, j) <= WindowMs(p, k) <= Max(50, p.maxMs)
    decreases k
  {
    if j < k {
      WindowsGrow(p, j, k - 1);
      BackoffGrows(p, k - 1);
    }
  }

  lemma {:induction false} PowerPositive(m: nat, k: nat)
    requires m >= 1
    ensures Power(m, k) >= 1
  {
    if k > 0 {
      PowerPositive(m, k - 1);
      assert m * Power(m, k - 1) >= 1 * Power(m, k - 1);
    }
  }

  lemma IntegerGrowth(p: RetryPolicy, m: nat, b: nat)
    requires PolicyOk(p) && p.multiplier == m as real
    ensures Grown(p, b) == Min(b * m, p.maxMs)
  {
    assert b as real * p.multiplier == (b * m) as real;
  }

  lemma CappedProduct(exact: nat, cap: nat, m: nat)
    requires m >= 1
    ensures Min(Min(exact, cap) * m, cap) == Min(exact * m, cap)
  {
    if exact > cap {
      Monotone(1, m, exact);
      Monotone(1, m, cap);
    }
  }

  lemma Monotone(a: nat, b: nat, c: nat)
    requires a <= b
    ensures a * c <= b * c && c * a <= c * b
  {
    assert (b - a) * c >= 0;
  }

  lemma {:induction false} IntegerBackoff(p: RetryPolicy, m: nat, k: nat)
    requires PolicyOk(p) && p.multiplier == m as real
    ensures BackoffMs(p, k) == Min(p.initialMs * Power(m, k), p.maxMs)
  {
    if k > 0 {
      var exact := p.initialMs * Power(m, k - 1);
      IntegerBackoff(p, m, k - 1);
      IntegerGrowth(p, m, BackoffMs(p, k - 1));
      CappedProduct(exact, p.maxMs, m);
      Reassociate(p.initialMs, m, Power(m, k - 1));
    }
  }

  lemma Reassociate(a: nat, m: nat, x: nat)
    ensures a * (m * x) == a * x * m
  {}

  /** With an integer multiplier, truncating and capping at each step is the same as capping the exact
      power once. */
  lemma WindowsAreCappedPowers(p: RetryPolicy, m: nat, k: nat)
    requires PolicyOk(p) && p.multiplier == m as real
    ensures WindowMs(p, k) == Max(50, Min(p.initialMs * Power(m, k), p.maxMs))
  {
    IntegerBackoff(p, m, k);
  }

  function Sum(s: seq<nat>): nat { if s == [] then 0 else Sum(s[..|s| - 1]) + s[|s| - 1] }

  /** Waits as the retry loop requests them: the k-th within its window. */
  predicate WaitsOk(p: RetryPolicy, waits: seq<nat>)
    requires PolicyOk(p)
  {
    |waits| < p.maxAttempts && forall k | 0 <= k < |waits| :: waits[k] <= WindowMs(p, k)
  }

  lemma {:induction false} WaitsSumBelow(p: RetryPolicy, waits: seq<nat>)
    requires PolicyOk(p) && forall k | 0 <= k < |waits| :: waits[k] <= WindowMs(p, k)
    ensures Sum(waits) <= |waits| * Max(MIN_WINDOW_MS, p.maxMs)
  {
    if waits != [] {
      var n, most := |waits| - 1, Max(MIN_WINDOW_MS, p.maxMs);
      WaitsSumBelow(p, waits[..n]);
      WindowsGrow(p, n, n);
      assert |waits| * most == n * most + most;
    }
  }

  /** All requested waiting together is bounded by the attempts and the largest window. */
  lemma TotalWaitIsBounded(p: RetryPolicy, waits: seq<nat>)
    requires PolicyOk(p) && WaitsOk(p, waits)
    ensures Sum(waits) <= (p.maxAttempts - 1) * Max(50, p.maxMs)
  {
    WaitsSumBelow(p, waits);
    var most := Max(MIN_WINDOW_MS, p.maxMs);
    Monotone(|waits|, p.maxAttempts - 1, most);
  }
}
