/** The load generator's pacing and its request mix. Time is real-valued; clock readings are given. */
module Pacing {
  import opened Types

  function Ceil(x: real): int { -((-x).Floor) }

  /** When a worker's `k`-th operation falls due. */
  function Due(phaseStart: real, interval: real, k: nat): real {
    if k == 0 then phaseStart else Due(phaseStart, interval, k - 1) + interval
  }

  lemma {:induction false} DueIsLinear(phaseStart: real, interval: real, k: nat)
    ensures Due(phaseStart, interval, k) == phaseStart + k as real * interval
  {
    if k > 0 {
      DueIsLinear(phaseStart, interval, k - 1);
      assert k as real * interval == (k - 1) as real * interval + interval;
    }
  }

  /** The first reading a worker has not used up, when its last operation started at the last of `at`. */
  function NextReading(at: seq<nat>): nat {
    if at == [] then 0 else at[|at| - 1] + 1
  }

  ghost predicate AllBefore(clock: nat -> real, from: nat, to: nat, due: real) {
    forall i | from <= i < to :: clock(i) < due
  }

  /** Each operation starts at the first reading, after the one before it, that is at or past its due
      time, and that reading is before the end of the phase. */
  ghost predicate OnTime(clock: nat -> real, at: seq<nat>, phaseStart: real, stopAt: real, interval: real) {
    at == [] ||
    var earlier, reading := at[..|at| - 1], at[|at| - 1];
    var due := Due(phaseStart, interval, |earlier|);
    && OnTime(clock, earlier, phaseStart, stopAt, interval)
    && NextReading(earlier) <= reading && due <= clock(reading) < stopAt
    && AllBefore(clock, NextReading(earlier), reading, due)
  }

  /** The worker has used every chance: `end` is the first reading past the end of the phase, and no reading
      between its last operation and `end` was at or past the next due time. */
  ghost predicate UsedUp(clock: nat -> real, at: seq<nat>, phaseStart: real, stopAt: real, interval: real, end: nat) {
    && NextReading(at) <= end && clock(end) >= stopAt && AllBefore(clock, 0, end, stopAt)
    && AllBefore(clock, NextReading(at), end, Due(phaseStart, interval, |at|))
  }

  /** One worker of a phase. `at` are the clock readings at which its operations start, and `end` is the
      reading at which it stops. The clock gets past the end of the phase at some reading, `horizon`. */
  method WorkerLoop(phaseStart: real, stopAt: real, interval: Option<real>, clock: nat -> real, ghost horizon: nat)
      returns (at: seq<nat>, ghost end: nat)
    requires clock(horizon) >= stopAt
    ensures clock(end) >= stopAt && AllBefore(clock, 0, end, stopAt)
    ensures interval.Some? ==> OnTime(clock, at, phaseStart, stopAt, interval.value)
                               && UsedUp(clock, at, phaseStart, stopAt, interval.value, end)
    ensures interval.None? ==> |at| == end && forall k | 0 <= k < |at| :: at[k] == k
  {
    at := [];
    var nextDue := phaseStart;
    var reading := 0;
    while true
      invariant reading <= horizon && AllBefore(clock, 0, reading, stopAt)
      invariant interval.Some? ==> Waiting(clock, at, phaseStart, stopAt, interval.value, reading, nextDue)
      invariant interval.None? ==> |at| == reading && forall k | 0 <= k < |at| :: at[k] == k
      decreases horizon - reading
    {
      var now := clock(reading);
      if now >= stopAt {
        end := reading;
        break;
      }
      if interval.Some? {
        if now < nextDue {
          // sleeps until due or until the end, then reads the clock again
          reading := reading + 1;
          continue;
        }
        StartIsOnTime(clock, at, phaseStart, stopAt, interval.value, reading, nextDue);
        nextDue := nextDue + interval.value;
      }
      at := at + [reading];
      reading := reading + 1;
    }
  }

  /** Where the loop stands when it is about to use `reading`. */
  ghost predicate Waiting(clock: nat -> real, at: seq<nat>, phaseStart: real, stopAt: real, interval: real, reading: nat, nextDue: real) {
    && OnTime(clock, at, phaseStart, stopAt, interval) && nextDue == Due(phaseStart, interval, |at|)
    && NextReading(at) <= reading && AllBefore(clock, NextReading(at), reading, nextDue)
  }

  lemma StartIsOnTime(clock: nat -> real, at: seq<nat>, phaseStart: real, stopAt: real, interval: real, reading: nat, nextDue: real)
    requires Waiting(clock, at, phaseStart, stopAt, interval, reading, nextDue) && nextDue <= clock(reading) < stopAt
    ensures Waiting(clock, at + [reading], phaseStart, stopAt, interval, reading + 1, nextDue + interval)
  {
    assert (at + [reading])[..|at|] == at;
  }

  // ---------- How many operations ----------

  lemma DivideBound(a: real, b: real, c: real)
    requires b > 0.0 && a * b < c
    ensures a < c / b
  {
    var q := c / b;
    assert q * b == c;
    assert (q - a) * b > 0.0;
  }

  lemma CountBound(n: nat, interval: real, duration: real)
    requires interval > 0.0 && duration > 0.0
    requires n > 0 ==> (n - 1) as real * interval < duration
    ensures n <= Ceil(duration / interval)
  {
    if n > 0 {
      DivideBound((n - 1) as real, interval, duration);
    } else {
      DivideBound(0.0, interval, duration);
    }
  }

  lemma LastStart(clock: nat -> real, at: seq<nat>, phaseStart: real, duration: real, interval: real)
    requires at != [] && OnTime(clock, at, phaseStart, phaseStart + duration, interval)
    ensures (|at| - 1) as real * interval < duration
  {
    var k: nat := |at| - 1;
    assert Due(phaseStart, interval, k) < phaseStart + duration;
    DueIsLinear(phaseStart, interval, k);
  }

  /** One worker runs at most one operation per interval of the phase, rounded up. */
  lemma WorkerIsPaced(clock: nat -> real, at: seq<nat>, phaseStart: real, duration: real, interval: real)
    requires interval > 0.0 && duration > 0.0
    requires OnTime(clock, at, phaseStart, phaseStart + duration, interval)
    ensures |at| <= Ceil(duration / interval)
  {
    if at != [] {
      LastStart(clock, at, phaseStart, duration, interval);
    }
    CountBound(|at|, interval, duration);
  }

  lemma IntervalBound(duration: real, c: real, rate: real)
    requires c > 0.0 && rate > 0.0
    ensures c / rate > 0.0
    ensures duration / (c / rate) == duration * rate / c
  {
    var i := c / rate;
    assert i * rate == c;
    assert i > 0.0;
    QuotientOfQuotient(duration, i, rate, c);
  }

  lemma QuotientOfQuotient(d: real, i: real, rate: real, c: real)
    requires i > 0.0 && rate > 0.0 && c > 0.0 && i * rate == c
    ensures d / i == d * rate / c
  {
    var q := d / i;
    assert q * i == d;
    assert q * c == d * rate by {
      assert q * c == q * (i * rate) == (q * i) * rate;
    }
  }

  function RequestInterval(concurrency: nat, rate: Option<real>): Option<real>
    requires rate.Some? ==> rate.value > 0.0
  {
    if rate.None? then None else Some(concurrency as real / rate.value)
  }

  /** All workers together keep to the rate: one worker's interval at the rate is one operation each. */
  lemma IntervalMeetsRate(concurrency: nat, rate: real)
    requires rate > 0.0
    ensures RequestInterval(concurrency, Some(rate)).Some?
    ensures RequestInterval(concurrency, Some(rate)).value * rate == concurrency as real
    ensures RequestInterval(concurrency, None).None?
  {}

  ghost predicate AllUsedUp(clocks: nat -> nat -> real, starts: seq<seq<nat>>, ends: seq<nat>, phaseStart: real, stopAt: real, interval: real) {
    |ends| == |starts| && (starts == [] ||
      var w := |starts| - 1;
      UsedUp(clocks(w), starts[w], phaseStart, stopAt, interval, ends[w])
      && AllUsedUp(clocks, starts[..w], ends[..w], phaseStart, stopAt, interval))
  }

  ghost predicate AllOnTime(clocks: nat -> nat -> real, starts: seq<seq<nat>>, phaseStart: real, stopAt: real, interval: real) {
    starts == [] ||
    var w := |starts| - 1;
    OnTime(clocks(w), starts[w], phaseStart, stopAt, interval) && AllOnTime(clocks, starts[..w], phaseStart, stopAt, interval)
  }

  lemma {:induction false} TotalIsPaced(clocks: nat -> nat -> real, starts: seq<seq<nat>>, phaseStart: real, duration: real, interval: real)
    requires interval > 0.0 && duration > 0.0
    requires AllOnTime(clocks, starts, phaseStart, phaseStart + duration, interval)
    ensures Total(starts) <= |starts| * Ceil(duration / interval)
  {
    if starts != [] {
      var w := |starts| - 1;
      TotalIsPaced(clocks, starts[..w], phaseStart, duration, interval);
      WorkerIsPaced(clocks(w), starts[w], phaseStart, duration, interval);
      OneMore(w, Ceil(duration / interval));
    }
  }

  lemma OneMore(n: nat, b: int)
    ensures (n + 1) * b == n * b + b
  {}

  /** What a rate allows: so many operations per worker, rounded up. */
  function PhaseLimit(concurrency: nat, rate: real, duration: real): int
    requires concurrency > 0
  {
    concurrency * Ceil(duration * rate / concurrency as real)
  }

  /** A phase runs no more operations than its rate allows, rounded up per worker. */
  lemma PhaseIsPaced(clocks: nat -> nat -> real, starts: seq<seq<nat>>, phaseStart: real, duration: real, concurrency: nat, rate: real)
    requires |starts| == concurrency > 0 && rate > 0.0 && duration > 0.0
    requires AllOnTime(clocks, starts, phaseStart, phaseStart + duration, RequestInterval(concurrency, Some(rate)).value)
    ensures Total(starts) <= PhaseLimit(concurrency, rate, duration)
  {
    IntervalBound(duration, concurrency as real, rate);
    TotalIsPaced(clocks, starts, phaseStart, duration, concurrency as real / rate);
  }

  method RunWorkers(concurrency: nat, interval: Option<real>, phaseStart: real, stopAt: real, clocks: nat -> nat -> real, ghost horizons: nat -> nat)
      returns (starts: seq<seq<nat>>, ghost ends: seq<nat>)
    requires forall w {:trigger clocks(w)} :: clocks(w)(horizons(w)) >= stopAt
    ensures |starts| == |ends| == concurrency
    ensures interval.Some? ==> AllOnTime(clocks, starts, phaseStart, stopAt, interval.value)
                               && AllUsedUp(clocks, starts, ends, phaseStart, stopAt, interval.value)
    ensures interval.None? ==> forall w | 0 <= w < concurrency :: |starts[w]| == ends[w] && clocks(w)(ends[w]) >= stopAt
  {
    hide OnTime, UsedUp, AllBefore;
    starts, ends := [], [];
    for w := 0 to concurrency
      invariant |starts| == |ends| == w
      invariant interval.Some? ==> AllOnTime(clocks, starts, phaseStart, stopAt, interval.value)
                                   && AllUsedUp(clocks, starts, ends, phaseStart, stopAt, interval.value)
      invariant interval.None? ==> forall v | 0 <= v < w :: |starts[v]| == ends[v] && clocks(v)(ends[v]) >= stopAt
    {
      ghost var end;
      var at;
      at, end := WorkerLoop(phaseStart, stopAt, interval, clocks(w), horizons(w));
      assert (starts + [at])[..w] == starts && (ends + [end])[..w] == ends;
      starts, ends := starts + [at], ends + [end];
    }
  }

  /** A phase: `concurrency` workers at the same rate, each with its own readings of the clock. `starts`
      are the readings at which each worker's operations started. */
  method RunPhase(concurrency: nat, rate: Option<real>, duration: real, phaseStart: real, clocks: nat -> nat -> real, ghost horizons: nat -> nat)
      returns (starts: seq<seq<nat>>, ghost ends: seq<nat>)
    requires rate.Some? ==> rate.value > 0.0
    requires forall w {:trigger clocks(w)} :: clocks(w)(horizons(w)) >= phaseStart + duration
    ensures |starts| == if duration <= 0.0 then 0 else concurrency
    ensures rate.Some? ==>
              && AllOnTime(clocks, starts, phaseStart, phaseStart + duration, RequestInterval(concurrency, rate).value)
              && AllUsedUp(clocks, starts, ends, phaseStart, phaseStart + duration, RequestInterval(concurrency, rate).value)
              && (concurrency > 0 && duration > 0.0 ==> Total(starts) <= PhaseLimit(concurrency, rate.value, duration))
  {
    if duration <= 0.0 {
      return [], [];
    }
    starts, ends := RunWorkers(concurrency, RequestInterval(concurrency, rate), phaseStart, phaseStart + duration, clocks, horizons);
    if rate.Some? && concurrency > 0 {
      PhaseIsPaced(clocks, starts, phaseStart, duration, concurrency, rate.value);
    }
  }

  function Total(starts: seq<seq<nat>>): nat {
    if starts == [] then 0 else Total(starts[..|starts| - 1]) + |starts[|starts| - 1]|
  }
}
