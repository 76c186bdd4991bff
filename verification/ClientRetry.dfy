/** The load generator's retry wrapper around one RPC: it stops at the first attempt that settles the
    matter, and never waits longer than the doubling windows allow. */
module ClientRetry {
  import opened Types

  const RETRY_MAX_ATTEMPTS: nat := 4
  const RETRY_INITIAL_DELAY_S := 0.1
  const RETRY_MAX_DELAY_S := 1.0
  const RETRY_MULTIPLIER := 2.0

  /** What an attempt comes back with. */
  datatype Attempted = Responded | Raised(code: Code) {
    predicate Retryable() {
      Raised? && (code.Unavailable? || code.DeadlineExceeded? || code.ResourceExhausted?)
    }
  }

  function MinReal(a: real, b: real): real { if a <= b then a else b }

  /** The window of the wait after attempt `k + 1`. */
  function Window(k: nat): real {
    if k == 0 then RETRY_INITIAL_DELAY_S else MinReal(Window(k - 1) * RETRY_MULTIPLIER, RETRY_MAX_DELAY_S)
  }

  function Total(waits: seq<real>): real {
    if waits == [] then 0.0 else Total(waits[..|waits| - 1]) + waits[|waits| - 1]
  }

  predicate InWindows(waits: seq<real>) {
    waits == [] || (0.0 <= waits[|waits| - 1] <= Window(|waits| - 1) && InWindows(waits[..|waits| - 1]))
  }

  /** `draws` is the random source: a number of the unit interval before each retry. */
  method InvokeWithRetry(outcomes: nat -> Attempted, allowRetry: bool, draws: nat -> real)
      returns (result: Attempted, attempts: nat, waits: seq<real>)
    requires forall i :: 0.0 <= draws(i) <= 1.0
    ensures var most := if allowRetry then RETRY_MAX_ATTEMPTS else 1;
            && 1 <= attempts <= most && result == outcomes(attempts)
            && (attempts == most || result.Responded?
                || (!result.code.Unavailable? && !result.code.DeadlineExceeded? && !result.code.ResourceExhausted?))
            && forall i | 1 <= i < attempts ::
                 outcomes(i) in {Raised(Unavailable), Raised(DeadlineExceeded), Raised(ResourceExhausted)}
    ensures |waits| == attempts - 1 && InWindows(waits)
  {
    var maxAttempts: nat := if allowRetry then RETRY_MAX_ATTEMPTS else 1;
    var backoff := RETRY_INITIAL_DELAY_S;
    waits := [];
    attempts := 1;
    while true
      invariant 1 <= attempts <= maxAttempts
      invariant forall i | 1 <= i < attempts ::
                  outcomes(i) in {Raised(Unavailable), Raised(DeadlineExceeded), Raised(ResourceExhausted)}
      invariant |waits| == attempts - 1 && InWindows(waits) && backoff == Window(attempts - 1) <= RETRY_MAX_DELAY_S
      decreases maxAttempts - attempts
    {
      result := outcomes(attempts);
      if result.Responded? {
        return;
      }
      if attempts >= maxAttempts || !result.Retryable() {
        return;
      }
      var window := MinReal(backoff, RETRY_MAX_DELAY_S);
      var wait := Uniform(draws(attempts), window);
      assert (waits + [wait])[..|waits|] == waits;
      waits := waits + [wait];
      backoff := MinReal(window * RETRY_MULTIPLIER, RETRY_MAX_DELAY_S);
      attempts := attempts + 1;
    }
  }

  /** `random.uniform(0.0, window)`. */
  method Uniform(draw: real, window: real) returns (r: real)
    requires 0.0 <= draw <= 1.0
    ensures window >= 0.0 ==> 0.0 <= r <= window
  {
    if window >= 0.0 {
      assert 0.0 <= draw * window;
      assert (1.0 - draw) * window >= 0.0;
      assert (1.0 - draw) * window == window - draw * window;
    }
    r := draw * window;
  }

  function Windows(n: nat): real {
    if n == 0 then 0.0 else Windows(n - 1) + Window(n - 1)
  }

  lemma {:induction false} WaitsWithinWindows(waits: seq<real>)
    requires InWindows(waits)
    ensures Total(waits) <= Windows(|waits|)
  {
    if waits != [] {
      WaitsWithinWindows(waits[..|waits| - 1]);
    }
  }

  /** The retries of one call together wait at most 0.7 seconds. */
  lemma WaitIsBounded(waits: seq<real>)
    requires InWindows(waits) && |waits| < RETRY_MAX_ATTEMPTS
    ensures Total(waits) <= 0.7
  {
    WaitsWithinWindows(waits);
    assert Window(0) == 0.1 && Window(1) == 0.2 && Window(2) == 0.4;
    assert Windows(1) == 0.1;
    assert Windows(2) == Windows(1) + Window(1);
    assert Windows(3) == Windows(2) + Window(2);
  }
}
