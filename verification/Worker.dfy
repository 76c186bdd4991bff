/** The worker's loop, one iteration at a time: heartbeat when due, fetch, execute, report with retries. */
module Worker {
  import opened Types
  import opened Stores
  import opened Handlers
  import opened Solo
  import opened Registry
  import opened Orchestrators
  import opened WorkerReports
  import opened Reporting
  import opened Backoff

  const MIN_IDLE_SLEEP_MS := 50

  /** Everything outside the worker's control during one iteration. `beatAt` and `fetchAt` are the
      Coordinator's clock as it takes up the heartbeat and the fetch. */
  datatype Weather = Weather(
    beatArrives: bool,
    beatAt: int,
    fetchAt: int,
    fetch: Hop,
    interrupted: bool,
    reports: nat -> Hop,
    jitter: nat -> nat,
    stopped: nat -> bool)

  ghost predicate HopOk(hop: Hop) { hop.Unreached? || Uuids(hop.net) }

  ghost predicate WeatherOk(weather: Weather) {
    HopOk(weather.fetch) && forall i :: HopOk(weather.reports(i))
  }

  // ---------- What an iteration amounts to ----------

  function Fetch(w: World, workerId: string, live: bool, hop: Hop, pick: IdPicker): (World, Option<Answer>) {
    match hop
    case Unreached => (w, None)
    case Reached(net) =>
      var (w', answer) := Handle(w, Request.FetchWork(workerId, live), net, pick);
      (w', if answer.Assigned? then Some(answer) else None)
    case ReplyLost(net) => (Handle(w, Request.FetchWork(workerId, live), net, pick).0, None)
  }

  function Iteration(w: World, codec: Codec, workerId: string, live: bool, attempts: nat, weather: Weather, pick: IdPicker): World {
    var (w', assignment) := Fetch(w, workerId, live, weather.fetch, pick);
    if assignment.None? || !assignment.value.Assigned? || weather.interrupted then w'
    else
      var report := WorkerReport(codec, workerId, assignment.value.jobId, assignment.value.jobType);
      Attempts(w', report, weather.reports, weather.stopped, 1, attempts, pick).0
  }

  /** One iteration after the other; `lives` says in which of them the Coordinator took the worker for live. */
  function Laps(w: World, codec: Codec, workerId: string, lives: seq<bool>, attempts: nat, weathers: nat -> Weather, pick: IdPicker): World {
    if lives == [] then w
    else
      var n := |lives| - 1;
      Iteration(Laps(w, codec, workerId, lives[..n], attempts, weathers, pick), codec, workerId, lives[n], attempts, weathers(n), pick)
  }

  /** Heartbeats arrive, and every fetch is taken up within `slack` of the iteration's start. */
  ghost predicate Punctual(clock: nat -> int, weathers: nat -> Weather, slack: int) {
    forall k :: weathers(k).beatArrives && weathers(k).fetch.Reached?
                && clock(k) <= weathers(k).beatAt && weathers(k).fetchAt <= clock(k) + slack
  }

  class WorkerRuntime {
    const coordinator: Coordinator
    const workerId: string
    const codec: Codec
    const retry: RetryPolicy
    const heartbeatIntervalMs: int
    const fetchIdleSleepMs: int
    var lastHeartbeatAtMs: int

    constructor (coordinator: Coordinator, workerId: string, codec: Codec, attempts: int, initialMs: int, maxMs: int,
                 multiplier: real, heartbeatIntervalMs: int, fetchIdleSleepMs: int)
      ensures this.coordinator == coordinator && this.workerId == workerId && this.codec == codec
      ensures retry == Configure(attempts, initialMs, maxMs, multiplier) && lastHeartbeatAtMs == 0
    {
      this.coordinator, this.workerId, this.codec := coordinator, workerId, codec;
      retry := Configure(attempts, initialMs, maxMs, multiplier);
      this.heartbeatIntervalMs := if heartbeatIntervalMs < 1 then 1000 else heartbeatIntervalMs;
      this.fetchIdleSleepMs := if fetchIdleSleepMs < 1 then 200 else fetchIdleSleepMs;
      lastHeartbeatAtMs := 0;
    }

    /** Sends the report up to `maxAttempts` times. It stops when an attempt is accepted, after the last
        one, or when the worker is being stopped during a pause. `waits` are the pauses requested in
        between: each is drawn from a window that grows with the backoff. `trace` are the stores after each
        attempt. */
    method ReportWithRetry(report: Report, hops: nat -> Hop, jitter: nat -> nat, stopped: nat -> bool)
        returns (accepted: bool, waits: seq<nat>, ghost trace: seq<World>)
      requires PolicyOk(retry) && coordinator.up.Valid() && forall i :: HopOk(hops(i))
      modifies coordinator.up.jobs, coordinator.up.queue, coordinator.up.results
      ensures coordinator.up.Valid()
      ensures (coordinator.up.State(), accepted) ==
              Attempts(old(coordinator.up.State()), report, hops, stopped, 1, retry.maxAttempts, coordinator.up.Picker())
      ensures Tried(old(coordinator.up.State()), report, hops, trace, accepted, coordinator.up.Picker())
      ensures var tries := |trace| - 1;
              && 1 <= tries <= retry.maxAttempts && trace[tries] == coordinator.up.State()
              && (forall k | 1 <= k < tries :: !stopped(k))
              && (accepted || tries == retry.maxAttempts || stopped(tries))
              && |waits| == if accepted || tries == retry.maxAttempts then tries - 1 else tries
      ensures WaitsOk(retry, waits)
    {
      hide Attempts, TryReport, Tried;
      var backoffMs := retry.initialMs;
      waits := [];
      var attempt := 1;
      ghost var w0 := coordinator.up.State();
      ghost var pick := coordinator.up.Picker();
      trace := [w0];
      NothingTried(w0, report, hops, pick);
      while attempt <= retry.maxAttempts
        invariant 1 <= attempt <= retry.maxAttempts
        invariant coordinator.up.Valid()
        invariant Attempts(w0, report, hops, stopped, 1, retry.maxAttempts, pick)
                  == Attempts(coordinator.up.State(), report, hops, stopped, attempt, retry.maxAttempts, pick)
        invariant |trace| == attempt && trace[attempt - 1] == coordinator.up.State() && Tried(w0, report, hops, trace, false, pick)
        invariant forall k | 1 <= k < attempt :: !stopped(k)
        invariant |waits| == attempt - 1 && InWindows(waits, backoffMs)
        decreases retry.maxAttempts - attempt
      {
        OneAttempt(coordinator.up.State(), report, hops, stopped, attempt, retry.maxAttempts, pick);
        accepted := SendReport(report, hops(attempt));
        TriedOnceMore(w0, report, hops, trace, coordinator.up.State(), accepted, pick);
        trace := trace + [coordinator.up.State()];
        if accepted {
          return;
        }
        if attempt < retry.maxAttempts {
          waits, backoffMs := Pause(waits, backoffMs, jitter(attempt));
          if stopped(attempt) {
            return;
          }
          attempt := attempt + 1;
        } else {
          return;
        }
      }
    }

    /** Every pause so far was within its window, and the backoff is the one due next. */
    ghost predicate InWindows(waits: seq<nat>, backoffMs: nat)
      requires PolicyOk(retry)
    {
      && backoffMs == BackoffMs(retry, |waits|)
      && forall k | 0 <= k < |waits| :: waits[k] <= WindowMs(retry, k)
    }

    /** Draws the next pause uniformly from its window, and lets the backoff grow. */
    method Pause(waits: seq<nat>, backoffMs: nat, random: nat) returns (waits': seq<nat>, backoffMs': nat)
      requires PolicyOk(retry) && InWindows(waits, backoffMs)
      ensures |waits'| == |waits| + 1 && waits <= waits' && InWindows(waits', backoffMs')
    {
      var wait := Uniform(random, Max(MIN_WINDOW_MS, Min(backoffMs, retry.maxMs)));
      waits' := waits + [wait];
      backoffMs' := Grow(backoffMs);
    }

    /** `random.randint(0, window)`, from an arbitrary source of randomness. */
    method Uniform(random: nat, window: nat) returns (r: nat)
      ensures r <= window && (random <= window ==> r == random)
    {
      r := random % (window + 1);
    }

    method Grow(backoffMs: nat) returns (r: nat)
      requires PolicyOk(retry)
      ensures r == Grown(retry, backoffMs)
    {
      r := Min((backoffMs as real * retry.multiplier).Floor, retry.maxMs);
    }

    method SendReport(report: Report, hop: Hop) returns (accepted: bool)
      requires coordinator.up.Valid() && HopOk(hop)
      modifies coordinator.up.jobs, coordinator.up.queue, coordinator.up.results
      ensures coordinator.up.Valid()
      ensures (coordinator.up.State(), accepted) ==
              TryReport(old(coordinator.up.State()), report, hop, coordinator.up.Picker())
      ensures hop.Unreached? ==> coordinator.up.State() == old(coordinator.up.State())
      ensures !hop.Reached? ==> !accepted
      ensures !hop.Unreached? ==>
                var (w, answer) := Handle(old(coordinator.up.State()), Request.ReportWorkOutcome(report), hop.net, coordinator.up.Picker());
                coordinator.up.State() == w && (accepted <==> hop.Reached? && answer == Reported(true))
    {
      if hop.Unreached? {
        return false;
      }
      var answer := coordinator.ReportWorkOutcome(report, hop.net);
      return hop.Reached? && answer == Reported(true);
    }

    /** The registry as FetchWork finds it in this iteration. */
    ghost function Registered(now: int, weather: Weather): Workers
      reads this, coordinator
    {
      if now - lastHeartbeatAtMs >= heartbeatIntervalMs && weather.beatArrives && Strip(workerId) != ""
      then Beaten(coordinator.workers, Beat(Strip(workerId), weather.beatAt, now, 1), coordinator.workerTimeoutMs)
      else coordinator.workers
    }

    ghost function LiveAt(now: int, weather: Weather): bool
      reads this, coordinator
    {
      IsLive(Registered(now, weather), Strip(workerId), weather.fetchAt, coordinator.workerTimeoutMs)
    }

    /** Returns how long to sleep, or 0 after an assignment. */
    method RunIteration(now: int, weather: Weather) returns (sleepMs: nat)
      requires PolicyOk(retry) && coordinator.up.Valid() && WeatherOk(weather)
      modifies this, coordinator, coordinator.up.jobs, coordinator.up.queue, coordinator.up.results
      ensures coordinator.up.Valid()
      ensures lastHeartbeatAtMs == if now - old(lastHeartbeatAtMs) >= heartbeatIntervalMs then now else old(lastHeartbeatAtMs)
      ensures coordinator.workers ==
              if weather.fetch.Unreached? || Strip(workerId) == "" then old(Registered(now, weather))
              else Pruned(old(Registered(now, weather)), weather.fetchAt, coordinator.workerTimeoutMs)
      ensures coordinator.up.State() ==
              Iteration(old(coordinator.up.State()), codec, workerId, old(LiveAt(now, weather)), retry.maxAttempts, weather,
                        coordinator.up.Picker())
      ensures var got := Fetch(old(coordinator.up.State()), workerId, old(LiveAt(now, weather)), weather.fetch, coordinator.up.Picker()).1;
              sleepMs == if got.Some? then 0
                         else Max(if weather.fetch.Reached? then FETCHWORK_RETRY_AFTER_DEFAULT_MS else fetchIdleSleepMs, MIN_IDLE_SLEEP_MS)
    {
      if now - lastHeartbeatAtMs >= heartbeatIntervalMs {
        if weather.beatArrives {
          var _, _ := coordinator.WorkerHeartbeat(workerId, now, 1, weather.beatAt);
        }
        lastHeartbeatAtMs := now;
      }
      var assignment, retryAfterMs := FetchOnce(weather.fetchAt, weather.fetch);
      if assignment.Some? {
        ExecuteAndReport(assignment.value.jobId, assignment.value.jobType, weather);
        return 0;
      }
      sleepMs := if retryAfterMs > 0 then retryAfterMs else Max(fetchIdleSleepMs, 0);
      sleepMs := Max(sleepMs, MIN_IDLE_SLEEP_MS);
    }

    /** The registry knows the worker's last heartbeat. */
    ghost predicate Remembered() reads this, coordinator {
      var worker := Strip(workerId);
      worker in coordinator.workers && coordinator.workers[worker].lastSeenAtMs >= lastHeartbeatAtMs
    }

    lemma PunctualIsLive(now: int, weather: Weather, slack: int)
      requires Strip(workerId) != "" && weather.beatArrives && now <= weather.beatAt && weather.fetchAt <= now + slack
      requires heartbeatIntervalMs + slack <= coordinator.workerTimeoutMs && 0 <= slack && 0 < heartbeatIntervalMs
      requires Remembered() || now - lastHeartbeatAtMs >= heartbeatIntervalMs
      ensures LiveAt(now, weather)
    {}

    /** The main loop, until it is stopped before iteration `n`. Clock readings and the network are
        given; `lives` reports in which iterations the Coordinator took the worker for live. When
        heartbeats arrive and the heartbeat interval plus the delay of a fetch is within the
        Coordinator's timeout, that is all of them. */
    method Run(n: nat, clock: nat -> int, weathers: nat -> Weather, ghost slack: int) returns (ghost lives: seq<bool>)
      requires PolicyOk(retry) && coordinator.up.Valid() && forall k :: WeatherOk(weathers(k))
      modifies this, coordinator, coordinator.up.jobs, coordinator.up.queue, coordinator.up.results
      ensures coordinator.up.Valid() && |lives| == n
      ensures coordinator.up.State() ==
              Laps(old(coordinator.up.State()), codec, workerId, lives, retry.maxAttempts, weathers, coordinator.up.Picker())
      ensures Strip(workerId) != "" && Punctual(clock, weathers, slack) && clock(0) - old(lastHeartbeatAtMs) >= heartbeatIntervalMs
              && 0 <= slack && 0 < heartbeatIntervalMs && heartbeatIntervalMs + slack <= coordinator.workerTimeoutMs
              ==> forall k | 0 <= k < n :: lives[k]
    {
      lives := [];
      ghost var w := coordinator.up.State();
      ghost var pick := coordinator.up.Picker();
      ghost var punctual := Strip(workerId) != "" && Punctual(clock, weathers, slack) && clock(0) - lastHeartbeatAtMs >= heartbeatIntervalMs
                            && 0 <= slack && 0 < heartbeatIntervalMs && heartbeatIntervalMs + slack <= coordinator.workerTimeoutMs;
      for k := 0 to n
        invariant coordinator.up.Valid() && |lives| == k
        invariant coordinator.up.State() == Laps(w, codec, workerId, lives, retry.maxAttempts, weathers, pick)
        invariant punctual ==> if k == 0 then clock(0) - lastHeartbeatAtMs >= heartbeatIntervalMs else Remembered()
        invariant punctual ==> forall i | 0 <= i < k :: lives[i]
      {
        ghost var live := LiveAt(clock(k), weathers(k));
        if punctual {
          PunctualIsLive(clock(k), weathers(k), slack);
        }
        var _ := RunIteration(clock(k), weathers(k));
        assert (lives + [live])[..k] == lives;
        lives := lives + [live];
      }
    }

    method FetchOnce(now: int, hop: Hop) returns (assignment: Option<Answer>, retryAfterMs: int)
      requires coordinator.up.Valid() && HopOk(hop)
      modifies coordinator, coordinator.up.jobs, coordinator.up.queue, coordinator.up.results
      ensures coordinator.up.Valid()
      ensures var live := IsLive(old(coordinator.workers), Strip(workerId), now, coordinator.workerTimeoutMs);
              (coordinator.up.State(), assignment) ==
                Fetch(old(coordinator.up.State()), workerId, live, hop, coordinator.up.Picker())
      ensures coordinator.workers ==
              if hop.Unreached? || Strip(workerId) == "" then old(coordinator.workers)
              else Pruned(old(coordinator.workers), now, coordinator.workerTimeoutMs)
      ensures assignment.Some? ==> assignment.value.Assigned?
      ensures hop.Unreached? ==> coordinator.up.State() == old(coordinator.up.State())
      ensures !hop.Reached? ==> assignment.None? && retryAfterMs == fetchIdleSleepMs
      ensures hop.Reached? ==> retryAfterMs == if assignment.Some? then 0 else FETCHWORK_RETRY_AFTER_DEFAULT_MS
      ensures !hop.Unreached? ==>
                var live := IsLive(old(coordinator.workers), Strip(workerId), now, coordinator.workerTimeoutMs);
                var (w, answer) := Handle(old(coordinator.up.State()), Request.FetchWork(workerId, live), hop.net, coordinator.up.Picker());
                coordinator.up.State() == w && (hop.Reached? ==> assignment == if answer.Assigned? then Some(answer) else None)
    {
      if hop.Unreached? {
        return None, fetchIdleSleepMs;
      }
      var answer, hint := coordinator.FetchWork(workerId, now, hop.net);
      if hop.ReplyLost? {
        return None, fetchIdleSleepMs;
      }
      return if answer.Assigned? then Some(answer) else None, hint;
    }

    method ExecuteAndReport(jobId: JobId, jobType: string, weather: Weather)
      requires PolicyOk(retry) && coordinator.up.Valid() && WeatherOk(weather)
      modifies coordinator.up.jobs, coordinator.up.queue, coordinator.up.results
      ensures coordinator.up.Valid()
      ensures coordinator.up.State() ==
              if weather.interrupted then old(coordinator.up.State())
              else Attempts(old(coordinator.up.State()), WorkerReport(codec, workerId, jobId, jobType),
                            weather.reports, weather.stopped, 1, retry.maxAttempts, coordinator.up.Picker()).0
    {
      if weather.interrupted {
        return;
      }
      var report := WorkerReport(codec, workerId, jobId, jobType);
      var _, _, _ := ReportWithRetry(report, weather.reports, weather.jitter, weather.stopped);
    }
  }
}
