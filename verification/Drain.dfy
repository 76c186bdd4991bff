/** A live worker, nothing failing and nobody else at work, empties the queue one entry an iteration. */
module Drain {
  import opened Types
  import opened Messages
  import opened JobTable
  import opened OrderedKeys
  import opened Stores
  import opened Handlers
  import opened Solo
  import opened Undisturbed
  import opened WorkerReports
  import opened Reporting
  import opened Worker

  /** Every call of the iteration is delivered at its first attempt. */
  ghost predicate Calm(weather: Weather) {
    && weather.fetch.Reached? && Smooth(weather.fetch.net)
    && !weather.interrupted
    && weather.reports(1).Reached? && Smooth(weather.reports(1).net)
  }

  /** What the worker will report about a job, and that it fits under the store's cap. */
  function ReportFor(w: World, id: JobId, codec: Codec, worker: string): Report
    requires id in w.table.records
  {
    WorkerReport(codec, worker, id, w.table.records[id].jobType)
  }

  predicate OutputFits(w: World, id: JobId, codec: Codec, worker: string) {
    id in w.table.records ==> |ReportFor(w, id, codec, worker).outputBytes| <= w.results.maxOutputBytes
  }

  ghost predicate QueueOk(q: seq<JobId>) { Distinct(q) && forall id | id in q :: Canonical(id) }

  // ---------- One iteration ----------

  lemma IterationSkips(w: World, codec: Codec, worker: string, attempts: nat, weather: Weather, pick: IdPicker)
    requires w.queue != [] && Canonical(worker) && Canonical(w.queue[0]) && !IsQueued(w, w.queue[0])
    requires weather.fetch.Reached? && Smooth(weather.fetch.net)
    ensures Iteration(w, codec, worker, true, attempts, weather, pick) == Tail(w)
  {
    FetchDequeues(w, worker, weather.fetch.net, pick);
    FetchSkips(Tail(w), w.queue[0], worker, weather.fetch.net, pick);
  }

  lemma ReportIsDeliverable(w: World, w1: World, id: JobId, codec: Codec, worker: string)
    requires id in w.table.records && OutputFits(w, id, codec, worker) && Canonical(id) && Canonical(worker)
    requires id in w1.table.records && w1.table.records[id].status.Running? && w1.results == w.results
    ensures Deliverable(w1, ReportFor(w, id, codec, worker))
    ensures ReportFor(w, id, codec, worker).jobId == id
  {}

  lemma IterationConcludes(w: World, codec: Codec, worker: string, attempts: nat, weather: Weather, pick: IdPicker)
    requires w.queue != [] && Canonical(worker) && Canonical(w.queue[0]) && IsQueued(w, w.queue[0])
    requires OutputFits(w, w.queue[0], codec, worker) && Calm(weather)
    ensures var id := w.queue[0];
            Iteration(w, codec, worker, true, attempts, weather, pick) ==
              Concluded(Dispatched(Tail(w), id, weather.fetch.net(1).now), ReportFor(w, id, codec, worker), weather.reports(1).net(1).now)
  {
    hide Stores.Execute, Transport, Strip, Handle, WorkerReport, Concluded;
    var id := w.queue[0];
    FetchDequeues(w, worker, weather.fetch.net, pick);
    FetchDispatches(Tail(w), id, worker, weather.fetch.net, pick);
    var w1 := Dispatched(Tail(w), id, weather.fetch.net(1).now);
    var report := ReportFor(w, id, codec, worker);
    ReportIsDeliverable(w, w1, id, codec, worker);
    ReportConcludes(w1, report, weather.reports(1).net, pick);
    assert Fetch(w, worker, true, weather.fetch, pick) == (w1, Some(Assigned(worker, id, w.table.records[id].jobType)));
    assert Attempts(w1, report, weather.reports, weather.stopped, 1, attempts, pick).0
        == TryReport(w1, report, weather.reports(1), pick).0;
  }

  // ---------- What becomes of each job ----------

  /** The record the worker leaves, up to timestamps. */
  ghost predicate FinishedFrom(before: JobRecord, after: JobRecord, worker: string) {
    var fails := AsksToFail(before.jobType);
    after == before.(status := if fails then Failed else Done,
                     failureReason := if fails then "simulated_failure force-fail worker_id=" + worker + " job_type=" + Strip(before.jobType)
                                      else before.failureReason,
                     startedAtMs := after.startedAtMs,
                     finishedAtMs := after.finishedAtMs)
  }

  predicate Untouched(w: World, w': World, id: JobId) {
    && (id in w'.table.records <==> id in w.table.records)
    && (id in w.table.records ==> w'.table.records[id] == w.table.records[id])
    && (id in w'.results.envelopes <==> id in w.results.envelopes)
    && (id in w.results.envelopes ==> w'.results.envelopes[id] == w.results.envelopes[id])
  }

  /** Done or failed as its type dictates, with an envelope: the one already there, or the worker's. */
  ghost predicate Processed(w: World, w': World, id: JobId, codec: Codec, worker: string)
    requires id in w.table.records
  {
    && id in w'.table.records && FinishedFrom(w.table.records[id], w'.table.records[id], worker)
    && id in w'.results.envelopes
    && w'.results.envelopes[id] ==
       if id in w.results.envelopes then w.results.envelopes[id] else ReportEnvelope(ReportFor(w, id, codec, worker))
  }

  ghost predicate Fate(w: World, w': World, id: JobId, codec: Codec, worker: string, handled: seq<JobId>) {
    if id in handled && IsQueued(w, id) then Processed(w, w', id, codec, worker) else Untouched(w, w', id)
  }

  lemma ConcludedFate(w: World, id: JobId, codec: Codec, worker: string, t: int, u: int)
    requires w.queue != [] && IsQueued(w, w.queue[0])
    ensures var head := w.queue[0];
            var w' := Concluded(Dispatched(Tail(w), head, t), ReportFor(w, head, codec, worker), u);
            Fate(w, w', id, codec, worker, [head])
  {
    hide AsksToFail, ForceFailure, Strip;
    ForcedExactlyWhenAsked(w.table.records[w.queue[0]].jobType);
  }

  lemma FatesCompose(w: World, mid: World, w': World, id: JobId, codec: Codec, worker: string, handled: seq<JobId>, next: JobId)
    requires Fate(w, mid, id, codec, worker, handled) && Fate(mid, w', id, codec, worker, [next])
    requires next !in handled
    ensures Fate(w, w', id, codec, worker, handled + [next])
  {}

  // ---------- Draining ----------

  /** `n` iterations in all of which the Coordinator takes the worker for live. */
  function Drained(w: World, codec: Codec, worker: string, attempts: nat, weathers: nat -> Weather, pick: IdPicker, n: nat): World {
    Laps(w, codec, worker, seq(n, _ => true), attempts, weathers, pick)
  }

  lemma OneMore(w: World, codec: Codec, worker: string, attempts: nat, weathers: nat -> Weather, pick: IdPicker, n: nat)
    ensures Drained(w, codec, worker, attempts, weathers, pick, n + 1) ==
            Iteration(Drained(w, codec, worker, attempts, weathers, pick, n), codec, worker, true, attempts, weathers(n), pick)
  {
    assert seq(n + 1, _ => true)[..n] == seq(n, _ => true);
  }

  /** One undisturbed iteration handles the head of the queue, and nothing else. */
  lemma IterationTakesHead(w: World, codec: Codec, worker: string, attempts: nat, weather: Weather, pick: IdPicker)
    requires w.queue != [] && Canonical(worker) && Canonical(w.queue[0])
    requires OutputFits(w, w.queue[0], codec, worker) && Calm(weather)
    ensures var w' := Iteration(w, codec, worker, true, attempts, weather, pick);
            && w'.queue == w.queue[1..] && w'.results.maxOutputBytes == w.results.maxOutputBytes
            && forall id :: Fate(w, w', id, codec, worker, [w.queue[0]])
  {
    if IsQueued(w, w.queue[0]) {
      IterationConcludes(w, codec, worker, attempts, weather, pick);
      var t, u := weather.fetch.net(1).now, weather.reports(1).net(1).now;
      var w' := Concluded(Dispatched(Tail(w), w.queue[0], t), ReportFor(w, w.queue[0], codec, worker), u);
      forall id ensures Fate(w, w', id, codec, worker, [w.queue[0]]) {
        ConcludedFate(w, id, codec, worker, t, u);
      }
    } else {
      IterationSkips(w, codec, worker, attempts, weather, pick);
    }
  }

  lemma FitsStill(w: World, mid: World, id: JobId, codec: Codec, worker: string, handled: seq<JobId>)
    requires Fate(w, mid, id, codec, worker, handled) && id !in handled
    requires mid.results.maxOutputBytes == w.results.maxOutputBytes && OutputFits(w, id, codec, worker)
    ensures OutputFits(mid, id, codec, worker)
  {}

  lemma NothingDrained(w: World, codec: Codec, worker: string, attempts: nat, weathers: nat -> Weather, pick: IdPicker)
    ensures Drained(w, codec, worker, attempts, weathers, pick, 0) == w
    ensures forall id :: Fate(w, w, id, codec, worker, [])
  {}

  /** After `n` undisturbed iterations the first `n` queue entries have been handled, and nothing else. */
  lemma {:induction false} DrainProgress(w: World, codec: Codec, worker: string, attempts: nat, weathers: nat -> Weather, pick: IdPicker, n: nat)
    requires QueueOk(w.queue) && Canonical(worker) && n <= |w.queue|
    requires forall id | id in w.queue :: OutputFits(w, id, codec, worker)
    requires forall k :: Calm(weathers(k))
    ensures var w' := Drained(w, codec, worker, attempts, weathers, pick, n);
            && w'.queue == w.queue[n..] && w'.results.maxOutputBytes == w.results.maxOutputBytes
            && forall id :: Fate(w, w', id, codec, worker, w.queue[..n])
  {
    hide Iteration, Fate, OutputFits, Drained, Distinct, Calm;
    if n == 0 {
      NothingDrained(w, codec, worker, attempts, weathers, pick);
    } else {
      DrainProgress(w, codec, worker, attempts, weathers, pick, n - 1);
      OneMore(w, codec, worker, attempts, weathers, pick, n - 1);
      var mid := Drained(w, codec, worker, attempts, weathers, pick, n - 1);
      var head, handled := w.queue[n - 1], w.queue[..n - 1];
      HeadIsNew(w.queue, n - 1);
      FitsStill(w, mid, head, codec, worker, handled);
      IterationTakesHead(mid, codec, worker, attempts, weathers(n - 1), pick);
      assert w.queue[..n] == handled + [head];
      var w' := Iteration(mid, codec, worker, true, attempts, weathers(n - 1), pick);
      forall id ensures Fate(w, w', id, codec, worker, w.queue[..n]) {
        FatesCompose(w, mid, w', id, codec, worker, handled, head);
      }
    }
  }

  lemma HeadIsNew(q: seq<JobId>, n: nat)
    requires Distinct(q) && n < |q|
    ensures q[n] !in q[..n]
  {
    assert q == q[..n] + q[n..];
    DistinctParts(q[..n], q[n..]);
  }

  /** Exactly as many iterations as there are entries empty the queue. Every entry still QUEUED is then
      DONE or FAILED with an envelope, entries of other jobs were skipped, and no other job changed. */
  lemma DrainEmptiesTheQueue(w: World, codec: Codec, worker: string, attempts: nat, weathers: nat -> Weather, pick: IdPicker)
    requires QueueOk(w.queue) && Canonical(worker)
    requires forall id | id in w.queue :: OutputFits(w, id, codec, worker)
    requires forall k :: Calm(weathers(k))
    ensures forall n: nat | n < |w.queue| :: Drained(w, codec, worker, attempts, weathers, pick, n).queue != []
    ensures var w' := Drained(w, codec, worker, attempts, weathers, pick, |w.queue|);
            && w'.queue == []
            && (forall id | id in w.queue && IsQueued(w, id) :: Processed(w, w', id, codec, worker))
            && (forall id | id !in w.queue || !IsQueued(w, id) :: Untouched(w, w', id))
  {
    forall n: nat | n < |w.queue| ensures Drained(w, codec, worker, attempts, weathers, pick, n).queue != [] {
      DrainProgress(w, codec, worker, attempts, weathers, pick, n);
    }
    DrainProgress(w, codec, worker, attempts, weathers, pick, |w.queue|);
    var w' := Drained(w, codec, worker, attempts, weathers, pick, |w.queue|);
    assert w.queue[..|w.queue|] == w.queue;
    forall id ensures if id in w.queue && IsQueued(w, id) then Processed(w, w', id, codec, worker) else Untouched(w, w', id) {
      assert Fate(w, w', id, codec, worker, w.queue[..|w.queue|]);
    }
  }
}
