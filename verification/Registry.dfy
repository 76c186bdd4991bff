/** The Coordinator's worker registry. Entries that have expired are pruned whenever anyone looks or
    any worker beats; the registry still answers as if it remembered every heartbeat ever sent. */
module Registry {
  import opened Types

  datatype WorkerState = WorkerState(lastSeenAtMs: int, lastHeartbeatAtMs: int, capacityHint: int)

  type Workers = map<string, WorkerState>

  // ---------- What the calls do ----------

  function Pruned(workers: Workers, now: int, timeoutMs: int): Workers {
    map w | w in workers && now - workers[w].lastSeenAtMs <= timeoutMs :: workers[w]
  }

  predicate IsLive(workers: Workers, worker: string, now: int, timeoutMs: int) {
    var kept := Pruned(workers, now, timeoutMs);
    worker in kept && now - kept[worker].lastSeenAtMs <= timeoutMs
  }

  /** A heartbeat as the Coordinator takes it up. */
  datatype Look = Beat(worker: string, at: int, reportedAt: int, capacity: int) | Check(worker: string, at: int)

  function Beaten(workers: Workers, b: Look, timeoutMs: int): Workers
    requires b.Beat?
  {
    Pruned(workers, b.at, timeoutMs)[b.worker :=
      WorkerState(b.at, if b.reportedAt > 0 then b.reportedAt else b.at, if b.capacity > 0 then b.capacity else 1)]
  }

  /** A heartbeat drops exactly the expired workers, and records its own worker as seen now. */
  lemma HeartbeatRecords(workers: Workers, b: Look, timeoutMs: int, other: string)
    requires b.Beat?
    ensures var after := Beaten(workers, b, timeoutMs);
            && b.worker in after && after[b.worker].lastSeenAtMs == b.at
            && after[b.worker].lastHeartbeatAtMs == (if b.reportedAt > 0 then b.reportedAt else b.at)
            && after[b.worker].capacityHint == (if b.capacity > 0 then b.capacity else 1)
            && (other != b.worker ==> (other in after <==> other in workers && b.at - workers[other].lastSeenAtMs <= timeoutMs))
            && (other != b.worker && other in after ==> after[other] == workers[other])
  {}

  // ---------- Histories ----------

  function After(history: seq<Look>, timeoutMs: int): Workers {
    if history == [] then map[]
    else
      var workers, last := After(history[..|history| - 1], timeoutMs), history[|history| - 1];
      if last.Beat? then Beaten(workers, last, timeoutMs) else Pruned(workers, last.at, timeoutMs)
  }

  /** When the worker last sent a heartbeat, in the whole history. */
  function LastBeat(history: seq<Look>, worker: string): Option<int> {
    if history == [] then None
    else
      var last := history[|history| - 1];
      if last.Beat? && last.worker == worker then Some(last.at) else LastBeat(history[..|history| - 1], worker)
  }

  ghost predicate InOrder(history: seq<Look>, now: int) {
    && (forall i, k | 0 <= i < k < |history| :: history[i].at <= history[k].at)
    && (forall i | 0 <= i < |history| :: history[i].at <= now)
  }

  lemma {:induction false} RegistryRemembers(history: seq<Look>, worker: string, now: int, timeoutMs: int)
    requires InOrder(history, now)
    ensures var workers := After(history, timeoutMs);
            && (worker in workers ==> LastBeat(history, worker) == Some(workers[worker].lastSeenAtMs))
            && (LastBeat(history, worker).Some? && now - LastBeat(history, worker).value <= timeoutMs ==> worker in workers)
  {
    if history != [] {
      var last := history[|history| - 1];
      RegistryRemembers(history[..|history| - 1], worker, last.at, timeoutMs);
    }
  }

  /** A worker is live exactly when its latest heartbeat, among all ever sent, is at most the timeout
      old, whatever was pruned in between. */
  lemma PruningIsInvisible(history: seq<Look>, worker: string, now: int, timeoutMs: int)
    requires InOrder(history, now)
    ensures IsLive(After(history, timeoutMs), worker, now, timeoutMs) <==>
            LastBeat(history, worker).Some? && now - LastBeat(history, worker).value <= timeoutMs
  {
    RegistryRemembers(history, worker, now, timeoutMs);
  }
}
