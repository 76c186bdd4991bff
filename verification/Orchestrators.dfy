/** The Gateway and the Coordinator as the code has them: methods that call the stores one after the
    other and leave early on errors. Each is proved to do to the stores, and to answer, exactly what
    the continuations of `Handlers` do when run alone over the same network. */
module Orchestrators {
  import opened Types
  import opened Messages
  import opened JobTable
  import opened Stores
  import opened Handlers
  import opened Solo
  import opened Servicers
  import opened Registry

  predicate CanonicalCall(call: Call) {
    match call
    case EnqueueJob(id) => Canonical(id)
    case RemoveJobIfPresent(id) => Canonical(id)
    case StoreResult(id, _) => Canonical(id)
    case GetResult(id) => Canonical(id)
    case DequeueJob(worker) => Canonical(worker)
    case _ => true
  }

  ghost predicate Uuids(net: Network) {
    && (forall k, i | net(k).Delivered? :: Canonical(net(k).uuids(i)))
    && (forall k, i | net(k).Dropped? :: Canonical(net(k).uuids(i)))
  }

  /** The client stubs of a handler. */
  class Upstreams {
    const jobs: JobServicer
    const queue: QueueServicer
    const results: ResultServicer

    constructor (jobs: JobServicer, queue: QueueServicer, results: ResultServicer)
      ensures this.jobs == jobs && this.queue == queue && this.results == results
    {
      this.jobs, this.queue, this.results := jobs, queue, results;
    }

    ghost predicate Valid() reads jobs, queue, results {
      jobs.Valid() && queue.Valid()
    }

    ghost function State(): World reads jobs, queue, results {
      World(jobs.State(), queue.queue, results.State())
    }

    ghost function Picker(): IdPicker { uuids => jobs.policy.Pick(uuids) }

    /** One RPC over the network. */
    method Rpc(call: Call, d: Delivery) returns (reply: Reply)
      requires Valid() && CanonicalCall(call)
      requires d.Delivered? ==> forall i :: Canonical(d.uuids(i))
      requires d.Dropped? ==> forall i :: Canonical(d.uuids(i))
      modifies jobs, queue, results
      ensures Valid()
      ensures (State(), reply) == Transport(old(State()), call, d, Picker())
      ensures Fits(call, reply)
      ensures reply.Created? ==> Canonical(reply.jobId)
      ensures reply.Dequeued? && reply.found ==> Canonical(reply.jobId)
    {
      TransportFits(State(), call, d, Picker());
      if d.Declined? {
        return Failure(d.code);
      }
      reply := Execute(call, d.now, d.uuids);
      if d.Dropped? {
        reply := Failure(d.error);
      }
    }

    method Execute(call: Call, now: int, uuids: nat -> JobId) returns (reply: Reply)
      requires Valid() && CanonicalCall(call) && forall i :: Canonical(uuids(i))
      modifies jobs, queue, results
      ensures Valid()
      ensures (State(), reply) == Stores.Execute(old(State()), call, Env(now, jobs.policy.Pick(uuids)))
      ensures reply.Created? ==> Canonical(reply.jobId)
      ensures reply.Dequeued? && reply.found ==> Canonical(reply.jobId)
    {
      hide DeleteJobIfStatusOp, TransitionJobStatusOp, SetCancelRequestedOp, StoreResultOp, Strip;
      ReplyFits(State(), call, Env(now, jobs.policy.Pick(uuids)));
      match call
      case CreateJob(spec, key) =>
        PickedIdsAreOwned(jobs.policy, uuids);
        reply := jobs.CreateJob(spec, key, uuids, now);
      case DeleteJobIfStatus(id, expected) => reply := jobs.DeleteJobIfStatus(id, expected);
      case GetJobRecord(id) => reply := jobs.GetJobRecord(id);
      case TransitionJobStatus(id, from, to, reason) => reply := jobs.TransitionJobStatus(id, from, to, reason, now);
      case SetCancelRequested(id, requested) => reply := jobs.SetCancelRequested(id, requested);
      case EnqueueJob(id) => reply := queue.EnqueueJob(id);
      case DequeueJob(worker) => reply := queue.DequeueJob(worker);
      case RemoveJobIfPresent(id) => reply := queue.RemoveJobIfPresent(id);
      case StoreResult(id, envelope) => reply := results.StoreResult(id, envelope);
      case GetResult(id) => reply := results.GetResult(id);
    }
  }

  /** Gateway.SubmitJob, GetJobStatus, GetJobResult and CancelJob. */
  class Gateway {
    const up: Upstreams

    constructor (up: Upstreams)
      ensures this.up == up
    {
      this.up := up;
    }

    method SubmitJob(spec: JobSpec, clientRequestId: string, net: Network) returns (answer: Answer)
      requires up.Valid() && Uuids(net)
      modifies up.jobs, up.queue, up.results
      ensures up.Valid()
      ensures (up.State(), answer) == Handle(old(up.State()), Request.SubmitJob(spec, clientRequestId), net, up.Picker())
    {
      hide Stores.Execute, Transport, Strip;
      if Strip(spec.jobType) == "" {
        return Refused(InvalidArgument);
      }
      Unroll(up.State(), SubmitCreate(spec, clientRequestId), net, 0, up.Picker());
      var created := up.Rpc(CreateJob(spec, clientRequestId), net(0));
      if created.Failure? {
        return Refused(MapDownstream(created.code));
      }
      var jobId := Strip(created.jobId);
      if jobId == "" {
        return Refused(Internal);
      }
      if created.status.Queued? {
        Unroll(up.State(), SubmitEnqueue(jobId), net, 1, up.Picker());
        var enqueued := up.Rpc(EnqueueJob(jobId), net(1));
        if enqueued.Failure? || !enqueued.accepted {
          AttemptSubmitCompensation(jobId, net, 2);
          return Refused(Unavailable);
        }
      }
      return Submitted(jobId, created.status);
    }

    method AttemptSubmitCompensation(jobId: JobId, net: Network, k: nat)
      requires up.Valid() && Uuids(net)
      modifies up.jobs, up.queue, up.results
      ensures up.Valid()
      ensures (up.State(), Refused(Unavailable)) == RunAlone(old(up.State()), SubmitCompensate(jobId), net, k, up.Picker())
    {
      hide Stores.Execute, Transport, Strip;
      Unroll(up.State(), SubmitCompensate(jobId), net, k, up.Picker());
      var _ := up.Rpc(DeleteJobIfStatus(jobId, Queued), net(k));
    }

    method GetJobStatus(jobId: string, net: Network) returns (answer: Answer)
      requires up.Valid() && Uuids(net)
      modifies up.jobs, up.queue, up.results
      ensures up.Valid()
      ensures (up.State(), answer) == Handle(old(up.State()), Request.GetJobStatus(jobId), net, up.Picker())
    {
      hide Stores.Execute, Transport, Strip;
      var id := Strip(jobId);
      if id == "" {
        return Refused(InvalidArgument);
      }
      Unroll(up.State(), StatusRead(id), net, 0, up.Picker());
      var rec := up.Rpc(GetJobRecord(id), net(0));
      if rec.Failure? {
        return Refused(MapDownstream(rec.code));
      }
      return StatusOf(id, rec.summary, rec.failureReason);
    }

    method GetJobResult(jobId: string, net: Network) returns (answer: Answer)
      requires up.Valid() && Uuids(net)
      modifies up.jobs, up.queue, up.results
      ensures up.Valid()
      ensures (up.State(), answer) == Handle(old(up.State()), Request.GetJobResult(jobId), net, up.Picker())
    {
      hide Stores.Execute, Transport, Strip;
      var id := Strip(jobId);
      if id == "" {
        return Refused(InvalidArgument);
      }
      StripTwice(jobId);
      Unroll(up.State(), ResultRead(id), net, 0, up.Picker());
      var rec := up.Rpc(GetJobRecord(id), net(0));
      if rec.Failure? {
        return Refused(MapDownstream(rec.code));
      }
      if !rec.summary.status.Terminal() {
        return NotReady(id);
      }
      Unroll(up.State(), ResultGet(id, rec.summary.status), net, 1, up.Picker());
      var result := up.Rpc(GetResult(id), net(1));
      if result.Failure? {
        return Refused(MapDownstream(result.code));
      }
      if !result.found {
        return MissingEnvelope(id);
      }
      if result.envelope.terminalStatus != rec.summary.status {
        return StatusMismatch(id);
      }
      return Ready(id, rec.summary.status, result.envelope);
    }

    method CancelJob(jobId: string, reason: string, net: Network) returns (answer: Answer)
      requires up.Valid() && Uuids(net)
      modifies up.jobs, up.queue, up.results
      ensures up.Valid()
      ensures (up.State(), answer) == Handle(old(up.State()), Request.CancelJob(jobId, reason), net, up.Picker())
    {
      hide Stores.Execute, Transport, Strip;
      var id, why := Strip(jobId), Strip(reason);
      if id == "" {
        return Refused(InvalidArgument);
      }
      StripTwice(jobId);
      Unroll(up.State(), CancelRead(id, why), net, 0, up.Picker());
      var rec := up.Rpc(GetJobRecord(id), net(0));
      if rec.Failure? {
        return Refused(MapDownstream(rec.code));
      }
      var status := rec.summary.status;
      if status.Terminal() {
        return CancelAccepted(id, status, true);
      }
      if status.Queued? {
        answer := CancelQueued(id, why, net);
      } else {
        answer := SetCancelRequested(id, NotQueued, net, 1);
      }
    }

    /** The queued-cancel path: out of the queue first. */
    method CancelQueued(id: JobId, reason: string, net: Network) returns (answer: Answer)
      requires Canonical(id)
      requires up.Valid() && Uuids(net)
      modifies up.jobs, up.queue, up.results
      ensures up.Valid()
      ensures (up.State(), answer) == RunAlone(old(up.State()), CancelRemove(id, reason), net, 1, up.Picker())
    {
      hide Stores.Execute, Transport, Strip;
      Unroll(up.State(), CancelRemove(id, reason), net, 1, up.Picker());
      var rm := up.Rpc(RemoveJobIfPresent(id), net(1));
      if rm.Failure? {
        return Refused(MapDownstream(rm.code));
      }
      if rm.removed {
        answer := CancelRemoved(id, reason, net, 2);
      } else {
        answer := SetCancelRequested(id, NotRemoved, net, 2);
      }
    }

    /** The queued-cancel path, from the envelope on. */
    method CancelRemoved(id: JobId, reason: string, net: Network, k: nat) returns (answer: Answer)
      requires Canonical(id)
      requires up.Valid() && Uuids(net)
      modifies up.jobs, up.queue, up.results
      ensures up.Valid()
      ensures (up.State(), answer) == RunAlone(old(up.State()), CancelStore(id, reason), net, k, up.Picker())
    {
      hide Stores.Execute, Transport, Strip;
      Unroll(up.State(), CancelStore(id, reason), net, k, up.Picker());
      var summary := if Strip(reason) != "" then Strip(reason) else CANCEL_SUMMARY_DEFAULT;
      var stored := up.Rpc(StoreResult(id, Envelope(Canceled, 0, summary, [], "")), net(k));
      if stored.Failure? {
        return Refused(MapDownstream(stored.code));
      }
      if !stored.status.Terminal() {
        return Refused(Internal);
      }
      Unroll(up.State(), CancelCas(id, reason), net, k + 1, up.Picker());
      var transition := up.Rpc(TransitionJobStatus(id, Queued, Canceled, reason), net(k + 1));
      if transition.Failure? {
        return Refused(MapDownstream(transition.code));
      }
      if transition.applied {
        return CancelAccepted(id, Canceled, false);
      }
      if transition.status.Terminal() {
        return CancelAccepted(id, transition.status, true);
      }
      answer := SetCancelRequested(id, LostCas, net, k + 2);
    }

    method SetCancelRequested(id: JobId, why: Fallback, net: Network, k: nat) returns (answer: Answer)
      requires up.Valid() && Uuids(net)
      modifies up.jobs, up.queue, up.results
      ensures up.Valid()
      ensures (up.State(), answer) == RunAlone(old(up.State()), CancelFlag(id, why), net, k, up.Picker())
    {
      hide Stores.Execute, Transport, Strip;
      Unroll(up.State(), CancelFlag(id, why), net, k, up.Picker());
      var flagged := up.Rpc(Call.SetCancelRequested(id, true), net(k));
      if flagged.Failure? {
        return Refused(MapDownstream(flagged.code));
      }
      return CancelAccepted(id, flagged.status, flagged.status.Terminal());
    }
  }

  const FETCHWORK_RETRY_AFTER_DEFAULT_MS := 200
  const FETCHWORK_RETRY_AFTER_MIN_MS := 50
  const FETCHWORK_RETRY_AFTER_MAX_MS := 1000

  function ClampRetryAfter(value: int): (r: nat)
    ensures 50 <= r <= 1000
    ensures 50 <= value <= 1000 ==> r == value
  {
    Max(FETCHWORK_RETRY_AFTER_MIN_MS, Min(value, FETCHWORK_RETRY_AFTER_MAX_MS))
  }

  /** The worker registry, FetchWork and ReportWorkOutcome. */
  class Coordinator {
    const up: Upstreams
    const heartbeatIntervalMs: int
    const workerTimeoutMs: int
    var workers: Workers

    constructor (up: Upstreams, heartbeatIntervalMs: int, workerTimeoutMs: int)
      ensures this.up == up && this.heartbeatIntervalMs == heartbeatIntervalMs && this.workerTimeoutMs == workerTimeoutMs
      ensures workers == map[]
    {
      this.up, this.heartbeatIntervalMs, this.workerTimeoutMs := up, heartbeatIntervalMs, workerTimeoutMs;
      workers := map[];
    }

    method PruneExpiredWorkers(now: int)
      modifies this
      ensures workers == Pruned(old(workers), now, workerTimeoutMs)
    {
      var expired := set w | w in workers && now - workers[w].lastSeenAtMs > workerTimeoutMs;
      ghost var all := workers;
      while expired != {}
        invariant workers.Keys <= all.Keys && (forall w | w in workers :: workers[w] == all[w])
        invariant forall w | w in all :: w !in workers || w in expired <==> now - all[w].lastSeenAtMs > workerTimeoutMs
        invariant expired <= workers.Keys
        decreases expired
      {
        var w :| w in expired;
        workers := workers - {w};
        expired := expired - {w};
      }
    }

    method IsWorkerLive(worker: string, now: int) returns (live: bool)
      modifies this
      ensures live == IsLive(old(workers), worker, now, workerTimeoutMs)
      ensures workers == Pruned(old(workers), now, workerTimeoutMs)
    {
      PruneExpiredWorkers(now);
      if worker !in workers {
        return false;
      }
      return now - workers[worker].lastSeenAtMs <= workerTimeoutMs;
    }

    /** Returns whether the heartbeat is accepted and when the next is due. */
    method WorkerHeartbeat(workerId: string, heartbeatAtMs: int, capacityHint: int, now: int) returns (accepted: bool, next: int)
      modifies this
      ensures accepted <==> Strip(workerId) != ""
      ensures !accepted ==> workers == old(workers) && next == 0
      ensures accepted ==> workers == Beaten(old(workers), Beat(Strip(workerId), now, heartbeatAtMs, capacityHint), workerTimeoutMs)
                           && next == Max(1, heartbeatIntervalMs)
    {
      var worker := Strip(workerId);
      if worker == "" {
        return false, 0;
      }
      var reportedAt := if heartbeatAtMs > 0 then heartbeatAtMs else now;
      var capacity := if capacityHint > 0 then capacityHint else 1;
      PruneExpiredWorkers(now);
      workers := workers[worker := WorkerState(now, reportedAt, capacity)];
      return true, Max(1, heartbeatIntervalMs);
    }

    /** Returns the answer and the retry hint that goes with it. */
    method FetchWork(workerId: string, now: int, net: Network) returns (answer: Answer, retryAfterMs: nat)
      requires up.Valid() && Uuids(net)
      modifies this, up.jobs, up.queue, up.results
      ensures up.Valid()
      ensures var live := IsLive(old(workers), Strip(workerId), now, workerTimeoutMs);
              (up.State(), answer) == Handle(old(up.State()), Request.FetchWork(workerId, live), net, up.Picker())
      ensures workers == if Strip(workerId) == "" then old(workers) else Pruned(old(workers), now, workerTimeoutMs)
      ensures retryAfterMs == if answer.Assigned? then 0 else FETCHWORK_RETRY_AFTER_DEFAULT_MS
    {
      hide Stores.Execute, Transport, Strip;
      var worker := Strip(workerId);
      retryAfterMs := ClampRetryAfter(FETCHWORK_RETRY_AFTER_DEFAULT_MS);
      if worker == "" {
        return Refused(InvalidArgument), retryAfterMs;
      }
      StripTwice(workerId);
      var live := IsWorkerLive(worker, now);
      if !live {
        return Idle, retryAfterMs;
      }
      Unroll(up.State(), FetchDequeue(worker), net, 0, up.Picker());
      var dequeued := up.Rpc(DequeueJob(worker), net(0));
      if dequeued.Failure? {
        return Refused(Unavailable), retryAfterMs;
      }
      if !dequeued.found || dequeued.jobId == "" {
        return Idle, retryAfterMs;
      }
      answer := Dispatch(dequeued.jobId, worker, net);
      if answer.Assigned? {
        retryAfterMs := 0;
      }
    }

    /** FetchWork with a job in hand: CAS, then read, or recheck and rescue. */
    method Dispatch(id: JobId, worker: string, net: Network) returns (answer: Answer)
      requires Canonical(id)
      requires up.Valid() && Uuids(net)
      modifies up.jobs, up.queue, up.results
      ensures up.Valid()
      ensures (up.State(), answer) == RunAlone(old(up.State()), FetchCas(id, worker), net, 1, up.Picker())
    {
      hide Stores.Execute, Transport, Strip;
      Unroll(up.State(), FetchCas(id, worker), net, 1, up.Picker());
      var transitioned := up.Rpc(TransitionJobStatus(id, Queued, Running, "dispatch"), net(1));
      if transitioned.Failure? {
        return Refused(Unavailable);
      }
      if !transitioned.applied {
        Rescue(id, net);
        return Idle;
      }
      Unroll(up.State(), FetchRead(id, worker), net, 2, up.Picker());
      var rec := up.Rpc(GetJobRecord(id), net(2));
      if rec.Failure? {
        return Refused(Unavailable);
      }
      return Assigned(worker, id, rec.summary.jobType);
    }

    /** Best effort: put the job back if it turns out to be QUEUED still. */
    method Rescue(id: JobId, net: Network)
      requires Canonical(id)
      requires up.Valid() && Uuids(net)
      modifies up.jobs, up.queue, up.results
      ensures up.Valid()
      ensures (up.State(), Idle) == RunAlone(old(up.State()), FetchRecheck(id), net, 2, up.Picker())
    {
      hide Stores.Execute, Transport, Strip;
      Unroll(up.State(), FetchRecheck(id), net, 2, up.Picker());
      var recheck := up.Rpc(GetJobRecord(id), net(2));
      if !recheck.Failure? && recheck.summary.status.Queued? {
        Unroll(up.State(), FetchRescue(id), net, 3, up.Picker());
        var _ := up.Rpc(EnqueueJob(id), net(3));
      }
    }

    method ReportWorkOutcome(report: Report, net: Network) returns (answer: Answer)
      requires up.Valid() && Uuids(net)
      modifies up.jobs, up.queue, up.results
      ensures up.Valid()
      ensures (up.State(), answer) == Handle(old(up.State()), Request.ReportWorkOutcome(report), net, up.Picker())
    {
      hide Stores.Execute, Transport, Strip;
      var worker, id := Strip(report.workerId), Strip(report.jobId);
      if worker == "" {
        return Refused(InvalidArgument);
      }
      if id == "" {
        return Refused(InvalidArgument);
      }
      var terminal := StatusFor(report.outcome);
      if terminal.Unspecified? {
        return Refused(InvalidArgument);
      }
      StripTwice(report.jobId);
      ghost var taken := report.(workerId := worker, jobId := id);
      Unroll(up.State(), ReportStore(taken), net, 0, up.Picker());
      var envelope := Envelope(terminal, report.runtimeMs, report.outputSummary, report.outputBytes, report.checksum);
      var stored := up.Rpc(StoreResult(id, envelope), net(0));
      if stored.Failure? {
        return Refused(Unavailable);
      }
      answer := Complete(id, terminal, if terminal.Failed? then report.failureReason else report.outputSummary, taken, net);
    }

    /** ReportWorkOutcome with the envelope stored: the terminal CAS. */
    method Complete(id: JobId, terminal: JobStatus, reason: string, ghost report: Report, net: Network) returns (answer: Answer)
      requires report.jobId == id && terminal == StatusFor(report.outcome) && reason == ReasonOf(report)
      requires up.Valid() && Uuids(net)
      modifies up.jobs, up.queue, up.results
      ensures up.Valid()
      ensures (up.State(), answer) == RunAlone(old(up.State()), ReportCas(report), net, 1, up.Picker())
    {
      hide Stores.Execute, Transport, Strip;
      Unroll(up.State(), ReportCas(report), net, 1, up.Picker());
      var transition := up.Rpc(TransitionJobStatus(id, Running, terminal, reason), net(1));
      if transition.Failure? {
        return Refused(Unavailable);
      }
      if transition.applied {
        return Reported(true);
      }
      if transition.status.Terminal() {
        return Reported(true);
      }
      return Reported(false);
    }
  }
}
