/** The Gateway and Coordinator handlers as continuations. A handler is a chain of RPCs; a `Pc` says
    which call it is waiting for, `CallOf` is that call, and `Resume` is the code between that call's
    reply and the next call or the final answer. */
module Handlers {
  import opened Types
  import opened Messages

  datatype Outcome = OutcomeUnspecified | Succeeded | OutcomeFailed | OutcomeCanceled

  datatype Report = Report(
    workerId: string,
    jobId: JobId,
    outcome: Outcome,
    runtimeMs: nat,
    failureReason: string,
    outputSummary: string,
    outputBytes: Bytes,
    checksum: string)

  /** `live` is what the Coordinator's worker registry says when FetchWork asks it. */
  datatype Request =
    | SubmitJob(spec: JobSpec, clientRequestId: string)
    | GetJobStatus(jobId: string)
    | GetJobResult(jobId: string)
    | CancelJob(jobId: string, reason: string)
    | FetchWork(workerId: string, live: bool)
    | ReportWorkOutcome(report: Report)

  /** The idempotency key of a SubmitJob, or the empty string. */
  function SubmitKey(request: Request): string {
    if request.SubmitJob? then Strip(request.clientRequestId) else ""
  }

  datatype Answer =
    | Refused(code: Code)
    | Submitted(jobId: JobId, initialStatus: JobStatus)
    | StatusOf(jobId: JobId, summary: Summary, failureReason: string)
    | NotReady(jobId: JobId)
    | Ready(jobId: JobId, status: JobStatus, envelope: Envelope)
    | MissingEnvelope(jobId: JobId)   // UNAVAILABLE: terminal status, no envelope
    | StatusMismatch(jobId: JobId)    // UNAVAILABLE: the envelope disagrees with the status
    | CancelAccepted(jobId: JobId, status: JobStatus, alreadyTerminal: bool)
    | Idle
    | Assigned(workerId: string, jobId: JobId, jobType: string)
    | Reported(accepted: bool)
    | Unseen                          // what a lost call answered, to nobody

  /** Why CancelJob falls back to the cancel-requested flag. */
  datatype Fallback = NotQueued | NotRemoved | LostCas

  datatype Pc =
    | SubmitCreate(spec: JobSpec, clientRequestId: string)
    | SubmitEnqueue(jobId: JobId)
    | SubmitCompensate(jobId: JobId)
    | StatusRead(jobId: JobId)
    | ResultRead(jobId: JobId)
    | ResultGet(jobId: JobId, status: JobStatus)
    | CancelRead(jobId: JobId, reason: string)
    | CancelRemove(jobId: JobId, reason: string)
    | CancelStore(jobId: JobId, reason: string)
    | CancelCas(jobId: JobId, reason: string)
    | CancelFlag(jobId: JobId, why: Fallback)
    | FetchDequeue(workerId: string)
    | FetchCas(jobId: JobId, workerId: string)
    | FetchRecheck(jobId: JobId)
    | FetchRescue(jobId: JobId)
    | FetchRead(jobId: JobId, workerId: string)
    | ReportStore(report: Report)
    | ReportCas(report: Report)
    | Lost(call: Call)                // a call whose caller saw an error: it may still land
    | Finished(answer: Answer)

  function MapDownstream(code: Code): Code {
    match code
    case InvalidArgument | NotFound | FailedPrecondition => code
    case Unavailable | DeadlineExceeded | ResourceExhausted => Unavailable
    case Internal | OtherCode => Internal
  }

  function StatusFor(outcome: Outcome): JobStatus {
    match outcome
    case OutcomeUnspecified => Unspecified
    case Succeeded => Done
    case OutcomeFailed => Failed
    case OutcomeCanceled => Canceled
  }

  const CANCEL_SUMMARY_DEFAULT := "canceled_by_user"

  function CancelEnvelope(reason: string): Envelope {
    Envelope(Canceled, 0, if Strip(reason) == "" then CANCEL_SUMMARY_DEFAULT else Strip(reason), [], "")
  }

  function ReportEnvelope(r: Report): Envelope {
    Envelope(StatusFor(r.outcome), r.runtimeMs, r.outputSummary, r.outputBytes, r.checksum)
  }

  /** Validation, up to the first RPC. */
  function Begin(request: Request): Pc {
    match request
    case SubmitJob(spec, key) =>
      if Strip(spec.jobType) == "" then Finished(Refused(InvalidArgument)) else SubmitCreate(spec, key)
    case GetJobStatus(id) =>
      if Strip(id) == "" then Finished(Refused(InvalidArgument)) else StatusRead(Strip(id))
    case GetJobResult(id) =>
      if Strip(id) == "" then Finished(Refused(InvalidArgument)) else ResultRead(Strip(id))
    case CancelJob(id, reason) =>
      if Strip(id) == "" then Finished(Refused(InvalidArgument)) else CancelRead(Strip(id), Strip(reason))
    case FetchWork(worker, live) =>
      if Strip(worker) == "" then Finished(Refused(InvalidArgument))
      else if !live then Finished(Idle)
      else FetchDequeue(Strip(worker))
    case ReportWorkOutcome(r) =>
      if Strip(r.workerId) == "" || Strip(r.jobId) == "" || StatusFor(r.outcome).Unspecified?
      then Finished(Refused(InvalidArgument))
      else ReportStore(r.(workerId := Strip(r.workerId), jobId := Strip(r.jobId)))
  }

  function CallOf(pc: Pc): Call
    requires !pc.Finished?
  {
    match pc
    case SubmitCreate(spec, key) => CreateJob(spec, key)
    case SubmitEnqueue(id) => EnqueueJob(id)
    case SubmitCompensate(id) => DeleteJobIfStatus(id, Queued)
    case StatusRead(id) => GetJobRecord(id)
    case ResultRead(id) => GetJobRecord(id)
    case ResultGet(id, _) => GetResult(id)
    case CancelRead(id, _) => GetJobRecord(id)
    case CancelRemove(id, _) => RemoveJobIfPresent(id)
    case CancelStore(id, reason) => StoreResult(id, CancelEnvelope(reason))
    case CancelCas(id, reason) => TransitionJobStatus(id, Queued, Canceled, reason)
    case CancelFlag(id, _) => SetCancelRequested(id, true)
    case FetchDequeue(worker) => DequeueJob(worker)
    case FetchCas(id, _) => TransitionJobStatus(id, Queued, Running, "dispatch")
    case FetchRecheck(id) => GetJobRecord(id)
    case FetchRescue(id) => EnqueueJob(id)
    case FetchRead(id, _) => GetJobRecord(id)
    case ReportStore(r) => StoreResult(r.jobId, ReportEnvelope(r))
    case ReportCas(r) => TransitionJobStatus(r.jobId, Running, StatusFor(r.outcome), ReasonOf(r))
    case Lost(call) => call
  }

  function ReasonOf(r: Report): string {
    if StatusFor(r.outcome).Failed? then r.failureReason else r.outputSummary
  }

  /** What the handler does with a reply. A stub never hands back a reply of another kind than the
      call's, so the last case is not reached. */
  function Resume(pc: Pc, reply: Reply): Pc {
    match (pc, reply)
    // SubmitJob
    case (SubmitCreate(_, _), Failure(code)) => Finished(Refused(MapDownstream(code)))
    case (SubmitCreate(_, _), Created(id, status)) =>
      if id == "" then Finished(Refused(Internal))
      else if status.Queued? then SubmitEnqueue(id)
      else Finished(Submitted(id, status))
    case (SubmitEnqueue(id), Enqueued(accepted)) =>
      if accepted then Finished(Submitted(id, Queued)) else SubmitCompensate(id)
    case (SubmitEnqueue(id), Failure(_)) => SubmitCompensate(id)
    case (SubmitCompensate(_), _) => Finished(Refused(Unavailable))
    // GetJobStatus
    case (StatusRead(_), Failure(code)) => Finished(Refused(MapDownstream(code)))
    case (StatusRead(id), Record(summary, failureReason)) => Finished(StatusOf(id, summary, failureReason))
    // GetJobResult
    case (ResultRead(_), Failure(code)) => Finished(Refused(MapDownstream(code)))
    case (ResultRead(id), Record(summary, _)) =>
      if summary.status.Terminal() then ResultGet(id, summary.status) else Finished(NotReady(id))
    case (ResultGet(_, _), Failure(code)) => Finished(Refused(MapDownstream(code)))
    case (ResultGet(id, status), Fetched(found, envelope)) =>
      if !found then Finished(MissingEnvelope(id))
      else if envelope.terminalStatus != status then Finished(StatusMismatch(id))
      else Finished(Ready(id, status, envelope))
    // CancelJob
    case (CancelRead(_, _), Failure(code)) => Finished(Refused(MapDownstream(code)))
    case (CancelRead(id, reason), Record(summary, _)) =>
      if summary.status.Terminal() then Finished(CancelAccepted(id, summary.status, true))
      else if summary.status.Queued? then CancelRemove(id, reason)
      else CancelFlag(id, NotQueued)
    case (CancelRemove(_, _), Failure(code)) => Finished(Refused(MapDownstream(code)))
    case (CancelRemove(id, reason), Removed(removed)) =>
      if removed then CancelStore(id, reason) else CancelFlag(id, NotRemoved)
    case (CancelStore(_, _), Failure(code)) => Finished(Refused(MapDownstream(code)))
    case (CancelStore(id, reason), Stored(_, _, status)) =>
      if status.Terminal() then CancelCas(id, reason) else Finished(Refused(Internal))
    case (CancelCas(_, _), Failure(code)) => Finished(Refused(MapDownstream(code)))
    case (CancelCas(id, _), Transitioned(applied, status)) =>
      if applied then Finished(CancelAccepted(id, Canceled, false))
      else if status.Terminal() then Finished(CancelAccepted(id, status, true))
      else CancelFlag(id, LostCas)
    case (CancelFlag(_, _), Failure(code)) => Finished(Refused(MapDownstream(code)))
    case (CancelFlag(id, _), CancelFlagged(_, status)) => Finished(CancelAccepted(id, status, status.Terminal()))
    // FetchWork
    case (FetchDequeue(_), Failure(_)) => Finished(Refused(Unavailable))
    case (FetchDequeue(worker), Dequeued(found, id)) =>
      if found && id != "" then FetchCas(id, worker) else Finished(Idle)
    case (FetchCas(_, _), Failure(_)) => Finished(Refused(Unavailable))
    case (FetchCas(id, worker), Transitioned(applied, _)) =>
      if applied then FetchRead(id, worker) else FetchRecheck(id)
    case (FetchRecheck(id), Record(summary, _)) =>
      if summary.status.Queued? then FetchRescue(id) else Finished(Idle)
    case (FetchRecheck(_), Failure(_)) => Finished(Idle)
    case (FetchRescue(_), _) => Finished(Idle)
    case (FetchRead(_, _), Failure(_)) => Finished(Refused(Unavailable))
    case (FetchRead(id, worker), Record(summary, _)) => Finished(Assigned(worker, id, summary.jobType))
    // ReportWorkOutcome
    case (ReportStore(_), Failure(_)) => Finished(Refused(Unavailable))
    case (ReportStore(r), Stored(_, _, _)) => ReportCas(r)
    case (ReportCas(_), Failure(_)) => Finished(Refused(Unavailable))
    case (ReportCas(_), Transitioned(applied, status)) => Finished(Reported(applied || status.Terminal()))
    // A lost call lands
    case (Lost(_), _) => Finished(Unseen)
    case _ => Finished(Refused(Internal))
  }

  /** How many RPCs a handler may still make. */
  function Rank(pc: Pc): nat {
    match pc
    case Finished(_) => 0
    case SubmitCreate(_, _) => 3
    case SubmitEnqueue(_) | ResultRead(_) | ReportStore(_) => 2
    case CancelRead(_, _) => 5
    case CancelRemove(_, _) | FetchDequeue(_) => 4
    case CancelStore(_, _) | FetchCas(_, _) => 3
    case CancelCas(_, _) | FetchRecheck(_) => 2
    case SubmitCompensate(_) | StatusRead(_) | ResultGet(_, _) | CancelFlag(_, _) => 1
    case FetchRescue(_) | FetchRead(_, _) | ReportCas(_) | Lost(_) => 1
  }

  lemma ResumeMakesProgress(pc: Pc, reply: Reply)
    requires !pc.Finished?
    ensures Rank(Resume(pc, reply)) < Rank(pc)
  {}
}
