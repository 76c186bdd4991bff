/** The internal RPCs and their replies. */
module Messages {
  import opened Types

  datatype Call =
    | CreateJob(spec: JobSpec, clientRequestId: string)
    | DeleteJobIfStatus(jobId: JobId, expectedStatus: JobStatus)
    | GetJobRecord(jobId: JobId)
    | TransitionJobStatus(jobId: JobId, expectedFrom: JobStatus, to: JobStatus, reason: string)
    | SetCancelRequested(jobId: JobId, requested: bool)
    | EnqueueJob(jobId: JobId)
    | DequeueJob(workerId: string)
    | RemoveJobIfPresent(jobId: JobId)
    | StoreResult(jobId: JobId, envelope: Envelope)
    | GetResult(jobId: JobId)

  /** A reply a caller can see; `Failure` is the `RpcError` a non-OK status raises. */
  datatype Reply =
    | Failure(code: Code)
    | Created(jobId: JobId, status: JobStatus)
    | Deleted(deleted: bool, status: JobStatus)
    | Record(summary: Summary, failureReason: string)
    | Transitioned(applied: bool, status: JobStatus)
    | CancelFlagged(applied: bool, status: JobStatus)
    | Enqueued(accepted: bool)
    | Dequeued(found: bool, jobId: JobId)
    | Removed(removed: bool)
    | Stored(stored: bool, alreadyExists: bool, status: JobStatus)
    | Fetched(found: bool, envelope: Envelope)
}
