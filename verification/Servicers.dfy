/** The three store servicers, as objects that update their fields. */
module Servicers {
  import opened Types
  import opened Messages
  import opened JobTable
  import opened OrderedKeys
  import opened Stores
  import opened Sorting
  import opened Listing
  import opened Decimal

  class QueueServicer {
    var queue: seq<JobId>

    ghost predicate Valid() reads this {
      Distinct(queue) && forall id | id in queue :: Canonical(id)
    }

    constructor ()
      ensures Valid() && queue == []
    {
      queue := [];
    }

    method EnqueueJob(jobId: string) returns (reply: Reply)
      requires Valid()
      modifies this
      ensures Valid()
      ensures Strip(jobId) == "" ==> queue == old(queue) && reply == Failure(InvalidArgument)
      ensures Strip(jobId) != "" ==> queue == Enqueue(old(queue), Strip(jobId)) && reply == Enqueued(true)
    {
      var id := Strip(jobId);
      if id == "" {
        return Failure(InvalidArgument);
      }
      StripTwice(jobId);
      if id !in queue {
        AppendDistinct(queue, id);
        queue := queue + [id];
      }
      return Enqueued(true);
    }

    method DequeueJob(workerId: string) returns (reply: Reply)
      requires Valid()
      modifies this
      ensures Valid()
      ensures Strip(workerId) == "" ==> queue == old(queue) && reply == Failure(InvalidArgument)
      ensures Strip(workerId) != "" ==> (queue, reply) == Dequeue(old(queue))
    {
      if Strip(workerId) == "" {
        return Failure(InvalidArgument);
      }
      if queue == [] {
        return Dequeued(false, "");
      }
      DropFirstDistinct(queue);
      var id := queue[0];
      queue := queue[1..];
      return Dequeued(true, id);
    }

    method RemoveJobIfPresent(jobId: string) returns (reply: Reply)
      requires Valid()
      modifies this
      ensures Valid()
      ensures Strip(jobId) == "" ==> queue == old(queue) && reply == Failure(InvalidArgument)
      ensures Strip(jobId) != "" ==> (queue, reply) == Remove(old(queue), Strip(jobId))
    {
      var id := Strip(jobId);
      if id == "" {
        return Failure(InvalidArgument);
      }
      var existed := id in queue;
      WithoutDistinct(queue, id);
      WithoutMembers(queue, id);
      if existed {
        queue := Without(queue, id);
      } else {
        WithoutAbsent(queue, id);
      }
      return Removed(existed);
    }
  }

  class ResultServicer {
    var results: map<JobId, Envelope>
    const maxOutputBytes: nat

    ghost function State(): Results reads this { Results(results, maxOutputBytes) }

    constructor (configuredCap: int)
      ensures State() == EmptyResults(configuredCap)
      ensures results == map[] && maxOutputBytes == if configuredCap > 0 then configuredCap else 262144
    {
      maxOutputBytes := if configuredCap > 0 then configuredCap else DEFAULT_MAX_OUTPUT_BYTES;
      results := map[];
    }

    method StoreResult(jobId: string, envelope: Envelope) returns (reply: Reply)
      modifies this
      ensures Strip(jobId) == "" ==> State() == old(State()) && reply == Failure(InvalidArgument)
      ensures Strip(jobId) != "" ==> (State(), reply) == StoreResultOp(old(State()), Strip(jobId), envelope)
    {
      var id := Strip(jobId);
      if id == "" {
        return Failure(InvalidArgument);
      }
      if !envelope.terminalStatus.Terminal() {
        return Failure(InvalidArgument);
      }
      if |envelope.outputBytes| > maxOutputBytes {
        return Failure(InvalidArgument);
      }
      if id in results {
        return Stored(false, true, results[id].terminalStatus);
      }
      results := results[id := envelope];
      return Stored(true, false, envelope.terminalStatus);
    }

    method GetResult(jobId: string) returns (reply: Reply)
      ensures Strip(jobId) == "" ==> reply == Failure(InvalidArgument)
      ensures Strip(jobId) != "" ==> reply == GetResultOp(State(), Strip(jobId))
    {
      var id := Strip(jobId);
      if id == "" {
        return Failure(InvalidArgument);
      }
      if id in results {
        return Fetched(true, results[id]);
      }
      return Fetched(false, NoEnvelope);
    }
  }

  // ---------- Owner-affine identifiers ----------

  /** The node that owns a key. The hash itself stays a parameter. */
  function OwnerIndex(hash: string -> nat, key: string, nodeCount: nat): nat
    requires nodeCount > 0
  {
    hash(key) % nodeCount
  }

  /** The owner is the remainder of the key's hash. */
  lemma OwnerIsTheRemainder(hash: string -> nat, key: string, nodeCount: nat, owner: nat, turns: nat)
    requires nodeCount > 0 && owner < nodeCount && hash(key) == turns * nodeCount + owner
    ensures OwnerIndex(hash, key, nodeCount) == owner
  {
    Remainder(turns, nodeCount, owner);
  }

  lemma Remainder(turns: nat, n: nat, r: nat)
    requires r < n
    ensures (turns * n + r) % n == r
  {
    var x := turns * n + r;
    QuotientIsUnique(x / n, turns, n, x % n, r);
  }

  lemma QuotientIsUnique(q: int, t: int, n: nat, m: nat, r: nat)
    requires q * n + m == t * n + r && m < n && r < n
    ensures q == t && m == r
  {
    if q > t {
      AtLeastOnce(q - t, n);
    } else if t > q {
      AtLeastOnce(t - q, n);
    }
  }

  lemma AtLeastOnce(a: int, n: nat)
    requires a >= 1
    ensures a * n >= n
  {
    assert (a - 1) * n >= 0;
  }

  /** How a node draws identifiers: with owner routing off any candidate will do. */
  datatype IdPolicy = IdPolicy(hash: string -> nat, nodeIndex: int, nodeCount: int, maxAttempts: int) {
    predicate Routed() { nodeCount > 0 && 0 <= nodeIndex < nodeCount }

    predicate Owned(id: JobId) { Routed() ==> OwnerIndex(hash, id, nodeCount) == nodeIndex }

    function Attempts(): nat { Max(1, maxAttempts) }

    /** The first of the candidates from `i` on that the node owns. */
    function Draw(uuids: nat -> JobId, i: nat): Option<JobId>
      decreases Attempts() - i
    {
      if i >= Attempts() then None
      else if Owned(uuids(i)) then Some(uuids(i))
      else Draw(uuids, i + 1)
    }

    function Pick(uuids: nat -> JobId): Option<JobId> {
      if Routed() then Draw(uuids, 0) else Some(uuids(0))
    }
  }

  lemma {:induction false} DrawsFirstOwned(p: IdPolicy, uuids: nat -> JobId, i: nat)
    ensures p.Draw(uuids, i).Some? ==>
              exists k :: i <= k < p.Attempts() && p.Draw(uuids, i).value == uuids(k) && p.Owned(uuids(k))
                          && forall l | i <= l < k :: !p.Owned(uuids(l))
    ensures p.Draw(uuids, i).None? ==> forall k | i <= k < p.Attempts() :: !p.Owned(uuids(k))
    decreases p.Attempts() - i
  {
    if i < p.Attempts() && !p.Owned(uuids(i)) {
      DrawsFirstOwned(p, uuids, i + 1);
    }
  }

  /** With owner routing on, a node hands out the first candidate that hashes to it, and giving up means that
      none within the attempts does; with owner routing off, it hands out the first of all. */
  lemma PickedIdsAreOwned(p: IdPolicy, uuids: nat -> JobId)
    ensures p.Pick(uuids).Some? ==>
              exists k: nat :: k < p.Attempts() && p.Pick(uuids).value == uuids(k) && p.Owned(uuids(k))
                               && forall l: nat | l < k :: !p.Owned(uuids(l))
    ensures p.Pick(uuids).None? ==> p.Routed() && forall k: nat | k < p.Attempts() :: !p.Owned(uuids(k))
  {
    DrawsFirstOwned(p, uuids, 0);
  }

  class JobServicer {
    var jobs: map<JobId, JobRecord>
    var dedupOrder: seq<string>
    var dedup: map<string, DedupEntry>
    const maxDedupKeys: nat
    const policy: IdPolicy

    ghost function State(): Table reads this { Table(jobs, Dedup(dedupOrder, dedup), maxDedupKeys) }

    ghost predicate Valid() reads this {
      TableOk(State()) && forall id | id in jobs :: Canonical(id)
    }

    constructor (configuredCap: int, policy: IdPolicy)
      ensures Valid() && State() == EmptyTable(configuredCap) && this.policy == policy
      ensures jobs == map[] && dedup == map[] && maxDedupKeys == if configuredCap > 0 then configuredCap else 10000
    {
      maxDedupKeys := if configuredCap > 0 then configuredCap else DEFAULT_MAX_DEDUP_KEYS;
      this.policy := policy;
      jobs, dedupOrder, dedup := map[], [], map[];
    }

    /** Candidates come from the UUID generator, one per attempt. */
    method NewJobId(uuids: nat -> JobId) returns (id: Option<JobId>)
      ensures id == policy.Pick(uuids)
    {
      if !policy.Routed() {
        return Some(uuids(0));
      }
      for attempt := 0 to policy.Attempts()
        invariant policy.Draw(uuids, 0) == policy.Draw(uuids, attempt)
      {
        var candidate := uuids(attempt);
        if OwnerIndex(policy.hash, candidate, policy.nodeCount) == policy.nodeIndex {
          return Some(candidate);
        }
      }
      return None;
    }

    method CreateJob(spec: JobSpec, clientRequestId: string, uuids: nat -> JobId, now: int) returns (reply: Reply)
      requires Valid() && forall k :: Canonical(uuids(k))
      modifies this
      ensures Valid()
      ensures (State(), reply) == CreateJobOp(old(State()), spec, clientRequestId, Env(now, policy.Pick(uuids)))
    {
      hide Without, Distinct, FingerprintOf, AsMap, Strip;
      if Strip(spec.jobType) == "" {
        return Failure(InvalidArgument);
      }
      var fingerprint := FingerprintOf(spec);
      var key := Strip(clientRequestId);
      ghost var before := State();
      CreateJobKeeps(before, spec, clientRequestId, Env(now, policy.Pick(uuids)));
      if key != "" && key in dedup {
        var existing := dedup[key];
        if existing.fingerprint != fingerprint {
          return Failure(FailedPrecondition);
        }
        if existing.jobId !in jobs {
          return Failure(Internal);
        }
        dedupOrder := Without(dedupOrder, key) + [key];
        return Created(jobs[existing.jobId].jobId, jobs[existing.jobId].status);
      }
      var id := NewJobId(uuids);
      PickedIdsAreOwned(policy, uuids);
      if id.None? {
        return Failure(Internal);
      }
      jobs := jobs[id.value := NewRecord(id.value, spec, now)];
      if key != "" {
        dedup := dedup[key := DedupEntry(fingerprint, id.value)];
        dedupOrder := Without(dedupOrder, key) + [key];
        ghost var added := Dedup(dedupOrder, dedup);
        TouchDistinct(before.dedup.order, key);
        while |dedupOrder| > maxDedupKeys
          invariant Dedup(dedupOrder, dedup) == (if |dedupOrder| == |added.order| then added else DropOldest(added))
          invariant |added.order| <= maxDedupKeys + 1 && |added.order| - 1 <= |dedupOrder| <= |added.order|
          invariant |dedupOrder| < |added.order| ==> |dedupOrder| <= maxDedupKeys < |added.order|
          invariant jobs == before.records[id.value := NewRecord(id.value, spec, now)]
        {
          dedup := dedup - {dedupOrder[0]};
          dedupOrder := dedupOrder[1..];
        }
      }
      return Created(id.value, Queued);
    }

    method DeleteJobIfStatus(jobId: JobId, expectedStatus: JobStatus) returns (reply: Reply)
      requires Valid()
      modifies this
      ensures Valid()
      ensures (State(), reply) == DeleteJobIfStatusOp(old(State()), jobId, expectedStatus)
    {
      if jobId !in jobs {
        return Deleted(false, Unspecified);
      }
      if jobs[jobId].status != expectedStatus {
        return Deleted(false, jobs[jobId].status);
      }
      jobs := jobs - {jobId};
      return Deleted(true, expectedStatus);
    }

    method GetJobRecord(jobId: JobId) returns (reply: Reply)
      ensures reply == GetJobRecordOp(State(), jobId)
    {
      if jobId !in jobs {
        return Failure(NotFound);
      }
      return Record(SummaryOf(jobs[jobId]), jobs[jobId].failureReason);
    }

    method TransitionJobStatus(jobId: JobId, expectedFrom: JobStatus, to: JobStatus, reason: string, now: int)
        returns (reply: Reply)
      requires Valid()
      modifies this
      ensures Valid()
      ensures (State(), reply) == TransitionJobStatusOp(old(State()), jobId, expectedFrom, to, reason, now)
    {
      if expectedFrom.Unspecified? {
        return Failure(InvalidArgument);
      }
      if to.Unspecified? {
        return Failure(InvalidArgument);
      }
      if jobId !in jobs {
        return Failure(NotFound);
      }
      var rec := jobs[jobId];
      if rec.status != expectedFrom {
        return Transitioned(false, rec.status);
      }
      if !AllowedTransition(expectedFrom, to) {
        return Failure(InvalidArgument);
      }
      rec := rec.(status := to);
      if to.Running? {
        if rec.startedAtMs == 0 {
          rec := rec.(startedAtMs := now);
        }
      }
      if to.Terminal() {
        rec := rec.(finishedAtMs := now);
        if to.Failed? {
          rec := rec.(failureReason := reason);
        }
        if to.Canceled? {
          rec := rec.(cancelRequested := true);
        }
      }
      jobs := jobs[jobId := rec];
      return Transitioned(true, rec.status);
    }

    method SetCancelRequested(jobId: JobId, requested: bool) returns (reply: Reply)
      requires Valid()
      modifies this
      ensures Valid()
      ensures (State(), reply) == SetCancelRequestedOp(old(State()), jobId, requested)
    {
      if jobId !in jobs {
        return Failure(NotFound);
      }
      var rec := jobs[jobId];
      if rec.status.Terminal() {
        return CancelFlagged(false, rec.status);
      }
      var changed := rec.cancelRequested != requested;
      rec := rec.(cancelRequested := requested);
      jobs := jobs[jobId := rec];
      return CancelFlagged(changed, rec.status);
    }

    /** `order` is the order the dictionary happens to iterate in. */
    method ListJobRecords(request: ListRequest, order: seq<JobId>) returns (reply: ListReply)
      requires Valid() && Enumerates(order, jobs)
      ensures reply == ListOp(jobs, order, request)
    {
      hide Strip, Read, Print, Sort, Distinct;
      var offset := ParseOffset(request.pageToken);
      if offset.None? {
        return BadRequest;
      }
      var valid := ValidateStatusFilter(request.statusFilter);
      if !valid {
        return BadRequest;
      }
      var pageSize := if request.pageSize != 0 then request.pageSize else DEFAULT_PAGE_SIZE;
      pageSize := Max(1, Min(pageSize, MAX_PAGE_SIZE));
      var records: seq<JobRecord> := [];
      for i := 0 to |order|
        invariant records == Filtered(jobs, order[..i], request.statusFilter)
      {
        assert order[..i + 1][..i] == order[..i];
        if Wanted(jobs[order[i]], request.statusFilter) {
          records := records + [jobs[order[i]]];
        }
      }
      assert order[..|order|] == order;
      records := Sort(RecordLe(CoerceSort(request.sort)), records);
      var start := Min(offset.value, |records|);
      var end := Min(start + pageSize, |records|);
      var nextToken := if end < |records| then Print(end) else "";
      return Page(Summaries(records[start..end]), nextToken);
    }

    method ValidateStatusFilter(statuses: seq<JobStatus>) returns (valid: bool)
      ensures valid <==> Unspecified !in statuses
    {
      for i := 0 to |statuses|
        invariant Unspecified !in statuses[..i]
      {
        if statuses[i].Unspecified? {
          return false;
        }
      }
      return true;
    }
  }
}
