/** What a SubmitJob does when its enqueue fails. The compensation keeps its promise, that no job of this
    submission remains. But the index still names the deleted job, so the key is spent: a retry under it is
    refused although the error invited one. And when the submission was itself a retry that had found an
    earlier job by its key, it is the earlier job that is deleted. */
module Compensation {
  import opened Types
  import opened Messages
  import opened JobTable
  import opened Idempotency
  import opened Stores
  import opened Handlers
  import opened Solo

  /** The stores after the create alone. */
  function CreatedIn(w: World, spec: JobSpec, key: string, env: Env): World {
    w.(table := CreateJobOp(w.table, spec, key, env).0)
  }

  predicate IsNewJob(w: World, spec: JobSpec, key: string, env: Env) {
    && Strip(spec.jobType) != "" && Strip(key) != "" && Strip(key) !in w.table.dedup.entries
    && env.newId.Some? && env.newId.value != "" && env.newId.value !in w.table.records
  }

  lemma CreatesNew(w: World, spec: JobSpec, key: string, env: Env)
    requires TableOk(w.table) && IsNewJob(w, spec, key, env)
    ensures var t := CreateJobOp(w.table, spec, key, env).0;
            && CreateJobOp(w.table, spec, key, env).1 == Created(env.newId.value, Queued)
            && t.records == w.table.records[env.newId.value := NewRecord(env.newId.value, spec, env.now)]
            && Strip(key) in t.dedup.entries && t.dedup.entries[Strip(key)] == DedupEntry(FingerprintOf(spec), env.newId.value)
  {
    CreatedIsNewest(w.table, spec, key, env);
  }

  /** The create is delivered, the enqueue refused, the deletion delivered. */
  predicate RefusedThenCompensated(net: Network) {
    net(0).Delivered? && net(1).Declined? && net(2).Delivered?
  }

  /** No job and no queue entry remains, but the key does, and it names the job that was deleted. */
  lemma CompensationLeavesOnlyTheKey(w: World, spec: JobSpec, key: string, net: Network, pick: IdPicker)
    requires TableOk(w.table) && RefusedThenCompensated(net)
    requires IsNewJob(w, spec, key, Env(net(0).now, pick(net(0).uuids)))
    ensures var id := pick(net(0).uuids).value;
            var (w', answer) := Handle(w, Request.SubmitJob(spec, key), net, pick);
            && answer == Refused(Unavailable)
            && w'.table.records == w.table.records && w'.queue == w.queue && w'.results == w.results
            && Strip(key) in w'.table.dedup.entries && w'.table.dedup.entries[Strip(key)] == DedupEntry(FingerprintOf(spec), id)
  {
    hide Strip, FingerprintOf, CreateJobOp;
    var env := Env(net(0).now, pick(net(0).uuids));
    var id := env.newId.value;
    var w1 := CreatedIn(w, spec, key, env);
    CreatesNew(w, spec, key, env);
    assert Begin(Request.SubmitJob(spec, key)) == SubmitCreate(spec, key);
    Unroll(w, SubmitCreate(spec, key), net, 0, pick);
    assert Transport(w, CallOf(SubmitCreate(spec, key)), net(0), pick) == (w1, Created(id, Queued));
    Unroll(w1, SubmitEnqueue(id), net, 1, pick);
    Unroll(w1, SubmitCompensate(id), net, 2, pick);
    assert w1.table.records - {id} == w.table.records;
  }

  // ---------- Retries ----------

  predicate Arrives(d: Delivery) { !d.Declined? }

  /** The job of a retained key, as the retry finds it. */
  predicate Finds(w: World, spec: JobSpec, key: string) {
    && Strip(spec.jobType) != "" && Strip(key) != "" && Strip(key) in w.table.dedup.entries
    && w.table.dedup.entries[Strip(key)].fingerprint == FingerprintOf(spec) && w.table.dedup.entries[Strip(key)].jobId != ""
  }

  function FoundJob(w: World, key: string): JobId
    requires Strip(key) in w.table.dedup.entries
  {
    w.table.dedup.entries[Strip(key)].jobId
  }

  /** The create of a retry: it finds the record or not, and changes nothing but the order of the index. */
  lemma RetryCreates(w: World, spec: JobSpec, key: string, d: Delivery, pick: IdPicker)
    requires Finds(w, spec, key)
    ensures var (w1, reply) := Transport(w, CallOf(SubmitCreate(spec, key)), d, pick);
            var id := FoundJob(w, key);
            && w1.table.records == w.table.records && w1.queue == w.queue && w1.table.dedup.entries == w.table.dedup.entries
            && (id !in w.table.records ==> w1 == w)
            && (d.Delivered? ==> reply == if id in w.table.records then Created(w.table.records[id].jobId, w.table.records[id].status)
                                          else Failure(Internal))
            && (!d.Delivered? ==> reply.Failure?)
  {
    hide Strip, FingerprintOf;
  }

  lemma EnqueueTransport(w: World, id: JobId, d: Delivery, pick: IdPicker)
    ensures var (w1, reply) := Transport(w, CallOf(SubmitEnqueue(id)), d, pick);
            && w1.table == w.table
            && (if d.Delivered? then reply == Enqueued(true) else reply.Failure?)
  {}

  lemma CompensateTransport(w: World, id: JobId, d: Delivery, pick: IdPicker)
    ensures var (w1, reply) := Transport(w, CallOf(SubmitCompensate(id)), d, pick);
            && w1.table.records == (if Arrives(d) && IsQueued(w, id) then w.table.records - {id} else w.table.records)
            && Resume(SubmitCompensate(id), reply) == Finished(Refused(Unavailable))
  {}

  /** A retry with an equal payload under a key the index holds, over any network at all. It is answered
      with the job if and only if the job's record exists, the create's reply arrives, and, for a job
      still QUEUED, so does the enqueue's: the code enqueues it again. */
  lemma RetryGetsTheJobExactlyWhen(w: World, spec: JobSpec, key: string, net: Network, pick: IdPicker)
    requires TableOk(w.table) && Finds(w, spec, key)
    ensures var id := FoundJob(w, key);
            var (w', answer) := Handle(w, Request.SubmitJob(spec, key), net, pick);
            && (answer.Submitted? <==>
                  id in w.table.records && net(0).Delivered? && (IsQueued(w, id) ==> net(1).Delivered?))
            && (answer.Submitted? ==> answer == Submitted(id, w.table.records[id].status))
            && (net(0).Delivered? && id !in w.table.records ==> answer == Refused(Internal) && w' == w)
            && (net(0).Delivered? && IsQueued(w, id) && !net(1).Delivered? ==> answer == Refused(Unavailable))
  {
    hide Strip, FingerprintOf, Stores.Execute, Transport, CallOf;
    RetryRuns(w, spec, key, net, pick);
  }

  /** And the record it found is gone afterwards if and only if the job was QUEUED, the retry's own enqueue
      failed, and its compensation arrived: the retry deletes a job that was there before it. */
  lemma RetryDeletesExactlyWhen(w: World, spec: JobSpec, key: string, net: Network, pick: IdPicker)
    requires TableOk(w.table) && Finds(w, spec, key) && FoundJob(w, key) in w.table.records
    ensures var id := FoundJob(w, key);
            var w' := Handle(w, Request.SubmitJob(spec, key), net, pick).0;
            && (id !in w'.table.records <==>
                  IsQueued(w, id) && net(0).Delivered? && !net(1).Delivered? && Arrives(net(2)))
            && (id in w'.table.records ==> w'.table.records == w.table.records)
  {
    hide Strip, FingerprintOf, Stores.Execute, Transport, CallOf;
    RetryRuns(w, spec, key, net, pick);
  }

  /** What a retry does, call by call. */
  lemma RetryRuns(w: World, spec: JobSpec, key: string, net: Network, pick: IdPicker)
    requires TableOk(w.table) && Finds(w, spec, key)
    ensures var id := FoundJob(w, key);
            var (w', answer) := Handle(w, Request.SubmitJob(spec, key), net, pick);
            if !net(0).Delivered? then w'.table.records == w.table.records && answer.Refused?
            else if id !in w.table.records then w' == w && answer == Refused(Internal)
            else if !IsQueued(w, id) then w'.table.records == w.table.records && answer == Submitted(id, w.table.records[id].status)
            else if net(1).Delivered? then w'.table.records == w.table.records && answer == Submitted(id, Queued)
            else w'.table.records == (if Arrives(net(2)) then w.table.records - {id} else w.table.records)
                 && answer == Refused(Unavailable)
  {
    hide Strip, FingerprintOf, Stores.Execute, Transport;
    var id := FoundJob(w, key);
    assert Begin(Request.SubmitJob(spec, key)) == SubmitCreate(spec, key);
    RetryCreates(w, spec, key, net(0), pick);
    Unroll(w, SubmitCreate(spec, key), net, 0, pick);
    var (w1, reply) := Transport(w, CallOf(SubmitCreate(spec, key)), net(0), pick);
    if net(0).Delivered? && IsQueued(w, id) {
      EnqueueTransport(w1, id, net(1), pick);
      Unroll(w1, SubmitEnqueue(id), net, 1, pick);
      if !net(1).Delivered? {
        var w2 := Transport(w1, CallOf(SubmitEnqueue(id)), net(1), pick).0;
        CompensateTransport(w2, id, net(2), pick);
        Unroll(w2, SubmitCompensate(id), net, 2, pick);
      }
    }
  }

  // ---------- For how long ----------

  lemma {:induction false} GoneStaysGone(t: Table, h: seq<Event>, n: nat, id: JobId)
    requires JobHistory(h) && n <= |h| && id !in After(t, h[..n]).records
    requires forall i | n <= i < |h| :: h[i].env.newId != Some(id)
    ensures id !in After(t, h).records
    decreases |h|
  {
    if n < |h| {
      assert h[..|h| - 1][..n] == h[..n];
      GoneStaysGone(t, h[..|h| - 1], n, id);
    } else {
      assert h[..n] == h;
    }
  }

  /** Once the job of a key has been deleted, the key stays spent through any history of fewer than
      `maxDedupKeys` other keys: every retry with an equal payload is refused. */
  lemma TheKeyStaysSpent(t: Table, spec: JobSpec, key: string, env: Env, h: seq<Event>, n: nat, spec': JobSpec, env': Env)
    requires TableOk(t) && JobHistory(h) && n <= |h|
    requires Strip(key) != "" && Strip(spec'.jobType) != "" && FingerprintOf(spec') == FingerprintOf(spec)
    ensures var (t0, reply) := CreateJobOp(t, spec, key, env);
            && reply.Created? && |KeysOf(h) - {Strip(key)}| < t.maxDedupKeys
            && reply.jobId !in After(t0, h[..n]).records
            && (forall i | n <= i < |h| :: h[i].env.newId != Some(reply.jobId))
            ==> CreateJobOp(After(t0, h), spec', key, env').1 == Failure(Internal)
  {
    hide Strip, FingerprintOf, CreateJobOp, After, KeysOf;
    var (t0, reply) := CreateJobOp(t, spec, key, env);
    if && reply.Created? && |KeysOf(h) - {Strip(key)}| < t.maxDedupKeys
       && reply.jobId !in After(t0, h[..n]).records
       && (forall i | n <= i < |h| :: h[i].env.newId != Some(reply.jobId)) {
      GoneStaysGone(t0, h, n, reply.jobId);
      IdempotencyWindow(t, spec, key, env, h, spec', key, env');
    }
  }
}
