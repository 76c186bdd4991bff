/** The three stores side by side, and what one internal RPC does to them. Each handler body runs
    under its store's lock, so a call is one atomic step. Identifiers are stripped here; the servicer
    classes strip what they are given and agree with these functions. */
module Stores {
  import opened Types
  import opened Messages
  import opened JobTable
  import opened OrderedKeys

  const DEFAULT_MAX_OUTPUT_BYTES: nat := 262144

  datatype Results = Results(envelopes: map<JobId, Envelope>, maxOutputBytes: nat)

  datatype World = World(table: Table, queue: seq<JobId>, results: Results)

  // ---------- Queue: a first-in first-out set ----------

  function Enqueue(q: seq<JobId>, id: JobId): seq<JobId> {
    if id in q then q else q + [id]
  }

  function Dequeue(q: seq<JobId>): (seq<JobId>, Reply) {
    if q == [] then (q, Dequeued(false, "")) else (q[1..], Dequeued(true, q[0]))
  }

  function Remove(q: seq<JobId>, id: JobId): (seq<JobId>, Reply) {
    (Without(q, id), Removed(id in q))
  }

  // ---------- Results: the first writer wins ----------

  function EmptyResults(configuredCap: int): Results {
    Results(map[], if configuredCap > 0 then configuredCap else DEFAULT_MAX_OUTPUT_BYTES)
  }

  function StoreResultOp(r: Results, id: JobId, envelope: Envelope): (Results, Reply) {
    if !envelope.terminalStatus.Terminal() then (r, Failure(InvalidArgument))
    else if |envelope.outputBytes| > r.maxOutputBytes then (r, Failure(InvalidArgument))
    else if id in r.envelopes then (r, Stored(false, true, r.envelopes[id].terminalStatus))
    else (r.(envelopes := r.envelopes[id := envelope]), Stored(true, false, envelope.terminalStatus))
  }

  const NoEnvelope := Envelope(Unspecified, 0, "", [], "")

  function GetResultOp(r: Results, id: JobId): Reply {
    if id in r.envelopes then Fetched(true, r.envelopes[id]) else Fetched(false, NoEnvelope)
  }

  predicate IsQueued(w: World, id: JobId) { id in w.table.records && w.table.records[id].status.Queued? }

  // ---------- One call ----------

  function Execute(st: World, call: Call, env: Env): (World, Reply) {
    match call
    case EnqueueJob(id) => (st.(queue := Enqueue(st.queue, id)), Enqueued(true))
    case DequeueJob(_) =>
      var (queue, reply) := Dequeue(st.queue);
      (st.(queue := queue), reply)
    case RemoveJobIfPresent(id) =>
      var (queue, reply) := Remove(st.queue, id);
      (st.(queue := queue), reply)
    case StoreResult(id, envelope) =>
      var (results, reply) := StoreResultOp(st.results, id, envelope);
      (st.(results := results), reply)
    case GetResult(id) => (st, GetResultOp(st.results, id))
    case _ =>
      var (table, reply) := JobCall(st.table, call, env);
      (st.(table := table), reply)
  }
}
