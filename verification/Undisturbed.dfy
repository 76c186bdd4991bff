/** What each operation does when nothing disturbs it: the answer and every change to the stores, written
    out, from any state of the stores at all. The handlers of `Orchestrators` equal `Handle`, so this is
    what they do. Where other operations may have come in between, the rest of a handler is described from
    the point it has reached, again from any state. */
module Undisturbed {
  import opened Types
  import opened Messages
  import opened JobTable
  import opened OrderedKeys
  import opened Stores
  import opened Handlers
  import opened Solo
  import opened Reporting

  function RecordOf(w: World, id: JobId): JobRecord
    requires id in w.table.records
  {
    w.table.records[id]
  }

  function WithRecord(w: World, id: JobId, rec: JobRecord): World {
    w.(table := w.table.(records := w.table.records[id := rec]))
  }

  function WithStored(w: World, id: JobId, envelope: Envelope): World {
    w.(results := w.results.(envelopes := w.results.envelopes[id := envelope]))
  }

  // ---------- Calls to the stores ----------

  predicate IsStep(from: JobStatus, to: JobStatus) {
    (from, to) in {(Queued, Running), (Queued, Canceled), (Running, Done), (Running, Failed), (Running, Canceled)}
  }

  /** The compare-and-swap. It is applied if and only if the record has the expected status and the step is
      one of the five of a job's life; then the fields that go with the new status are written, and no
      others. Otherwise nothing changes, and the reply tells why. */
  lemma TransitionIs(t: Table, id: JobId, from: JobStatus, to: JobStatus, reason: string, now: int)
    ensures var (t', reply) := TransitionJobStatusOp(t, id, from, to, reason, now);
            var applied := id in t.records && t.records[id].status == from && IsStep(from, to);
            && (reply == Transitioned(true, to) <==> applied)
            && (applied ==>
                  var rec := t.records[id];
                  t' == t.(records := t.records[id := rec.(
                    status := to,
                    startedAtMs := if to == Running && rec.startedAtMs == 0 then now else rec.startedAtMs,
                    finishedAtMs := if to == Running then rec.finishedAtMs else now,
                    failureReason := if to == Failed then reason else rec.failureReason,
                    cancelRequested := if to == Canceled then true else rec.cancelRequested)]))
            && (!applied ==> t' == t)
            && (!applied ==>
                  reply == (if from == Unspecified || to == Unspecified then Failure(InvalidArgument)
                            else if id !in t.records then Failure(NotFound)
                            else if t.records[id].status != from then Transitioned(false, t.records[id].status)
                            else Failure(InvalidArgument)))
  {}

  /** The conditional deletion: the reply names the status found, or none. */
  lemma DeletionIs(t: Table, id: JobId, expected: JobStatus)
    ensures var (t', reply) := DeleteJobIfStatusOp(t, id, expected);
            var deleted := id in t.records && t.records[id].status == expected;
            && reply == Deleted(deleted, if id in t.records then t.records[id].status else Unspecified)
            && (id in t'.records <==> id in t.records && !deleted) && t'.dedup == t.dedup
            && (forall other | other != id :: other in t'.records <==> other in t.records)
            && (forall other | other in t'.records :: t'.records[other] == t.records[other])
  {}

  /** The cancel flag: written unless the job is terminal, with `applied` if and only if that changed it. */
  lemma FlaggingIs(t: Table, id: JobId, requested: bool)
    ensures var (t', reply) := SetCancelRequestedOp(t, id, requested);
            if id !in t.records then t' == t && reply == Failure(NotFound)
            else if t.records[id].status.Terminal() then t' == t && reply == CancelFlagged(false, t.records[id].status)
            else reply == CancelFlagged(t' != t, t.records[id].status)
                 && t' == t.(records := t.records[id := t.records[id].(cancelRequested := requested)])
  {
    if id in t.records && t.records[id].cancelRequested == requested {
      assert t.records[id].(cancelRequested := requested) == t.records[id];
      assert t.records[id := t.records[id]] == t.records;
    }
  }

  /** Storing: only a terminal envelope within the cap, only once; the reply names what is stored. */
  lemma StoringIs(r: Results, id: JobId, envelope: Envelope)
    ensures var (r', reply) := StoreResultOp(r, id, envelope);
            var sound := envelope.terminalStatus in {Done, Failed, Canceled} && |envelope.outputBytes| <= r.maxOutputBytes;
            && (!sound ==> r' == r && reply == Failure(InvalidArgument))
            && (sound ==>
                  && reply == Stored(id !in r.envelopes, id in r.envelopes,
                                     if id in r.envelopes then r.envelopes[id].terminalStatus else envelope.terminalStatus)
                  && r' == if id in r.envelopes then r else r.(envelopes := r.envelopes[id := envelope]))
  {}

  // ---------- Errors ----------

  /** What a client is shown for an error behind the Gateway: its own mistakes as they are, transient
      trouble as UNAVAILABLE, the rest as INTERNAL. */
  predicate ShownAs(code: Code, shown: Code) {
    && (code.InvalidArgument? || code.NotFound? || code.FailedPrecondition? ==> shown == code)
    && (code.Unavailable? || code.DeadlineExceeded? || code.ResourceExhausted? ==> shown == Unavailable)
    && (code.Internal? || code.OtherCode? ==> shown == Internal)
  }

  function ErrorOf(d: Delivery): Code
    requires !d.Delivered?
  {
    match d
    case Declined(code) => code
    case Dropped(_, _, error) => error
  }

  lemma MappedAsShown(code: Code)
    ensures ShownAs(code, MapDownstream(code))
  {}

  lemma TransportErrs(w: World, call: Call, d: Delivery, pick: IdPicker)
    requires !d.Delivered?
    ensures Transport(w, call, d, pick).1 == Failure(ErrorOf(d)) && (d.Declined? ==> Transport(w, call, d, pick).0 == w)
  {}

  /** The calls of the Gateway whose failure ends the request. The other two are those of a submission
      that may still be compensated. */
  predicate AtGatewayCall(pc: Pc) {
    || pc.SubmitCreate? || pc.StatusRead? || pc.ResultRead? || pc.ResultGet?
    || pc.CancelRead? || pc.CancelRemove? || pc.CancelStore? || pc.CancelCas? || pc.CancelFlag?
  }

  /** A Gateway request, at whichever call it fails, makes no further call and is refused with that call's
      error as clients are shown it. */
  lemma ErrorIsShown(w: World, pc: Pc, net: Network, k: nat, pick: IdPicker)
    requires AtGatewayCall(pc) && !net(k).Delivered?
    ensures var (w', answer) := RunAlone(w, pc, net, k, pick);
            && answer.Refused? && ShownAs(ErrorOf(net(k)), answer.code)
            && w' == Transport(w, CallOf(pc), net(k), pick).0 && (net(k).Declined? ==> w' == w)
  {
    hide Stores.Execute, Transport, CallOf, MapDownstream, ShownAs;
    MappedAsShown(ErrorOf(net(k)));
    TransportErrs(w, CallOf(pc), net(k), pick);
    Unroll(w, pc, net, k, pick);
  }

  /** A Coordinator request is refused as UNAVAILABLE, whatever the error, unless it was only trying to
      rescue a job; then it is answered that there is no work. */
  lemma CoordinatorErrorIsUnavailable(w: World, pc: Pc, net: Network, k: nat, pick: IdPicker)
    requires pc.FetchDequeue? || pc.FetchCas? || pc.FetchRead? || pc.ReportStore? || pc.ReportCas? || pc.FetchRecheck? || pc.FetchRescue?
    requires !net(k).Delivered?
    ensures var (w', answer) := RunAlone(w, pc, net, k, pick);
            && answer == (if pc.FetchRecheck? || pc.FetchRescue? then Idle else Refused(Unavailable))
            && w' == Transport(w, CallOf(pc), net(k), pick).0 && (net(k).Declined? ==> w' == w)
  {
    hide Stores.Execute, Transport, CallOf;
    TransportErrs(w, CallOf(pc), net(k), pick);
    Unroll(w, pc, net, k, pick);
  }

  /** Malformed requests are refused as such before any call, and leave the stores alone. */
  lemma MalformedIsRefused(w: World, request: Request, net: Network, pick: IdPicker)
    requires match request
      case SubmitJob(spec, _) => Strip(spec.jobType) == ""
      case GetJobStatus(id) => Strip(id) == ""
      case GetJobResult(id) => Strip(id) == ""
      case CancelJob(id, _) => Strip(id) == ""
      case FetchWork(worker, _) => Strip(worker) == ""
      case ReportWorkOutcome(r) => Strip(r.workerId) == "" || Strip(r.jobId) == "" || r.outcome.OutcomeUnspecified?
    ensures Handle(w, request, net, pick) == (w, Refused(InvalidArgument))
  {
    hide Strip;
  }

  // ---------- Reads ----------

  lemma ReadAnswers(w: World, id: JobId, call: Call, d: Delivery, pick: IdPicker)
    requires call == GetJobRecord(id) && d.Delivered?
    ensures Transport(w, call, d, pick) ==
            (w, if id in w.table.records then Record(SummaryOf(w.table.records[id]), w.table.records[id].failureReason)
                else Failure(NotFound))
  {}

  /** A summary shows what the record says, field by field. */
  predicate Shows(summary: Summary, rec: JobRecord) {
    && summary.jobId == rec.jobId
    && summary.status == rec.status
    && summary.jobType == rec.jobType
    && summary.createdAtMs == rec.createdAtMs
    && summary.startedAtMs == rec.startedAtMs
    && summary.finishedAtMs == rec.finishedAtMs
    && summary.cancelRequested == rec.cancelRequested
  }

  /** GetJobStatus answers with every field of the record, in any status, and changes nothing. */
  lemma StatusIsAnswered(w: World, jobId: string, net: Network, pick: IdPicker)
    requires net(0).Delivered? && Strip(jobId) != ""
    ensures var id := Strip(jobId);
            var (w', answer) := Handle(w, Request.GetJobStatus(jobId), net, pick);
            && w' == w
            && (id !in w.table.records ==> answer == Refused(NotFound))
            && (id in w.table.records ==>
                  answer.StatusOf? && answer.jobId == id && Shows(answer.summary, RecordOf(w, id))
                  && answer.failureReason == RecordOf(w, id).failureReason)
  {
    hide Stores.Execute, Transport, Strip;
    var id := Strip(jobId);
    ReadAnswers(w, id, CallOf(StatusRead(id)), net(0), pick);
    Unroll(w, StatusRead(id), net, 0, pick);
  }

  lemma GetAnswers(w: World, id: JobId, call: Call, d: Delivery, pick: IdPicker)
    requires call == GetResult(id) && d.Delivered?
    ensures var (w', reply) := Transport(w, call, d, pick);
            w' == w && reply.Fetched? && (reply.found <==> id in w.results.envelopes)
            && (reply.found ==> reply.envelope == w.results.envelopes[id])
  {}

  /** GetJobResult changes nothing. It answers with the envelope if and only if the job is terminal and an
      envelope of its status is stored, and that the result is not ready if and only if the job exists and
      is not terminal. The two anomalies and the unknown job are told apart. */
  lemma ResultIsAnswered(w: World, jobId: string, net: Network, pick: IdPicker)
    requires net(0).Delivered? && net(1).Delivered? && Strip(jobId) != ""
    ensures var id := Strip(jobId);
            var (w', answer) := Handle(w, Request.GetJobResult(jobId), net, pick);
            var known, stored := id in w.table.records, id in w.results.envelopes;
            && w' == w
            && (answer.Ready? <==> known && RecordOf(w, id).status.Terminal() && stored
                                   && w.results.envelopes[id].terminalStatus == RecordOf(w, id).status)
            && (answer.Ready? ==> answer == Ready(id, RecordOf(w, id).status, w.results.envelopes[id]))
            && (answer == NotReady(id) <==> known && !RecordOf(w, id).status.Terminal())
            && (answer == Refused(NotFound) <==> !known)
            && (answer == MissingEnvelope(id) <==> known && RecordOf(w, id).status.Terminal() && !stored)
            && (answer == StatusMismatch(id) <==> known && RecordOf(w, id).status.Terminal() && stored
                                                  && w.results.envelopes[id].terminalStatus != RecordOf(w, id).status)
  {
    hide Stores.Execute, Transport, Strip;
    var id := Strip(jobId);
    ReadAnswers(w, id, CallOf(ResultRead(id)), net(0), pick);
    Unroll(w, ResultRead(id), net, 0, pick);
    if id in w.table.records && RecordOf(w, id).status.Terminal() {
      var pc := ResultGet(id, RecordOf(w, id).status);
      GetAnswers(w, id, CallOf(pc), net(1), pick);
      Unroll(w, pc, net, 1, pick);
    }
  }

  // ---------- CancelJob ----------

  /** The envelope a queued cancellation stores. */
  predicate IsCancellation(envelope: Envelope, reason: string) {
    && envelope.terminalStatus == Canceled && envelope.runtimeMs == 0
    && envelope.outputSummary == (if Strip(reason) == "" then "canceled_by_user" else Strip(reason))
    && envelope.outputBytes == [] && envelope.checksum == ""
  }

  lemma CancelEnvelopeIsCancellation(reason: string)
    ensures IsCancellation(CancelEnvelope(Strip(reason)), reason)
  {
    StripTwice(reason);
  }

  /** The rest of a cancellation that can only ask: the flag is set, unless the job is terminal by now. */
  lemma FlagIsSet(w: World, id: JobId, why: Fallback, net: Network, k: nat, pick: IdPicker)
    requires net(k).Delivered?
    ensures RunAlone(w, CancelFlag(id, why), net, k, pick) ==
            if id !in w.table.records then (w, Refused(NotFound))
            else if RecordOf(w, id).status.Terminal() then (w, CancelAccepted(id, RecordOf(w, id).status, true))
            else (WithRecord(w, id, RecordOf(w, id).(cancelRequested := true)), CancelAccepted(id, RecordOf(w, id).status, false))
  {
    Unroll(w, CancelFlag(id, why), net, k, pick);
  }

  lemma CancelCasReplies(w: World, id: JobId, reason: string, d: Delivery, pick: IdPicker)
    requires d.Delivered?
    ensures Transport(w, CallOf(CancelCas(id, reason)), d, pick) ==
            if id !in w.table.records then (w, Failure(NotFound))
            else if RecordOf(w, id).status.Queued?
            then (WithRecord(w, id, RecordOf(w, id).(status := Canceled, finishedAtMs := d.now, cancelRequested := true)),
                  Transitioned(true, Canceled))
            else (w, Transitioned(false, RecordOf(w, id).status))
  {}

  /** The rest of a queued cancellation from its CAS on: a QUEUED job becomes CANCELED, a terminal one is
      reported as it is, and one that is running by now is asked to stop. */
  lemma CasCancels(w: World, id: JobId, reason: string, net: Network, k: nat, pick: IdPicker)
    requires net(k).Delivered? && net(k + 1).Delivered?
    ensures RunAlone(w, CancelCas(id, reason), net, k, pick) ==
            if id !in w.table.records then (w, Refused(NotFound))
            else if RecordOf(w, id).status.Queued?
            then (WithRecord(w, id, RecordOf(w, id).(status := Canceled, finishedAtMs := net(k).now, cancelRequested := true)),
                  CancelAccepted(id, Canceled, false))
            else if RecordOf(w, id).status.Terminal() then (w, CancelAccepted(id, RecordOf(w, id).status, true))
            else (WithRecord(w, id, RecordOf(w, id).(cancelRequested := true)), CancelAccepted(id, RecordOf(w, id).status, false))
  {
    hide Stores.Execute, Transport;
    CancelCasReplies(w, id, reason, net(k), pick);
    Unroll(w, CancelCas(id, reason), net, k, pick);
    FlagIsSet(w, id, LostCas, net, k + 1, pick);
  }

  lemma CancelStoreReplies(w: World, id: JobId, reason: string, d: Delivery, pick: IdPicker)
    requires d.Delivered?
    ensures Transport(w, CallOf(CancelStore(id, reason)), d, pick) ==
            if id in w.results.envelopes then (w, Stored(false, true, w.results.envelopes[id].terminalStatus))
            else (WithStored(w, id, CancelEnvelope(reason)), Stored(true, false, Canceled))
  {}

  lemma CancelReadReplies(w: World, id: JobId, reason: string, net: Network, pick: IdPicker)
    requires net(0).Delivered?
    ensures RunAlone(w, CancelRead(id, reason), net, 0, pick) ==
            if id !in w.table.records then (w, Refused(NotFound))
            else if RecordOf(w, id).status.Terminal() then (w, CancelAccepted(id, RecordOf(w, id).status, true))
            else if RecordOf(w, id).status.Queued? then RunAlone(w, CancelRemove(id, reason), net, 1, pick)
            else RunAlone(w, CancelFlag(id, NotQueued), net, 1, pick)
  {
    hide Stores.Execute, Transport;
    ReadAnswers(w, id, CallOf(CancelRead(id, reason)), net(0), pick);
    Unroll(w, CancelRead(id, reason), net, 0, pick);
  }

  lemma RemoveReplies(w: World, id: JobId, reason: string, d: Delivery, pick: IdPicker)
    requires d.Delivered?
    ensures Transport(w, CallOf(CancelRemove(id, reason)), d, pick) == (w.(queue := Without(w.queue, id)), Removed(id in w.queue))
  {}

  lemma CancelRemoveReplies(w: World, id: JobId, reason: string, net: Network, k: nat, pick: IdPicker)
    requires net(k).Delivered?
    ensures RunAlone(w, CancelRemove(id, reason), net, k, pick) ==
            if id in w.queue then RunAlone(w.(queue := Without(w.queue, id)), CancelStore(id, reason), net, k + 1, pick)
            else RunAlone(w, CancelFlag(id, NotRemoved), net, k + 1, pick)
  {
    hide Stores.Execute, Transport, RunAlone, Without;
    RemoveReplies(w, id, reason, net(k), pick);
    Unroll(w, CancelRemove(id, reason), net, k, pick);
    if id !in w.queue {
      WithoutAbsent(w.queue, id);
    }
  }

  lemma CancelBegins(w: World, jobId: string, reason: string, net: Network, pick: IdPicker)
    requires Strip(jobId) != ""
    ensures Handle(w, Request.CancelJob(jobId, reason), net, pick) == RunAlone(w, CancelRead(Strip(jobId), Strip(reason)), net, 0, pick)
  {
    hide Strip;
  }

  /** CancelJob of an unknown job is refused, and of a terminal one answered with its status. */
  lemma CancelOfFinishedJob(w: World, jobId: string, reason: string, net: Network, pick: IdPicker)
    requires Smooth(net) && Strip(jobId) != ""
    requires Strip(jobId) in w.table.records ==> RecordOf(w, Strip(jobId)).status.Terminal()
    ensures var id := Strip(jobId);
            Handle(w, Request.CancelJob(jobId, reason), net, pick) ==
              (w, if id in w.table.records then CancelAccepted(id, RecordOf(w, id).status, true) else Refused(NotFound))
  {
    hide Strip;
    CancelBegins(w, jobId, reason, net, pick);
    CancelReadReplies(w, Strip(jobId), Strip(reason), net, pick);
  }

  /** CancelJob of a running job, or of one that has just left the queue, sets the flag and nothing else. */
  lemma CancelOfBusyJob(w: World, jobId: string, reason: string, net: Network, pick: IdPicker)
    requires Smooth(net) && Strip(jobId) in w.table.records && !RecordOf(w, Strip(jobId)).status.Terminal()
    requires Strip(jobId) != "" && (RecordOf(w, Strip(jobId)).status.Queued? ==> Strip(jobId) !in w.queue)
    ensures var id := Strip(jobId);
            Handle(w, Request.CancelJob(jobId, reason), net, pick) ==
              (WithRecord(w, id, RecordOf(w, id).(cancelRequested := true)), CancelAccepted(id, RecordOf(w, id).status, false))
  {
    hide Strip, RunAlone;
    var id, why := Strip(jobId), Strip(reason);
    CancelBegins(w, jobId, reason, net, pick);
    CancelReadReplies(w, id, why, net, pick);
    CancelRemoveReplies(w, id, why, net, 1, pick);
    FlagIsSet(w, id, NotQueued, net, 1, pick);
    FlagIsSet(w, id, NotRemoved, net, 2, pick);
  }

  /** CancelJob of a queued job takes it out of the queue, stores the cancellation unless an envelope is
      there already, and makes the job CANCELED. */
  lemma CancelOfQueuedJob(w: World, jobId: string, reason: string, net: Network, pick: IdPicker)
    requires Smooth(net) && Strip(jobId) != "" && IsQueued(w, Strip(jobId)) && Strip(jobId) in w.queue
    requires Strip(jobId) in w.results.envelopes ==> w.results.envelopes[Strip(jobId)].terminalStatus.Terminal()
    ensures var id := Strip(jobId);
            var (w', answer) := Handle(w, Request.CancelJob(jobId, reason), net, pick);
            && answer == CancelAccepted(id, Canceled, false)
            && w'.queue == Without(w.queue, id)
            && w'.table == w.table.(records := w.table.records[id :=
                 RecordOf(w, id).(status := Canceled, finishedAtMs := net(3).now, cancelRequested := true)])
            && id in w'.results.envelopes
            && (if id in w.results.envelopes then w'.results == w.results
                else IsCancellation(w'.results.envelopes[id], reason)
                     && w'.results == w.results.(envelopes := w.results.envelopes[id := w'.results.envelopes[id]]))
  {
    hide Strip, RunAlone, Stores.Execute, Transport, Handle, CancelEnvelope, IsCancellation, Without;
    var id, why := Strip(jobId), Strip(reason);
    CancelBegins(w, jobId, reason, net, pick);
    CancelReadReplies(w, id, why, net, pick);
    CancelRemoveReplies(w, id, why, net, 1, pick);
    var w1 := w.(queue := Without(w.queue, id));
    CancelStoreReplies(w1, id, why, net(2), pick);
    Unroll(w1, CancelStore(id, why), net, 2, pick);
    var w2 := if id in w.results.envelopes then w1 else WithStored(w1, id, CancelEnvelope(why));
    CasCancels(w2, id, why, net, 3, pick);
    CancelEnvelopeIsCancellation(reason);
  }

  // ---------- SubmitJob ----------

  /** The record of a new job. */
  predicate IsNewRecord(rec: JobRecord, id: JobId, spec: JobSpec, now: int) {
    && rec.jobId == id && rec.status == Queued && rec.jobType == spec.jobType
    && rec.workDurationMs == spec.workDurationMs && rec.payloadSizeBytes == spec.payloadSizeBytes
    && rec.labels == AsMap(spec.labels)
    && rec.createdAtMs == now && rec.startedAtMs == 0 && rec.finishedAtMs == 0
    && !rec.cancelRequested && rec.failureReason == ""
  }

  predicate UnusedKey(w: World, key: string) { Strip(key) == "" || Strip(key) !in w.table.dedup.entries }

  lemma CreateReplies(w: World, spec: JobSpec, key: string, d: Delivery, pick: IdPicker)
    requires d.Delivered? && Strip(spec.jobType) != "" && UnusedKey(w, key)
    ensures var (w1, reply) := Transport(w, CallOf(SubmitCreate(spec, key)), d, pick);
            match pick(d.uuids)
            case None => w1 == w && reply == Failure(Internal)
            case Some(id) =>
              && reply == Created(id, Queued) && w1.queue == w.queue && w1.results == w.results
              && id in w1.table.records && IsNewRecord(w1.table.records[id], id, spec, d.now)
              && w1.table.records == w.table.records[id := w1.table.records[id]]
              && (Strip(key) == "" ==> w1.table.dedup == w.table.dedup)
  {
    hide Strip, FingerprintOf, AsMap, Remember;
  }

  lemma EnqueueReplies(w: World, id: JobId, d: Delivery, pick: IdPicker)
    requires d.Delivered?
    ensures Transport(w, CallOf(SubmitEnqueue(id)), d, pick) == (w.(queue := if id in w.queue then w.queue else w.queue + [id]), Enqueued(true))
  {}

  /** SubmitJob under an unused or blank key makes one record, all of whose fields come from the request
      and the clock, puts the job at the end of the queue, and answers with it. When no identifier can be
      drawn it is refused and nothing changes. */
  lemma SubmitMakesTheJob(w: World, spec: JobSpec, key: string, net: Network, pick: IdPicker)
    requires net(0).Delivered? && net(1).Delivered? && Strip(spec.jobType) != "" && UnusedKey(w, key)
    requires pick(net(0).uuids) != Some("")
    ensures var (w', answer) := Handle(w, Request.SubmitJob(spec, key), net, pick);
            match pick(net(0).uuids)
            case None => w' == w && answer == Refused(Internal)
            case Some(id) =>
              && answer == Submitted(id, Queued)
              && w'.queue == (if id in w.queue then w.queue else w.queue + [id])
              && id in w'.table.records && IsNewRecord(w'.table.records[id], id, spec, net(0).now)
              && w'.table.records == w.table.records[id := w'.table.records[id]]
              && w'.results == w.results
  {
    hide Strip, Stores.Execute, Transport, IsNewRecord, UnusedKey;
    CreateReplies(w, spec, key, net(0), pick);
    Unroll(w, SubmitCreate(spec, key), net, 0, pick);
    var w1 := Transport(w, CallOf(SubmitCreate(spec, key)), net(0), pick).0;
    if pick(net(0).uuids).Some? {
      var id := pick(net(0).uuids).value;
      EnqueueReplies(w1, id, net(1), pick);
      Unroll(w1, SubmitEnqueue(id), net, 1, pick);
    }
  }

  // ---------- FetchWork ----------

  function Dispatched(w: World, id: JobId, t: int): World
    requires id in w.table.records
  {
    w.(table := w.table.(records := w.table.records[id := Advance(w.table.records[id], Running, "dispatch", t)]))
  }

  function Tail(w: World): World
    requires w.queue != []
  {
    w.(queue := w.queue[1..])
  }

  lemma HeadDequeued(w: World, worker: string, d: Delivery, pick: IdPicker)
    requires w.queue != [] && d.Delivered?
    ensures Transport(w, CallOf(FetchDequeue(worker)), d, pick) == (Tail(w), Dequeued(true, w.queue[0]))
  {}

  lemma CasDispatches(w: World, id: JobId, worker: string, d: Delivery, pick: IdPicker)
    requires IsQueued(w, id) && d.Delivered?
    ensures Transport(w, CallOf(FetchCas(id, worker)), d, pick) == (Dispatched(w, id, d.now), Transitioned(true, Running))
  {}

  lemma CasDeclines(w: World, id: JobId, worker: string, d: Delivery, pick: IdPicker)
    requires !IsQueued(w, id) && d.Delivered?
    ensures var (w', reply) := Transport(w, CallOf(FetchCas(id, worker)), d, pick);
            w' == w && (if id in w.table.records then reply.Transitioned? && !reply.applied else reply == Failure(NotFound))
  {}

  lemma FetchDequeues(w: World, worker: string, net: Network, pick: IdPicker)
    requires w.queue != [] && Canonical(worker) && Canonical(w.queue[0]) && Smooth(net)
    ensures Handle(w, Request.FetchWork(worker, true), net, pick) == RunAlone(Tail(w), FetchCas(w.queue[0], worker), net, 1, pick)
  {
    hide Stores.Execute, Transport, Strip;
    assert Begin(Request.FetchWork(worker, true)) == FetchDequeue(worker);
    HeadDequeued(w, worker, net(0), pick);
    Unroll(w, FetchDequeue(worker), net, 0, pick);
  }

  lemma FetchDispatches(w: World, id: JobId, worker: string, net: Network, pick: IdPicker)
    requires IsQueued(w, id) && Smooth(net)
    ensures RunAlone(w, FetchCas(id, worker), net, 1, pick)
         == (Dispatched(w, id, net(1).now), Assigned(worker, id, w.table.records[id].jobType))
  {
    hide Stores.Execute, Transport;
    var w' := Dispatched(w, id, net(1).now);
    CasDispatches(w, id, worker, net(1), pick);
    Unroll(w, FetchCas(id, worker), net, 1, pick);
    ReadAnswers(w', id, CallOf(FetchRead(id, worker)), net(2), pick);
    Unroll(w', FetchRead(id, worker), net, 2, pick);
  }

  lemma FetchSkips(w: World, id: JobId, worker: string, net: Network, pick: IdPicker)
    requires !IsQueued(w, id) && Smooth(net)
    ensures RunAlone(w, FetchCas(id, worker), net, 1, pick) == (w, if id in w.table.records then Idle else Refused(Unavailable))
  {
    hide Stores.Execute, Transport;
    CasDeclines(w, id, worker, net(1), pick);
    Unroll(w, FetchCas(id, worker), net, 1, pick);
    if !Transport(w, CallOf(FetchCas(id, worker)), net(1), pick).1.Failure? {
      ReadAnswers(w, id, CallOf(FetchRecheck(id)), net(2), pick);
      Unroll(w, FetchRecheck(id), net, 2, pick);
    }
  }

  /** FetchWork of a worker that is not live, or with nothing queued, changes nothing and assigns nothing. */
  lemma FetchIdles(w: World, worker: string, live: bool, net: Network, pick: IdPicker)
    requires Smooth(net) && Strip(worker) != "" && (live ==> w.queue == [])
    ensures Handle(w, Request.FetchWork(worker, live), net, pick) == (w, Idle)
  {
    hide Strip;
    if live {
      Unroll(w, FetchDequeue(Strip(worker)), net, 0, pick);
    }
  }

  /** FetchWork of a live worker takes the head of the queue. A job still QUEUED becomes RUNNING, its start
      time is set if it had none, and it is assigned; a stale entry is dropped and nothing is assigned. */
  lemma FetchTakesTheHead(w: World, worker: string, net: Network, pick: IdPicker)
    requires Smooth(net) && Canonical(worker) && w.queue != [] && Canonical(w.queue[0])
    ensures var id := w.queue[0];
            var (w', answer) := Handle(w, Request.FetchWork(worker, true), net, pick);
            && w'.queue == w.queue[1..] && w'.results == w.results
            && (if IsQueued(w, id)
                then answer == Assigned(worker, id, RecordOf(w, id).jobType)
                     && w'.table == w.table.(records := w.table.records[id :=
                          RecordOf(w, id).(status := Running,
                                           startedAtMs := if RecordOf(w, id).startedAtMs == 0 then net(1).now else RecordOf(w, id).startedAtMs)])
                else answer == (if id in w.table.records then Idle else Refused(Unavailable)) && w'.table == w.table)
  {
    hide Handle, RunAlone, Canonical;
    FetchDequeues(w, worker, net, pick);
    if IsQueued(w, w.queue[0]) {
      FetchDispatches(Tail(w), w.queue[0], worker, net, pick);
    } else {
      FetchSkips(Tail(w), w.queue[0], worker, net, pick);
    }
  }

  /** When only the last call of a dispatch fails the job is RUNNING all the same, and nobody has it. */
  lemma FailedReadStrandsTheJob(w: World, id: JobId, worker: string, net: Network, pick: IdPicker)
    requires IsQueued(w, id) && net(1).Delivered? && !net(2).Delivered?
    ensures var (w', answer) := RunAlone(w, FetchCas(id, worker), net, 1, pick);
            && answer == Refused(Unavailable)
            && id in w'.table.records && w'.table.records[id].status.Running? && w'.queue == w.queue && w'.results == w.results
  {
    hide Stores.Execute, Transport;
    var w1 := Dispatched(w, id, net(1).now);
    CasDispatches(w, id, worker, net(1), pick);
    Unroll(w, FetchCas(id, worker), net, 1, pick);
    ReadErrs(w1, id, worker, net(2), pick);
    Unroll(w1, FetchRead(id, worker), net, 2, pick);
  }

  lemma ReadErrs(w: World, id: JobId, worker: string, d: Delivery, pick: IdPicker)
    requires !d.Delivered?
    ensures Transport(w, CallOf(FetchRead(id, worker)), d, pick) == (w, Failure(ErrorOf(d)))
  {}

  /** The rescue, from any state it could find: a job that is QUEUED is put back, any other left alone. */
  lemma RescuePutsBack(w: World, id: JobId, net: Network, k: nat, pick: IdPicker)
    requires net(k).Delivered? && net(k + 1).Delivered?
    ensures RunAlone(w, FetchRecheck(id), net, k, pick) ==
            (if IsQueued(w, id) && id !in w.queue then w.(queue := w.queue + [id]) else w, Idle)
  {
    hide Stores.Execute, Transport;
    ReadAnswers(w, id, CallOf(FetchRecheck(id)), net(k), pick);
    Unroll(w, FetchRecheck(id), net, k, pick);
    if IsQueued(w, id) {
      RescueReplies(w, id, net(k + 1), pick);
      Unroll(w, FetchRescue(id), net, k + 1, pick);
    }
  }

  lemma RescueReplies(w: World, id: JobId, d: Delivery, pick: IdPicker)
    requires d.Delivered?
    ensures Transport(w, CallOf(FetchRescue(id)), d, pick).0 == if id in w.queue then w else w.(queue := w.queue + [id])
  {}

  // ---------- ReportWorkOutcome ----------

  /** The envelope of a report. */
  predicate IsEnvelopeOf(envelope: Envelope, report: Report) {
    && envelope.terminalStatus == (if report.outcome.Succeeded? then Done else if report.outcome.OutcomeFailed? then Failed else Canceled)
    && envelope.runtimeMs == report.runtimeMs && envelope.outputSummary == report.outputSummary
    && envelope.outputBytes == report.outputBytes && envelope.checksum == report.checksum
  }

  /** A report for a running job ends it: the status is the outcome's, the reason that of a failure only,
      and the report's envelope is stored unless there is one already. */
  lemma ReportEndsTheJob(w: World, report: Report, net: Network, pick: IdPicker)
    requires Deliverable(w, report) && net(0).Delivered? && net(1).Delivered?
    ensures var id, rec := report.jobId, RecordOf(w, report.jobId);
            var (w', answer) := Handle(w, Request.ReportWorkOutcome(report), net, pick);
            && answer == Reported(true) && w'.queue == w.queue
            && w'.table == w.table.(records := w.table.records[id :=
                 rec.(status := if report.outcome.Succeeded? then Done else if report.outcome.OutcomeFailed? then Failed else Canceled,
                      finishedAtMs := net(1).now,
                      failureReason := if report.outcome.OutcomeFailed? then report.failureReason else rec.failureReason,
                      cancelRequested := rec.cancelRequested || report.outcome.OutcomeCanceled?)])
            && id in w'.results.envelopes
            && (if id in w.results.envelopes then w'.results == w.results
                else IsEnvelopeOf(w'.results.envelopes[id], report)
                     && w'.results == w.results.(envelopes := w.results.envelopes[id := w'.results.envelopes[id]]))
  {
    hide Handle, Canonical;
    ReportConcludes(w, report, net, pick);
  }

  lemma ReportStoreReplies(w: World, report: Report, d: Delivery, pick: IdPicker)
    requires d.Delivered? && !report.outcome.OutcomeUnspecified?
    ensures var (w1, reply) := Transport(w, CallOf(ReportStore(report)), d, pick);
            && w1.table == w.table && w1.queue == w.queue
            && (if |report.outputBytes| > w.results.maxOutputBytes then w1 == w && reply.Failure? else reply.Stored?)
  {}

  lemma ReportCasDeclines(w: World, report: Report, d: Delivery, pick: IdPicker)
    requires d.Delivered? && !report.outcome.OutcomeUnspecified?
    requires report.jobId in w.table.records ==> !RecordOf(w, report.jobId).status.Running?
    ensures Transport(w, CallOf(ReportCas(report)), d, pick) ==
            (w, if report.jobId in w.table.records then Transitioned(false, RecordOf(w, report.jobId).status) else Failure(NotFound))
  {}

  /** A report for a job that is not running changes no record. It is accepted if and only if the job is
      terminal, that is, if another ending has won. Outputs over the cap are refused, and nothing stored. */
  lemma OtherReportsChangeNoRecord(w: World, report: Report, net: Network, pick: IdPicker)
    requires net(0).Delivered? && net(1).Delivered?
    requires Canonical(report.jobId) && Canonical(report.workerId) && !report.outcome.OutcomeUnspecified?
    requires |report.outputBytes| <= w.results.maxOutputBytes ==>
               (report.jobId in w.table.records ==> !RecordOf(w, report.jobId).status.Running?)
    ensures var (w', answer) := Handle(w, Request.ReportWorkOutcome(report), net, pick);
            && w'.table == w.table && w'.queue == w.queue
            && (if |report.outputBytes| > w.results.maxOutputBytes then w' == w && answer == Refused(Unavailable)
                else if report.jobId !in w.table.records then answer == Refused(Unavailable)
                else answer == Reported(RecordOf(w, report.jobId).status.Terminal()))
  {
    hide Stores.Execute, Transport, Strip;
    assert Begin(Request.ReportWorkOutcome(report)) == ReportStore(report);
    ReportStoreReplies(w, report, net(0), pick);
    Unroll(w, ReportStore(report), net, 0, pick);
    var w1 := Transport(w, CallOf(ReportStore(report)), net(0), pick).0;
    if |report.outputBytes| <= w.results.maxOutputBytes {
      ReportCasDeclines(w1, report, net(1), pick);
      Unroll(w1, ReportCas(report), net, 1, pick);
    }
  }
}
