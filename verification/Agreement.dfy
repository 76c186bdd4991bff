/** Status and envelope agree, job by job, when two things hold for that job: no resubmission puts it
    back in the queue while it is QUEUED, and its reports are the worker's own. The right to take a
    job out of QUEUED is a token; the proof follows the token's one holder. */
module Agreement {
  import opened Types
  import opened Messages
  import opened JobTable
  import opened OrderedKeys
  import opened Stores
  import opened Handlers
  import opened Protocol
  import opened Unrestricted
  import opened Answers

  // ---------- The regime ----------

  /** What a worker reports for an assignment of the job in question: any function of what FetchWork
      told it. */
  type Plan = (string, string) -> Report

  /** The create call being delivered answers with `j`, which is not new and still QUEUED: its
      handler is about to enqueue the job again. */
  predicate Requeues(s: System, a: Action, j: JobId)
    requires Enabled(s, a)
  {
    && a.Deliver? && s.ops[a.op].SubmitCreate? && j in s.issued
    && Execute(s.stores, CallOf(s.ops[a.op]), a.env).1 == Created(j, Queued)
  }

  /** A report about `j` is the one its assignment determines. */
  ghost predicate ByWorker(plan: Plan, s: System, a: Action, j: JobId) {
    a.Start? && a.request.ReportWorkOutcome? && Strip(a.request.report.jobId) == j ==>
      exists op, worker, jobType ::
        op in s.ops && s.ops[op] == Finished(Assigned(worker, j, jobType))
        && a.request.report == plan(worker, jobType)
  }

  ghost predicate NeverRequeued(s: System, run: seq<Action>, j: JobId)
    requires Legal(s, run)
  {
    run == [] || (
      var init := run[..|run| - 1];
      NeverRequeued(s, init, j) && !Requeues(After(s, init), run[|run| - 1], j))
  }

  ghost predicate WorkerOnly(plan: Plan, s: System, run: seq<Action>, j: JobId)
    requires Legal(s, run)
  {
    run == [] || (
      var init := run[..|run| - 1];
      WorkerOnly(plan, s, init, j) && ByWorker(plan, After(s, init), run[|run| - 1], j))
  }

  ghost predicate Regular(plan: Plan, s: System, run: seq<Action>, j: JobId)
    requires Legal(s, run)
  {
    NeverRequeued(s, run, j) && WorkerOnly(plan, s, run, j)
  }

  // ---------- One job's view of the system ----------

  datatype View = View(issued: bool, status: Option<JobStatus>, queued: bool, envelope: Option<Envelope>)

  function ViewOf(s: System, j: JobId): View {
    View(j in s.issued,
         if HasRecord(s, j) then Some(RecordOf(s, j).status) else None,
         j in s.stores.queue,
         if HasEnvelope(s, j) then Some(s.stores.results.envelopes[j]) else None)
  }

  /** What a delivered call did to the job. */
  datatype Effect =
    | Nothing | Born | Burnt | Joined | Taken | Gone
    | Moved(to: JobStatus)
    | Kept(envelope: Envelope)

  function Affect(v: View, e: Effect): View {
    match e
    case Nothing => v
    case Born => v.(issued := true, status := Some(Queued))
    case Burnt => v.(issued := true)
    case Joined => v.(queued := true)
    case Taken => v.(queued := false)
    case Gone => v.(status := None)
    case Moved(to) => v.(status := Some(to))
    case Kept(envelope) => v.(envelope := Some(envelope))
  }

  function EffectOf(w: World, call: Call, env: Env, j: JobId): Effect {
    if env.newId == Some(j) then
      if call.CreateJob? && Execute(w, call, env).1 == Created(j, Queued) then Born else Burnt
    else match call
      case EnqueueJob(id) => if id == j then Joined else Nothing
      case DequeueJob(_) => if w.queue != [] && w.queue[0] == j then Taken else Nothing
      case RemoveJobIfPresent(id) => if id == j && j in w.queue then Taken else Nothing
      case DeleteJobIfStatus(id, expected) =>
        if id == j && j in w.table.records && w.table.records[j].status == expected then Gone else Nothing
      case TransitionJobStatus(id, from, to, _) =>
        if id == j && j in w.table.records && w.table.records[j].status == from then Moved(to) else Nothing
      case StoreResult(id, envelope) =>
        if id == j && j !in w.results.envelopes && StoreResultOp(w.results, j, envelope).1.Stored? then Kept(envelope) else Nothing
      case _ => Nothing
  }

  ghost predicate Orderly(s: System) {
    && SoundInv(s) && IssuedInv(s)
    && Distinct(s.stores.queue)
    && (forall id | id in s.stores.table.records :: s.stores.table.records[id].jobId == id)
  }

  lemma EnqueueMembers(q: seq<JobId>, id: JobId)
    requires Distinct(q)
    ensures Distinct(Enqueue(q, id)) && forall x :: x in Enqueue(q, id) <==> x in q || x == id
  {
    if id !in q { AppendDistinct(q, id); }
  }

  lemma DequeueMembers(q: seq<JobId>)
    requires Distinct(q) && q != []
    ensures Distinct(q[1..]) && forall x :: x in q[1..] <==> x in q && x != q[0]
  {
    DropFirstDistinct(q);
    assert q == [q[0]] + q[1..];
  }

  lemma RemoveMembers(q: seq<JobId>, id: JobId)
    requires Distinct(q)
    ensures Distinct(Without(q, id)) && forall x :: x in Without(q, id) <==> x in q && x != id
  {
    WithoutDistinct(q, id);
    WithoutMembers(q, id);
  }

  lemma QueueAfter(w: World, call: Call, env: Env, j: JobId)
    requires Distinct(w.queue)
    ensures var q' := Execute(w, call, env).0.queue;
            && Distinct(q')
            && (j in q' <==> if call == EnqueueJob(j) then true
                             else j in w.queue && call != RemoveJobIfPresent(j) && !(call.DequeueJob? && w.queue[0] == j))
  {
    match call {
      case EnqueueJob(id) => EnqueueMembers(w.queue, id);
      case DequeueJob(_) => if w.queue != [] { DequeueMembers(w.queue); }
      case RemoveJobIfPresent(id) => RemoveMembers(w.queue, id);
      case _ =>
    }
  }

  lemma StatusAfter(w: World, call: Call, env: Env, j: JobId)
    requires Ordinary(call) && (env.newId.Some? ==> call.CreateJob? && env.newId.value !in w.table.records)
    requires forall id | id in w.table.records :: w.table.records[id].jobId == id
    ensures var w' := Execute(w, call, env).0;
            var e := EffectOf(w, call, env, j);
            && (e.Born? ==> j in w'.table.records && w'.table.records[j].status.Queued?)
            && (e.Gone? ==> j !in w'.table.records)
            && (e.Moved? ==> j in w'.table.records && w'.table.records[j].status == e.to)
            && (!e.Born? && !e.Gone? && !e.Moved? ==>
                  (j in w'.table.records <==> j in w.table.records)
                  && (j in w.table.records ==> w'.table.records[j].status == w.table.records[j].status))
  {}

  lemma EnvelopeAfter(w: World, call: Call, env: Env, j: JobId)
    requires env.newId.Some? ==> call.CreateJob?
    ensures var w' := Execute(w, call, env).0;
            var e := EffectOf(w, call, env, j);
            && (e.Kept? ==> j in w'.results.envelopes && w'.results.envelopes[j] == e.envelope)
            && (!e.Kept? ==> (j in w'.results.envelopes <==> j in w.results.envelopes)
                             && (j in w.results.envelopes ==> w'.results.envelopes[j] == w.results.envelopes[j]))
  {}

  lemma ViewAfter(s: System, a: Action, j: JobId)
    requires Orderly(s) && Enabled(s, a) && a.Deliver?
    ensures ViewOf(Apply(s, a), j) == Affect(ViewOf(s, j), EffectOf(s.stores, CallOf(s.ops[a.op]), a.env, j))
  {
    hide Resume, CallOf, Ordinary, Sound;
    var call := CallOf(s.ops[a.op]);
    CallsAreOrdinary(s.ops[a.op]);
    QueueAfter(s.stores, call, a.env, j);
    StatusAfter(s.stores, call, a.env, j);
    EnvelopeAfter(s.stores, call, a.env, j);
  }

  // ---------- The token ----------

  datatype Token =
    | Unborn
    | AtSubmit(op: OpId)
    | InFlight(op: OpId)      // a lost enqueue that has not landed
    | InQueue
    | WithFetch(op: OpId)
    | WithCancel(op: OpId)
    | Spent

  function HolderPc(s: System, t: Token): Option<Pc> {
    if (t.AtSubmit? || t.InFlight? || t.WithFetch? || t.WithCancel?) && t.op in s.ops then Some(s.ops[t.op]) else None
  }

  predicate FetchHolds(pc: Pc, j: JobId) {
    match pc
    case FetchCas(id, _) => id == j
    case Lost(TransitionJobStatus(id, Queued, Running, _)) => id == j
    case _ => false
  }

  predicate CancelHolds(pc: Pc, j: JobId) {
    match pc
    case CancelStore(id, _) => id == j
    case CancelCas(id, _) => id == j
    case Lost(TransitionJobStatus(id, Queued, Canceled, _)) => id == j
    case _ => false
  }

  /** The envelope a dispatched job is bound to get. */
  function Destined(plan: Plan, j: JobId, t: Token, holder: Option<Pc>): Option<Envelope> {
    if t.WithFetch? && holder.Some? then Bound(plan, j, holder.value) else None
  }

  function Bound(plan: Plan, j: JobId, pc: Pc): Option<Envelope> {
    match pc
    case Finished(Assigned(worker, id, jobType)) => if id == j then Some(ReportEnvelope(plan(worker, jobType))) else None
    case _ => None
  }

  /** What an operation's position says about the token. */
  predicate PcOk(op: OpId, pc: Pc, j: JobId, t: Token, destined: Option<Envelope>) {
    && (FetchHolds(pc, j) ==> t == WithFetch(op))
    && (CancelHolds(pc, j) ==> t == WithCancel(op))
    && match pc
       case SubmitEnqueue(id) => id == j ==> t == AtSubmit(op)
       case Lost(EnqueueJob(id)) => id == j ==> t == InFlight(op)
       case Lost(StoreResult(id, envelope)) =>
         id == j ==> (t == WithCancel(op) && envelope.terminalStatus.Canceled?) || (t.WithFetch? && destined == Some(envelope))
       case Lost(TransitionJobStatus(id, Running, to, _)) =>
         id == j ==> t.WithFetch? && destined.Some? && destined.value.terminalStatus == to
       case FetchRecheck(id) => id != j
       case FetchRescue(id) => id != j
       case FetchRead(id, _) => id == j ==> t == WithFetch(op)
       case Finished(Assigned(_, id, _)) => id == j ==> t == WithFetch(op)
       case ReportStore(r) => r.jobId == j ==> t.WithFetch? && destined == Some(ReportEnvelope(r))
       case ReportCas(r) => r.jobId == j ==> t.WithFetch? && destined == Some(ReportEnvelope(r))
       case CancelFlag(id, why) => id == j ==> !why.LostCas?
       case _ => true
  }

  /** What the token says about the status. */
  predicate StatusOk(status: JobStatus, j: JobId, t: Token, holder: Option<Pc>, destined: Option<Envelope>) {
    match t
    case Unborn => false
    case WithFetch(_) =>
      if holder.Some? && FetchHolds(holder.value, j) then status.Queued?
      else status.Running? || (status.Terminal() && destined.Some? && destined.value.terminalStatus == status)
    case WithCancel(_) =>
      status.Queued? || (status.Canceled? && !(holder.Some? && CancelHolds(holder.value, j)))
    case _ => status.Queued?
  }

  predicate ViewOk(v: View, j: JobId, t: Token, holder: Option<Pc>, destined: Option<Envelope>) {
    && (t.Unborn? <==> !v.issued)
    && (t.AtSubmit? || t.InFlight? || t.WithFetch? || t.WithCancel? ==> holder.Some?)
    && (v.queued ==> t.InQueue?)
    && (v.status.Some? ==> StatusOk(v.status.value, j, t, holder, destined))
    && (v.envelope.Some? ==>
          (t.WithCancel? && v.envelope.value.terminalStatus.Canceled?) || (t.WithFetch? && destined == v.envelope))
  }

  ghost predicate TokenInv(plan: Plan, s: System, j: JobId, t: Token) {
    var holder := HolderPc(s, t);
    var destined := Destined(plan, j, t, holder);
    && ViewOk(ViewOf(s, j), j, t, holder, destined)
    && (forall op | op in s.ops :: PcOk(op, s.ops[op], j, t, destined))
  }

  // ---------- What a handler does next, given what its call did ----------

  /** The positions that say something about the token. */
  predicate Concerns(pc: Pc, j: JobId) {
    match pc
    case SubmitEnqueue(id) => id == j
    case CancelStore(id, _) => id == j
    case CancelCas(id, _) => id == j
    case CancelFlag(id, why) => id == j && why.LostCas?
    case FetchCas(id, _) => id == j
    case FetchRecheck(id) => id == j
    case FetchRescue(id) => id == j
    case FetchRead(id, _) => id == j
    case ReportStore(r) => r.jobId == j
    case ReportCas(r) => r.jobId == j
    case Lost(EnqueueJob(id)) => id == j
    case Lost(StoreResult(id, _)) => id == j
    case Lost(TransitionJobStatus(id, _, _, _)) => id == j
    case Finished(Assigned(_, id, _)) => id == j
    case _ => false
  }

  predicate Follows(pc: Pc, e: Effect, pc': Pc, v: View, j: JobId) {
    if !Concerns(pc, j) then
      match e
      case Nothing => !Concerns(pc', j)
      case Burnt => !v.issued && !Concerns(pc', j)
      case Born => !v.issued && (pc' == SubmitEnqueue(j) || !Concerns(pc', j))
      case Taken =>
        v.queued && ((pc'.FetchCas? && pc'.jobId == j) || (pc'.CancelStore? && pc'.jobId == j) || !Concerns(pc', j))
      case Gone => !Concerns(pc', j)
      case _ => false
    else
      match pc
      case SubmitEnqueue(_) => e.Joined? && !Concerns(pc', j)
      case Lost(EnqueueJob(_)) => e.Joined? && !Concerns(pc', j)
      case FetchCas(_, worker) =>
        if v.status == Some(Queued) then e == Moved(Running) && pc' == FetchRead(j, worker)
        else e.Nothing? && (v.status.None? ==> !Concerns(pc', j))
      case FetchRead(_, _) =>
        e.Nothing? && ((pc'.Finished? && pc'.answer.Assigned?) || !Concerns(pc', j))
      case CancelStore(_, _) =>
        (e.Nothing? || (e.Kept? && e.envelope.terminalStatus.Canceled? && v.envelope.None?))
        && ((pc'.CancelCas? && pc'.jobId == j) || !Concerns(pc', j))
      case CancelCas(_, _) =>
        if v.status == Some(Queued) then e == Moved(Canceled) && !Concerns(pc', j)
        else e.Nothing? && (v.status.None? || v.status.value.Terminal() ==> !Concerns(pc', j))
      case ReportStore(r) =>
        (e.Nothing? || (e == Kept(ReportEnvelope(r)) && v.envelope.None?)) && (pc' == ReportCas(r) || !Concerns(pc', j))
      case ReportCas(r) =>
        (if v.status == Some(Running) then e == Moved(StatusFor(r.outcome)) else e.Nothing?) && !Concerns(pc', j)
      case Lost(StoreResult(_, envelope)) =>
        (e.Nothing? || (e == Kept(envelope) && v.envelope.None?)) && !Concerns(pc', j)
      case Lost(TransitionJobStatus(_, from, to, _)) =>
        (if v.status == Some(from) then e == Moved(to) else e.Nothing?) && !Concerns(pc', j)
      case _ => true
  }

  ghost predicate Stepping(s: System, a: Action, j: JobId) {
    Orderly(s) && Enabled(s, a) && a.Deliver? && !Requeues(s, a, j) && j != ""
  }

  ghost predicate Summarized(s: System, a: Action, j: JobId)
    requires Enabled(s, a) && a.Deliver?
  {
    Follows(s.ops[a.op], EffectOf(s.stores, CallOf(s.ops[a.op]), a.env, j), Apply(s, a).ops[a.op], ViewOf(s, j), j)
  }

  lemma SubmitFollows(s: System, a: Action, j: JobId)
    requires Stepping(s, a, j) && (s.ops[a.op].SubmitCreate? || s.ops[a.op].SubmitEnqueue? || s.ops[a.op].SubmitCompensate?)
    ensures Summarized(s, a, j)
  {
    hide Strip, FingerprintOf, AsMap, Without, Distinct;
  }

  lemma CancelFollows(s: System, a: Action, j: JobId)
    requires Stepping(s, a, j) && (s.ops[a.op].CancelRead? || s.ops[a.op].CancelRemove? || s.ops[a.op].CancelStore?)
    ensures Summarized(s, a, j)
  {
    hide Strip, FingerprintOf, AsMap, Without, Distinct;
  }

  lemma CancelEndFollows(s: System, a: Action, j: JobId)
    requires Stepping(s, a, j) && (s.ops[a.op].CancelCas? || s.ops[a.op].CancelFlag?)
    ensures Summarized(s, a, j)
  {
    hide Strip, FingerprintOf, AsMap, Without, Distinct;
  }

  lemma ReadFollows(s: System, a: Action, j: JobId)
    requires Stepping(s, a, j) && (s.ops[a.op].StatusRead? || s.ops[a.op].ResultRead? || s.ops[a.op].ResultGet?)
    ensures Summarized(s, a, j)
  {
    hide Strip, FingerprintOf, AsMap, Without, Distinct;
  }

  lemma FetchFollows(s: System, a: Action, j: JobId)
    requires Stepping(s, a, j) && (s.ops[a.op].FetchDequeue? || s.ops[a.op].FetchCas?)
    ensures Summarized(s, a, j)
  {
    hide Strip, FingerprintOf, AsMap, Without, Distinct;
  }

  lemma FetchEndFollows(s: System, a: Action, j: JobId)
    requires Stepping(s, a, j) && (s.ops[a.op].FetchRecheck? || s.ops[a.op].FetchRescue? || s.ops[a.op].FetchRead?)
    ensures Summarized(s, a, j)
  {
    hide Strip, FingerprintOf, AsMap, Without, Distinct;
  }

  lemma ReportFollows(s: System, a: Action, j: JobId)
    requires Stepping(s, a, j) && (s.ops[a.op].ReportStore? || s.ops[a.op].ReportCas?)
    ensures Summarized(s, a, j)
  {
    hide Strip, FingerprintOf, AsMap, Without, Distinct;
  }

  lemma LostFollows(s: System, a: Action, j: JobId)
    requires Stepping(s, a, j) && (s.ops[a.op].Lost?)
    ensures Summarized(s, a, j)
  {
    hide Strip, FingerprintOf, AsMap, Without, Distinct;
  }

  /** What the handlers themselves do: Execute and Resume against the summary above. */
  lemma HandlerFollows(s: System, a: Action, j: JobId)
    requires Stepping(s, a, j)
    ensures Summarized(s, a, j)
  {
    match s.ops[a.op] {
      case SubmitCreate(_, _) | SubmitEnqueue(_) | SubmitCompensate(_) => SubmitFollows(s, a, j);
      case CancelRead(_, _) | CancelRemove(_, _) | CancelStore(_, _) => CancelFollows(s, a, j);
      case CancelCas(_, _) | CancelFlag(_, _) => CancelEndFollows(s, a, j);
      case StatusRead(_) | ResultRead(_) | ResultGet(_, _) => ReadFollows(s, a, j);
      case FetchDequeue(_) | FetchCas(_, _) => FetchFollows(s, a, j);
      case FetchRecheck(_) | FetchRescue(_) | FetchRead(_, _) => FetchEndFollows(s, a, j);
      case ReportStore(_) | ReportCas(_) => ReportFollows(s, a, j);
      case Lost(_) => LostFollows(s, a, j);
    }
  }

  // ---------- The token's journey ----------

  function NextToken(op: OpId, e: Effect, pc': Pc, j: JobId, t: Token): Token {
    match e
    case Born => if pc' == SubmitEnqueue(j) then AtSubmit(op) else Spent
    case Burnt => Spent
    case Joined => InQueue
    case Taken =>
      if pc'.FetchCas? && pc'.jobId == j then WithFetch(op)
      else if pc'.CancelStore? && pc'.jobId == j then WithCancel(op)
      else Spent
    case _ => t
  }

  function NextHolder(op: OpId, pc': Pc, t': Token, holder: Option<Pc>): Option<Pc> {
    if t'.Unborn? || t'.InQueue? || t'.Spent? then None else if t'.op == op then Some(pc') else holder
  }

  /** Nobody but `op` depends on the token as it is. */
  predicate Loose(op: OpId, t: Token, destined: Option<Envelope>) {
    match t
    case AtSubmit(o) => o == op
    case InFlight(o) => o == op
    case WithFetch(o) => o == op && destined.None?
    case WithCancel(o) => o == op
    case _ => true
  }

  /** Either the token stays and the destined envelope is at most decided, or `op` held the token. */
  predicate Moves(op: OpId, t: Token, d: Option<Envelope>, t': Token, d': Option<Envelope>) {
    (t' == t && (d.None? || d' == d)) || Loose(op, t, d)
  }

  lemma PcOkStays(op: OpId, other: OpId, pc: Pc, j: JobId, t: Token, d: Option<Envelope>, t': Token, d': Option<Envelope>)
    requires PcOk(other, pc, j, t, d) && other != op
    requires Moves(op, t, d, t', d')
    ensures PcOk(other, pc, j, t', d')
  {}

  predicate Local(plan: Plan, op: OpId, pc: Pc, e: Effect, pc': Pc, v: View, j: JobId, t: Token, holder: Option<Pc>) {
    && !pc.Finished? && Sound(pc) && Follows(pc, e, pc', v, j)
    && ViewOk(v, j, t, holder, Destined(plan, j, t, holder))
    && PcOk(op, pc, j, t, Destined(plan, j, t, holder))
    && ((t.AtSubmit? || t.InFlight? || t.WithFetch? || t.WithCancel?) && t.op == op ==> holder == Some(pc))
  }

  predicate Moved'(plan: Plan, op: OpId, e: Effect, pc': Pc, v: View, j: JobId, t: Token, holder: Option<Pc>) {
    var t' := NextToken(op, e, pc', j, t);
    var holder' := NextHolder(op, pc', t', holder);
    var d' := Destined(plan, j, t', holder');
    && ViewOk(Affect(v, e), j, t', holder', d')
    && PcOk(op, pc', j, t', d')
    && Moves(op, t, Destined(plan, j, t, holder), t', d')
  }

  lemma UnconcernedOk(op: OpId, pc: Pc, j: JobId, t: Token, d: Option<Envelope>)
    requires !Concerns(pc, j)
    ensures PcOk(op, pc, j, t, d)
  {}

  lemma BystanderMoves(plan: Plan, op: OpId, pc: Pc, e: Effect, pc': Pc, v: View, j: JobId, t: Token, holder: Option<Pc>)
    requires Local(plan, op, pc, e, pc', v, j, t, holder) && !Concerns(pc, j) && (e.Nothing? || e.Gone?)
    ensures Moved'(plan, op, e, pc', v, j, t, holder)
  {
    hide StatusOk, Destined;
    var holder', d := NextHolder(op, pc', t, holder), Destined(plan, j, t, holder);
    BystanderChangesNothing(plan, op, pc, pc', j, t, holder);
    UnconcernedOk(op, pc', j, t, d);
    assert ViewOk(v, j, t, holder', d);
  }

  lemma BystanderChangesNothing(plan: Plan, op: OpId, pc: Pc, pc': Pc, j: JobId, t: Token, holder: Option<Pc>)
    requires !pc.Finished? && !Concerns(pc, j) && !Concerns(pc', j)
    requires (t.AtSubmit? || t.InFlight? || t.WithFetch? || t.WithCancel?) ==> holder.Some?
    requires (t.AtSubmit? || t.InFlight? || t.WithFetch? || t.WithCancel?) && t.op == op ==> holder == Some(pc)
    ensures var holder' := NextHolder(op, pc', t, holder);
            && Destined(plan, j, t, holder') == Destined(plan, j, t, holder)
            && forall status, d :: StatusOk(status, j, t, holder, d) ==> StatusOk(status, j, t, holder', d)
  {}

  lemma NewcomerMoves(plan: Plan, op: OpId, pc: Pc, e: Effect, pc': Pc, v: View, j: JobId, t: Token, holder: Option<Pc>)
    requires Local(plan, op, pc, e, pc', v, j, t, holder) && !Concerns(pc, j) && (e.Burnt? || e.Born?)
    ensures Moved'(plan, op, e, pc', v, j, t, holder)
  {
    var t' := NextToken(op, e, pc', j, t);
    if !Concerns(pc', j) {
      UnconcernedOk(op, pc', j, t', None);
    }
  }

  lemma TakerMoves(plan: Plan, op: OpId, pc: Pc, e: Effect, pc': Pc, v: View, j: JobId, t: Token, holder: Option<Pc>)
    requires Local(plan, op, pc, e, pc', v, j, t, holder) && !Concerns(pc, j) && e.Taken?
    ensures Moved'(plan, op, e, pc', v, j, t, holder)
  {
    if !Concerns(pc', j) {
      UnconcernedOk(op, pc', j, Spent, None);
    }
  }

  lemma HolderMoves(plan: Plan, op: OpId, pc: Pc, e: Effect, pc': Pc, v: View, j: JobId, t: Token, holder: Option<Pc>)
    requires Local(plan, op, pc, e, pc', v, j, t, holder) && Concerns(pc, j)
    requires pc.SubmitEnqueue? || pc.CancelStore? || pc.CancelCas? || pc.CancelFlag?
    ensures Moved'(plan, op, e, pc', v, j, t, holder)
  {}

  lemma FetchMoves(plan: Plan, op: OpId, pc: Pc, e: Effect, pc': Pc, v: View, j: JobId, t: Token, holder: Option<Pc>)
    requires Local(plan, op, pc, e, pc', v, j, t, holder) && Concerns(pc, j)
    requires pc.FetchCas? || pc.FetchRecheck? || pc.FetchRescue? || pc.FetchRead?
    ensures Moved'(plan, op, e, pc', v, j, t, holder)
  {}

  lemma ReportStoreMoves(plan: Plan, op: OpId, pc: Pc, e: Effect, pc': Pc, v: View, j: JobId, t: Token, holder: Option<Pc>)
    requires Local(plan, op, pc, e, pc', v, j, t, holder) && Concerns(pc, j)
    requires pc.ReportStore?
    ensures Moved'(plan, op, e, pc', v, j, t, holder)
  {}

  lemma ReportCasMoves(plan: Plan, op: OpId, pc: Pc, e: Effect, pc': Pc, v: View, j: JobId, t: Token, holder: Option<Pc>)
    requires Local(plan, op, pc, e, pc', v, j, t, holder) && Concerns(pc, j)
    requires pc.ReportCas?
    ensures Moved'(plan, op, e, pc', v, j, t, holder)
  {}

  lemma LostEnqueueMoves(plan: Plan, op: OpId, pc: Pc, e: Effect, pc': Pc, v: View, j: JobId, t: Token, holder: Option<Pc>)
    requires Local(plan, op, pc, e, pc', v, j, t, holder) && Concerns(pc, j) && pc.Lost? && pc.call.EnqueueJob?
    ensures Moved'(plan, op, e, pc', v, j, t, holder)
  {}

  lemma LostStoreMovesCanceling(plan: Plan, op: OpId, pc: Pc, e: Effect, pc': Pc, v: View, j: JobId, t: Token, holder: Option<Pc>)
    requires Local(plan, op, pc, e, pc', v, j, t, holder) && Concerns(pc, j) && pc.Lost? && pc.call.StoreResult?
    requires t.WithCancel?
    ensures Moved'(plan, op, e, pc', v, j, t, holder)
  {}

  lemma LostStoreMovesDispatched(plan: Plan, op: OpId, pc: Pc, e: Effect, pc': Pc, v: View, j: JobId, t: Token, holder: Option<Pc>)
    requires Local(plan, op, pc, e, pc', v, j, t, holder) && Concerns(pc, j) && pc.Lost? && pc.call.StoreResult?
    requires !t.WithCancel?
    ensures Moved'(plan, op, e, pc', v, j, t, holder)
  {}

  lemma LostStoreMoves(plan: Plan, op: OpId, pc: Pc, e: Effect, pc': Pc, v: View, j: JobId, t: Token, holder: Option<Pc>)
    requires Local(plan, op, pc, e, pc', v, j, t, holder) && Concerns(pc, j) && pc.Lost? && pc.call.StoreResult?
    ensures Moved'(plan, op, e, pc', v, j, t, holder)
  {
    hide Local, Moved', Concerns;
    if t.WithCancel? {
      LostStoreMovesCanceling(plan, op, pc, e, pc', v, j, t, holder);
    } else {
      LostStoreMovesDispatched(plan, op, pc, e, pc', v, j, t, holder);
    }
  }

  lemma LostCasMovesCanceling(plan: Plan, op: OpId, pc: Pc, e: Effect, pc': Pc, v: View, j: JobId, t: Token, holder: Option<Pc>)
    requires Local(plan, op, pc, e, pc', v, j, t, holder) && Concerns(pc, j) && pc.Lost? && pc.call.TransitionJobStatus?
    requires t.WithCancel?
    ensures Moved'(plan, op, e, pc', v, j, t, holder)
  {}

  lemma LostDispatchMoves(plan: Plan, op: OpId, pc: Pc, e: Effect, pc': Pc, v: View, j: JobId, t: Token, holder: Option<Pc>)
    requires Local(plan, op, pc, e, pc', v, j, t, holder) && Concerns(pc, j) && pc.Lost? && pc.call.TransitionJobStatus?
    requires !t.WithCancel? && pc.call.expectedFrom.Queued?
    ensures Moved'(plan, op, e, pc', v, j, t, holder)
  {}

  lemma LostCompletionMoves(plan: Plan, op: OpId, pc: Pc, e: Effect, pc': Pc, v: View, j: JobId, t: Token, holder: Option<Pc>)
    requires Local(plan, op, pc, e, pc', v, j, t, holder) && Concerns(pc, j) && pc.Lost? && pc.call.TransitionJobStatus?
    requires !t.WithCancel? && !pc.call.expectedFrom.Queued?
    ensures Moved'(plan, op, e, pc', v, j, t, holder)
  {}

  lemma LostCasMovesDispatched(plan: Plan, op: OpId, pc: Pc, e: Effect, pc': Pc, v: View, j: JobId, t: Token, holder: Option<Pc>)
    requires Local(plan, op, pc, e, pc', v, j, t, holder) && Concerns(pc, j) && pc.Lost? && pc.call.TransitionJobStatus?
    requires !t.WithCancel?
    ensures Moved'(plan, op, e, pc', v, j, t, holder)
  {
    hide Local, Moved', Concerns;
    if pc.call.expectedFrom.Queued? {
      LostDispatchMoves(plan, op, pc, e, pc', v, j, t, holder);
    } else {
      LostCompletionMoves(plan, op, pc, e, pc', v, j, t, holder);
    }
  }

  lemma LostCasMoves(plan: Plan, op: OpId, pc: Pc, e: Effect, pc': Pc, v: View, j: JobId, t: Token, holder: Option<Pc>)
    requires Local(plan, op, pc, e, pc', v, j, t, holder) && Concerns(pc, j) && pc.Lost? && pc.call.TransitionJobStatus?
    ensures Moved'(plan, op, e, pc', v, j, t, holder)
  {
    hide Local, Moved', Concerns;
    if t.WithCancel? {
      LostCasMovesCanceling(plan, op, pc, e, pc', v, j, t, holder);
    } else {
      LostCasMovesDispatched(plan, op, pc, e, pc', v, j, t, holder);
    }
  }

  /** The heart of the argument, on one operation and one job. */
  lemma TokenMoves(plan: Plan, op: OpId, pc: Pc, e: Effect, pc': Pc, v: View, j: JobId, t: Token, holder: Option<Pc>)
    requires Local(plan, op, pc, e, pc', v, j, t, holder)
    ensures Moved'(plan, op, e, pc', v, j, t, holder)
  {
    if !Concerns(pc, j) && e.Taken? {
      TakerMoves(plan, op, pc, e, pc', v, j, t, holder);
    } else if !Concerns(pc, j) && (e.Burnt? || e.Born?) {
      NewcomerMoves(plan, op, pc, e, pc', v, j, t, holder);
    } else if !Concerns(pc, j) {
      BystanderMoves(plan, op, pc, e, pc', v, j, t, holder);
    } else if pc.Lost? && pc.call.TransitionJobStatus? {
      LostCasMoves(plan, op, pc, e, pc', v, j, t, holder);
    } else if pc.Lost? && pc.call.EnqueueJob? {
      LostEnqueueMoves(plan, op, pc, e, pc', v, j, t, holder);
    } else if pc.Lost? {
      LostStoreMoves(plan, op, pc, e, pc', v, j, t, holder);
    } else if pc.SubmitEnqueue? || pc.CancelStore? || pc.CancelCas? || pc.CancelFlag? {
      HolderMoves(plan, op, pc, e, pc', v, j, t, holder);
    } else if pc.ReportStore? {
      ReportStoreMoves(plan, op, pc, e, pc', v, j, t, holder);
    } else if pc.ReportCas? {
      ReportCasMoves(plan, op, pc, e, pc', v, j, t, holder);
    } else {
      FetchMoves(plan, op, pc, e, pc', v, j, t, holder);
    }
  }

  // ---------- Runs ----------

  lemma DeliverKeepsToken(plan: Plan, s: System, a: Action, j: JobId, t: Token) returns (t': Token)
    requires Stepping(s, a, j) && TokenInv(plan, s, j, t)
    ensures TokenInv(plan, Apply(s, a), j, t')
  {
    hide Stores.Execute, Resume, CallOf, PcOk, StatusOk, Destined, EffectOf, Follows;
    var s', op := Apply(s, a), a.op;
    var e, holder := EffectOf(s.stores, CallOf(s.ops[op]), a.env, j), HolderPc(s, t);
    t' := NextToken(op, e, s'.ops[op], j, t);
    HandlerFollows(s, a, j);
    ViewAfter(s, a, j);
    TokenMoves(plan, op, s.ops[op], e, s'.ops[op], ViewOf(s, j), j, t, holder);
    assert HolderPc(s', t') == NextHolder(op, s'.ops[op], t', holder);
    var d, d' := Destined(plan, j, t, holder), Destined(plan, j, t', HolderPc(s', t'));
    forall other | other in s'.ops ensures PcOk(other, s'.ops[other], j, t', d') {
      if other != op {
        assert s'.ops[other] == s.ops[other];
        PcOkStays(op, other, s.ops[other], j, t, d, t', d');
      }
    }
  }

  /** A failed call takes what it carried with it. */
  function FailToken(pc: Pc, lost: OpId, j: JobId, t: Token): Token {
    if pc == SubmitEnqueue(j) then InFlight(lost)
    else if FetchHolds(pc, j) then WithFetch(lost)
    else if CancelHolds(pc, j) then WithCancel(lost)
    else t
  }

  lemma ErrorUnconcerned(pc: Pc, code: Code, j: JobId)
    requires !pc.Finished?
    ensures !Concerns(Resume(pc, Failure(code)), j)
  {}

  lemma FailMoves(plan: Plan, op: OpId, pc: Pc, code: Code, lost: OpId, v: View, j: JobId, t: Token, holder: Option<Pc>)
    requires !pc.Finished? && !pc.Lost? && lost != op
    requires ViewOk(v, j, t, holder, Destined(plan, j, t, holder))
    requires PcOk(op, pc, j, t, Destined(plan, j, t, holder))
    requires (t.AtSubmit? || t.InFlight? || t.WithFetch? || t.WithCancel?) ==>
               t.op != lost && (t.op == op ==> holder == Some(pc))
    ensures var t' := FailToken(pc, lost, j, t);
            var pc', lostPc := Resume(pc, Failure(code)), Lost(CallOf(pc));
            var holder' := if t' != t then Some(lostPc) else NextHolder(op, pc', t, holder);
            var d' := Destined(plan, j, t', holder');
            && ViewOk(v, j, t', holder', d')
            && PcOk(op, pc', j, t', d')
            && PcOk(lost, lostPc, j, t', d')
            && Moves(op, t, Destined(plan, j, t, holder), t', d')
  {
    hide Resume;
    var pc' := Resume(pc, Failure(code));
    ErrorUnconcerned(pc, code, j);
    match pc {
      case SubmitEnqueue(_) =>
      case FetchCas(_, _) =>
      case CancelStore(_, _) =>
      case CancelCas(_, _) =>
      case _ =>
    }
  }

  lemma FailKeepsToken(plan: Plan, s: System, a: Action, j: JobId, t: Token) returns (t': Token)
    requires Enabled(s, a) && a.Fail? && TokenInv(plan, s, j, t)
    ensures TokenInv(plan, Apply(s, a), j, t')
  {
    hide Resume, PcOk, StatusOk, Destined, CallOf;
    var s', op := Apply(s, a), a.op;
    var holder := HolderPc(s, t);
    t' := FailToken(s.ops[op], a.lost, j, t);
    FailMoves(plan, op, s.ops[op], a.code, a.lost, ViewOf(s, j), j, t, holder);
    var d, d' := Destined(plan, j, t, holder), Destined(plan, j, t', HolderPc(s', t'));
    forall other | other in s'.ops ensures PcOk(other, s'.ops[other], j, t', d') {
      if other != op && other != a.lost {
        assert s'.ops[other] == s.ops[other];
        PcOkStays(op, other, s.ops[other], j, t, d, t', d');
      }
    }
  }

  lemma BegunOk(op: OpId, request: Request, j: JobId, t: Token, d: Option<Envelope>)
    requires request.ReportWorkOutcome? && Strip(request.report.jobId) == j ==>
               t.WithFetch? && d == Some(ReportEnvelope(request.report))
    ensures PcOk(op, Begin(request), j, t, d)
  {
    var pc := Begin(request);
    if pc.ReportStore? {
      assert ReportEnvelope(pc.report) == ReportEnvelope(request.report);
    } else {
      UnconcernedOk(op, pc, j, t, d);
    }
  }

  /** A worker's report is the destined one: the worker got the job from the fetch that has the token. */
  lemma WorkerReportIsDestined(plan: Plan, s: System, a: Action, j: JobId, t: Token)
    requires a.Start? && a.request.ReportWorkOutcome? && Strip(a.request.report.jobId) == j
    requires ByWorker(plan, s, a, j) && TokenInv(plan, s, j, t)
    ensures t.WithFetch? && Destined(plan, j, t, HolderPc(s, t)) == Some(ReportEnvelope(a.request.report))
  {
    hide Strip, StatusOk;
    var op, worker, jobType :| op in s.ops && s.ops[op] == Finished(Assigned(worker, j, jobType))
      && a.request.report == plan(worker, jobType);
    assert PcOk(op, s.ops[op], j, t, Destined(plan, j, t, HolderPc(s, t)));
  }

  lemma StartKeepsToken(plan: Plan, s: System, a: Action, j: JobId, t: Token)
    requires Enabled(s, a) && a.Start? && ByWorker(plan, s, a, j) && TokenInv(plan, s, j, t)
    ensures TokenInv(plan, Apply(s, a), j, t)
  {
    hide Strip, StatusOk, Destined, Begin, PcOk, ByWorker;
    var s', d := Apply(s, a), Destined(plan, j, t, HolderPc(s, t));
    if a.request.ReportWorkOutcome? && Strip(a.request.report.jobId) == j {
      WorkerReportIsDestined(plan, s, a, j, t);
    }
    BegunOk(a.op, a.request, j, t, d);
    assert HolderPc(s', t) == HolderPc(s, t);
    forall op | op in s'.ops ensures PcOk(op, s'.ops[op], j, t, d) {
      if op != a.op {
        assert s'.ops[op] == s.ops[op];
      }
    }
  }

  lemma OrderlyStep(s: System, a: Action)
    requires Orderly(s) && TableOk(s.stores.table) && Enabled(s, a)
    ensures Distinct(Apply(s, a).stores.queue) && TableOk(Apply(s, a).stores.table)
  {
    if a.Deliver? {
      var call := CallOf(s.ops[a.op]);
      QueueAfter(s.stores, call, a.env, "");
      if IsJobCall(call) { JobCallKeeps(s.stores.table, call, a.env); }
    }
  }

  lemma {:induction false} OrderlyAlways(dedupCap: int, outputCap: int, run: seq<Action>)
    requires Legal(Initial(dedupCap, outputCap), run)
    ensures Orderly(After(Initial(dedupCap, outputCap), run)) && TableOk(After(Initial(dedupCap, outputCap), run).stores.table)
  {
    SoundAlways(dedupCap, outputCap, run);
    IssuedAlways(dedupCap, outputCap, run);
    if run != [] {
      OrderlyAlways(dedupCap, outputCap, run[..|run| - 1]);
      OrderlyStep(After(Initial(dedupCap, outputCap), run[..|run| - 1]), run[|run| - 1]);
    }
  }

  lemma {:induction false} TokenAlways(plan: Plan, dedupCap: int, outputCap: int, run: seq<Action>, j: JobId) returns (t: Token)
    requires j != "" && Legal(Initial(dedupCap, outputCap), run)
    requires Regular(plan, Initial(dedupCap, outputCap), run, j)
    ensures TokenInv(plan, After(Initial(dedupCap, outputCap), run), j, t)
  {
    if run == [] {
      return Unborn;
    }
    var init, a := run[..|run| - 1], run[|run| - 1];
    t := TokenAlways(plan, dedupCap, outputCap, init, j);
    OrderlyAlways(dedupCap, outputCap, init);
    var s := After(Initial(dedupCap, outputCap), init);
    match a {
      case Start(_, _) => StartKeepsToken(plan, s, a, j, t);
      case Deliver(_, _) => t := DeliverKeepsToken(plan, s, a, j, t);
      case Fail(_, _, _) => t := FailKeepsToken(plan, s, a, j, t);
    }
  }

  lemma TokenAgrees(plan: Plan, s: System, j: JobId, t: Token)
    requires TokenInv(plan, s, j, t) && EnvelopeInv(s, j)
    requires HasRecord(s, j) && RecordOf(s, j).status.Terminal()
    ensures HasEnvelope(s, j) && s.stores.results.envelopes[j].terminalStatus == RecordOf(s, j).status
  {}

  /** Status and envelope agree: in every state of a regular run a terminal job's envelope exists and
      carries the job's status. */
  lemma StatusAndEnvelopeAgree(plan: Plan, dedupCap: int, outputCap: int, run: seq<Action>, j: JobId)
    requires Legal(Initial(dedupCap, outputCap), run)
    requires Regular(plan, Initial(dedupCap, outputCap), run, j)
    ensures var s := After(Initial(dedupCap, outputCap), run);
            HasRecord(s, j) && RecordOf(s, j).status.Terminal() ==>
              HasEnvelope(s, j) && s.stores.results.envelopes[j].terminalStatus == RecordOf(s, j).status
  {
    var s := After(Initial(dedupCap, outputCap), run);
    if HasRecord(s, j) && RecordOf(s, j).status.Terminal() {
      IdsCanonical(dedupCap, outputCap, run);
      IssuedAlways(dedupCap, outputCap, run);
      var t := TokenAlways(plan, dedupCap, outputCap, run, j);
      EnvelopeAlways(dedupCap, outputCap, run, j);
      TokenAgrees(plan, s, j, t);
    }
  }

  /** The envelope of a job some FetchWork has answered with is the one that assignment determines. */
  lemma EnvelopeIsTheWorkers(plan: Plan, dedupCap: int, outputCap: int, run: seq<Action>, j: JobId,
                             op: OpId, worker: string, jobType: string)
    requires j != "" && Legal(Initial(dedupCap, outputCap), run)
    requires Regular(plan, Initial(dedupCap, outputCap), run, j)
    requires var s := After(Initial(dedupCap, outputCap), run);
             op in s.ops && s.ops[op] == Finished(Assigned(worker, j, jobType)) && HasEnvelope(s, j)
    ensures After(Initial(dedupCap, outputCap), run).stores.results.envelopes[j] == ReportEnvelope(plan(worker, jobType))
  {
    var s := After(Initial(dedupCap, outputCap), run);
    var t := TokenAlways(plan, dedupCap, outputCap, run, j);
    assert PcOk(op, s.ops[op], j, t, Destined(plan, j, t, HolderPc(s, t)));
  }

  /** In a regular run no GetJobResult answers with a status mismatch. */
  lemma {:induction false} NoMismatch(plan: Plan, dedupCap: int, outputCap: int, run: seq<Action>, j: JobId, op: OpId)
    requires Legal(Initial(dedupCap, outputCap), run)
    requires Regular(plan, Initial(dedupCap, outputCap), run, j)
    requires op in After(Initial(dedupCap, outputCap), run).ops
    ensures After(Initial(dedupCap, outputCap), run).ops[op] != Finished(StatusMismatch(j))
  {
    if run != [] {
      var init, a := run[..|run| - 1], run[|run| - 1];
      var s := After(Initial(dedupCap, outputCap), init);
      if op in s.ops {
        NoMismatch(plan, dedupCap, outputCap, init, j, op);
      }
      StatusAndEnvelopeAgree(plan, dedupCap, outputCap, init, j);
      ReadAlways(dedupCap, outputCap, init, j);
      MismatchNeedsDisagreement(s, a, j, op);
    }
  }

  lemma MismatchNeedsDisagreement(s: System, a: Action, j: JobId, op: OpId)
    requires Enabled(s, a) && op in Apply(s, a).ops
    requires op in s.ops ==> s.ops[op] != Finished(StatusMismatch(j)) && ReadHolds(s, s.ops[op], j)
    requires HasRecord(s, j) && RecordOf(s, j).status.Terminal() ==>
               HasEnvelope(s, j) && s.stores.results.envelopes[j].terminalStatus == RecordOf(s, j).status
    ensures Apply(s, a).ops[op] != Finished(StatusMismatch(j))
  {}

  /** In a regular run one operation at most may take the job out of QUEUED: a FetchWork or a
      CancelJob waiting for its CAS, or a lost such CAS that may still land, excludes every other, and
      excludes the job being in the queue or about to be enqueued. */
  lemma OneHolder(plan: Plan, dedupCap: int, outputCap: int, run: seq<Action>, j: JobId, op: OpId, op': OpId)
    requires j != "" && Legal(Initial(dedupCap, outputCap), run)
    requires Regular(plan, Initial(dedupCap, outputCap), run, j)
    requires var s := After(Initial(dedupCap, outputCap), run);
             && op in s.ops && (FetchHolds(s.ops[op], j) || CancelHolds(s.ops[op], j)) && op' in s.ops
    ensures var s := After(Initial(dedupCap, outputCap), run);
            && j !in s.stores.queue
            && s.ops[op'] != SubmitEnqueue(j) && s.ops[op'] != Lost(EnqueueJob(j))
            && (FetchHolds(s.ops[op'], j) || CancelHolds(s.ops[op'], j) ==> op == op')
  {
    var s := After(Initial(dedupCap, outputCap), run);
    var t := TokenAlways(plan, dedupCap, outputCap, run, j);
    var d := Destined(plan, j, t, HolderPc(s, t));
    assert PcOk(op, s.ops[op], j, t, d) && PcOk(op', s.ops[op'], j, t, d);
  }

  /** In a regular run a CancelJob that removed the job from the queue has its CAS applied, unless the
      record has been deleted; the fallback behind that CAS is never reached. */
  lemma RemovalWinsTheCas(plan: Plan, dedupCap: int, outputCap: int, run: seq<Action>, j: JobId, op: OpId, env: Env)
    requires j != "" && Legal(Initial(dedupCap, outputCap), run)
    requires Regular(plan, Initial(dedupCap, outputCap), run, j)
    requires op in After(Initial(dedupCap, outputCap), run).ops
    ensures var s := After(Initial(dedupCap, outputCap), run);
            && s.ops[op] != CancelFlag(j, LostCas)
            && (s.ops[op].CancelCas? && s.ops[op].jobId == j ==>
                  Execute(s.stores, CallOf(s.ops[op]), env).1 ==
                    if HasRecord(s, j) then Transitioned(true, Canceled) else Failure(NotFound))
  {
    hide Legal, After, Regular, Stores.Execute, CallOf, ViewOf, HolderPc, EnvelopeInv;
    var s := After(Initial(dedupCap, outputCap), run);
    var t := TokenAlways(plan, dedupCap, outputCap, run, j);
    RemovedMeansQueued(plan, s, j, t, op);
    if s.ops[op].CancelCas? && s.ops[op].jobId == j {
      CancelCasAnswer(s.stores, s.ops[op], env, j);
    }
  }

  /** Whoever is about to cancel holds the token, so the job is still QUEUED. */
  lemma RemovedMeansQueued(plan: Plan, s: System, j: JobId, t: Token, op: OpId)
    requires TokenInv(plan, s, j, t) && op in s.ops
    ensures s.ops[op] != CancelFlag(j, LostCas)
    ensures s.ops[op].CancelCas? && s.ops[op].jobId == j && HasRecord(s, j) ==> RecordOf(s, j).status.Queued?
  {
    assert PcOk(op, s.ops[op], j, t, Destined(plan, j, t, HolderPc(s, t)));
  }

  lemma CancelCasAnswer(w: World, pc: Pc, env: Env, j: JobId)
    requires pc.CancelCas? && pc.jobId == j && (j in w.table.records ==> w.table.records[j].status.Queued?)
    ensures Execute(w, CallOf(pc), env).1 == if j in w.table.records then Transitioned(true, Canceled) else Failure(NotFound)
  {}

  /** Retried reports, late landings and everything else interleaved: in a regular run a dispatched job
      whose record exists is running without an envelope, running with the envelope its assignment
      determines, or terminal with that envelope and its status. */
  lemma DispatchedJobsMoveThroughStages(plan: Plan, dedupCap: int, outputCap: int, run: seq<Action>, j: JobId,
                                        op: OpId, worker: string, jobType: string)
    requires j != "" && Legal(Initial(dedupCap, outputCap), run)
    requires Regular(plan, Initial(dedupCap, outputCap), run, j)
    requires var s := After(Initial(dedupCap, outputCap), run);
             op in s.ops && s.ops[op] == Finished(Assigned(worker, j, jobType)) && HasRecord(s, j)
    ensures var s := After(Initial(dedupCap, outputCap), run);
            var envelope := ReportEnvelope(plan(worker, jobType));
            if HasEnvelope(s, j)
            then s.stores.results.envelopes[j] == envelope
                 && (RecordOf(s, j).status.Running? || (RecordOf(s, j).status.Terminal() && RecordOf(s, j).status == envelope.terminalStatus))
            else RecordOf(s, j).status.Running?
  {
    hide Legal, After, Regular;
    var s := After(Initial(dedupCap, outputCap), run);
    var t := TokenAlways(plan, dedupCap, outputCap, run, j);
    EnvelopeAlways(dedupCap, outputCap, run, j);
    assert PcOk(op, s.ops[op], j, t, Destined(plan, j, t, HolderPc(s, t)));
  }
}
