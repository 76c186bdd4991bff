/** What holds over every run, with no restriction on clients, workers or the network: any calls in
    any interleaving, resubmissions under a used key, conflicting reports, and any failures. */
module Unrestricted {
  import opened Types
  import opened Messages
  import opened JobTable
  import opened Stores
  import opened Handlers
  import opened Protocol

  predicate HasRecord(s: System, j: JobId) { j in s.stores.table.records }

  function RecordOf(s: System, j: JobId): JobRecord
    requires HasRecord(s, j)
  {
    s.stores.table.records[j]
  }

  predicate HasEnvelope(s: System, j: JobId) { j in s.stores.results.envelopes }

  // ---------- What handlers ask of the stores ----------

  /** The calls handlers make, which is less than the Job service would accept: only QUEUED jobs are
      deleted, cancellation is only ever requested, and transitions follow the lifecycle graph. */
  predicate Ordinary(call: Call) {
    match call
    case DeleteJobIfStatus(_, expected) => expected.Queued?
    case SetCancelRequested(_, requested) => requested
    case TransitionJobStatus(_, from, to, _) => AllowedTransition(from, to)
    case _ => true
  }

  /** Reports are only taken up with a terminal outcome. */
  predicate Sound(pc: Pc) {
    match pc
    case ReportStore(r) => StatusFor(r.outcome).Terminal()
    case ReportCas(r) => StatusFor(r.outcome).Terminal()
    case Lost(call) => Ordinary(call)
    case _ => true
  }

  ghost predicate SoundInv(s: System) {
    forall op | op in s.ops :: Sound(s.ops[op])
  }

  lemma BeginsSound(request: Request)
    ensures Sound(Begin(request))
  {}

  lemma ResumesSound(pc: Pc, reply: Reply)
    requires !pc.Finished? && Sound(pc)
    ensures Sound(Resume(pc, reply))
  {}

  lemma SoundStep(s: System, a: Action)
    requires SoundInv(s) && Enabled(s, a)
    ensures SoundInv(Apply(s, a))
  {
    hide Stores.Execute, Begin, Resume;
    match a {
      case Start(_, request) => BeginsSound(request);
      case Deliver(op, env) => ResumesSound(s.ops[op], Execute(s.stores, CallOf(s.ops[op]), env).1);
      case Fail(op, code, _) =>
        ResumesSound(s.ops[op], Failure(code));
        CallsAreOrdinary(s.ops[op]);
    }
  }

  lemma {:induction false} SoundAlways(dedupCap: int, outputCap: int, run: seq<Action>)
    requires Legal(Initial(dedupCap, outputCap), run)
    ensures SoundInv(After(Initial(dedupCap, outputCap), run))
  {
    if run != [] {
      SoundAlways(dedupCap, outputCap, run[..|run| - 1]);
      SoundStep(After(Initial(dedupCap, outputCap), run[..|run| - 1]), run[|run| - 1]);
    }
  }

  lemma CallsAreOrdinary(pc: Pc)
    requires !pc.Finished? && Sound(pc)
    ensures Ordinary(CallOf(pc))
  {}

  // ---------- What one call can do to one job ----------

  function Lookup(w: World, j: JobId): Option<JobRecord> {
    if j in w.table.records then Some(w.table.records[j]) else None
  }

  /** The ways a record changes in one ordinary call. */
  predicate Evolves(before: Option<JobRecord>, after: Option<JobRecord>) {
    match (before, after)
    case (None, None) => true
    case (None, Some(new_)) => new_.status.Queued?
    case (Some(old_), None) => old_.status.Queued?
    case (Some(old_), Some(new_)) =>
      || new_ == old_
      || (!old_.status.Terminal() && (old_.cancelRequested ==> new_.cancelRequested)
          && (new_.status == old_.status || AllowedTransition(old_.status, new_.status))
          && (new_.status.Canceled? ==> new_.cancelRequested))
  }

  lemma CallEvolves(w: World, call: Call, env: Env, j: JobId)
    requires Ordinary(call) && (j in w.table.records ==> env.newId != Some(j))
    ensures Evolves(Lookup(w, j), Lookup(Execute(w, call, env).0, j))
    ensures j in Execute(w, call, env).0.table.records ==> j in w.table.records || env.newId == Some(j)
  {}

  lemma EnvelopesStay(w: World, call: Call, env: Env, j: JobId)
    requires j in w.results.envelopes
    ensures j in Execute(w, call, env).0.results.envelopes
    ensures Execute(w, call, env).0.results.envelopes[j] == w.results.envelopes[j]
  {}

  // ---------- Terminal jobs have envelopes ----------

  /** Operations that only get this far once the envelope of `j` is stored. */
  predicate PastStore(pc: Pc, j: JobId) {
    match pc
    case ReportCas(r) => r.jobId == j
    case CancelCas(id, _) => id == j
    case ResultGet(id, _) => id == j
    case Lost(TransitionJobStatus(id, _, to, _)) => id == j && to.Terminal()
    case Finished(MissingEnvelope(id)) => id == j
    case _ => false
  }

  predicate TerminalStored(w: World, j: JobId) {
    j in w.table.records && w.table.records[j].status.Terminal() ==> j in w.results.envelopes
  }

  ghost predicate EnvelopeInv(s: System, j: JobId) {
    && TerminalStored(s.stores, j)
    && (forall op | op in s.ops && PastStore(s.ops[op], j) :: HasEnvelope(s, j))
    && (forall op | op in s.ops :: s.ops[op] != Finished(MissingEnvelope(j)))
  }

  /** Only a call made past the store can turn `j` terminal. */
  lemma CallKeepsTerminalStored(w: World, pc: Pc, env: Env, j: JobId)
    requires !pc.Finished? && TerminalStored(w, j) && (PastStore(pc, j) ==> j in w.results.envelopes)
    ensures TerminalStored(Execute(w, CallOf(pc), env).0, j)
  {
    hide Strip, FingerprintOf, AsMap;
    var call := CallOf(pc);
    if j in w.results.envelopes {
      EnvelopesStay(w, call, env, j);
    }
  }

  lemma ResumePastStore(w: World, pc: Pc, env: Env, j: JobId)
    requires !pc.Finished? && TerminalStored(w, j) && (PastStore(pc, j) ==> j in w.results.envelopes)
    ensures var (w', reply) := Execute(w, CallOf(pc), env);
            (PastStore(Resume(pc, reply), j) ==> j in w'.results.envelopes)
            && Resume(pc, reply) != Finished(MissingEnvelope(j))
  {
    hide Strip, FingerprintOf, AsMap;
  }

  lemma ResumeErrorPastStore(pc: Pc, code: Code, j: JobId)
    requires !pc.Finished?
    ensures !PastStore(Resume(pc, Failure(code)), j)
  {}

  lemma BeginsBeforeStore(request: Request, j: JobId)
    ensures !PastStore(Begin(request), j) && Begin(request) != Finished(MissingEnvelope(j))
  {}

  lemma EnvelopeStep(s: System, a: Action, j: JobId)
    requires EnvelopeInv(s, j) && Enabled(s, a)
    ensures EnvelopeInv(Apply(s, a), j)
  {
    hide Stores.Execute, Resume, Begin;
    match a {
      case Start(op, request) => BeginsBeforeStore(request, j);
      case Deliver(op, env) =>
        CallKeepsTerminalStored(s.stores, s.ops[op], env, j);
        ResumePastStore(s.stores, s.ops[op], env, j);
        if HasEnvelope(s, j) { EnvelopesStay(s.stores, CallOf(s.ops[op]), env, j); }
      case Fail(op, code, lost) =>
        ResumeErrorPastStore(s.ops[op], code, j);
    }
  }

  lemma {:induction false} EnvelopeAlways(dedupCap: int, outputCap: int, run: seq<Action>, j: JobId)
    requires Legal(Initial(dedupCap, outputCap), run)
    ensures EnvelopeInv(After(Initial(dedupCap, outputCap), run), j)
  {
    if run != [] {
      EnvelopeAlways(dedupCap, outputCap, run[..|run| - 1], j);
      EnvelopeStep(After(Initial(dedupCap, outputCap), run[..|run| - 1]), run[|run| - 1], j);
    }
  }

  /** In every reachable state a terminal job has its envelope, and no GetJobResult, whose two reads
      are not atomic, has ever found a terminal status without one. */
  lemma TerminalJobsHaveEnvelopes(dedupCap: int, outputCap: int, run: seq<Action>, j: JobId)
    requires Legal(Initial(dedupCap, outputCap), run)
    ensures var s := After(Initial(dedupCap, outputCap), run);
            && (HasRecord(s, j) && RecordOf(s, j).status.Terminal() ==> HasEnvelope(s, j))
            && (forall op | op in s.ops :: s.ops[op] != Finished(MissingEnvelope(j)))
  {
    EnvelopeAlways(dedupCap, outputCap, run, j);
  }

  // ---------- Identifiers ----------

  ghost predicate IssuedInv(s: System) {
    forall j | j in s.stores.table.records :: j in s.issued
  }

  lemma IssuedStep(s: System, a: Action)
    requires SoundInv(s) && IssuedInv(s) && Enabled(s, a)
    ensures IssuedInv(Apply(s, a))
  {
    if a.Deliver? {
      CallsAreOrdinary(s.ops[a.op]);
      forall j | j in Apply(s, a).stores.table.records ensures j in Apply(s, a).issued {
        CallEvolves(s.stores, CallOf(s.ops[a.op]), a.env, j);
      }
    }
  }

  lemma {:induction false} IssuedAlways(dedupCap: int, outputCap: int, run: seq<Action>)
    requires Legal(Initial(dedupCap, outputCap), run)
    ensures IssuedInv(After(Initial(dedupCap, outputCap), run))
  {
    if run != [] {
      IssuedAlways(dedupCap, outputCap, run[..|run| - 1]);
      SoundAlways(dedupCap, outputCap, run[..|run| - 1]);
      IssuedStep(After(Initial(dedupCap, outputCap), run[..|run| - 1]), run[|run| - 1]);
    }
  }

  lemma {:induction false} IdsCanonical(dedupCap: int, outputCap: int, run: seq<Action>)
    requires Legal(Initial(dedupCap, outputCap), run)
    ensures forall j | j in After(Initial(dedupCap, outputCap), run).issued :: Canonical(j)
  {
    if run != [] {
      IdsCanonical(dedupCap, outputCap, run[..|run| - 1]);
    }
  }

  // ---------- At most one dispatch ----------

  /** `j` exists or existed, and is not QUEUED; no job ever returns to this point's past. */
  predicate LeftQueued(s: System, j: JobId) {
    j in s.issued && (HasRecord(s, j) ==> !RecordOf(s, j).status.Queued?)
  }

  predicate Dispatched(pc: Pc, j: JobId) {
    match pc
    case FetchRead(id, _) => id == j
    case Finished(Assigned(_, id, _)) => id == j
    case _ => false
  }

  ghost predicate DispatchInv(s: System, j: JobId) {
    && (forall op | op in s.ops && Dispatched(s.ops[op], j) :: LeftQueued(s, j))
    && (forall op | op in s.ops && s.ops[op] == FetchRecheck(j) :: LeftQueued(s, j))
    && (forall op | op in s.ops :: s.ops[op] != FetchRescue(j))
    && (forall op, op' | op in s.ops && op' in s.ops && Dispatched(s.ops[op], j) && Dispatched(s.ops[op'], j) :: op == op')
  }

  lemma LeftQueuedStays(s: System, a: Action, j: JobId)
    requires SoundInv(s) && Enabled(s, a) && LeftQueued(s, j)
    ensures LeftQueued(Apply(s, a), j)
  {
    if a.Deliver? {
      CallsAreOrdinary(s.ops[a.op]);
      CallEvolves(s.stores, CallOf(s.ops[a.op]), a.env, j);
    }
  }

  /** A handler gets past the dispatch CAS only by taking the job out of QUEUED itself. */
  lemma ResumeDispatch(s: System, pc: Pc, env: Env, j: JobId)
    requires !pc.Finished? && IssuedInv(s) && pc != FetchRescue(j)
    requires pc == FetchRecheck(j) ==> LeftQueued(s, j)
    ensures var (w', reply) := Execute(s.stores, CallOf(pc), env);
            var pc' := Resume(pc, reply);
            && pc' != FetchRescue(j)
            && (Dispatched(pc', j) && !Dispatched(pc, j) ==>
                  HasRecord(s, j) && RecordOf(s, j).status.Queued? && j in w'.table.records && w'.table.records[j].status.Running?)
            && (pc' == FetchRecheck(j) ==> LeftQueued(s, j))
  {
    hide Strip, FingerprintOf, AsMap;
  }

  lemma ResumeErrorDispatch(pc: Pc, code: Code, j: JobId)
    requires !pc.Finished?
    ensures var pc' := Resume(pc, Failure(code));
            !Dispatched(pc', j) && pc' != FetchRecheck(j) && pc' != FetchRescue(j)
  {}

  lemma DispatchDeliver(s: System, op: OpId, env: Env, j: JobId)
    requires SoundInv(s) && IssuedInv(s) && DispatchInv(s, j) && Enabled(s, Deliver(op, env))
    ensures DispatchInv(Apply(s, Deliver(op, env)), j)
  {
    var s' := Apply(s, Deliver(op, env));
    ResumeDispatch(s, s.ops[op], env, j);
    if LeftQueued(s, j) {
      LeftQueuedStays(s, Deliver(op, env), j);
    }
    if Dispatched(s'.ops[op], j) && !Dispatched(s.ops[op], j) {
      assert forall o | o in s.ops :: !Dispatched(s.ops[o], j);
      assert LeftQueued(s', j);
    }
  }

  lemma DispatchStep(s: System, a: Action, j: JobId)
    requires SoundInv(s) && IssuedInv(s) && DispatchInv(s, j) && Enabled(s, a)
    ensures DispatchInv(Apply(s, a), j)
  {
    hide Stores.Execute, Resume, Strip;
    match a {
      case Start(op, request) =>
        assert !Dispatched(Begin(request), j) && !Begin(request).FetchRecheck? && !Begin(request).FetchRescue?;
      case Deliver(op, env) => DispatchDeliver(s, op, env, j);
      case Fail(op, code, lost) => ResumeErrorDispatch(s.ops[op], code, j);
    }
  }

  lemma {:induction false} DispatchAlways(dedupCap: int, outputCap: int, run: seq<Action>, j: JobId)
    requires Legal(Initial(dedupCap, outputCap), run)
    ensures DispatchInv(After(Initial(dedupCap, outputCap), run), j)
  {
    if run != [] {
      var init := run[..|run| - 1];
      DispatchAlways(dedupCap, outputCap, init, j);
      SoundAlways(dedupCap, outputCap, init);
      IssuedAlways(dedupCap, outputCap, init);
      DispatchStep(After(Initial(dedupCap, outputCap), init), run[|run| - 1], j);
    }
  }

  /** Over any run at most one FetchWork answers with a given job, whatever stale or repeated queue
      entries there were, and the rescue re-enqueue is never reached: once a dispatch CAS has been
      refused the job is not QUEUED and never will be again. */
  lemma DispatchedAtMostOnce(dedupCap: int, outputCap: int, run: seq<Action>, j: JobId, op: OpId, op': OpId)
    requires Legal(Initial(dedupCap, outputCap), run)
    ensures var s := After(Initial(dedupCap, outputCap), run);
            && (op in s.ops ==> s.ops[op] != FetchRescue(j))
            && (op in s.ops && op' in s.ops
                && s.ops[op].Finished? && s.ops[op].answer.Assigned? && s.ops[op].answer.jobId == j
                && s.ops[op'].Finished? && s.ops[op'].answer.Assigned? && s.ops[op'].answer.jobId == j
                ==> op == op')
  {
    hide Legal, After;
    DispatchAlways(dedupCap, outputCap, run, j);
  }
}
