/** No job is dropped, resubmissions and arbitrary reports allowed, as long as the calls that carry a
    job from one place to the next do not fail. Reads, deletions, flags and everything about reports
    may fail at will. */
module NoLoss {
  import opened Types
  import opened Messages
  import opened JobTable
  import opened OrderedKeys
  import opened Stores
  import opened Handlers
  import opened Protocol
  import opened Unrestricted
  import opened Agreement

  /** The calls that carry a job: creating it, queueing it, taking it out, and the queued-cancel and
      dispatch steps behind that. */
  predicate Carries(pc: Pc) {
    || pc.SubmitCreate? || pc.SubmitEnqueue?
    || pc.FetchDequeue? || pc.FetchCas?
    || pc.CancelRemove? || pc.CancelStore? || pc.CancelCas?
  }

  ghost predicate Careful(s: System, run: seq<Action>)
    requires Legal(s, run)
  {
    run == [] || (
      var init, a := run[..|run| - 1], run[|run| - 1];
      && Careful(s, init)
      && (a.Fail? ==> !Carries(After(s, init).ops[a.op])))
  }

  // ---------- What carefulness rules out ----------

  predicate HarmlessCall(call: Call) {
    match call
    case CreateJob(_, _) => false
    case DeleteJobIfStatus(_, _) => false
    case EnqueueJob(_) => false
    case DequeueJob(_) => false
    case RemoveJobIfPresent(_) => false
    case TransitionJobStatus(_, from, _, _) => !from.Queued?
    case _ => true
  }

  predicate Harmless(pc: Pc) {
    match pc
    case SubmitCompensate(_) => false
    case FetchRescue(_) => false
    case Lost(call) => HarmlessCall(call)
    case _ => true
  }

  ghost predicate GentleInv(s: System) {
    && (forall op | op in s.ops :: Harmless(s.ops[op]))
    && (forall id | id in s.stores.results.envelopes :: s.stores.results.envelopes[id].terminalStatus.Terminal())
  }

  lemma ErrorHarmless(pc: Pc, code: Code)
    requires !pc.Finished? && !pc.Lost? && !Carries(pc) && Harmless(pc)
    ensures Harmless(Resume(pc, Failure(code))) && Harmless(Lost(CallOf(pc)))
  {}

  lemma DeliveredHarmless(s: System, op: OpId, env: Env)
    requires Enabled(s, Deliver(op, env)) && Harmless(s.ops[op])
    requires forall j :: s.ops[op] == FetchRecheck(j) ==> LeftQueued(s, j)
    ensures Harmless(Apply(s, Deliver(op, env)).ops[op])
  {}

  lemma EnvelopesTerminal(w: World, call: Call, env: Env)
    requires forall id | id in w.results.envelopes :: w.results.envelopes[id].terminalStatus.Terminal()
    ensures var w' := Execute(w, call, env).0;
            forall id | id in w'.results.envelopes :: w'.results.envelopes[id].terminalStatus.Terminal()
  {}

  lemma {:induction false} GentleAlways(dedupCap: int, outputCap: int, run: seq<Action>)
    requires Legal(Initial(dedupCap, outputCap), run) && Careful(Initial(dedupCap, outputCap), run)
    ensures GentleInv(After(Initial(dedupCap, outputCap), run))
  {
    if run != [] {
      var init, a := run[..|run| - 1], run[|run| - 1];
      GentleAlways(dedupCap, outputCap, init);
      var s := After(Initial(dedupCap, outputCap), init);
      match a {
        case Start(op, request) => assert Harmless(Begin(request));
        case Deliver(op, env) =>
          forall j | s.ops[op] == FetchRecheck(j) ensures LeftQueued(s, j) {
            DispatchAlways(dedupCap, outputCap, init, j);
          }
          DeliveredHarmless(s, op, env);
          EnvelopesTerminal(s.stores, CallOf(s.ops[op]), env);
        case Fail(op, code, lost) => ErrorHarmless(s.ops[op], code);
      }
    }
  }

  // ---------- Every QUEUED job is somewhere ----------

  /** Operations with a QUEUED job in their hands. */
  predicate Carrying(pc: Pc, j: JobId) {
    match pc
    case SubmitEnqueue(id) => id == j
    case FetchCas(id, _) => id == j
    case CancelStore(id, _) => id == j
    case CancelCas(id, _) => id == j
    case _ => false
  }

  ghost predicate Held(s: System, j: JobId) {
    HasRecord(s, j) && RecordOf(s, j).status.Queued? ==>
      j in s.stores.queue || exists op :: op in s.ops && Carrying(s.ops[op], j)
  }

  /** If the job is QUEUED after a call, then what the call's own handler knew of it is not lost. */
  ghost predicate KeepsJob(s: System, op: OpId, env: Env, j: JobId)
    requires Enabled(s, Deliver(op, env))
  {
    var s' := Apply(s, Deliver(op, env));
    HasRecord(s', j) && RecordOf(s', j).status.Queued? ==>
      && (Carrying(s.ops[op], j) ==> j in s'.stores.queue || Carrying(s'.ops[op], j))
      && (j in s.stores.queue ==> j in s'.stores.queue || Carrying(s'.ops[op], j))
      && (!HasRecord(s, j) || !RecordOf(s, j).status.Queued? ==> Carrying(s'.ops[op], j))
  }

  ghost predicate Delivering(s: System, op: OpId, env: Env, j: JobId) {
    && Orderly(s) && Enabled(s, Deliver(op, env)) && j != "" && (s.ops[op].Lost? ==> HarmlessCall(s.ops[op].call))
    && forall id | id in s.stores.results.envelopes :: s.stores.results.envelopes[id].terminalStatus.Terminal()
  }

  lemma JobCallKeepsJob(s: System, op: OpId, env: Env, j: JobId)
    requires Delivering(s, op, env, j) && IsJobCall(CallOf(s.ops[op]))
    ensures KeepsJob(s, op, env, j)
  {
    hide FingerprintOf, AsMap, Strip;
    StatusAfter(s.stores, CallOf(s.ops[op]), env, j);
  }

  lemma ResultCallKeepsJob(s: System, op: OpId, env: Env, j: JobId)
    requires Delivering(s, op, env, j) && (CallOf(s.ops[op]).StoreResult? || CallOf(s.ops[op]).GetResult?)
    ensures KeepsJob(s, op, env, j)
  {
    hide Strip, Distinct;
  }

  lemma QueueCallKeepsJob(s: System, op: OpId, env: Env, j: JobId)
    requires Delivering(s, op, env, j)
    requires CallOf(s.ops[op]).EnqueueJob? || CallOf(s.ops[op]).DequeueJob? || CallOf(s.ops[op]).RemoveJobIfPresent?
    ensures KeepsJob(s, op, env, j)
  {
    hide Strip, Without, Distinct;
    QueueAfter(s.stores, CallOf(s.ops[op]), env, j);
  }

  lemma HandlerKeepsJob(s: System, op: OpId, env: Env, j: JobId)
    requires Delivering(s, op, env, j)
    ensures KeepsJob(s, op, env, j)
  {
    hide KeepsJob;
    if IsJobCall(CallOf(s.ops[op])) {
      JobCallKeepsJob(s, op, env, j);
    } else if CallOf(s.ops[op]).StoreResult? || CallOf(s.ops[op]).GetResult? {
      ResultCallKeepsJob(s, op, env, j);
    } else {
      QueueCallKeepsJob(s, op, env, j);
    }
  }

  lemma HeldStep(s: System, a: Action, j: JobId)
    requires Orderly(s) && GentleInv(s) && Held(s, j) && Enabled(s, a) && j != ""
    requires a.Fail? ==> !Carries(s.ops[a.op])
    ensures Held(Apply(s, a), j)
  {
    var s' := Apply(s, a);
    if HasRecord(s', j) && RecordOf(s', j).status.Queued? && j !in s'.stores.queue {
      if a.Deliver? {
        HandlerKeepsJob(s, a.op, a.env, j);
      }
      if !(a.Deliver? && Carrying(s'.ops[a.op], j)) {
        var op :| op in s.ops && Carrying(s.ops[op], j);
        assert s'.ops[op] == s.ops[op];
      }
    }
  }

  lemma {:induction false} HeldAlways(dedupCap: int, outputCap: int, run: seq<Action>, j: JobId)
    requires Legal(Initial(dedupCap, outputCap), run) && Careful(Initial(dedupCap, outputCap), run) && j != ""
    ensures Held(After(Initial(dedupCap, outputCap), run), j)
  {
    if run != [] {
      var init := run[..|run| - 1];
      HeldAlways(dedupCap, outputCap, init, j);
      GentleAlways(dedupCap, outputCap, init);
      OrderlyAlways(dedupCap, outputCap, init);
      HeldStep(After(Initial(dedupCap, outputCap), init), run[|run| - 1], j);
    }
  }

  /** In every state of a careful run a QUEUED job is in the queue, or in the hands of a SubmitJob about
      to enqueue it, a FetchWork that has dequeued it, or a CancelJob that has removed it. */
  lemma NoJobIsDropped(dedupCap: int, outputCap: int, run: seq<Action>, j: JobId)
    requires Legal(Initial(dedupCap, outputCap), run) && Careful(Initial(dedupCap, outputCap), run)
    ensures var s := After(Initial(dedupCap, outputCap), run);
            HasRecord(s, j) && RecordOf(s, j).status.Queued? ==>
              j in s.stores.queue || exists op :: op in s.ops && Carrying(s.ops[op], j)
  {
    var s := After(Initial(dedupCap, outputCap), run);
    IdsCanonical(dedupCap, outputCap, run);
    if HasRecord(s, j) {
      IssuedAlways(dedupCap, outputCap, run);
      HeldAlways(dedupCap, outputCap, run, j);
    }
  }

  /** So once every operation of a careful run has answered, all QUEUED jobs are in the queue. */
  lemma QuietSystemHasAllJobsQueued(dedupCap: int, outputCap: int, run: seq<Action>, j: JobId)
    requires Legal(Initial(dedupCap, outputCap), run) && Careful(Initial(dedupCap, outputCap), run)
    requires var s := After(Initial(dedupCap, outputCap), run);
             && (forall op | op in s.ops && !s.ops[op].Lost? :: s.ops[op].Finished?)
             && HasRecord(s, j) && RecordOf(s, j).status.Queued?
    ensures j in After(Initial(dedupCap, outputCap), run).stores.queue
  {
    NoJobIsDropped(dedupCap, outputCap, run, j);
  }
}
