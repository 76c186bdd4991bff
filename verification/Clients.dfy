/** What clients and workers must do for every job's run to be regular, in terms of what they send: no two
    SubmitJobs share an idempotency key, and reports are what the worker loop builds from its assignments.
    Under that discipline status and envelope agree for every job, under any failures. */
module Clients {
  import opened Types
  import opened Messages
  import opened JobTable
  import opened Stores
  import opened Handlers
  import opened Protocol
  import opened Unrestricted
  import opened Agreement
  import opened Acceptance
  import opened WorkerReports

  // ---------- Keys are used once ----------

  function UsedKeys(run: seq<Action>): set<string> {
    if run == [] then {}
    else
      var a := run[|run| - 1];
      UsedKeys(run[..|run| - 1]) + if a.Start? then {SubmitKey(a.request)} - {""} else {}
  }

  /** No SubmitJob repeats an earlier one's key; blank keys may repeat. */
  predicate FreshKeys(run: seq<Action>) {
    run == [] || (
      var init, a := run[..|run| - 1], run[|run| - 1];
      FreshKeys(init) && (a.Start? ==> SubmitKey(a.request) !in UsedKeys(init)))
  }

  /** The key of a create that has not landed, or the empty string. */
  function PendingKey(pc: Pc): string {
    match pc
    case SubmitCreate(_, key) => Strip(key)
    case Lost(CreateJob(_, key)) => Strip(key)
    case _ => ""
  }

  predicate KeyPending(t: Table, pc: Pc, used: set<string>) {
    PendingKey(pc) != "" ==> PendingKey(pc) in used && PendingKey(pc) !in t.dedup.entries
  }

  ghost predicate KeysInv(s: System, used: set<string>) {
    && s.stores.table.dedup.entries.Keys <= used
    && (forall op | op in s.ops :: KeyPending(s.stores.table, s.ops[op], used))
    && (forall op, op' | op in s.ops && op' in s.ops && op != op' && PendingKey(s.ops[op]) != "" ::
          PendingKey(s.ops[op]) != PendingKey(s.ops[op']))
  }

  lemma EntriesFromCreates(w: World, pc: Pc, env: Env, k: string)
    requires !pc.Finished?
    ensures k in Execute(w, CallOf(pc), env).0.table.dedup.entries ==>
              k in w.table.dedup.entries || (k == PendingKey(pc) && k != "")
  {
    hide Strip, FingerprintOf, CreateJobOp;
    if CallOf(pc).CreateJob? {
      CreateAddsAtMost(w.table, CallOf(pc).spec, CallOf(pc).clientRequestId, env, k);
    }
  }

  lemma OnlyStartsBringKeys(pc: Pc, reply: Reply)
    requires !pc.Finished?
    ensures PendingKey(Resume(pc, reply)) == ""
    ensures PendingKey(Pc.Lost(CallOf(pc))) == PendingKey(pc)
  {}

  lemma BeginBringsKey(request: Request)
    ensures PendingKey(Begin(request)) == "" || PendingKey(Begin(request)) == SubmitKey(request)
  {}

  lemma KeysStep(s: System, a: Action, used: set<string>)
    requires KeysInv(s, used) && Enabled(s, a) && (a.Start? ==> SubmitKey(a.request) !in used)
    ensures KeysInv(Apply(s, a), used + if a.Start? then {SubmitKey(a.request)} - {""} else {})
  {
    hide Stores.Execute, Resume, Begin, CallOf, PendingKey, SubmitKey;
    match a {
      case Start(_, request) => BeginBringsKey(request);
      case Deliver(op, env) =>
        var s' := Apply(s, a);
        OnlyStartsBringKeys(s.ops[op], Execute(s.stores, CallOf(s.ops[op]), env).1);
        forall k | k in s'.stores.table.dedup.entries
          ensures k in s.stores.table.dedup.entries || (k == PendingKey(s.ops[op]) && k != "")
        {
          EntriesFromCreates(s.stores, s.ops[op], env, k);
        }
      case Fail(op, code, _) => OnlyStartsBringKeys(s.ops[op], Failure(code));
    }
  }

  /** A create whose key is not in the index makes a new job or none. */
  lemma FreshCreateIsNew(w: World, spec: JobSpec, key: string, env: Env, j: JobId)
    requires Strip(key) == "" || Strip(key) !in w.table.dedup.entries
    ensures CreateJobOp(w.table, spec, key, env).1 == Created(j, Queued) ==> env.newId == Some(j)
  {
    hide Strip, FingerprintOf;
  }

  lemma NeverRequeuesNow(s: System, a: Action, used: set<string>, j: JobId)
    requires KeysInv(s, used) && Enabled(s, a)
    ensures !Requeues(s, a, j)
  {
    hide Strip, CreateJobOp;
    if a.Deliver? && s.ops[a.op].SubmitCreate? {
      assert KeyPending(s.stores.table, s.ops[a.op], used);
      FreshCreateIsNew(s.stores, s.ops[a.op].spec, s.ops[a.op].clientRequestId, a.env, j);
    }
  }

  /** If no SubmitJob repeats a key, no job is ever put back in the queue, lost and late creates included. */
  lemma {:induction false} FreshKeysNeverRequeue(dedupCap: int, outputCap: int, run: seq<Action>, j: JobId)
    requires Legal(Initial(dedupCap, outputCap), run) && FreshKeys(run)
    ensures KeysInv(After(Initial(dedupCap, outputCap), run), UsedKeys(run))
    ensures NeverRequeued(Initial(dedupCap, outputCap), run, j)
  {
    hide KeysInv, Requeues, Enabled, Apply;
    if run == [] {
      NoKeysYet(dedupCap, outputCap);
    } else {
      var init, a := run[..|run| - 1], run[|run| - 1];
      FreshKeysNeverRequeue(dedupCap, outputCap, init, j);
      KeysStep(After(Initial(dedupCap, outputCap), init), a, UsedKeys(init));
      NeverRequeuesNow(After(Initial(dedupCap, outputCap), init), a, UsedKeys(init), j);
    }
  }

  lemma NoKeysYet(dedupCap: int, outputCap: int)
    ensures KeysInv(Initial(dedupCap, outputCap), {})
  {}

  // ---------- Reports come from the worker loop ----------

  /** Every report is the one the worker loop builds for a job some FetchWork has assigned. */
  ghost predicate FromWorkers(codec: Codec, s: System, run: seq<Action>)
    requires Legal(s, run)
  {
    run == [] || (
      var init, a := run[..|run| - 1], run[|run| - 1];
      FromWorkers(codec, s, init) && (a.Start? && a.request.ReportWorkOutcome? ==> IsWorkers(codec, After(s, init), a.request.report)))
  }

  ghost predicate IsWorkers(codec: Codec, s: System, report: Report) {
    exists op, worker, id, jobType ::
      op in s.ops && s.ops[op] == Finished(Assigned(worker, id, jobType)) && report == WorkerReport(codec, worker, id, jobType)
  }

  /** The worker's report as a function of its assignment. */
  function WorkerPlan(codec: Codec, j: JobId): Plan {
    (worker: string, jobType: string) => WorkerReport(codec, worker, j, jobType)
  }

  lemma ReportsFollowThePlan(codec: Codec, s: System, a: Action, j: JobId)
    requires a.Start? && a.request.ReportWorkOutcome? ==> IsWorkers(codec, s, a.request.report)
    requires forall op | op in s.ops && s.ops[op].Finished? && s.ops[op].answer.Assigned? :: Canonical(s.ops[op].answer.jobId)
    ensures ByWorker(WorkerPlan(codec, j), s, a, j)
  {
    hide Strip;
    if a.Start? && a.request.ReportWorkOutcome? && Strip(a.request.report.jobId) == j {
      var op, worker, id, jobType :| op in s.ops && s.ops[op] == Finished(Assigned(worker, id, jobType))
        && a.request.report == WorkerReport(codec, worker, id, jobType);
      NamesTheJob(codec, worker, id, jobType);
      assert a.request.report == WorkerPlan(codec, j)(worker, jobType);
    }
  }

  lemma NamesTheJob(codec: Codec, worker: string, id: JobId, jobType: string)
    ensures WorkerReport(codec, worker, id, jobType).jobId == id
  {}

  lemma AssignedIdsCanonical(dedupCap: int, outputCap: int, run: seq<Action>, op: OpId)
    requires Legal(Initial(dedupCap, outputCap), run)
    ensures var s := After(Initial(dedupCap, outputCap), run);
            op in s.ops && s.ops[op].Finished? && s.ops[op].answer.Assigned? ==> Canonical(s.ops[op].answer.jobId)
  {
    hide Canonical;
    var s := After(Initial(dedupCap, outputCap), run);
    if op in s.ops && s.ops[op].Finished? && s.ops[op].answer.Assigned? {
      DispatchAlways(dedupCap, outputCap, run, s.ops[op].answer.jobId);
      assert Dispatched(s.ops[op], s.ops[op].answer.jobId);
      IdsCanonical(dedupCap, outputCap, run);
    }
  }

  lemma {:induction false} WorkersFollowThePlan(codec: Codec, dedupCap: int, outputCap: int, run: seq<Action>, j: JobId)
    requires Legal(Initial(dedupCap, outputCap), run) && FromWorkers(codec, Initial(dedupCap, outputCap), run)
    ensures WorkerOnly(WorkerPlan(codec, j), Initial(dedupCap, outputCap), run, j)
  {
    hide ByWorker, IsWorkers, WorkerPlan, Enabled;
    if run != [] {
      var init := run[..|run| - 1];
      var s := After(Initial(dedupCap, outputCap), init);
      WorkersFollowThePlan(codec, dedupCap, outputCap, init, j);
      forall op | op in s.ops && s.ops[op].Finished? && s.ops[op].answer.Assigned? ensures Canonical(s.ops[op].answer.jobId) {
        AssignedIdsCanonical(dedupCap, outputCap, init, op);
      }
      ReportsFollowThePlan(codec, s, run[|run| - 1], j);
    }
  }

  // ---------- So ----------

  /** With fresh keys and worker reports only, whatever fails and whatever lands late, every terminal job
      has an envelope that carries its status, and every job a SubmitJob has answered with exists. */
  lemma DisciplinedRunsAgree(codec: Codec, dedupCap: int, outputCap: int, run: seq<Action>, j: JobId)
    requires Legal(Initial(dedupCap, outputCap), run)
    requires FreshKeys(run) && FromWorkers(codec, Initial(dedupCap, outputCap), run)
    ensures var s := After(Initial(dedupCap, outputCap), run);
            && (HasRecord(s, j) && RecordOf(s, j).status.Terminal() ==>
                  HasEnvelope(s, j) && s.stores.results.envelopes[j].terminalStatus == RecordOf(s, j).status)
            && (forall op | op in s.ops && AcceptedAs(s.ops[op], j) :: HasRecord(s, j))
  {
    hide Legal, After, FromWorkers, FreshKeys, NeverRequeued, WorkerOnly;
    FreshKeysNeverRequeue(dedupCap, outputCap, run, j);
    WorkersFollowThePlan(codec, dedupCap, outputCap, run, j);
    StatusAndEnvelopeAgree(WorkerPlan(codec, j), dedupCap, outputCap, run, j);
    var s := After(Initial(dedupCap, outputCap), run);
    forall op | op in s.ops && AcceptedAs(s.ops[op], j) ensures HasRecord(s, j) {
      AcceptedJobsStay(dedupCap, outputCap, run, j, op);
    }
  }
}
