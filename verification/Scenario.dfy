/** What the concrete runs share: one client, one job, and the single steps such a run is made of. */
module Scenario {
  import opened Types
  import opened JobTable
  import opened Stores
  import opened Handlers
  import opened Protocol
  import opened Agreement

  const SPEC := JobSpec("t", 0, 0, [])
  const KEY := "k"
  const JOB: JobId := "j"
  const PLAIN := Env(0, None)
  const STRANGER := Report("x", JOB, OutcomeFailed, 0, "", "", [], "")

  lemma Letters()
    ensures Strip("j") == "j" && Strip("k") == "k" && Strip("w") == "w" && Strip("t") == "t" && Strip("") == ""
  {
    assert StripLeft("j") == "j" && StripLeft("k") == "k" && StripLeft("w") == "w" && StripLeft("t") == "t";
  }

  /** The one job of the run: its status, whether it is queued, its envelope. */
  ghost predicate Stage(s: System, status: JobStatus, queued: bool, envelope: Option<Envelope>, started: nat) {
    && s.stores.table.records.Keys == {JOB} && s.stores.table.records[JOB].jobId == JOB
    && s.stores.table.records[JOB].status == status && s.stores.table.records[JOB].jobType == "t"
    && s.stores.table.dedup.entries == map[KEY := DedupEntry(FingerprintOf(SPEC), JOB)]
    && s.issued == {JOB}
    && s.stores.queue == (if queued then [JOB] else [])
    && s.stores.results.envelopes == (if envelope.Some? then map[JOB := envelope.value] else map[])
    && (forall op | op in s.ops :: op < started)
  }

  /** Which of the regime's two conditions the run keeps. */
  datatype Keeping = Keeping(neverRequeued: bool, workerOnly: bool)

  const PLAN: Plan := (worker: string, jobType: string) => Report("w", JOB, Succeeded, 0, "", "", [], "")

  /** One step of the run that no failure causes and that keeps what is to be kept. */
  ghost predicate Hop(k: Keeping, s: System, a: Action, s': System) {
    && Enabled(s, a) && s' == Apply(s, a) && !a.Fail?
    && (k.neverRequeued ==> !Requeues(s, a, JOB))
    && (k.workerOnly ==> ByWorker(PLAN, s, a, JOB))
  }

  ghost predicate Reaches(k: Keeping, s: System, run: seq<Action>, s': System) {
    && Legal(s, run) && After(s, run) == s'
    && (forall i | 0 <= i < |run| :: !run[i].Fail?)
    && (k.neverRequeued ==> NeverRequeued(s, run, JOB))
    && (k.workerOnly ==> WorkerOnly(PLAN, s, run, JOB))
  }

  lemma Then(k: Keeping, s: System, run: seq<Action>, mid: System, a: Action, s': System) returns (run': seq<Action>)
    requires Reaches(k, s, run, mid) && Hop(k, mid, a, s')
    ensures Reaches(k, s, run', s') && run' == run + [a]
  {
    Extend(s, run, a);
    run' := run + [a];
    assert run'[..|run|] == run;
  }

  /** The same without anything to keep: any enabled step, failures included. */
  lemma Next(s0: System, run: seq<Action>, s: System, a: Action) returns (run': seq<Action>, s': System)
    requires Legal(s0, run) && After(s0, run) == s && Enabled(s, a)
    ensures Legal(s0, run') && After(s0, run') == s' == Apply(s, a) && run' == run + [a]
  {
    Extend(s0, run, a);
    return run + [a], Apply(s, a);
  }

  // ---------- Single steps ----------

  lemma Starts(s: System, status: JobStatus, queued: bool, envelope: Option<Envelope>, op: OpId, request: Request)
    requires Stage(s, status, queued, envelope, op)
    ensures op !in s.ops && Enabled(s, Start(op, request))
    ensures Stage(Apply(s, Start(op, request)), status, queued, envelope, op + 1)
    ensures Apply(s, Start(op, request)).ops == s.ops[op := Begin(request)]
  {}

  lemma Beginnings()
    ensures Begin(SubmitJob(SPEC, KEY)) == SubmitCreate(SPEC, KEY)
    ensures Begin(CancelJob(JOB, "")) == CancelRead(JOB, "")
    ensures Begin(FetchWork("w", true)) == FetchDequeue("w")
    ensures Begin(ReportWorkOutcome(PLAN("w", "t"))) == ReportStore(PLAN("w", "t"))
    ensures Begin(ReportWorkOutcome(STRANGER)) == ReportStore(STRANGER)
  {
    Letters();
    assert StripLeft("x") == "x";
  }

  lemma Begins(k: Keeping, s: System, op: OpId, request: Request)
    requires op !in s.ops && !request.ReportWorkOutcome?
    ensures Hop(k, s, Start(op, request), s.(ops := s.ops[op := Begin(request)]))
  {}

  lemma Creates(k: Keeping, s: System)
    requires s.stores.table.records == map[] && s.stores.table.dedup == Dedup([], map[]) && s.stores.table.maxDedupKeys > 0
    requires s.stores.queue == [] && s.stores.results.envelopes == map[] && s.issued == {}
    requires s.ops == map[0 := SubmitCreate(SPEC, KEY)]
    ensures var s' := Apply(s, Deliver(0, Env(0, Some(JOB))));
            Enabled(s, Deliver(0, Env(0, Some(JOB)))) && Hop(k, s, Deliver(0, Env(0, Some(JOB))), s')
            && Stage(s', Queued, false, None, 1) && s'.ops == map[0 := SubmitEnqueue(JOB)]
  {
    hide Strip, FingerprintOf;
    Letters();
  }

  lemma Enqueues(k: Keeping, s: System, op: OpId, started: nat)
    requires Stage(s, Queued, false, None, started) && op in s.ops && s.ops[op] == SubmitEnqueue(JOB)
    ensures var s' := Apply(s, Deliver(op, PLAIN));
            Hop(k, s, Deliver(op, PLAIN), s') && Stage(s', Queued, true, None, started)
            && s'.ops == s.ops[op := Finished(Submitted(JOB, Queued))]
  {}

  lemma Dequeues(k: Keeping, s: System, e: Option<Envelope>, op: OpId, started: nat)
    requires Stage(s, Queued, true, e, started) && op in s.ops && s.ops[op] == FetchDequeue("w")
    ensures var s' := Apply(s, Deliver(op, PLAIN));
            Hop(k, s, Deliver(op, PLAIN), s') && Stage(s', Queued, false, e, started) && s'.ops == s.ops[op := FetchCas(JOB, "w")]
  {}

  /** A resubmission finds the job by its key, still QUEUED, and is about to enqueue it again. */
  lemma FindsByKey(s: System, op: OpId, queued: bool, started: nat)
    requires Stage(s, Queued, queued, None, started) && op in s.ops && s.ops[op] == SubmitCreate(SPEC, KEY)
    ensures var s' := Apply(s, Deliver(op, PLAIN));
            Enabled(s, Deliver(op, PLAIN)) && Stage(s', Queued, queued, None, started) && s'.ops == s.ops[op := SubmitEnqueue(JOB)]
  {
    Letters();
  }

  // ---------- The opening ----------

  /** A client submits the job. */
  lemma Opening(k: Keeping, cap: int, outputCap: int) returns (run: seq<Action>, s: System)
    ensures Reaches(k, Initial(cap, outputCap), run, s) && Stage(s, Queued, true, None, 1)
    ensures Legal(Initial(cap, outputCap), run) && After(Initial(cap, outputCap), run) == s
    ensures s.ops == map[0 := Finished(Submitted(JOB, Queued))]
    ensures run == [Start(0, SubmitJob(SPEC, KEY)), Deliver(0, Env(0, Some(JOB))), Deliver(0, PLAIN)]
  {
    hide Stores.Execute, Resume, Begin, FingerprintOf, Stage;
    Beginnings();
    var s0 := Initial(cap, outputCap);
    run, s := [], s0;
    Begins(k, s, 0, SubmitJob(SPEC, KEY));
    run := Then(k, s0, run, s, Start(0, SubmitJob(SPEC, KEY)), s.(ops := s.ops[0 := SubmitCreate(SPEC, KEY)]));
    s := s.(ops := s.ops[0 := SubmitCreate(SPEC, KEY)]);
    Creates(k, s);
    run := Then(k, s0, run, s, Deliver(0, Env(0, Some(JOB))), Apply(s, Deliver(0, Env(0, Some(JOB)))));
    s := Apply(s, Deliver(0, Env(0, Some(JOB))));
    Enqueues(k, s, 0, 1);
    run := Then(k, s0, run, s, Deliver(0, PLAIN), Apply(s, Deliver(0, PLAIN)));
    s := Apply(s, Deliver(0, PLAIN));
  }
}
