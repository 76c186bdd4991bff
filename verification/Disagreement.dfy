/** Why the agreement theorem asks for a regular run: without any failure, one resubmission at the
    wrong moment, or one report that is not the worker's, leaves a status and an envelope that differ. */
module Disagreement {
  import opened Types
  import opened JobTable
  import opened OrderedKeys
  import opened Stores
  import opened Handlers
  import opened Protocol
  import opened Unrestricted
  import opened Agreement
  import opened Scenario

  // ---------- Single steps ----------

  lemma ReadsQueued(k: Keeping, s: System)
    requires Stage(s, Queued, true, None, 2) && 1 in s.ops && s.ops[1] == CancelRead(JOB, "")
    ensures var s' := Apply(s, Deliver(1, PLAIN));
            Hop(k, s, Deliver(1, PLAIN), s') && Stage(s', Queued, true, None, 2) && s'.ops == s.ops[1 := CancelRemove(JOB, "")]
  {}

  lemma Removes(k: Keeping, s: System)
    requires Stage(s, Queued, true, None, 4) && 1 in s.ops && s.ops[1] == CancelRemove(JOB, "")
    ensures var s' := Apply(s, Deliver(1, PLAIN));
            Hop(k, s, Deliver(1, PLAIN), s') && Stage(s', Queued, false, None, 4) && s'.ops == s.ops[1 := CancelStore(JOB, "")]
  {
    assert Without([JOB], JOB) == [];
  }

  lemma StoresFirst(k: Keeping, s: System, op: OpId, queued: bool, started: nat)
    requires Stage(s, Queued, queued, None, started) && op in s.ops
    requires (s.ops[op].CancelStore? && s.ops[op].jobId == JOB)
             || (s.ops[op].ReportStore? && s.ops[op].report == STRANGER)
    ensures var s' := Apply(s, Deliver(op, PLAIN));
            Hop(k, s, Deliver(op, PLAIN), s')
            && (if s.ops[op].CancelStore?
                then Stage(s', Queued, queued, Some(CancelEnvelope(s.ops[op].reason)), started)
                     && s'.ops == s.ops[op := CancelCas(JOB, s.ops[op].reason)]
                else Stage(s', Queued, queued, Some(ReportEnvelope(STRANGER)), started) && s'.ops == s.ops[op := ReportCas(STRANGER)])
  {
    hide FingerprintOf, Strip;
  }

  lemma WinsCas(k: Keeping, s: System, e: Option<Envelope>, op: OpId, started: nat)
    requires Stage(s, Queued, false, e, started) && op in s.ops && s.ops[op] == FetchCas(JOB, "w")
    ensures var s' := Apply(s, Deliver(op, PLAIN));
            Hop(k, s, Deliver(op, PLAIN), s') && Stage(s', Running, false, e, started) && s'.ops == s.ops[op := FetchRead(JOB, "w")]
  {}

  lemma Assigns(k: Keeping, s: System, e: Option<Envelope>, op: OpId, started: nat)
    requires Stage(s, Running, false, e, started) && op in s.ops && s.ops[op] == FetchRead(JOB, "w")
    ensures var s' := Apply(s, Deliver(op, PLAIN));
            Hop(k, s, Deliver(op, PLAIN), s') && Stage(s', Running, false, e, started)
            && s'.ops == s.ops[op := Finished(Assigned("w", JOB, "t"))]
  {}

  lemma BeginsReport(k: Keeping, s: System, op: OpId, fetch: OpId)
    requires op !in s.ops && fetch in s.ops && s.ops[fetch] == Finished(Assigned("w", JOB, "t"))
    ensures Hop(k, s, Start(op, ReportWorkOutcome(PLAN("w", "t"))), s.(ops := s.ops[op := ReportStore(PLAN("w", "t"))]))
  {
    Letters();
  }

  lemma StoresSecond(k: Keeping, s: System, e: Envelope, op: OpId, started: nat)
    requires Stage(s, Running, false, Some(e), started) && op in s.ops && s.ops[op] == ReportStore(PLAN("w", "t"))
    ensures var s' := Apply(s, Deliver(op, PLAIN));
            Hop(k, s, Deliver(op, PLAIN), s') && Stage(s', Running, false, Some(e), started)
            && s'.ops == s.ops[op := ReportCas(PLAN("w", "t"))]
  {}

  lemma Completes(k: Keeping, s: System, e: Envelope, op: OpId, started: nat)
    requires Stage(s, Running, false, Some(e), started) && op in s.ops && s.ops[op] == ReportCas(PLAN("w", "t"))
    ensures var s' := Apply(s, Deliver(op, PLAIN));
            Hop(k, s, Deliver(op, PLAIN), s') && Stage(s', Done, false, Some(e), started)
  {}
  // ---------- The runs ----------

  /** CancelJob reads the job QUEUED, and FetchWork takes it out of the queue. */
  lemma CancelOverlapsFetch(k: Keeping, s0: System, run0: seq<Action>, s1: System) returns (run: seq<Action>, s: System)
    requires Reaches(k, s0, run0, s1)
    requires Stage(s1, Queued, true, None, 1)
    ensures Reaches(k, s0, run, s)
    ensures Stage(s, Queued, false, None, 3)
    ensures 1 in s.ops && s.ops[1] == CancelRemove(JOB, "") && 2 in s.ops && s.ops[2] == FetchCas(JOB, "w")
  {
    hide Stores.Execute, Resume, Begin, FingerprintOf, Reaches;
    Beginnings();
    run, s := run0, s1;
    Begins(k, s, 1, CancelJob(JOB, ""));
    run := Then(k, s0, run, s, Start(1, CancelJob(JOB, "")), s.(ops := s.ops[1 := CancelRead(JOB, "")]));
    s := s.(ops := s.ops[1 := CancelRead(JOB, "")]);
    ReadsQueued(k, s);
    run := Then(k, s0, run, s, Deliver(1, PLAIN), Apply(s, Deliver(1, PLAIN)));
    s := Apply(s, Deliver(1, PLAIN));
    Begins(k, s, 2, FetchWork("w", true));
    run := Then(k, s0, run, s, Start(2, FetchWork("w", true)), s.(ops := s.ops[2 := FetchDequeue("w")]));
    s := s.(ops := s.ops[2 := FetchDequeue("w")]);
    Dequeues(k, s, None, 2, 3);
    run := Then(k, s0, run, s, Deliver(2, PLAIN), Apply(s, Deliver(2, PLAIN)));
    s := Apply(s, Deliver(2, PLAIN));
  }

  /** A resubmission puts the job back; CancelJob removes it and stores its envelope. */
  lemma ResubmitThenCancel(k: Keeping, s0: System, run0: seq<Action>, s1: System) returns (run: seq<Action>, s: System)
    requires Reaches(k, s0, run0, s1)
    requires !k.neverRequeued && Stage(s1, Queued, false, None, 3)
    requires 1 in s1.ops && s1.ops[1] == CancelRemove(JOB, "") && 2 in s1.ops && s1.ops[2] == FetchCas(JOB, "w")
    ensures Reaches(k, s0, run, s)
    ensures Stage(s, Queued, false, Some(CancelEnvelope("")), 4)
    ensures 2 in s.ops && s.ops[2] == FetchCas(JOB, "w")
  {
    hide Stores.Execute, Resume, Begin, FingerprintOf, Enabled, ByWorker, Reaches;
    Beginnings();
    run, s := run0, s1;
    Begins(k, s, 3, SubmitJob(SPEC, KEY));
    run := Then(k, s0, run, s, Start(3, SubmitJob(SPEC, KEY)), s.(ops := s.ops[3 := SubmitCreate(SPEC, KEY)]));
    s := s.(ops := s.ops[3 := SubmitCreate(SPEC, KEY)]);
    FindsByKey(s, 3, false, 4);
    run := Then(k, s0, run, s, Deliver(3, PLAIN), Apply(s, Deliver(3, PLAIN)));
    s := Apply(s, Deliver(3, PLAIN));
    Enqueues(k, s, 3, 4);
    run := Then(k, s0, run, s, Deliver(3, PLAIN), Apply(s, Deliver(3, PLAIN)));
    s := Apply(s, Deliver(3, PLAIN));
    Removes(k, s);
    run := Then(k, s0, run, s, Deliver(1, PLAIN), Apply(s, Deliver(1, PLAIN)));
    s := Apply(s, Deliver(1, PLAIN));
    StoresFirst(k, s, 1, false, 4);
    run := Then(k, s0, run, s, Deliver(1, PLAIN), Apply(s, Deliver(1, PLAIN)));
    s := Apply(s, Deliver(1, PLAIN));
  }

  /** FetchWork's CAS wins, and the worker reports success over the envelope already there. */
  lemma WorkerFinishes(k: Keeping, s0: System, run0: seq<Action>, s1: System, e: Envelope, fetch: OpId, next: OpId)
      returns (run: seq<Action>, s: System)
    requires Reaches(k, s0, run0, s1)
    requires Stage(s1, Queued, false, Some(e), next)
    requires fetch in s1.ops && s1.ops[fetch] == FetchCas(JOB, "w")
    ensures Reaches(k, s0, run, s)
    ensures Stage(s, Done, false, Some(e), next + 1)
  {
    hide Stores.Execute, Resume, Begin, FingerprintOf, Reaches;
    run, s := run0, s1;
    WinsCas(k, s, Some(e), fetch, next);
    run := Then(k, s0, run, s, Deliver(fetch, PLAIN), Apply(s, Deliver(fetch, PLAIN)));
    s := Apply(s, Deliver(fetch, PLAIN));
    Assigns(k, s, Some(e), fetch, next);
    run := Then(k, s0, run, s, Deliver(fetch, PLAIN), Apply(s, Deliver(fetch, PLAIN)));
    s := Apply(s, Deliver(fetch, PLAIN));
    BeginsReport(k, s, next, fetch);
    run := Then(k, s0, run, s, Start(next, ReportWorkOutcome(PLAN("w", "t"))), s.(ops := s.ops[next := ReportStore(PLAN("w", "t"))]));
    s := s.(ops := s.ops[next := ReportStore(PLAN("w", "t"))]);
    StoresSecond(k, s, e, next, next + 1);
    run := Then(k, s0, run, s, Deliver(next, PLAIN), Apply(s, Deliver(next, PLAIN)));
    s := Apply(s, Deliver(next, PLAIN));
    Completes(k, s, e, next, next + 1);
    run := Then(k, s0, run, s, Deliver(next, PLAIN), Apply(s, Deliver(next, PLAIN)));
    s := Apply(s, Deliver(next, PLAIN));
  }

  /** Without a single failure, and with the worker's own reports only, one resubmission under a used
      key can leave a DONE job with a CANCELED envelope. */
  lemma ResubmissionBreaksAgreement(cap: int, outputCap: int) returns (run: seq<Action>)
    ensures var s0 := Initial(cap, outputCap);
            && Legal(s0, run) && WorkerOnly(PLAN, s0, run, JOB) && (forall i | 0 <= i < |run| :: !run[i].Fail?)
            && var s := After(s0, run);
               HasRecord(s, JOB) && RecordOf(s, JOB).status.Done?
               && HasEnvelope(s, JOB) && s.stores.results.envelopes[JOB].terminalStatus.Canceled?
  {
    var k, s := Keeping(false, true), Initial(cap, outputCap);
    run, s := Opening(k, cap, outputCap);
    run, s := CancelOverlapsFetch(k, Initial(cap, outputCap), run, s);
    run, s := ResubmitThenCancel(k, Initial(cap, outputCap), run, s);
    run, s := WorkerFinishes(k, Initial(cap, outputCap), run, s, CancelEnvelope(""), 2, 4);
  }

  /** Somebody else reports a failure of the still QUEUED job; then FetchWork dequeues it. */
  lemma StrangerReports(k: Keeping, s0: System, run0: seq<Action>, s1: System) returns (run: seq<Action>, s: System)
    requires Reaches(k, s0, run0, s1)
    requires !k.workerOnly && Stage(s1, Queued, true, None, 1)
    ensures Reaches(k, s0, run, s)
    ensures Stage(s, Queued, false, Some(ReportEnvelope(STRANGER)), 3)
    ensures 2 in s.ops && s.ops[2] == FetchCas(JOB, "w")
  {
    hide Stores.Execute, Resume, Begin, FingerprintOf, Reaches;
    Beginnings();
    run, s := run0, s1;
    run := Then(k, s0, run, s, Start(1, ReportWorkOutcome(STRANGER)), s.(ops := s.ops[1 := ReportStore(STRANGER)]));
    s := s.(ops := s.ops[1 := ReportStore(STRANGER)]);
    StoresFirst(k, s, 1, true, 2);
    run := Then(k, s0, run, s, Deliver(1, PLAIN), Apply(s, Deliver(1, PLAIN)));
    s := Apply(s, Deliver(1, PLAIN));
    Begins(k, s, 2, FetchWork("w", true));
    run := Then(k, s0, run, s, Start(2, FetchWork("w", true)), s.(ops := s.ops[2 := FetchDequeue("w")]));
    s := s.(ops := s.ops[2 := FetchDequeue("w")]);
    Dequeues(k, s, Some(ReportEnvelope(STRANGER)), 2, 3);
    run := Then(k, s0, run, s, Deliver(2, PLAIN), Apply(s, Deliver(2, PLAIN)));
    s := Apply(s, Deliver(2, PLAIN));
  }

  /** Without a single failure or resubmission, one report from elsewhere can leave a DONE job with a
      FAILED envelope. */
  lemma StrangerBreaksAgreement(cap: int, outputCap: int) returns (run: seq<Action>)
    ensures var s0 := Initial(cap, outputCap);
            && Legal(s0, run) && NeverRequeued(s0, run, JOB) && (forall i | 0 <= i < |run| :: !run[i].Fail?)
            && var s := After(s0, run);
               HasRecord(s, JOB) && RecordOf(s, JOB).status.Done?
               && HasEnvelope(s, JOB) && s.stores.results.envelopes[JOB].terminalStatus.Failed?
  {
    var k, s := Keeping(true, false), Initial(cap, outputCap);
    run, s := Opening(k, cap, outputCap);
    run, s := StrangerReports(k, Initial(cap, outputCap), run, s);
    run, s := WorkerFinishes(k, Initial(cap, outputCap), run, s, ReportEnvelope(STRANGER), 2, 3);
  }
}
