/** What an accepted SubmitJob is worth. The job it answered with exists for good, whatever fails, as long
    as no resubmission puts the job back in the queue: such a resubmission, when its own enqueue fails,
    compensates by deleting the job it found, although an earlier caller has been told it is accepted. */
module Acceptance {
  import opened Types
  import opened Messages
  import opened JobTable
  import opened Stores
  import opened Handlers
  import opened Protocol
  import opened Unrestricted
  import opened Agreement
  import opened Scenario

  predicate AcceptedAs(pc: Pc, j: JobId) {
    pc.Finished? && pc.answer.Submitted? && pc.answer.jobId == j
  }

  /** Operations that delete `j` if it is still QUEUED. */
  predicate Deletes(pc: Pc, j: JobId) {
    match pc
    case SubmitCompensate(id) => id == j
    case Lost(DeleteJobIfStatus(id, _)) => id == j
    case _ => false
  }

  // ---------- One step ----------

  /** A record only goes by a deletion of a QUEUED job, and never becomes QUEUED again. */
  lemma CallDeletes(w: World, pc: Pc, env: Env, j: JobId)
    requires !pc.Finished? && Sound(pc) && env.newId != Some(j) && j in w.table.records
    ensures var w' := Execute(w, CallOf(pc), env).0;
            && (j !in w'.table.records <==> Deletes(pc, j) && w.table.records[j].status.Queued?)
            && (j in w'.table.records && w'.table.records[j].status.Queued? ==> w.table.records[j].status.Queued?)
  {
    hide Strip, FingerprintOf, AsMap;
    CallsAreOrdinary(pc);
  }

  /** How a handler comes to hold a submission of `j`, or to have answered with it. */
  lemma ResumeSubmits(w: World, pc: Pc, env: Env, j: JobId)
    requires !pc.Finished? && TableOk(w.table)
    ensures var (w', reply) := Execute(w, CallOf(pc), env);
            var pc' := Resume(pc, reply);
            && !Deletes(pc', j)
            && (pc' == SubmitEnqueue(j) ==> pc.SubmitCreate? && reply == Created(j, Queued) && j in w'.table.records
                                            && (j in w.table.records || env.newId == Some(j)))
            && (AcceptedAs(pc', j) ==>
                  pc == SubmitEnqueue(j)
                  || (pc.SubmitCreate? && j in w'.table.records && (j in w.table.records || env.newId == Some(j))
                      && !w'.table.records[j].status.Queued?))
  {
    hide Strip, FingerprintOf, AsMap;
  }

  lemma ErrorSubmits(pc: Pc, code: Code, j: JobId)
    requires !pc.Finished? && !pc.Lost?
    ensures var pc' := Resume(pc, Failure(code));
            && pc' != SubmitEnqueue(j) && !AcceptedAs(pc', j)
            && (Deletes(pc', j) ==> pc == SubmitEnqueue(j))
            && (Deletes(Lost(CallOf(pc)), j) ==> Deletes(pc, j))
  {}

  lemma BeginSubmits(request: Request, j: JobId)
    ensures Begin(request) != SubmitEnqueue(j) && !AcceptedAs(Begin(request), j) && !Deletes(Begin(request), j)
  {}

  // ---------- Accepted jobs stay ----------

  /** Where the job's one submission is: not yet made, waiting for its enqueue, answered or given up
      without harm, or being compensated. */
  datatype Phase = Unmade | Waiting(op: OpId) | Settled | Compensated

  predicate FitsPhase(op: OpId, pc: Pc, j: JobId, phase: Phase, safe: bool) {
    && (pc == SubmitEnqueue(j) ==> phase == Waiting(op))
    && (Deletes(pc, j) ==> phase.Compensated?)
    && (AcceptedAs(pc, j) ==> safe)
  }

  /** The record exists and nobody will delete it. */
  predicate Safe(s: System, j: JobId, phase: Phase) {
    HasRecord(s, j) && (phase.Settled? || !RecordOf(s, j).status.Queued?)
  }

  ghost predicate PhaseInv(s: System, j: JobId, phase: Phase) {
    && (phase.Unmade? <==> j !in s.issued)
    && (phase.Waiting? ==> phase.op in s.ops && s.ops[phase.op] == SubmitEnqueue(j) && HasRecord(s, j))
    && (forall op | op in s.ops :: FitsPhase(op, s.ops[op], j, phase, Safe(s, j, phase)))
  }

  function NextPhase(s: System, a: Action, j: JobId, phase: Phase): Phase
    requires Enabled(s, a)
  {
    match a
    case Start(_, _) => phase
    case Deliver(op, env) =>
      if Apply(s, a).ops[op] == SubmitEnqueue(j) then Waiting(op)
      else if s.ops[op] == SubmitEnqueue(j) || env.newId == Some(j) then Settled
      else phase
    case Fail(op, _, _) => if s.ops[op] == SubmitEnqueue(j) then Compensated else phase
  }

  lemma DeliverKeepsPhase(s: System, a: Action, j: JobId, phase: Phase)
    requires Orderly(s) && TableOk(s.stores.table) && Enabled(s, a) && a.Deliver? && !Requeues(s, a, j)
    requires PhaseInv(s, j, phase)
    ensures PhaseInv(Apply(s, a), j, NextPhase(s, a, j, phase))
  {
    hide Stores.Execute, Resume, CallOf, TableOk;
    var s', pc := Apply(s, a), s.ops[a.op];
    ResumeSubmits(s.stores, pc, a.env, j);
    assert FitsPhase(a.op, pc, j, phase, Safe(s, j, phase));
    if HasRecord(s, j) {
      CallDeletes(s.stores, pc, a.env, j);
    }
    forall op | op in s'.ops ensures FitsPhase(op, s'.ops[op], j, NextPhase(s, a, j, phase), Safe(s', j, NextPhase(s, a, j, phase))) {
      if op != a.op {
        assert FitsPhase(op, s.ops[op], j, phase, Safe(s, j, phase));
      }
    }
  }

  lemma OtherKeepsPhase(s: System, a: Action, j: JobId, phase: Phase)
    requires Enabled(s, a) && !a.Deliver? && PhaseInv(s, j, phase)
    ensures PhaseInv(Apply(s, a), j, NextPhase(s, a, j, phase))
  {
    hide Begin, Resume, CallOf;
    var s', phase' := Apply(s, a), NextPhase(s, a, j, phase);
    if a.Start? {
      BeginSubmits(a.request, j);
    } else {
      ErrorSubmits(s.ops[a.op], a.code, j);
      assert FitsPhase(a.op, s.ops[a.op], j, phase, Safe(s, j, phase));
    }
    forall op | op in s'.ops ensures FitsPhase(op, s'.ops[op], j, phase', Safe(s', j, phase')) {
      if op in s.ops && s'.ops[op] == s.ops[op] {
        assert FitsPhase(op, s.ops[op], j, phase, Safe(s, j, phase));
      }
    }
  }

  lemma {:induction false} PhaseAlways(dedupCap: int, outputCap: int, run: seq<Action>, j: JobId) returns (phase: Phase)
    requires Legal(Initial(dedupCap, outputCap), run) && NeverRequeued(Initial(dedupCap, outputCap), run, j)
    ensures PhaseInv(After(Initial(dedupCap, outputCap), run), j, phase)
  {
    if run == [] {
      return Unmade;
    }
    var init, a := run[..|run| - 1], run[|run| - 1];
    var s := After(Initial(dedupCap, outputCap), init);
    phase := PhaseAlways(dedupCap, outputCap, init, j);
    OrderlyAlways(dedupCap, outputCap, init);
    if a.Deliver? {
      DeliverKeepsPhase(s, a, j, phase);
    } else {
      OtherKeepsPhase(s, a, j, phase);
    }
    phase := NextPhase(s, a, j, phase);
  }

  /** Over every run in which no resubmission re-enqueues the job, under any failures and late effects, a
      job some SubmitJob has answered with exists. */
  lemma AcceptedJobsStay(dedupCap: int, outputCap: int, run: seq<Action>, j: JobId, op: OpId)
    requires Legal(Initial(dedupCap, outputCap), run) && NeverRequeued(Initial(dedupCap, outputCap), run, j)
    requires var s := After(Initial(dedupCap, outputCap), run); op in s.ops && AcceptedAs(s.ops[op], j)
    ensures HasRecord(After(Initial(dedupCap, outputCap), run), j)
  {
    var phase := PhaseAlways(dedupCap, outputCap, run, j);
    var s := After(Initial(dedupCap, outputCap), run);
    assert FitsPhase(op, s.ops[op], j, phase, Safe(s, j, phase));
  }

  // ---------- Exactly when an accepted job is gone ----------

  /** A compensation arrives at a job that is still QUEUED. */
  predicate Withdraws(s: System, a: Action, j: JobId)
    requires Enabled(s, a)
  {
    a.Deliver? && Deletes(s.ops[a.op], j) && HasRecord(s, j) && RecordOf(s, j).status.Queued?
  }

  ghost predicate NeverWithdrawn(s: System, run: seq<Action>, j: JobId)
    requires Legal(s, run)
  {
    run == [] || (
      var init := run[..|run| - 1];
      NeverWithdrawn(s, init, j) && !Withdraws(After(s, init), run[|run| - 1], j))
  }

  /** Operations that know the job was made. */
  predicate Knows(pc: Pc, j: JobId) { pc == SubmitEnqueue(j) || AcceptedAs(pc, j) }

  ghost predicate MadeInv(s: System, j: JobId, never: bool) {
    && (j !in s.issued ==> never)
    && (HasRecord(s, j) ==> never)
    && (forall op | op in s.ops && Knows(s.ops[op], j) :: j in s.issued && (never ==> HasRecord(s, j)))
  }

  lemma DeliverKeepsMade(s: System, a: Action, j: JobId, never: bool)
    requires Orderly(s) && TableOk(s.stores.table) && Enabled(s, a) && a.Deliver? && MadeInv(s, j, never)
    ensures MadeInv(Apply(s, a), j, never && !Withdraws(s, a, j))
  {
    hide Stores.Execute, Resume, CallOf, TableOk;
    var s', pc := Apply(s, a), s.ops[a.op];
    ResumeSubmits(s.stores, pc, a.env, j);
    if HasRecord(s, j) {
      CallDeletes(s.stores, pc, a.env, j);
    } else if HasRecord(s', j) {
      CallsAreOrdinary(pc);
      CallEvolves(s.stores, CallOf(pc), a.env, j);
    }
  }

  lemma OtherKeepsMade(s: System, a: Action, j: JobId, never: bool)
    requires Enabled(s, a) && !a.Deliver? && MadeInv(s, j, never)
    ensures MadeInv(Apply(s, a), j, never)
  {
    hide Begin, Resume, CallOf;
    if a.Start? {
      BeginSubmits(a.request, j);
    } else {
      ErrorSubmits(s.ops[a.op], a.code, j);
    }
  }

  lemma {:induction false} MadeAlways(dedupCap: int, outputCap: int, run: seq<Action>, j: JobId)
    requires Legal(Initial(dedupCap, outputCap), run)
    ensures MadeInv(After(Initial(dedupCap, outputCap), run), j, NeverWithdrawn(Initial(dedupCap, outputCap), run, j))
  {
    if run != [] {
      var init, a := run[..|run| - 1], run[|run| - 1];
      var s, never := After(Initial(dedupCap, outputCap), init), NeverWithdrawn(Initial(dedupCap, outputCap), init, j);
      MadeAlways(dedupCap, outputCap, init, j);
      OrderlyAlways(dedupCap, outputCap, init);
      if a.Deliver? {
        DeliverKeepsMade(s, a, j, never);
      } else {
        OtherKeepsMade(s, a, j, never);
      }
    }
  }

  /** Over every run without restriction, a job some SubmitJob has answered with exists if and only if no
      compensation ever arrived at it while it was QUEUED. */
  lemma AcceptedExistsExactlyWhen(dedupCap: int, outputCap: int, run: seq<Action>, j: JobId, op: OpId)
    requires Legal(Initial(dedupCap, outputCap), run)
    requires var s := After(Initial(dedupCap, outputCap), run); op in s.ops && AcceptedAs(s.ops[op], j)
    ensures HasRecord(After(Initial(dedupCap, outputCap), run), j) <==> NeverWithdrawn(Initial(dedupCap, outputCap), run, j)
  {
    MadeAlways(dedupCap, outputCap, run, j);
    assert Knows(After(Initial(dedupCap, outputCap), run).ops[op], j);
  }

  // ---------- It happens ----------

  lemma Deleted(s: System, op: OpId, queued: bool, started: nat)
    requires Stage(s, Queued, queued, None, started) && op in s.ops && s.ops[op] == SubmitCompensate(JOB)
    ensures Enabled(s, Deliver(op, PLAIN)) && !HasRecord(Apply(s, Deliver(op, PLAIN)), JOB)
    ensures Apply(s, Deliver(op, PLAIN)).ops == s.ops[op := Finished(Refused(Unavailable))]
  {}

  lemma EnqueueFails(s: System, op: OpId, lost: OpId)
    requires Stage(s, Queued, true, None, op + 1) && op in s.ops && s.ops[op] == SubmitEnqueue(JOB) && lost == op + 1
    ensures var a := Fail(op, Unavailable, lost);
            && Enabled(s, a) && Stage(Apply(s, a), Queued, true, None, op + 2)
            && Apply(s, a).ops == s.ops[op := SubmitCompensate(JOB)][lost := Pc.Lost(EnqueueJob(JOB))]
  {}

  /** A client submits a job and is told it is accepted. The same request is submitted again; the
      enqueue of this second submission fails, and its compensation arrives. */
  const DELETING_RUN := [
    Start(0, Request.SubmitJob(SPEC, KEY)), Deliver(0, Env(0, Some(JOB))), Deliver(0, PLAIN),
    Start(1, Request.SubmitJob(SPEC, KEY)), Deliver(1, PLAIN), Fail(1, Unavailable, 2), Deliver(1, PLAIN)]

  lemma Resubmits(cap: int, outputCap: int) returns (run: seq<Action>, s: System)
    ensures Legal(Initial(cap, outputCap), run) && After(Initial(cap, outputCap), run) == s && run == DELETING_RUN[..5]
    ensures Stage(s, Queued, true, None, 2) && s.ops == map[0 := Finished(Submitted(JOB, Queued)), 1 := SubmitEnqueue(JOB)]
  {
    hide Stage, Enabled, Reaches, Legal, After, Apply, Begin;
    Beginnings();
    var s0 := Initial(cap, outputCap);
    run, s := Opening(Keeping(false, false), cap, outputCap);
    Starts(s, Queued, true, None, 1, Request.SubmitJob(SPEC, KEY));
    run, s := Next(s0, run, s, Start(1, Request.SubmitJob(SPEC, KEY)));
    FindsByKey(s, 1, true, 2);
    run, s := Next(s0, run, s, Deliver(1, PLAIN));
  }

  /** One failed call, the enqueue of a resubmission under the same key with the same payload, deletes a
      job that an earlier SubmitJob had answered with and that was waiting in the queue. */
  lemma ResubmissionDeletesAcceptedJob(cap: int, outputCap: int)
    ensures Legal(Initial(cap, outputCap), DELETING_RUN)
    ensures var s := After(Initial(cap, outputCap), DELETING_RUN);
            && s.ops == map[0 := Finished(Submitted(JOB, Queued)), 1 := Finished(Refused(Unavailable)), 2 := Pc.Lost(EnqueueJob(JOB))]
            && !HasRecord(s, JOB)
  {
    hide Stage, HasRecord, Enabled, Legal, After, Apply;
    var s0 := Initial(cap, outputCap);
    var run, s := Resubmits(cap, outputCap);
    EnqueueFails(s, 1, 2);
    run, s := Next(s0, run, s, Fail(1, Unavailable, 2));
    Deleted(s, 1, true, 3);
    run, s := Next(s0, run, s, Deliver(1, PLAIN));
    assert run == DELETING_RUN;
  }
}
