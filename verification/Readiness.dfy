/** Finished jobs' results are answered: in a regular run a GetJobResult asked of a terminal job, none of
    whose own calls fails, answers with the envelope, whatever goes on around it. */
module Readiness {
  import opened Types
  import opened Messages
  import opened JobTable
  import opened Stores
  import opened Handlers
  import opened Protocol
  import opened Unrestricted
  import opened Answers
  import opened Agreement

  /** Where an undisturbed GetJobResult for a terminal `j` can be. */
  predicate OnTheWay(s: System, pc: Pc, j: JobId)
    requires HasRecord(s, j) && HasEnvelope(s, j)
  {
    || pc == ResultRead(j)
    || pc == ResultGet(j, RecordOf(s, j).status)
    || pc == Finished(Ready(j, RecordOf(s, j).status, s.stores.results.envelopes[j]))
  }

  ghost predicate Settled(s: System, j: JobId) {
    && HasRecord(s, j) && RecordOf(s, j).status.Terminal() && HasEnvelope(s, j)
    && s.stores.results.envelopes[j].terminalStatus == RecordOf(s, j).status
  }

  lemma SettledStays(s: System, a: Action, j: JobId)
    requires SoundInv(s) && IssuedInv(s) && Settled(s, j) && Enabled(s, a)
    ensures Settled(Apply(s, a), j) && RecordOf(Apply(s, a), j) == RecordOf(s, j)
    ensures Apply(s, a).stores.results.envelopes[j] == s.stores.results.envelopes[j]
  {
    hide Stores.Execute, Resume, Begin, SoundInv, IssuedInv;
    TerminalRecordStep(s, a, j);
    if a.Deliver? {
      EnvelopesStay(s.stores, CallOf(s.ops[a.op]), a.env, j);
    }
  }

  lemma ReadsOnward(w: World, pc: Pc, env: Env, j: JobId)
    requires j in w.table.records && w.table.records[j].status.Terminal()
    requires j in w.results.envelopes && w.results.envelopes[j].terminalStatus == w.table.records[j].status
    requires pc == ResultRead(j) || pc == ResultGet(j, w.table.records[j].status)
    ensures var pc' := Resume(pc, Execute(w, CallOf(pc), env).1);
            if pc.ResultRead? then pc' == ResultGet(j, w.table.records[j].status)
            else pc' == Finished(Ready(j, w.table.records[j].status, w.results.envelopes[j]))
  {}

  lemma StaysOnTheWay(s: System, a: Action, j: JobId, op: OpId)
    requires SoundInv(s) && IssuedInv(s) && Settled(s, j) && Enabled(s, a) && !(a.Fail? && a.op == op)
    requires op in s.ops && OnTheWay(s, s.ops[op], j)
    ensures Settled(Apply(s, a), j) && op in Apply(s, a).ops && OnTheWay(Apply(s, a), Apply(s, a).ops[op], j)
  {
    hide Stores.Execute, Resume, Begin, CallOf, SoundInv, IssuedInv;
    SettledStays(s, a, j);
    if a.Deliver? && a.op == op {
      ReadsOnward(s.stores, s.ops[op], a.env, j);
    }
  }

  lemma BeginsOnTheWay(s: System, request: Request, j: JobId)
    requires Settled(s, j) && request.GetJobResult? && Strip(request.jobId) == j != ""
    ensures OnTheWay(s, Begin(request), j)
  {
    hide Strip;
  }

  lemma {:induction false} RequestedIsThere(s0: System, run: seq<Action>, op: OpId)
    requires Legal(s0, run) && RequestOf(run, op).Some?
    ensures op in After(s0, run).ops
  {
    hide Stores.Execute, Resume, Begin, CallOf;
    var init, a := run[..|run| - 1], run[|run| - 1];
    if !(a.Start? && a.op == op) {
      RequestedIsThere(s0, init, op);
    }
  }

  lemma {:induction false} AskedIsOnTheWay(dedupCap: int, outputCap: int, run: seq<Action>, n: nat, op: OpId, j: JobId)
    requires Legal(Initial(dedupCap, outputCap), run) && n < |run| && j != ""
    requires Settled(After(Initial(dedupCap, outputCap), run[..n]), j) && op !in After(Initial(dedupCap, outputCap), run[..n]).ops
    requires RequestOf(run, op).Some? && RequestOf(run, op).value.GetJobResult? && Strip(RequestOf(run, op).value.jobId) == j
    requires forall i | n <= i < |run| :: !(run[i].Fail? && run[i].op == op)
    ensures var s := After(Initial(dedupCap, outputCap), run);
            Settled(s, j) && op in s.ops && OnTheWay(s, s.ops[op], j)
    decreases |run|
  {
    hide Stores.Execute, Resume, Begin, CallOf, Strip, Settled, OnTheWay;
    var s0 := Initial(dedupCap, outputCap);
    var init, a := run[..|run| - 1], run[|run| - 1];
    assert init[..n] == run[..n];
    SoundAlways(dedupCap, outputCap, init);
    IssuedAlways(dedupCap, outputCap, init);
    if a.Start? && a.op == op {
      SettledSince(dedupCap, outputCap, init, n, j);
      SettledStays(After(s0, init), a, j);
      BeginsOnTheWay(After(s0, run), a.request, j);
    } else {
      RequestedIsThere(s0, init, op);
      AskedIsOnTheWay(dedupCap, outputCap, init, n, op, j);
      StaysOnTheWay(After(s0, init), a, j, op);
    }
  }

  lemma {:induction false} SettledSince(dedupCap: int, outputCap: int, run: seq<Action>, n: nat, j: JobId)
    requires Legal(Initial(dedupCap, outputCap), run) && n <= |run|
    requires Settled(After(Initial(dedupCap, outputCap), run[..n]), j)
    ensures Settled(After(Initial(dedupCap, outputCap), run), j)
    decreases |run|
  {
    hide Stores.Execute, Resume, Begin, CallOf, Settled;
    if n < |run| {
      var init := run[..|run| - 1];
      assert init[..n] == run[..n];
      SettledSince(dedupCap, outputCap, init, n, j);
      SoundAlways(dedupCap, outputCap, init);
      IssuedAlways(dedupCap, outputCap, init);
      SettledStays(After(Initial(dedupCap, outputCap), init), run[|run| - 1], j);
    } else {
      assert run[..n] == run;
    }
  }

  /** In a regular run, a GetJobResult that is asked once its job is terminal, and none of whose own calls
      fails, answers with the job's status and envelope as soon as it answers at all. */
  lemma FinishedJobsAreAnswered(plan: Plan, dedupCap: int, outputCap: int, run: seq<Action>, n: nat, op: OpId, j: JobId)
    requires Legal(Initial(dedupCap, outputCap), run) && n < |run| && j != ""
    requires Legal(Initial(dedupCap, outputCap), run[..n]) && Regular(plan, Initial(dedupCap, outputCap), run[..n], j)
    requires var s := After(Initial(dedupCap, outputCap), run[..n]);
             HasRecord(s, j) && RecordOf(s, j).status.Terminal() && op !in s.ops
    requires RequestOf(run, op).Some? && RequestOf(run, op).value.GetJobResult? && Strip(RequestOf(run, op).value.jobId) == j
    requires forall i | n <= i < |run| :: !(run[i].Fail? && run[i].op == op)
    ensures var s := After(Initial(dedupCap, outputCap), run);
            && HasRecord(s, j) && HasEnvelope(s, j) && op in s.ops
            && (s.ops[op].Finished? ==> s.ops[op] == Finished(Ready(j, RecordOf(s, j).status, s.stores.results.envelopes[j])))
  {
    hide Legal, After, Regular, Strip, RequestOf;
    StatusAndEnvelopeAgree(plan, dedupCap, outputCap, run[..n], j);
    AskedIsOnTheWay(dedupCap, outputCap, run, n, op, j);
  }
}
