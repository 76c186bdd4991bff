/** What clients may rely on after an answer, over every unrestricted run: accepted cancellations stay
    honoured, and everything read about a finished job is final. */
module Answers {
  import opened Types
  import opened Messages
  import opened JobTable
  import opened Stores
  import opened Handlers
  import opened Protocol
  import opened Unrestricted

  ghost function Run(dedupCap: int, outputCap: int, run: seq<Action>): System {
    After(Initial(dedupCap, outputCap), run)
  }

  /** An answer, once given, stands. */
  lemma {:induction false} AnswerStands(s: System, run: seq<Action>, n: nat, op: OpId)
    requires Legal(s, run) && n <= |run|
    requires op in After(s, run[..n]).ops && After(s, run[..n]).ops[op].Finished?
    ensures op in After(s, run).ops && After(s, run).ops[op] == After(s, run[..n]).ops[op]
    decreases |run|
  {
    if n < |run| {
      assert run[..|run| - 1][..n] == run[..n];
      AnswerStands(s, run[..|run| - 1], n, op);
    } else {
      assert run[..n] == run;
    }
  }

  // ---------- Accepted cancellations ----------

  predicate CancelHonoured(s: System, j: JobId) {
    j in s.issued && (HasRecord(s, j) ==> RecordOf(s, j).status.Terminal() || RecordOf(s, j).cancelRequested)
  }

  predicate TerminalAs(s: System, j: JobId, status: JobStatus) {
    HasRecord(s, j) && RecordOf(s, j).status == status && status.Terminal()
  }

  predicate AcceptedFor(pc: Pc, j: JobId) {
    pc.Finished? && pc.answer.CancelAccepted? && pc.answer.jobId == j
  }

  ghost predicate CancelInv(s: System, j: JobId) {
    forall op | op in s.ops && AcceptedFor(s.ops[op], j) ::
      CancelHonoured(s, j) && (s.ops[op].answer.status.Terminal() ==> TerminalAs(s, j, s.ops[op].answer.status))
  }

  lemma HonouredStays(s: System, a: Action, j: JobId)
    requires SoundInv(s) && Enabled(s, a)
    ensures CancelHonoured(s, j) ==> CancelHonoured(Apply(s, a), j)
    ensures j in s.issued ==> forall status | TerminalAs(s, j, status) :: TerminalAs(Apply(s, a), j, status)
  {
    if a.Deliver? && j in s.issued {
      CallsAreOrdinary(s.ops[a.op]);
      CallEvolves(s.stores, CallOf(s.ops[a.op]), a.env, j);
    }
  }

  lemma ResumeAccepts(s: System, op: OpId, env: Env, j: JobId)
    requires IssuedInv(s) && Enabled(s, Deliver(op, env))
    ensures var s' := Apply(s, Deliver(op, env));
            AcceptedFor(s'.ops[op], j) ==>
              CancelHonoured(s', j) && (s'.ops[op].answer.status.Terminal() ==> TerminalAs(s', j, s'.ops[op].answer.status))
  {}

  lemma ResumeErrorRefuses(pc: Pc, code: Code, j: JobId)
    requires !pc.Finished?
    ensures !AcceptedFor(Resume(pc, Failure(code)), j)
  {}

  lemma CancelStep(s: System, a: Action, j: JobId)
    requires SoundInv(s) && IssuedInv(s) && CancelInv(s, j) && Enabled(s, a)
    ensures CancelInv(Apply(s, a), j)
  {
    HonouredStays(s, a, j);
    match a {
      case Start(op, request) => assert !AcceptedFor(Begin(request), j);
      case Deliver(op, env) => ResumeAccepts(s, op, env, j);
      case Fail(op, code, lost) => ResumeErrorRefuses(s.ops[op], code, j);
    }
  }

  lemma {:induction false} CancelAlways(dedupCap: int, outputCap: int, run: seq<Action>, j: JobId)
    requires Legal(Initial(dedupCap, outputCap), run)
    ensures CancelInv(Run(dedupCap, outputCap, run), j)
  {
    if run != [] {
      var init := run[..|run| - 1];
      CancelAlways(dedupCap, outputCap, init, j);
      SoundAlways(dedupCap, outputCap, init);
      IssuedAlways(dedupCap, outputCap, init);
      CancelStep(Run(dedupCap, outputCap, init), run[|run| - 1], j);
    }
  }

  /** From the moment CancelJob is accepted the job is terminal or flagged, whatever dispatches and
      reports race with it; and a terminal status in the answer is the job's status for good. */
  lemma AcceptedCancelSticks(dedupCap: int, outputCap: int, run: seq<Action>, n: nat, op: OpId)
    requires Legal(Initial(dedupCap, outputCap), run) && n <= |run|
    requires var s := Run(dedupCap, outputCap, run[..n]);
             op in s.ops && s.ops[op].Finished? && s.ops[op].answer.CancelAccepted?
    ensures var answer := Run(dedupCap, outputCap, run[..n]).ops[op].answer;
            var s := Run(dedupCap, outputCap, run);
            && (HasRecord(s, answer.jobId) ==> RecordOf(s, answer.jobId).status.Terminal() || RecordOf(s, answer.jobId).cancelRequested)
            && (answer.status.Terminal() ==> HasRecord(s, answer.jobId) && RecordOf(s, answer.jobId).status == answer.status)
  {
    AnswerStands(Initial(dedupCap, outputCap), run, n, op);
    CancelAlways(dedupCap, outputCap, run, Run(dedupCap, outputCap, run[..n]).ops[op].answer.jobId);
  }

  // ---------- Final records and results ----------

  lemma TerminalRecordStep(s: System, a: Action, j: JobId)
    requires SoundInv(s) && IssuedInv(s) && Enabled(s, a)
    requires HasRecord(s, j) && RecordOf(s, j).status.Terminal()
    ensures HasRecord(Apply(s, a), j) && RecordOf(Apply(s, a), j) == RecordOf(s, j)
  {
    if a.Deliver? {
      CallsAreOrdinary(s.ops[a.op]);
      CallEvolves(s.stores, CallOf(s.ops[a.op]), a.env, j);
    }
  }

  /** A terminal record is never deleted and no field of it changes again. */
  lemma {:induction false} TerminalRecordIsFinal(dedupCap: int, outputCap: int, run: seq<Action>, n: nat, j: JobId)
    requires Legal(Initial(dedupCap, outputCap), run) && n <= |run|
    requires HasRecord(Run(dedupCap, outputCap, run[..n]), j) && RecordOf(Run(dedupCap, outputCap, run[..n]), j).status.Terminal()
    ensures HasRecord(Run(dedupCap, outputCap, run), j)
    ensures RecordOf(Run(dedupCap, outputCap, run), j) == RecordOf(Run(dedupCap, outputCap, run[..n]), j)
    decreases |run|
  {
    if n < |run| {
      var init := run[..|run| - 1];
      assert init[..n] == run[..n];
      TerminalRecordIsFinal(dedupCap, outputCap, init, n, j);
      SoundAlways(dedupCap, outputCap, init);
      IssuedAlways(dedupCap, outputCap, init);
      TerminalRecordStep(Run(dedupCap, outputCap, init), run[|run| - 1], j);
    } else {
      assert run[..n] == run;
    }
  }

  /** What an operation has read about `j` is still so. */
  predicate ReadHolds(s: System, pc: Pc, j: JobId) {
    match pc
    case ResultGet(id, status) => id == j ==> TerminalAs(s, j, status)
    case Finished(Ready(id, status, envelope)) =>
      id == j ==> TerminalAs(s, j, status) && envelope.terminalStatus == status
                  && HasEnvelope(s, j) && s.stores.results.envelopes[j] == envelope
    case Finished(StatusOf(id, summary, failureReason)) =>
      id == j && summary.status.Terminal() ==>
        HasRecord(s, j) && SummaryOf(RecordOf(s, j)) == summary && RecordOf(s, j).failureReason == failureReason
    case _ => true
  }

  ghost predicate ReadInv(s: System, j: JobId) {
    forall op | op in s.ops :: ReadHolds(s, s.ops[op], j)
  }

  lemma ReadHoldsStays(s: System, a: Action, pc: Pc, j: JobId)
    requires SoundInv(s) && IssuedInv(s) && Enabled(s, a) && ReadHolds(s, pc, j)
    ensures ReadHolds(Apply(s, a), pc, j)
  {
    if HasRecord(s, j) && RecordOf(s, j).status.Terminal() {
      TerminalRecordStep(s, a, j);
    }
    if a.Deliver? && HasEnvelope(s, j) {
      EnvelopesStay(s.stores, CallOf(s.ops[a.op]), a.env, j);
    }
  }

  lemma ResumeReads(s: System, op: OpId, env: Env, j: JobId)
    requires Enabled(s, Deliver(op, env)) && ReadHolds(s, s.ops[op], j)
    ensures ReadHolds(Apply(s, Deliver(op, env)), Apply(s, Deliver(op, env)).ops[op], j)
  {}

  lemma ReadStep(s: System, a: Action, j: JobId)
    requires SoundInv(s) && IssuedInv(s) && ReadInv(s, j) && Enabled(s, a)
    ensures ReadInv(Apply(s, a), j)
  {
    var s' := Apply(s, a);
    forall op | op in s'.ops ensures ReadHolds(s', s'.ops[op], j) {
      if op in s.ops && s'.ops[op] == s.ops[op] {
        ReadHoldsStays(s, a, s.ops[op], j);
      } else if a.Deliver? {
        ResumeReads(s, op, a.env, j);
      }
    }
  }

  lemma {:induction false} ReadAlways(dedupCap: int, outputCap: int, run: seq<Action>, j: JobId)
    requires Legal(Initial(dedupCap, outputCap), run)
    ensures ReadInv(Run(dedupCap, outputCap, run), j)
  {
    if run != [] {
      var init := run[..|run| - 1];
      ReadAlways(dedupCap, outputCap, init, j);
      SoundAlways(dedupCap, outputCap, init);
      IssuedAlways(dedupCap, outputCap, init);
      ReadStep(Run(dedupCap, outputCap, init), run[|run| - 1], j);
    }
  }

  predicate ResultAnswerFor(pc: Pc, j: JobId) {
    match pc
    case Finished(NotReady(id)) => id == j
    case Finished(Ready(id, _, _)) => id == j
    case _ => false
  }

  /** A `result_ready=false` answer is only given while the record is not terminal. */
  lemma {:induction false} NoLateNotReady(dedupCap: int, outputCap: int, run: seq<Action>, n: nat, j: JobId, op: OpId)
    requires Legal(Initial(dedupCap, outputCap), run) && n <= |run|
    requires HasRecord(Run(dedupCap, outputCap, run[..n]), j) && RecordOf(Run(dedupCap, outputCap, run[..n]), j).status.Terminal()
    requires op in Run(dedupCap, outputCap, run).ops && Run(dedupCap, outputCap, run).ops[op] == Finished(NotReady(j))
    ensures op in Run(dedupCap, outputCap, run[..n]).ops && Run(dedupCap, outputCap, run[..n]).ops[op] == Finished(NotReady(j))
    decreases |run|
  {
    if n < |run| {
      var init, a := run[..|run| - 1], run[|run| - 1];
      assert init[..n] == run[..n];
      TerminalRecordIsFinal(dedupCap, outputCap, init, n, j);
      var mid := Run(dedupCap, outputCap, init);
      if op in mid.ops && mid.ops[op] == Finished(NotReady(j)) {
        NoLateNotReady(dedupCap, outputCap, init, n, j, op);
      } else {
        FreshAnswerIsReady(mid, a, j, op);
      }
    } else {
      assert run[..n] == run;
    }
  }

  lemma FreshAnswerIsReady(s: System, a: Action, j: JobId, op: OpId)
    requires Enabled(s, a) && HasRecord(s, j) && RecordOf(s, j).status.Terminal()
    requires op in s.ops ==> s.ops[op] != Finished(NotReady(j))
    ensures op in Apply(s, a).ops ==> Apply(s, a).ops[op] != Finished(NotReady(j))
  {}

  /** Once some GetJobResult has answered `result_ready=true`, every result answer given for that job
      from then on is the very same. */
  lemma ResultsAreFinal(dedupCap: int, outputCap: int, run: seq<Action>, n: nat, first: OpId, later: OpId)
    requires Legal(Initial(dedupCap, outputCap), run) && n <= |run|
    requires var s := Run(dedupCap, outputCap, run[..n]);
             && first in s.ops && s.ops[first].Finished? && s.ops[first].answer.Ready?
             && !(later in s.ops && s.ops[later].Finished?)
    requires var s := Run(dedupCap, outputCap, run);
             later in s.ops && ResultAnswerFor(s.ops[later], Run(dedupCap, outputCap, run[..n]).ops[first].answer.jobId)
    ensures Run(dedupCap, outputCap, run).ops[later] == Run(dedupCap, outputCap, run[..n]).ops[first]
  {
    var j := Run(dedupCap, outputCap, run[..n]).ops[first].answer.jobId;
    LegalPrefix(Initial(dedupCap, outputCap), run, n);
    ReadAlways(dedupCap, outputCap, run[..n], j);
    assert ReadHolds(Run(dedupCap, outputCap, run[..n]), Run(dedupCap, outputCap, run[..n]).ops[first], j);
    AnswerStands(Initial(dedupCap, outputCap), run, n, first);
    ReadAlways(dedupCap, outputCap, run, j);
    assert ReadHolds(Run(dedupCap, outputCap, run), Run(dedupCap, outputCap, run).ops[first], j);
    assert ReadHolds(Run(dedupCap, outputCap, run), Run(dedupCap, outputCap, run).ops[later], j);
    if Run(dedupCap, outputCap, run).ops[later] == Finished(NotReady(j)) {
      NoLateNotReady(dedupCap, outputCap, run, n, j, later);
    }
  }

  /** Two GetJobStatus answers for one job that show a terminal status agree in every field. */
  lemma TerminalStatusAnswersAgree(dedupCap: int, outputCap: int, run: seq<Action>, op: OpId, op': OpId)
    requires Legal(Initial(dedupCap, outputCap), run)
    requires var s := Run(dedupCap, outputCap, run);
             && op in s.ops && s.ops[op].Finished? && s.ops[op].answer.StatusOf? && s.ops[op].answer.summary.status.Terminal()
             && op' in s.ops && s.ops[op'].Finished? && s.ops[op'].answer.StatusOf? && s.ops[op'].answer.summary.status.Terminal()
             && s.ops[op].answer.jobId == s.ops[op'].answer.jobId
    ensures Run(dedupCap, outputCap, run).ops[op] == Run(dedupCap, outputCap, run).ops[op']
  {
    var s := Run(dedupCap, outputCap, run);
    ReadAlways(dedupCap, outputCap, run, s.ops[op].answer.jobId);
    assert ReadHolds(s, s.ops[op], s.ops[op].answer.jobId);
    assert ReadHolds(s, s.ops[op'], s.ops[op].answer.jobId);
  }

  /** A status answer first given when the record is terminal shows a terminal status. */
  lemma FreshStatusIsTerminal(s: System, a: Action, j: JobId, op: OpId)
    requires Enabled(s, a) && HasRecord(s, j) && RecordOf(s, j).status.Terminal()
    requires !(op in s.ops && s.ops[op].Finished?)
    ensures var s' := Apply(s, a);
            op in s'.ops && s'.ops[op].Finished? && s'.ops[op].answer.StatusOf? && s'.ops[op].answer.jobId == j ==>
              s'.ops[op].answer.summary.status.Terminal()
  {
    hide Strip;
  }

  lemma {:induction false} LateStatusIsTerminal(dedupCap: int, outputCap: int, run: seq<Action>, n: nat, j: JobId, op: OpId)
    requires Legal(Initial(dedupCap, outputCap), run) && n < |run|
    requires HasRecord(Run(dedupCap, outputCap, run[..n]), j) && RecordOf(Run(dedupCap, outputCap, run[..n]), j).status.Terminal()
    requires var s := Run(dedupCap, outputCap, run[..n]); !(op in s.ops && s.ops[op].Finished?)
    requires var s := Run(dedupCap, outputCap, run);
             op in s.ops && s.ops[op].Finished? && s.ops[op].answer.StatusOf? && s.ops[op].answer.jobId == j
    ensures Run(dedupCap, outputCap, run).ops[op].answer.summary.status.Terminal()
    decreases |run|
  {
    hide Stores.Execute, Resume, Begin, Enabled;
    var init, a := run[..|run| - 1], run[|run| - 1];
    assert init[..n] == run[..n];
    var mid := Run(dedupCap, outputCap, init);
    if op in mid.ops && mid.ops[op].Finished? {
      FinishedStays(mid, a, op);
      LateStatusIsTerminal(dedupCap, outputCap, init, n, j, op);
    } else {
      TerminalRecordIsFinal(dedupCap, outputCap, init, n, j);
      FreshStatusIsTerminal(mid, a, j, op);
    }
  }

  lemma FinishedStays(s: System, a: Action, op: OpId)
    requires Enabled(s, a) && op in s.ops && s.ops[op].Finished?
    ensures op in Apply(s, a).ops && Apply(s, a).ops[op] == s.ops[op]
  {
    hide Stores.Execute, Resume, Begin;
  }

  /** Once some GetJobStatus has shown a terminal status, every status answer given for that job from then
      on is the very same; none shows it QUEUED or RUNNING again. */
  lemma StatusAnswersAreFinal(dedupCap: int, outputCap: int, run: seq<Action>, n: nat, first: OpId, later: OpId)
    requires Legal(Initial(dedupCap, outputCap), run) && n < |run|
    requires var s := Run(dedupCap, outputCap, run[..n]);
             && first in s.ops && s.ops[first].Finished? && s.ops[first].answer.StatusOf? && s.ops[first].answer.summary.status.Terminal()
             && !(later in s.ops && s.ops[later].Finished?)
    requires var s := Run(dedupCap, outputCap, run);
             && later in s.ops && s.ops[later].Finished? && s.ops[later].answer.StatusOf?
             && s.ops[later].answer.jobId == Run(dedupCap, outputCap, run[..n]).ops[first].answer.jobId
    ensures Run(dedupCap, outputCap, run).ops[later] == Run(dedupCap, outputCap, run[..n]).ops[first]
  {
    hide Run, Legal, SummaryOf;
    var s := Run(dedupCap, outputCap, run[..n]);
    var j := s.ops[first].answer.jobId;
    LegalPrefix(Initial(dedupCap, outputCap), run, n);
    ReadAlways(dedupCap, outputCap, run[..n], j);
    TerminalWasRead(s, first, j);
    LateStatusIsTerminal(dedupCap, outputCap, run, n, j, later);
    StandsInRun(dedupCap, outputCap, run, n, first);
    TerminalStatusAnswersAgree(dedupCap, outputCap, run, first, later);
  }

  lemma TerminalWasRead(s: System, op: OpId, j: JobId)
    requires ReadInv(s, j) && op in s.ops && s.ops[op].Finished? && s.ops[op].answer.StatusOf?
    requires s.ops[op].answer.jobId == j && s.ops[op].answer.summary.status.Terminal()
    ensures HasRecord(s, j) && RecordOf(s, j).status.Terminal()
  {
    assert ReadHolds(s, s.ops[op], j);
  }

  lemma StandsInRun(dedupCap: int, outputCap: int, run: seq<Action>, n: nat, op: OpId)
    requires Legal(Initial(dedupCap, outputCap), run) && n <= |run|
    requires op in Run(dedupCap, outputCap, run[..n]).ops && Run(dedupCap, outputCap, run[..n]).ops[op].Finished?
    ensures op in Run(dedupCap, outputCap, run).ops
    ensures Run(dedupCap, outputCap, run).ops[op] == Run(dedupCap, outputCap, run[..n]).ops[op]
  {
    AnswerStands(Initial(dedupCap, outputCap), run, n, op);
  }

  // ---------- Acknowledged reports ----------

  /** The report a handler is working on names the job the request did. */
  predicate ReportsOn(s: System, pc: Pc, request: Option<Request>) {
    match pc
    case ReportStore(r) => request.Some? && request.value.ReportWorkOutcome? && r.jobId == Strip(request.value.report.jobId)
    case ReportCas(r) => request.Some? && request.value.ReportWorkOutcome? && r.jobId == Strip(request.value.report.jobId)
    case Finished(Reported(accepted)) =>
      && request.Some? && request.value.ReportWorkOutcome?
      && (accepted ==> HasRecord(s, Strip(request.value.report.jobId)) && RecordOf(s, Strip(request.value.report.jobId)).status.Terminal())
    case _ => true
  }

  ghost predicate ReportInv(s: System, run: seq<Action>) {
    forall op | op in s.ops :: ReportsOn(s, s.ops[op], RequestOf(run, op))
  }

  lemma ReportsOnStays(s: System, a: Action, pc: Pc, request: Option<Request>)
    requires SoundInv(s) && IssuedInv(s) && Enabled(s, a) && ReportsOn(s, pc, request)
    ensures ReportsOn(Apply(s, a), pc, request)
  {
    hide Stores.Execute, Resume, Begin, Strip, SoundInv, IssuedInv;
    if pc.Finished? && pc.answer.Reported? && pc.answer.accepted {
      TerminalRecordStep(s, a, Strip(request.value.report.jobId));
    }
  }

  lemma ResumeReports(s: System, op: OpId, env: Env, request: Option<Request>)
    requires Enabled(s, Deliver(op, env)) && ReportsOn(s, s.ops[op], request) && Sound(s.ops[op])
    ensures ReportsOn(Apply(s, Deliver(op, env)), Apply(s, Deliver(op, env)).ops[op], request)
  {
    hide Strip;
  }

  lemma ErrorReports(s: System, pc: Pc, code: Code, request: Option<Request>)
    requires !pc.Finished?
    ensures ReportsOn(s, Resume(pc, Failure(code)), request)
  {}

  lemma BeginReports(s: System, request: Request)
    ensures ReportsOn(s, Begin(request), Some(request))
  {}

  lemma ReportStep(s: System, run: seq<Action>, a: Action)
    requires SoundInv(s) && IssuedInv(s) && ReportInv(s, run) && Enabled(s, a)
    ensures ReportInv(Apply(s, a), run + [a])
  {
    hide Stores.Execute, Resume, Begin, ReportsOn, IssuedInv;
    var s' := Apply(s, a);
    assert (run + [a])[..|run|] == run;
    match a {
      case Start(op, request) => BeginReports(s', request);
      case Deliver(op, env) => ResumeReports(s, op, env, RequestOf(run, op));
      case Fail(op, code, lost) =>
        ErrorReports(s', s.ops[op], code, RequestOf(run, op));
        LostReports(s', CallOf(s.ops[op]), RequestOf(run + [a], lost));
    }
    forall op | op in s'.ops ensures ReportsOn(s', s'.ops[op], RequestOf(run + [a], op)) {
      if op in s.ops && s'.ops[op] == s.ops[op] {
        ReportsOnStays(s, a, s.ops[op], RequestOf(run, op));
      }
    }
  }

  lemma LostReports(s: System, call: Call, request: Option<Request>)
    ensures ReportsOn(s, Pc.Lost(call), request)
  {}

  lemma {:induction false} ReportAlways(dedupCap: int, outputCap: int, run: seq<Action>)
    requires Legal(Initial(dedupCap, outputCap), run)
    ensures ReportInv(Run(dedupCap, outputCap, run), run)
  {
    hide Enabled, Apply, ReportsOn;
    if run != [] {
      var init, a := run[..|run| - 1], run[|run| - 1];
      ReportAlways(dedupCap, outputCap, init);
      SoundAlways(dedupCap, outputCap, init);
      IssuedAlways(dedupCap, outputCap, init);
      ReportStep(Run(dedupCap, outputCap, init), init, a);
      assert init + [a] == run;
    }
  }

  /** Over every run, whatever reports of the job race with it, fail or land late, a report answered as
      accepted means that its job is terminal and has an envelope, from then on and for good. */
  lemma AcceptedReportsAreFinal(dedupCap: int, outputCap: int, run: seq<Action>, n: nat, op: OpId)
    requires Legal(Initial(dedupCap, outputCap), run) && n <= |run|
    requires var s := Run(dedupCap, outputCap, run[..n]); op in s.ops && s.ops[op] == Finished(Reported(true))
    ensures RequestOf(run[..n], op).Some? && RequestOf(run[..n], op).value.ReportWorkOutcome?
    ensures var j := Strip(RequestOf(run[..n], op).value.report.jobId);
            var before, s := Run(dedupCap, outputCap, run[..n]), Run(dedupCap, outputCap, run);
            && HasRecord(before, j) && RecordOf(before, j).status.Terminal() && HasEnvelope(before, j)
            && HasRecord(s, j) && RecordOf(s, j) == RecordOf(before, j) && HasEnvelope(s, j)
  {
    hide Legal, Strip, EnvelopeInv;
    var before := Run(dedupCap, outputCap, run[..n]);
    LegalPrefix(Initial(dedupCap, outputCap), run, n);
    ReportAlways(dedupCap, outputCap, run[..n]);
    assert ReportsOn(before, before.ops[op], RequestOf(run[..n], op));
    var j := Strip(RequestOf(run[..n], op).value.report.jobId);
    TerminalJobsHaveEnvelopes(dedupCap, outputCap, run[..n], j);
    TerminalRecordIsFinal(dedupCap, outputCap, run, n, j);
    TerminalJobsHaveEnvelopes(dedupCap, outputCap, run, j);
  }
}
