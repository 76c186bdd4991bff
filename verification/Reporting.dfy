/** Reporting an outcome over and over is harmless: whatever fails, the stores go through three stages
    and stop, and only the third is ever acknowledged. */
module Reporting {
  import opened Types
  import opened Messages
  import opened JobTable
  import opened Stores
  import opened Handlers
  import opened Solo

  /** One attempt to report, as the worker's own RPC to the Coordinator goes. */
  datatype Hop =
    | Unreached                  // the Coordinator never saw it
    | Reached(net: Network)
    | ReplyLost(net: Network)    // the Coordinator handled it, the worker saw an error

  function TryReport(w: World, report: Report, hop: Hop, pick: IdPicker): (World, bool) {
    match hop
    case Unreached => (w, false)
    case Reached(net) =>
      var (w', answer) := Handle(w, Request.ReportWorkOutcome(report), net, pick);
      (w', answer == Reported(true))
    case ReplyLost(net) => (Handle(w, Request.ReportWorkOutcome(report), net, pick).0, false)
  }

  /** Attempts `i`, `i+1`, ... up to `last`, giving up early when the worker is being stopped. */
  function Attempts(w: World, report: Report, hops: nat -> Hop, stopped: nat -> bool, i: nat, last: nat, pick: IdPicker): (World, bool)
    decreases last - i
  {
    var (w', accepted) := TryReport(w, report, hops(i), pick);
    if accepted || i >= last || stopped(i) then (w', accepted)
    else Attempts(w', report, hops, stopped, i + 1, last, pick)
  }

  // ---------- The three stages ----------

  function Target(report: Report): JobStatus { StatusFor(report.outcome) }

  /** The job is running, nothing is stored for it, and the report is one the stores will take. */
  predicate Reportable(w: World, report: Report) {
    && Canonical(report.jobId) && Canonical(report.workerId) && Target(report).Terminal()
    && report.jobId in w.table.records && w.table.records[report.jobId].status.Running?
    && report.jobId !in w.results.envelopes
    && |report.outputBytes| <= w.results.maxOutputBytes
  }

  function WithEnvelope(w: World, report: Report): World {
    w.(results := w.results.(envelopes := w.results.envelopes[report.jobId := ReportEnvelope(report)]))
  }

  /** The state a single successful report at time `t` leaves. */
  function Settled(w: World, report: Report, t: int): World
    requires report.jobId in w.table.records
  {
    var rec := Advance(w.table.records[report.jobId], Target(report), ReasonOf(report), t);
    WithEnvelope(w, report).(table := w.table.(records := w.table.records[report.jobId := rec]))
  }

  datatype Stage = Untouched | HasEnvelope | Final(at: int)

  function AtStage(w0: World, report: Report, stage: Stage): World
    requires report.jobId in w0.table.records
  {
    match stage
    case Untouched => w0
    case HasEnvelope => WithEnvelope(w0, report)
    case Final(t) => Settled(w0, report, t)
  }

  /** Stages only go forward, and the final one, with its timestamp, is final. */
  predicate Forward(a: Stage, b: Stage) {
    match a
    case Untouched => true
    case HasEnvelope => !b.Untouched?
    case Final(_) => b == a
  }

  lemma StoreMovesStage(w0: World, report: Report, stage: Stage, d: Delivery, pick: IdPicker) returns (stage': Stage)
    requires Reportable(w0, report)
    ensures var (w', reply) := Transport(AtStage(w0, report, stage), StoreResult(report.jobId, ReportEnvelope(report)), d, pick);
            && w' == AtStage(w0, report, stage') && Forward(stage, stage') && (stage'.Final? ==> stage' == stage)
            && (reply.Stored? ==> !stage'.Untouched?)
            && (reply.Failure? || reply.Stored?)
  {
    stage' := if stage.Untouched? && !d.Declined? then HasEnvelope else stage;
  }

  lemma CasMovesStage(w0: World, report: Report, stage: Stage, d: Delivery, pick: IdPicker) returns (stage': Stage)
    requires Reportable(w0, report) && !stage.Untouched?
    ensures var call := TransitionJobStatus(report.jobId, Running, Target(report), ReasonOf(report));
            var (w', reply) := Transport(AtStage(w0, report, stage), call, d, pick);
            && w' == AtStage(w0, report, stage') && Forward(stage, stage')
            && (reply.Transitioned? && (reply.applied || reply.status.Terminal()) ==> stage'.Final?)
            && (reply.Failure? || reply.Transitioned?)
  {
    if d.Declined? || stage.Final? {
      return stage;
    }
    return Final(d.now);
  }

  lemma HandleMovesStage(w0: World, report: Report, stage: Stage, net: Network, pick: IdPicker) returns (stage': Stage)
    requires Reportable(w0, report)
    ensures var (w', answer) := Handle(AtStage(w0, report, stage), Request.ReportWorkOutcome(report), net, pick);
            && w' == AtStage(w0, report, stage') && Forward(stage, stage')
            && (answer == Reported(true) ==> stage'.Final?)
  {
    hide Stores.Execute, Transport, Strip;
    var w := AtStage(w0, report, stage);
    assert Begin(Request.ReportWorkOutcome(report)) == ReportStore(report);
    Unroll(w, ReportStore(report), net, 0, pick);
    stage' := StoreMovesStage(w0, report, stage, net(0), pick);
    var (w1, stored) := Transport(w, CallOf(ReportStore(report)), net(0), pick);
    if stored.Stored? {
      Unroll(w1, ReportCas(report), net, 1, pick);
      stage' := CasMovesStage(w0, report, stage', net(1), pick);
    }
  }

  /** Any number of attempts, failing in any pattern: the stores stop at one of the three stages, and
      an acknowledged report means the last. */
  lemma {:induction false} AttemptsMoveStage(w0: World, report: Report, stage: Stage, hops: nat -> Hop, stopped: nat -> bool,
                                             i: nat, last: nat, pick: IdPicker) returns (stage': Stage)
    requires Reportable(w0, report)
    ensures var (w', accepted) := Attempts(AtStage(w0, report, stage), report, hops, stopped, i, last, pick);
            && w' == AtStage(w0, report, stage') && Forward(stage, stage')
            && (accepted ==> stage'.Final?)
    decreases last - i
  {
    var w := AtStage(w0, report, stage);
    stage' := stage;
    if !hops(i).Unreached? {
      stage' := HandleMovesStage(w0, report, stage, hops(i).net, pick);
    }
    var (w', accepted) := TryReport(w, report, hops(i), pick);
    if !(accepted || i >= last || stopped(i)) {
      var mid := stage';
      stage' := AttemptsMoveStage(w0, report, mid, hops, stopped, i + 1, last, pick);
    }
  }

  /** Retried reports are idempotent. For a running job without an envelope, whatever the failures and
      however many the attempts, the stores end untouched, with the envelope, or as one single success
      leaves them up to its timestamp; `true` means the last, and then the job is terminal with the
      reported status and envelope. */
  lemma RetryIsIdempotent(w: World, report: Report, hops: nat -> Hop, stopped: nat -> bool, last: nat, pick: IdPicker)
    requires Reportable(w, report)
    ensures var (w', accepted) := Attempts(w, report, hops, stopped, 1, last, pick);
            && (w' == w || w' == WithEnvelope(w, report) || exists t :: w' == Settled(w, report, t))
            && (accepted ==>
                  report.jobId in w'.table.records && w'.table.records[report.jobId].status == Target(report)
                  && report.jobId in w'.results.envelopes && w'.results.envelopes[report.jobId] == ReportEnvelope(report)
                  && exists t :: w' == Settled(w, report, t))
  {
    var stage := AttemptsMoveStage(w, report, Untouched, hops, stopped, 1, last, pick);
    var (w', accepted) := Attempts(w, report, hops, stopped, 1, last, pick);
    match stage {
      case Untouched =>
      case HasEnvelope =>
      case Final(t) => assert w' == Settled(w, report, t);
    }
  }

  // ---------- A delivered report ----------

  function Kept(w: World, report: Report): World {
    if report.jobId in w.results.envelopes then w else WithEnvelope(w, report)
  }

  function Concluded(w: World, report: Report, t: int): World
    requires report.jobId in w.table.records
  {
    var rec := Advance(w.table.records[report.jobId], Target(report), ReasonOf(report), t);
    Kept(w, report).(table := w.table.(records := w.table.records[report.jobId := rec]))
  }

  /** The job is running and the report is one the stores will take, whatever is stored already. */
  predicate Deliverable(w: World, report: Report) {
    && Canonical(report.jobId) && Canonical(report.workerId) && Target(report).Terminal()
    && report.jobId in w.table.records && w.table.records[report.jobId].status.Running?
    && |report.outputBytes| <= w.results.maxOutputBytes
  }

  lemma DeliveredStore(w: World, report: Report, d: Delivery, pick: IdPicker)
    requires Deliverable(w, report) && d.Delivered?
    ensures var (w', reply) := Transport(w, CallOf(ReportStore(report)), d, pick);
            w' == Kept(w, report) && reply.Stored?
  {}

  lemma DeliveredCas(w: World, report: Report, d: Delivery, pick: IdPicker)
    requires Deliverable(w, report) && d.Delivered?
    ensures Transport(Kept(w, report), CallOf(ReportCas(report)), d, pick) == (Concluded(w, report, d.now), Transitioned(true, Target(report)))
  {}

  lemma ReportConcludes(w: World, report: Report, net: Network, pick: IdPicker)
    requires Deliverable(w, report) && net(0).Delivered? && net(1).Delivered?
    ensures Handle(w, Request.ReportWorkOutcome(report), net, pick) == (Concluded(w, report, net(1).now), Reported(true))
  {
    hide Stores.Execute, Transport, Strip, Kept, Concluded;
    assert Begin(Request.ReportWorkOutcome(report)) == ReportStore(report);
    DeliveredStore(w, report, net(0), pick);
    DeliveredCas(w, report, net(1), pick);
    Unroll(w, ReportStore(report), net, 0, pick);
    Unroll(Kept(w, report), ReportCas(report), net, 1, pick);
  }

  /** An undisturbed report succeeds at the first attempt, at the time of its CAS. */
  lemma CleanReportSettles(w: World, report: Report, net: Network, pick: IdPicker)
    requires Reportable(w, report) && net(0).Delivered? && net(1).Delivered?
    ensures Handle(w, Request.ReportWorkOutcome(report), net, pick) == (Settled(w, report, net(1).now), Reported(true))
  {
    hide Handle;
    ReportConcludes(w, report, net, pick);
  }

  // ---------- When a report agrees with what is stored ----------

  /** The Coordinator does not look at what StoreResult says is already there, so a delivered report of
      a RUNNING job leaves status and envelope in agreement exactly when no other status was stored. */
  lemma ReportAgreesExactlyWhen(w: World, report: Report, net: Network, pick: IdPicker)
    requires Deliverable(w, report) && net(0).Delivered? && net(1).Delivered?
    ensures var w' := Handle(w, Request.ReportWorkOutcome(report), net, pick).0;
            && report.jobId in w'.table.records && report.jobId in w'.results.envelopes
            && (w'.results.envelopes[report.jobId].terminalStatus == w'.table.records[report.jobId].status <==>
                  (report.jobId in w.results.envelopes ==> w.results.envelopes[report.jobId].terminalStatus == Target(report)))
  {
    hide Handle;
    ReportConcludes(w, report, net, pick);
  }

  // ---------- Retries go on ----------

  /** `trace` are the stores before the first attempt and after each attempt made so far; all but the last
      attempt failed, and `accepted` is how the last one went. */
  ghost predicate Tried(w: World, report: Report, hops: nat -> Hop, trace: seq<World>, accepted: bool, pick: IdPicker) {
    trace != [] &&
    var n := |trace| - 1;
    if n == 0 then trace[0] == w && !accepted
    else Tried(w, report, hops, trace[..n], false, pick) && TryReport(trace[n - 1], report, hops(n), pick) == (trace[n], accepted)
  }

  lemma NothingTried(w: World, report: Report, hops: nat -> Hop, pick: IdPicker)
    ensures Tried(w, report, hops, [w], false, pick)
  {}

  lemma TriedOnceMore(w: World, report: Report, hops: nat -> Hop, trace: seq<World>, next: World, accepted: bool, pick: IdPicker)
    requires Tried(w, report, hops, trace, false, pick)
    requires TryReport(trace[|trace| - 1], report, hops(|trace|), pick) == (next, accepted)
    ensures Tried(w, report, hops, trace + [next], accepted, pick)
  {
    hide TryReport;
    assert (trace + [next])[..|trace|] == trace;
  }

  lemma OneAttempt(w: World, report: Report, hops: nat -> Hop, stopped: nat -> bool, i: nat, last: nat, pick: IdPicker)
    ensures var (w', accepted) := TryReport(w, report, hops(i), pick);
            Attempts(w, report, hops, stopped, i, last, pick) ==
              if accepted || i >= last || stopped(i) then (w', accepted) else Attempts(w', report, hops, stopped, i + 1, last, pick)
  {
    hide TryReport;
  }

  predicate GetsThrough(hop: Hop) { hop.Reached? && hop.net(0).Delivered? && hop.net(1).Delivered? }

  lemma SettledStoreReplies(w0: World, report: Report, stage: Stage, d: Delivery, pick: IdPicker)
    requires Reportable(w0, report) && d.Delivered?
    ensures var (w1, reply) := Transport(AtStage(w0, report, stage), CallOf(ReportStore(report)), d, pick);
            reply.Stored? && w1 == AtStage(w0, report, if stage.Untouched? then HasEnvelope else stage)
  {}

  lemma SettledCasReplies(w0: World, report: Report, stage: Stage, d: Delivery, pick: IdPicker)
    requires Reportable(w0, report) && d.Delivered? && !stage.Untouched?
    ensures var reply := Transport(AtStage(w0, report, stage), CallOf(ReportCas(report)), d, pick).1;
            reply.Transitioned? && (reply.applied || reply.status.Terminal())
  {}

  /** Whatever earlier attempts have left, an attempt that gets through is accepted. */
  lemma AttemptThroughIsAccepted(w0: World, report: Report, stage: Stage, hop: Hop, pick: IdPicker)
    requires Reportable(w0, report) && GetsThrough(hop)
    ensures TryReport(AtStage(w0, report, stage), report, hop, pick).1
  {
    hide Stores.Execute, Transport, Strip, AtStage;
    var w, net := AtStage(w0, report, stage), hop.net;
    assert Begin(Request.ReportWorkOutcome(report)) == ReportStore(report);
    SettledStoreReplies(w0, report, stage, net(0), pick);
    Unroll(w, ReportStore(report), net, 0, pick);
    var stage' := if stage.Untouched? then HasEnvelope else stage;
    SettledCasReplies(w0, report, stage', net(1), pick);
    Unroll(AtStage(w0, report, stage'), ReportCas(report), net, 1, pick);
  }

  lemma {:induction false} RetriesReachIt(w0: World, report: Report, stage: Stage, hops: nat -> Hop, stopped: nat -> bool,
                                          i: nat, good: nat, last: nat, pick: IdPicker)
    requires Reportable(w0, report) && i <= good <= last && GetsThrough(hops(good))
    requires forall k | i <= k < good :: !stopped(k)
    ensures Attempts(AtStage(w0, report, stage), report, hops, stopped, i, last, pick).1
    decreases last - i
  {
    hide AtStage, Handle, GetsThrough;
    var w := AtStage(w0, report, stage);
    if i == good {
      AttemptThroughIsAccepted(w0, report, stage, hops(i), pick);
    } else if !TryReport(w, report, hops(i), pick).1 {
      var next := stage;
      if !hops(i).Unreached? {
        next := HandleMovesStage(w0, report, stage, hops(i).net, pick);
      }
      RetriesReachIt(w0, report, next, hops, stopped, i + 1, good, last, pick);
    }
  }

  /** Retries do not stop short: if any attempt up to the last gets through, and the worker is not stopped
      before it, the report is accepted, and the job has the reported ending and the report's envelope. */
  lemma RetriesSucceed(w: World, report: Report, hops: nat -> Hop, stopped: nat -> bool, good: nat, last: nat, pick: IdPicker)
    requires Reportable(w, report) && 1 <= good <= last && GetsThrough(hops(good))
    requires forall k | 1 <= k < good :: !stopped(k)
    ensures var (w', accepted) := Attempts(w, report, hops, stopped, 1, last, pick);
            && accepted
            && report.jobId in w'.table.records
            && w'.table.records[report.jobId].status
               == (if report.outcome.Succeeded? then Done else if report.outcome.OutcomeFailed? then Failed else Canceled)
            && report.jobId in w'.results.envelopes && w'.results.envelopes[report.jobId] == ReportEnvelope(report)
  {
    hide Attempts;
    assert AtStage(w, report, Untouched) == w;
    RetriesReachIt(w, report, Untouched, hops, stopped, 1, good, last, pick);
    RetryIsIdempotent(w, report, hops, stopped, last, pick);
  }
}
