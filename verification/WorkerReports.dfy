/** The outcome report the worker builds for an assignment. FetchWork answers with the job's type and
    zero duration and payload size, so worker, job and type determine the report completely. UTF-8
    encoding and SHA-256 are parameters. */
module WorkerReports {
  import opened Types
  import opened Handlers
  import opened Decimal

  datatype Codec = Codec(utf8: string -> Bytes, sha256Hex: Bytes -> string)

  predicate Contains(text: string, part: string) {
    part <= text || (text != "" && Contains(text[1..], part))
  }

  function Lower(text: string): string {
    seq(|text|, i requires 0 <= i < |text| =>
      if 'A' <= text[i] <= 'Z' then (text[i] as int + 32) as char else text[i])
  }

  predicate ForceFailure(jobType: string) { Contains(Lower(Strip(jobType)), "force-fail") }

  function PlannedRuntimeMs(workDurationMs: int): nat {
    if workDurationMs <= 0 then 120 else Max(20, Min(workDurationMs, 2000))
  }

  function FailureReason(workerId: string, jobType: string): string {
    "simulated_failure force-fail worker_id=" + workerId + " job_type=" + Strip(jobType)
  }

  function OutputText(workerId: string, jobId: JobId, jobType: string, runtimeMs: nat): string {
    "worker=" + workerId + ";job_id=" + jobId + ";job_type=" + Strip(jobType)
    + ";runtime_ms=" + Print(runtimeMs) + ";payload_size=" + Print(0)
  }

  function WorkerReport(codec: Codec, workerId: string, jobId: JobId, jobType: string): Report {
    var runtimeMs := PlannedRuntimeMs(0);
    if ForceFailure(jobType) then
      var reason := FailureReason(workerId, jobType);
      var output := codec.utf8(reason);
      Report(workerId, jobId, OutcomeFailed, runtimeMs, reason,
             "simulated_failure worker_id=" + workerId + " runtime_ms=" + Print(runtimeMs) + " reason=" + reason,
             output, codec.sha256Hex(output))
    else
      var output := codec.utf8(OutputText(workerId, jobId, jobType, runtimeMs));
      Report(workerId, jobId, Succeeded, runtimeMs, "",
             "simulated_success worker_id=" + workerId + " runtime_ms=" + Print(runtimeMs) + " bytes=" + Print(|output|),
             output, codec.sha256Hex(output))
  }

  // ---------- What a report says ----------

  /** `part` stands in `text` at position `i`. */
  predicate StandsAt(text: string, part: string, i: nat) {
    i + |part| <= |text| && text[i..i + |part|] == part
  }

  lemma StandsOneOn(text: string, part: string, i: nat)
    requires text != ""
    ensures StandsAt(text[1..], part, i) <==> StandsAt(text, part, i + 1)
  {
    if i + 1 + |part| <= |text| {
      assert text[1..][i..i + |part|] == text[i + 1..i + 1 + |part|];
    }
  }

  lemma StandsFirst(text: string, part: string)
    ensures StandsAt(text, part, 0) <==> part <= text
  {}

  lemma {:induction false} ContainsExactlyWhen(text: string, part: string)
    ensures Contains(text, part) <==> exists i: nat :: StandsAt(text, part, i)
  {
    hide StandsAt;
    StandsFirst(text, part);
    if text == "" {
      NothingStandsPastTheEnd(part);
    } else {
      ContainsExactlyWhen(text[1..], part);
      forall i: nat ensures StandsAt(text[1..], part, i) <==> StandsAt(text, part, i + 1) {
        StandsOneOn(text, part, i);
      }
      if i: nat :| StandsAt(text, part, i) && i > 0 {
        assert StandsAt(text[1..], part, i - 1);
      }
    }
  }

  lemma NothingStandsPastTheEnd(part: string)
    ensures forall i: nat :: StandsAt("", part, i) ==> i == 0
  {}

  /** Capital letters and nothing else are moved, each to its small one. */
  lemma LowerIsCharacterwise(text: string)
    ensures |Lower(text)| == |text|
    ensures forall i | 0 <= i < |text| ::
              Lower(text)[i] as int == if 'A' <= text[i] <= 'Z' then text[i] as int - 'A' as int + 'a' as int else text[i] as int
  {}

  /** Somewhere in the trimmed and lowered job type stands "force-fail". */
  ghost predicate AsksToFail(jobType: string) {
    exists i: nat :: StandsAt(Lower(Strip(jobType)), "force-fail", i)
  }

  lemma ForcedExactlyWhenAsked(jobType: string)
    ensures ForceFailure(jobType) <==> AsksToFail(jobType)
  {
    ContainsExactlyWhen(Lower(Strip(jobType)), "force-fail");
  }

  /** A worker reports a job as failed if and only if its type asks for it, and as succeeded otherwise; the
      report names the worker and the job, and its checksum is that of its output. */
  lemma WorkerReportSays(codec: Codec, workerId: string, jobId: JobId, jobType: string)
    ensures var r := WorkerReport(codec, workerId, jobId, jobType);
            && r.workerId == workerId && r.jobId == jobId && r.runtimeMs == 120
            && (r.outcome == OutcomeFailed <==> AsksToFail(jobType)) && (r.outcome == Succeeded <==> !AsksToFail(jobType))
            && r.failureReason == (if AsksToFail(jobType)
                                   then "simulated_failure force-fail worker_id=" + workerId + " job_type=" + Strip(jobType) else "")
            && r.outputBytes == codec.utf8(
                 if AsksToFail(jobType) then r.failureReason
                 else "worker=" + workerId + ";job_id=" + jobId + ";job_type=" + Strip(jobType)
                      + ";runtime_ms=" + Print(120) + ";payload_size=" + Print(0))
            && r.outputSummary ==
                 (if AsksToFail(jobType)
                  then "simulated_failure worker_id=" + workerId + " runtime_ms=" + Print(120) + " reason=" + r.failureReason
                  else "simulated_success worker_id=" + workerId + " runtime_ms=" + Print(120) + " bytes=" + Print(|r.outputBytes|))
            && r.checksum == codec.sha256Hex(r.outputBytes)
  {
    hide AsksToFail, ForceFailure, Print, Strip;
    ForcedExactlyWhenAsked(jobType);
  }

  /** The simulated runtime: 120 ms unless the job asks for one, and between 20 ms and 2 s if it does. */
  lemma PlannedRuntimeIs(workDurationMs: int)
    ensures workDurationMs <= 0 ==> PlannedRuntimeMs(workDurationMs) == 120
    ensures workDurationMs > 0 ==> 20 <= PlannedRuntimeMs(workDurationMs) <= 2000
    ensures 20 <= workDurationMs <= 2000 ==> PlannedRuntimeMs(workDurationMs) == workDurationMs
    ensures 0 < workDurationMs < 20 ==> PlannedRuntimeMs(workDurationMs) == 20
    ensures workDurationMs > 2000 ==> PlannedRuntimeMs(workDurationMs) == 2000
  {}
}
