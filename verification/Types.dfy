/** The vocabulary shared by the three stores and the handlers that drive them. */
module Types {

  datatype Option<+T> = None | Some(value: T)

  type JobId = string

  type Bytes = seq<bv8>

  datatype JobStatus = Unspecified | Queued | Running | Done | Failed | Canceled {
    predicate Terminal() { Done? || Failed? || Canceled? }
  }

  /** gRPC status codes, with the ones no handler tells apart folded into `OtherCode`. */
  datatype Code =
    | InvalidArgument | NotFound | FailedPrecondition
    | Unavailable | DeadlineExceeded | ResourceExhausted
    | Internal | OtherCode

  datatype Label = Label(key: string, value: string)

  /** `labels` holds the items of the protobuf map in whatever order it iterates. */
  datatype JobSpec = JobSpec(jobType: string, workDurationMs: nat, payloadSizeBytes: nat, labels: seq<Label>)

  datatype JobRecord = JobRecord(
    jobId: JobId,
    status: JobStatus,
    jobType: string,
    workDurationMs: nat,
    payloadSizeBytes: nat,
    labels: map<string, string>,
    createdAtMs: int,
    startedAtMs: int,
    finishedAtMs: int,
    cancelRequested: bool,
    failureReason: string)

  /** What the Job service tells its callers about a record. */
  datatype Summary = Summary(
    jobId: JobId,
    status: JobStatus,
    jobType: string,
    createdAtMs: int,
    startedAtMs: int,
    finishedAtMs: int,
    cancelRequested: bool)

  datatype Envelope = Envelope(
    terminalStatus: JobStatus,
    runtimeMs: nat,
    outputSummary: string,
    outputBytes: Bytes,
    checksum: string)

  /** The clock and the identifier generator, as one delivered call sees them. `newId` is `None`
      when the generator gives up. */
  datatype Env = Env(now: int, newId: Option<JobId>)

  function Max(a: int, b: int): int { if a >= b then a else b }

  function Min(a: int, b: int): int { if a <= b then a else b }

  // ---------- Blank handling ----------

  /** The characters Python's `str.strip` removes. */
  predicate IsSpace(c: char) {
    || '\U{0009}' <= c <= '\U{000D}' || '\U{001C}' <= c <= '\U{0020}'
    || c == '\U{0085}' || c == '\U{00A0}' || c == '\U{1680}'
    || '\U{2000}' <= c <= '\U{200A}' || c == '\U{2028}' || c == '\U{2029}'
    || c == '\U{202F}' || c == '\U{205F}' || c == '\U{3000}'
  }

  function StripLeft(s: string): string {
    if s != "" && IsSpace(s[0]) then StripLeft(s[1..]) else s
  }

  function StripRight(s: string): string {
    if s != "" && IsSpace(s[|s| - 1]) then StripRight(s[..|s| - 1]) else s
  }

  function Strip(s: string): string { StripRight(StripLeft(s)) }

  /** A name already stripped, as every identifier a handler passes on is. */
  predicate Canonical(s: string) { s != "" && Strip(s) == s }

  lemma {:induction false} StripRightTrims(s: string)
    ensures StripRight(s) <= s
    ensures StripRight(s) == "" || !IsSpace(StripRight(s)[|StripRight(s)| - 1])
  {
    if s != "" && IsSpace(s[|s| - 1]) {
      StripRightTrims(s[..|s| - 1]);
    }
  }

  lemma {:induction false} StripLeftTrims(s: string)
    ensures StripLeft(s) == "" || !IsSpace(StripLeft(s)[0])
  {
    if s != "" && IsSpace(s[0]) {
      StripLeftTrims(s[1..]);
    }
  }

  /** Stripping twice is stripping once, so the stores may strip what a handler stripped. */
  lemma StripTwice(s: string)
    ensures Strip(Strip(s)) == Strip(s)
  {
    StripLeftTrims(s);
    StripRightTrims(StripLeft(s));
  }

  predicate Blank(s: string) { forall i | 0 <= i < |s| :: IsSpace(s[i]) }

  lemma {:induction false} StripLeftDrops(s: string) returns (left: string)
    ensures s == left + StripLeft(s) && Blank(left)
  {
    if s != "" && IsSpace(s[0]) {
      left := StripLeftDrops(s[1..]);
      left := [s[0]] + left;
    } else {
      left := "";
    }
  }

  lemma {:induction false} StripRightDrops(s: string) returns (right: string)
    ensures s == StripRight(s) + right && Blank(right)
  {
    if s != "" && IsSpace(s[|s| - 1]) {
      right := StripRightDrops(s[..|s| - 1]);
      right := right + [s[|s| - 1]];
    } else {
      right := "";
    }
  }

  /** Stripping takes blanks off both ends, nothing else, and leaves none there. */
  lemma StripTakesBlanksOff(s: string) returns (left: string, right: string)
    ensures s == left + Strip(s) + right && Blank(left) && Blank(right)
    ensures Strip(s) != "" ==> !IsSpace(Strip(s)[0]) && !IsSpace(Strip(s)[|Strip(s)| - 1])
  {
    left := StripLeftDrops(s);
    right := StripRightDrops(StripLeft(s));
    StripLeftTrims(s);
    StripRightTrims(StripLeft(s));
  }
}
