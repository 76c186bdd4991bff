/** Exactly when a terminal status and its envelope agree, over every run without restriction: when no
    terminal CAS was applied against an envelope of another status. That is the comparison the Coordinator
    and the Gateway could make with what StoreResult tells them, and do not. */
module Contradiction {
  import opened Types
  import opened Messages
  import opened JobTable
  import opened Stores
  import opened Handlers
  import opened Protocol
  import opened Unrestricted
  import opened Answers

  predicate Agrees(s: System, j: JobId) {
    HasRecord(s, j) && RecordOf(s, j).status.Terminal() ==>
      HasEnvelope(s, j) && s.stores.results.envelopes[j].terminalStatus == RecordOf(s, j).status
  }

  /** The call about to be delivered will be applied and turn `j` terminal, with a status other than the
      stored envelope's. */
  predicate Contradicts(s: System, a: Action, j: JobId)
    requires Enabled(s, a)
  {
    a.Deliver? && CasAgainstEnvelope(s.stores, CallOf(s.ops[a.op]), j)
  }

  predicate CasAgainstEnvelope(w: World, call: Call, j: JobId) {
    && call.TransitionJobStatus? && call.jobId == j && call.to.Terminal()
    && j in w.table.records && w.table.records[j].status == call.expectedFrom
    && j in w.results.envelopes && w.results.envelopes[j].terminalStatus != call.to
  }

  ghost predicate NeverContradicted(s: System, run: seq<Action>, j: JobId)
    requires Legal(s, run)
  {
    run == [] || (
      var init := run[..|run| - 1];
      NeverContradicted(s, init, j) && !Contradicts(After(s, init), run[|run| - 1], j))
  }

  predicate AgreesIn(w: World, j: JobId) {
    j in w.table.records && w.table.records[j].status.Terminal() ==>
      j in w.results.envelopes && w.results.envelopes[j].terminalStatus == w.table.records[j].status
  }

  /** A call that is no CAS changes no status to a terminal one, and no stored envelope. */
  lemma OtherCallsAgree(w: World, call: Call, env: Env, j: JobId)
    requires !call.TransitionJobStatus? && AgreesIn(w, j)
    ensures AgreesIn(Execute(w, call, env).0, j)
  {
    hide Strip, FingerprintOf, AsMap;
  }

  lemma CasBreaksExactlyWhen(w: World, call: Call, env: Env, j: JobId)
    requires call.TransitionJobStatus? && Ordinary(call) && AgreesIn(w, j)
    requires call.jobId == j && call.to.Terminal() ==> j in w.results.envelopes
    ensures AgreesIn(Execute(w, call, env).0, j) <==> !CasAgainstEnvelope(w, call, j)
  {}

  lemma CallBreaksExactlyWhen(w: World, pc: Pc, env: Env, j: JobId)
    requires !pc.Finished? && Sound(pc) && AgreesIn(w, j) && (PastStore(pc, j) ==> j in w.results.envelopes)
    ensures AgreesIn(Execute(w, CallOf(pc), env).0, j) <==> !CasAgainstEnvelope(w, CallOf(pc), j)
  {
    hide Stores.Execute, AgreesIn;
    CallsAreOrdinary(pc);
    if CallOf(pc).TransitionJobStatus? {
      CasBreaksExactlyWhen(w, CallOf(pc), env, j);
    } else {
      OtherCallsAgree(w, CallOf(pc), env, j);
    }
  }

  /** One step breaks the agreement exactly when it contradicts the envelope. */
  lemma StepBreaksExactlyWhen(s: System, a: Action, j: JobId)
    requires SoundInv(s) && EnvelopeInv(s, j) && Agrees(s, j) && Enabled(s, a)
    ensures Agrees(Apply(s, a), j) <==> !Contradicts(s, a, j)
  {
    hide Stores.Execute, Resume, Begin;
    if a.Deliver? {
      CallBreaksExactlyWhen(s.stores, s.ops[a.op], a.env, j);
    }
  }

  lemma DisagreementStays(s: System, a: Action, j: JobId)
    requires SoundInv(s) && IssuedInv(s) && EnvelopeInv(s, j) && !Agrees(s, j) && Enabled(s, a)
    ensures !Agrees(Apply(s, a), j)
  {
    hide Stores.Execute, Resume, Begin;
    TerminalRecordStep(s, a, j);
    if a.Deliver? {
      EnvelopesStay(s.stores, CallOf(s.ops[a.op]), a.env, j);
    }
  }

  /** After any run a job's status and envelope agree if and only if no step of the run contradicted the
      envelope. */
  lemma {:induction false} AgreesExactlyWhen(dedupCap: int, outputCap: int, run: seq<Action>, j: JobId)
    requires Legal(Initial(dedupCap, outputCap), run)
    ensures Agrees(After(Initial(dedupCap, outputCap), run), j) <==> NeverContradicted(Initial(dedupCap, outputCap), run, j)
  {
    hide Agrees, Contradicts;
    if run == [] {
      NothingDisagrees(dedupCap, outputCap, j);
    } else {
      var init, a := run[..|run| - 1], run[|run| - 1];
      AgreesExactlyWhen(dedupCap, outputCap, init, j);
      SoundAlways(dedupCap, outputCap, init);
      IssuedAlways(dedupCap, outputCap, init);
      EnvelopeAlways(dedupCap, outputCap, init, j);
      var s := After(Initial(dedupCap, outputCap), init);
      if Agrees(s, j) {
        StepBreaksExactlyWhen(s, a, j);
      } else {
        DisagreementStays(s, a, j);
      }
    }
  }

  lemma NothingDisagrees(dedupCap: int, outputCap: int, j: JobId)
    ensures Agrees(Initial(dedupCap, outputCap), j)
  {}

  // ---------- In terms of what handlers are told ----------

  /** The status an operation's StoreResult was answered with: the one stored, its own or an earlier one.
      A call that fails behind it inherits what its handler was told. */
  ghost function Told(s: System, run: seq<Action>, op: OpId): Option<JobStatus>
    requires Legal(s, run)
  {
    if run == [] then None
    else
      var init, a := run[..|run| - 1], run[|run| - 1];
      match a
      case Start(_, _) => Told(s, init, op)
      case Deliver(o, env) =>
        if o == op && AsksStore(After(s, init).ops[op]) then ToldBy(After(s, init).stores, CallOf(After(s, init).ops[op]), env)
        else Told(s, init, op)
      case Fail(o, _, lost) => if lost == op then Told(s, init, o) else Told(s, init, op)
  }

  predicate AsksStore(pc: Pc) { pc.ReportStore? || pc.CancelStore? }

  function ToldBy(w: World, call: Call, env: Env): Option<JobStatus> {
    var reply := Execute(w, call, env).1;
    if reply.Stored? then Some(reply.status) else None
  }

  /** Whoever is past the store for `j` has been told the status of its envelope. */
  predicate ToldRight(s: System, pc: Pc, told: Option<JobStatus>, j: JobId) {
    Settles(pc, j) ==> HasEnvelope(s, j) && told == Some(s.stores.results.envelopes[j].terminalStatus)
  }

  /** Operations whose next call, or whose lost call, is a CAS that would turn `j` terminal. */
  predicate Settles(pc: Pc, j: JobId) {
    match pc
    case ReportCas(r) => r.jobId == j
    case CancelCas(id, _) => id == j
    case Lost(TransitionJobStatus(id, _, to, _)) => id == j && to.Terminal()
    case _ => false
  }

  lemma SettlesByCas(pc: Pc, j: JobId)
    requires !pc.Finished? && Sound(pc)
    ensures var call := CallOf(pc);
            Settles(pc, j) <==> call.TransitionJobStatus? && call.jobId == j && call.to.Terminal()
  {}

  lemma ResumeTold(w: World, pc: Pc, env: Env, j: JobId)
    requires !pc.Finished?
    ensures var (w', reply) := Execute(w, CallOf(pc), env);
            Settles(Resume(pc, reply), j) ==>
              && AsksStore(pc) && j in w'.results.envelopes
              && ToldBy(w, CallOf(pc), env) == Some(w'.results.envelopes[j].terminalStatus)
  {
    hide Strip;
  }

  lemma ErrorSettlesNothing(pc: Pc, code: Code, j: JobId)
    requires !pc.Finished?
    ensures !Settles(Resume(pc, Failure(code)), j)
    ensures Settles(Pc.Lost(CallOf(pc)), j) && Sound(pc) ==> Settles(pc, j)
  {}

  lemma BeginSettlesNothing(request: Request, j: JobId)
    ensures !Settles(Begin(request), j)
  {}

  ghost predicate ToldInv(s0: System, run: seq<Action>, j: JobId)
    requires Legal(s0, run)
  {
    var s := After(s0, run);
    forall op | op in s.ops :: ToldRight(s, s.ops[op], Told(s0, run, op), j)
  }

  lemma ToldStep(s0: System, run: seq<Action>, j: JobId)
    requires Legal(s0, run) && run != [] && Legal(s0, run[..|run| - 1]) && ToldInv(s0, run[..|run| - 1], j)
    requires SoundInv(After(s0, run[..|run| - 1]))
    ensures ToldInv(s0, run, j)
  {
    hide Stores.Execute, Resume, Begin, CallOf, Settles, AsksStore, ToldBy, Sound;
    var init, a := run[..|run| - 1], run[|run| - 1];
    var s, s' := After(s0, init), After(s0, run);
    forall op | op in s'.ops ensures ToldRight(s', s'.ops[op], Told(s0, run, op), j) {
      match a {
        case Start(o, request) => BeginSettlesNothing(request, j);
        case Deliver(o, env) =>
          if HasEnvelope(s, j) {
            EnvelopesStay(s.stores, CallOf(s.ops[o]), env, j);
          }
          ResumeTold(s.stores, s.ops[o], env, j);
        case Fail(o, code, lost) => ErrorSettlesNothing(s.ops[o], code, j);
      }
      if op in s.ops && s'.ops[op] == s.ops[op] {
        assert ToldRight(s, s.ops[op], Told(s0, init, op), j);
      }
    }
  }

  lemma {:induction false} ToldAlways(dedupCap: int, outputCap: int, run: seq<Action>, j: JobId)
    requires Legal(Initial(dedupCap, outputCap), run)
    ensures ToldInv(Initial(dedupCap, outputCap), run, j)
  {
    hide ToldInv, Enabled;
    if run == [] {
      NobodyTold(Initial(dedupCap, outputCap), j);
    } else {
      ToldAlways(dedupCap, outputCap, run[..|run| - 1], j);
      SoundAlways(dedupCap, outputCap, run[..|run| - 1]);
      ToldStep(Initial(dedupCap, outputCap), run, j);
    }
  }

  lemma NobodyTold(s: System, j: JobId)
    requires s.ops == map[]
    ensures ToldInv(s, [], j)
  {}

  /** The delivered CAS will be applied, and turn `j` into another terminal status than the one its
      operation was told is stored. */
  ghost predicate Overrules(s0: System, run: seq<Action>, a: Action, j: JobId)
    requires Legal(s0, run) && Enabled(After(s0, run), a)
  {
    var s := After(s0, run);
    a.Deliver? && Settles(s.ops[a.op], j)
    && (var call := CallOf(s.ops[a.op]);
        call.TransitionJobStatus? && HasRecord(s, j) && RecordOf(s, j).status == call.expectedFrom
        && Told(s0, run, a.op) != Some(call.to))
  }

  ghost predicate NeverOverruled(s0: System, run: seq<Action>, j: JobId)
    requires Legal(s0, run)
  {
    run == [] || (
      var init := run[..|run| - 1];
      NeverOverruled(s0, init, j) && !Overrules(s0, init, run[|run| - 1], j))
  }

  lemma OverrulingContradicts(s0: System, run: seq<Action>, a: Action, j: JobId)
    requires Legal(s0, run) && Enabled(After(s0, run), a) && ToldInv(s0, run, j) && SoundInv(After(s0, run))
    ensures Overrules(s0, run, a, j) <==> Contradicts(After(s0, run), a, j)
  {
    hide Settles, CallOf, Told;
    var s := After(s0, run);
    if a.Deliver? {
      SettlesByCas(s.ops[a.op], j);
      assert ToldRight(s, s.ops[a.op], Told(s0, run, a.op), j);
    }
  }

  /** The same in terms of what handlers know: after any run a job's status and envelope agree if and only
      if no operation that was told one status had its CAS to another applied. */
  lemma {:induction false} AgreesExactlyWhenNotOverruled(dedupCap: int, outputCap: int, run: seq<Action>, j: JobId)
    requires Legal(Initial(dedupCap, outputCap), run)
    ensures Agrees(After(Initial(dedupCap, outputCap), run), j) <==> NeverOverruled(Initial(dedupCap, outputCap), run, j)
  {
    SameBreaks(dedupCap, outputCap, run, j);
    AgreesExactlyWhen(dedupCap, outputCap, run, j);
  }

  lemma {:induction false} SameBreaks(dedupCap: int, outputCap: int, run: seq<Action>, j: JobId)
    requires Legal(Initial(dedupCap, outputCap), run)
    ensures NeverOverruled(Initial(dedupCap, outputCap), run, j) <==> NeverContradicted(Initial(dedupCap, outputCap), run, j)
  {
    hide Overrules, Contradicts, Enabled, ToldInv;
    if run != [] {
      var init, a := run[..|run| - 1], run[|run| - 1];
      SameBreaks(dedupCap, outputCap, init, j);
      ToldAlways(dedupCap, outputCap, init, j);
      SoundAlways(dedupCap, outputCap, init);
      assert Enabled(After(Initial(dedupCap, outputCap), init), a);
      OverrulingContradicts(Initial(dedupCap, outputCap), init, a, j);
    }
  }
}
