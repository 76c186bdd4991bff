/** What a record tells about its job's life, over every run whose clock never runs backwards: which
    timestamps are set and in which order, who asked for a cancellation, and when a failure has a reason. */
module Lifecycle {
  import opened Types
  import opened Messages
  import opened JobTable
  import opened Stores
  import opened Handlers
  import opened Protocol
  import opened Unrestricted

  /** The latest clock reading any delivered call has used. */
  ghost function Latest(run: seq<Action>): int {
    if run == [] then 0
    else
      var init, last := Latest(run[..|run| - 1]), run[|run| - 1];
      if last.Deliver? && last.env.now > init then last.env.now else init
  }

  /** Clock readings are positive and do not go back from one delivered call to the next. */
  ghost predicate Clocked(run: seq<Action>) {
    run == [] || (
      var init, last := run[..|run| - 1], run[|run| - 1];
      Clocked(init) && (last.Deliver? ==> 0 < last.env.now && Latest(init) <= last.env.now))
  }

  /** A record's own account, by its status, as of `now`. */
  predicate Tells(rec: JobRecord, now: int) {
    && 0 < rec.createdAtMs <= now
    && (rec.status.Queued? ==> rec.startedAtMs == 0)
    && (rec.status.Running? || rec.status.Done? || rec.status.Failed? ==> rec.startedAtMs != 0)
    && (rec.startedAtMs != 0 ==> rec.createdAtMs <= rec.startedAtMs <= now)
    && (rec.finishedAtMs != 0 <==> rec.status.Terminal())
    && (rec.finishedAtMs != 0 ==> Max(rec.createdAtMs, rec.startedAtMs) <= rec.finishedAtMs <= now)
    && (rec.status.Canceled? ==> rec.cancelRequested)
    && (rec.failureReason != "" ==> rec.status.Failed?)
    && !rec.status.Unspecified?
  }

  lemma TellsLater(rec: JobRecord, now: int, later: int)
    requires Tells(rec, now) && now <= later
    ensures Tells(rec, later)
  {}

  lemma AdvanceTells(rec: JobRecord, to: JobStatus, reason: string, now: int)
    requires Tells(rec, now) && AllowedTransition(rec.status, to) && 0 < now
    ensures Tells(Advance(rec, to, reason, now), now)
  {}

  /** One call, at a reading no earlier than any before. */
  lemma CallTells(w: World, call: Call, env: Env, j: JobId)
    requires Ordinary(call) && 0 < env.now
    requires j in w.table.records ==> Tells(w.table.records[j], env.now)
    ensures var w' := Execute(w, call, env).0;
            j in w'.table.records ==> Tells(w'.table.records[j], env.now)
  {
    if call.TransitionJobStatus? && call.jobId == j && j in w.table.records && w.table.records[j].status == call.expectedFrom {
      AdvanceTells(w.table.records[j], call.to, call.reason, env.now);
    }
  }

  /** Every record of every clocked run tells its job's story. */
  lemma {:induction false} RecordsTell(dedupCap: int, outputCap: int, run: seq<Action>, j: JobId)
    requires Legal(Initial(dedupCap, outputCap), run) && Clocked(run)
    ensures var s := After(Initial(dedupCap, outputCap), run);
            HasRecord(s, j) ==> Tells(RecordOf(s, j), Latest(run))
  {
    hide Stores.Execute, Tells, Resume, Begin;
    if run != [] {
      var init, a := run[..|run| - 1], run[|run| - 1];
      var s := After(Initial(dedupCap, outputCap), init);
      RecordsTell(dedupCap, outputCap, init, j);
      SoundAlways(dedupCap, outputCap, init);
      if a.Deliver? {
        CallsAreOrdinary(s.ops[a.op]);
        if HasRecord(s, j) {
          TellsLater(RecordOf(s, j), Latest(init), a.env.now);
        }
        CallTells(s.stores, CallOf(s.ops[a.op]), a.env, j);
      }
    }
  }

  // ---------- What clients are told ----------

  /** What a status answer's timestamps say, by its status. */
  predicate SummaryTells(summary: Summary) {
    && 0 < summary.createdAtMs
    && (summary.status.Queued? ==> summary.startedAtMs == 0)
    && (summary.status.Running? || summary.status.Done? || summary.status.Failed? ==> summary.createdAtMs <= summary.startedAtMs)
    && (if summary.status.Terminal() then summary.createdAtMs <= summary.finishedAtMs && summary.startedAtMs <= summary.finishedAtMs
        else summary.finishedAtMs == 0)
    && (summary.status.Canceled? ==> summary.cancelRequested)
  }

  predicate ToldWell(pc: Pc) {
    pc.Finished? && pc.answer.StatusOf? ==> SummaryTells(pc.answer.summary)
  }

  lemma SummaryOfTells(rec: JobRecord, now: int)
    requires Tells(rec, now)
    ensures SummaryTells(SummaryOf(rec))
  {}

  lemma OnlyReadsTell(w: World, pc: Pc, env: Env)
    requires !pc.Finished?
    ensures var pc' := Resume(pc, Execute(w, CallOf(pc), env).1);
            pc'.Finished? && pc'.answer.StatusOf? ==>
              pc.StatusRead? && pc.jobId in w.table.records && pc'.answer.summary == SummaryOf(w.table.records[pc.jobId])
  {
    hide Strip, FingerprintOf, AsMap, SummaryOf;
  }

  lemma ErrorsTellNothing(pc: Pc, code: Code)
    requires !pc.Finished?
    ensures ToldWell(Resume(pc, Failure(code))) && ToldWell(Pc.Lost(CallOf(pc)))
  {
    hide SummaryTells;
  }

  lemma BeginningsTellNothing(request: Request)
    ensures ToldWell(Begin(request))
  {
    hide SummaryTells;
  }

  lemma AnswerStepTells(dedupCap: int, outputCap: int, run: seq<Action>, a: Action)
    requires Legal(Initial(dedupCap, outputCap), run) && Clocked(run) && Enabled(After(Initial(dedupCap, outputCap), run), a)
    requires forall op | op in After(Initial(dedupCap, outputCap), run).ops :: ToldWell(After(Initial(dedupCap, outputCap), run).ops[op])
    ensures var s' := Apply(After(Initial(dedupCap, outputCap), run), a); forall op | op in s'.ops :: ToldWell(s'.ops[op])
  {
    hide Stores.Execute, Resume, Begin, CallOf, SummaryTells, Tells, SummaryOf, Legal, After, Clocked;
    var s := After(Initial(dedupCap, outputCap), run);
    match a {
      case Start(_, request) => BeginningsTellNothing(request);
      case Deliver(op, env) =>
        OnlyReadsTell(s.stores, s.ops[op], env);
        if s.ops[op].StatusRead? && HasRecord(s, s.ops[op].jobId) {
          RecordsTell(dedupCap, outputCap, run, s.ops[op].jobId);
          SummaryOfTells(RecordOf(s, s.ops[op].jobId), Latest(run));
        }
      case Fail(op, code, _) => ErrorsTellNothing(s.ops[op], code);
    }
  }

  /** Every status answer of every clocked run is in order: a DONE or FAILED job was created, started and
      finished in that order, a RUNNING one has not finished, a QUEUED one has not started. */
  lemma {:induction false} StatusAnswersTell(dedupCap: int, outputCap: int, run: seq<Action>)
    requires Legal(Initial(dedupCap, outputCap), run) && Clocked(run)
    ensures var s := After(Initial(dedupCap, outputCap), run); forall op | op in s.ops :: ToldWell(s.ops[op])
  {
    hide ToldWell, Enabled;
    if run != [] {
      StatusAnswersTell(dedupCap, outputCap, run[..|run| - 1]);
      AnswerStepTells(dedupCap, outputCap, run[..|run| - 1], run[|run| - 1]);
    }
  }
}
