/** Exactly when a job is dropped, over every run without restriction: which steps take a QUEUED job out of
    everybody's hands, and which bring one back. The calls of the careful regime are the ones that matter:
    a handler that fails with the job in its hands drops it at once, and a lost create, dequeue or removal
    drops it when it lands. */
module Losses {
  import opened Types
  import opened Messages
  import opened JobTable
  import opened OrderedKeys
  import opened Stores
  import opened Handlers
  import opened Protocol
  import opened Unrestricted
  import opened Agreement
  import opened NoLoss
  import opened Scenario

  /** Nobody but `op` has the job in hand. */
  ghost predicate Alone(s: System, op: OpId, j: JobId) {
    forall other | other in s.ops && other != op :: !Carrying(s.ops[other], j)
  }

  // ---------- The steps that drop a job ----------

  /** A call without a handler behind it makes the job, or takes it out of the queue. */
  predicate LosesJob(w: World, call: Call, env: Env, j: JobId) {
    match call
    case CreateJob(spec, key) =>
      && env.newId == Some(j) && j !in w.queue && Strip(spec.jobType) != ""
      && (Strip(key) == "" || Strip(key) !in w.table.dedup.entries)
    case DequeueJob(_) => w.queue != [] && w.queue[0] == j && IsQueued(w, j)
    case RemoveJobIfPresent(id) => id == j && j in w.queue && IsQueued(w, j)
    case _ => false
  }

  ghost predicate Drops(s: System, a: Action, j: JobId)
    requires Enabled(s, a)
  {
    match a
    case Start(_, _) => false
    case Deliver(op, env) => s.ops[op].Lost? && LosesJob(s.stores, s.ops[op].call, env, j) && Alone(s, op, j)
    case Fail(op, _, _) => IsQueued(s.stores, j) && j !in s.stores.queue && Carrying(s.ops[op], j) && Alone(s, op, j)
  }

  // ---------- The steps that bring one back ----------

  /** The call of a resubmission that will find the job by its key. */
  predicate FindsJob(t: Table, call: Call, j: JobId) {
    && call.CreateJob? && Strip(call.spec.jobType) != "" && Strip(call.clientRequestId) != ""
    && Strip(call.clientRequestId) in t.dedup.entries
    && t.dedup.entries[Strip(call.clientRequestId)] == DedupEntry(FingerprintOf(call.spec), j)
  }

  /** The job gets into the queue or out of QUEUED, or a resubmission takes it up. */
  predicate Regains(w: World, pc: Pc, j: JobId)
    requires !pc.Finished?
  {
    var call := CallOf(pc);
    || call == EnqueueJob(j)
    || (call.DeleteJobIfStatus? && call.jobId == j)
    || (call.TransitionJobStatus? && call.jobId == j && call.expectedFrom.Queued?)
    || (pc.SubmitCreate? && FindsJob(w.table, call, j))
  }

  ghost predicate Recovers(s: System, a: Action, j: JobId)
    requires Enabled(s, a)
  {
    a.Deliver? && Regains(s.stores, s.ops[a.op], j)
  }

  // ---------- One call ----------

  /** What a landing lost call does to the queue and the status of one job. */
  lemma LostCallLoses(w: World, call: Call, env: Env, j: JobId)
    requires Ordinary(call) && Distinct(w.queue) && (env.newId == Some(j) ==> call.CreateJob? && j !in w.table.records)
    ensures var w' := Execute(w, call, env).0;
            && (LosesJob(w, call, env, j) ==> IsQueued(w', j) && j !in w'.queue)
            && (!LosesJob(w, call, env, j) && IsQueued(w', j) && j !in w'.queue ==> IsQueued(w, j) && j !in w.queue)
  {
    hide FingerprintOf, AsMap, Strip;
    QueueAfter(w, call, env, j);
  }

  /** Nobody has the job: it is QUEUED, not in the queue, and not in the hands of `pc`. */
  predicate Stranded(w: World, pc: Pc, env: Env, j: JobId) {
    IsQueued(w, j) && j !in w.queue && !pc.Finished? && !Carrying(pc, j) && env.newId != Some(j) && j != ""
  }

  predicate Rescued(w: World, pc: Pc, env: Env, j: JobId)
    requires !pc.Finished?
  {
    var (w', reply) := Execute(w, CallOf(pc), env);
    IsQueued(w', j) ==> j in w'.queue || Carrying(Resume(pc, reply), j)
  }

  lemma CreateRegains(w: World, pc: Pc, env: Env, j: JobId)
    requires Stranded(w, pc, env, j) && CallOf(pc).CreateJob?
    requires forall id | id in w.table.records :: w.table.records[id].jobId == id
    ensures Regains(w, pc, j) <==> Rescued(w, pc, env, j)
  {
    hide FingerprintOf, AsMap, Strip;
  }

  lemma CasRegains(w: World, pc: Pc, env: Env, j: JobId)
    requires Stranded(w, pc, env, j) && Sound(pc) && CallOf(pc).TransitionJobStatus?
    ensures Regains(w, pc, j) <==> Rescued(w, pc, env, j)
  {
    CallsAreOrdinary(pc);
  }

  lemma RecordCallRegains(w: World, pc: Pc, env: Env, j: JobId)
    requires Stranded(w, pc, env, j) && Sound(pc)
    requires CallOf(pc).DeleteJobIfStatus? || CallOf(pc).GetJobRecord? || CallOf(pc).SetCancelRequested?
    ensures Regains(w, pc, j) <==> Rescued(w, pc, env, j)
  {
    CallsAreOrdinary(pc);
  }

  lemma ResultCallRegains(w: World, pc: Pc, env: Env, j: JobId)
    requires Stranded(w, pc, env, j) && (CallOf(pc).StoreResult? || CallOf(pc).GetResult?)
    ensures Regains(w, pc, j) <==> Rescued(w, pc, env, j)
  {}

  lemma EnqueueRegains(w: World, pc: Pc, env: Env, j: JobId)
    requires Stranded(w, pc, env, j) && CallOf(pc).EnqueueJob?
    ensures Regains(w, pc, j) <==> Rescued(w, pc, env, j)
  {}

  /** Taking a job out of the queue does nothing for one that is not in it. */
  lemma TakingRegainsNothing(w: World, pc: Pc, env: Env, j: JobId)
    requires Stranded(w, pc, env, j) && Distinct(w.queue) && (CallOf(pc).DequeueJob? || CallOf(pc).RemoveJobIfPresent?)
    ensures Regains(w, pc, j) <==> Rescued(w, pc, env, j)
  {
    hide Without, Distinct;
    QueueAfter(w, CallOf(pc), env, j);
  }

  /** What any call does for a job nobody has. */
  lemma CallRegains(w: World, pc: Pc, env: Env, j: JobId)
    requires Stranded(w, pc, env, j) && Sound(pc) && Distinct(w.queue)
    requires forall id | id in w.table.records :: w.table.records[id].jobId == id
    ensures Regains(w, pc, j) <==> Rescued(w, pc, env, j)
  {
    hide Regains, Rescued;
    if CallOf(pc).CreateJob? {
      CreateRegains(w, pc, env, j);
    } else if CallOf(pc).TransitionJobStatus? {
      CasRegains(w, pc, env, j);
    } else if IsJobCall(CallOf(pc)) {
      RecordCallRegains(w, pc, env, j);
    } else if CallOf(pc).EnqueueJob? {
      EnqueueRegains(w, pc, env, j);
    } else if CallOf(pc).StoreResult? || CallOf(pc).GetResult? {
      ResultCallRegains(w, pc, env, j);
    } else {
      TakingRegainsNothing(w, pc, env, j);
    }
  }

  // ---------- One step ----------

  ghost predicate Steady(s: System) {
    && Orderly(s)
    && forall id | id in s.stores.results.envelopes :: s.stores.results.envelopes[id].terminalStatus.Terminal()
  }

  lemma ErrorEmptiesHands(pc: Pc, code: Code, j: JobId)
    requires !pc.Finished?
    ensures !Carrying(Resume(pc, Failure(code)), j) && !Carrying(Pc.Lost(CallOf(pc)), j)
  {}

  lemma LostEnds(pc: Pc, reply: Reply)
    requires pc.Lost?
    ensures Resume(pc, reply) == Finished(Unseen) && CallOf(pc) == pc.call
  {}

  /** Whoever else has the job in hand still has it after a delivery. */
  lemma OthersHold(s: System, a: Action, j: JobId)
    requires Enabled(s, a) && a.Deliver?
    ensures Alone(s, a.op, j) <==> Alone(Apply(s, a), a.op, j)
    ensures !Alone(s, a.op, j) ==> Held(Apply(s, a), j)
  {
    hide Stores.Execute, Resume, CallOf, Carrying;
    var s' := Apply(s, a);
    forall other | other in s'.ops && other != a.op ensures other in s.ops && s'.ops[other] == s.ops[other] {}
    forall other | other in s.ops && other != a.op ensures other in s'.ops && s'.ops[other] == s.ops[other] {}
  }

  lemma LandingDrops(s: System, a: Action, j: JobId)
    requires Steady(s) && Enabled(s, a) && a.Deliver? && s.ops[a.op].Lost? && Held(s, j)
    ensures !Held(Apply(s, a), j) <==> Drops(s, a, j)
  {
    hide Stores.Execute, Resume, CallOf, LosesJob;
    var s', pc := Apply(s, a), s.ops[a.op];
    LostEnds(pc, Execute(s.stores, CallOf(pc), a.env).1);
    LostCallLoses(s.stores, pc.call, a.env, j);
    OthersHold(s, a, j);
  }

  lemma HandlerNeverDrops(s: System, a: Action, j: JobId)
    requires Steady(s) && Enabled(s, a) && a.Deliver? && !s.ops[a.op].Lost? && j != "" && Held(s, j)
    ensures Held(Apply(s, a), j)
  {
    hide Stores.Execute, Resume, CallOf, Carrying;
    HandlerKeepsJob(s, a.op, a.env, j);
    OthersHold(s, a, j);
  }

  lemma FailureDrops(s: System, a: Action, j: JobId)
    requires Enabled(s, a) && a.Fail? && Held(s, j)
    ensures !Held(Apply(s, a), j) <==> Drops(s, a, j)
  {
    hide Resume, CallOf, Carrying;
    var s' := Apply(s, a);
    ErrorEmptiesHands(s.ops[a.op], a.code, j);
    forall other | other in s.ops && other != a.op ensures other in s'.ops && s'.ops[other] == s.ops[other] {}
  }

  lemma BeginsEmptyHanded(request: Request, j: JobId)
    ensures !Carrying(Begin(request), j)
  {}

  lemma StartKeepsHands(s: System, a: Action, j: JobId)
    requires Enabled(s, a) && a.Start?
    ensures Held(Apply(s, a), j) <==> Held(s, j)
  {
    hide Begin, Carrying;
    var s' := Apply(s, a);
    BeginsEmptyHanded(a.request, j);
    forall op | op in s'.ops && Carrying(s'.ops[op], j) ensures op in s.ops && Carrying(s.ops[op], j) {}
    forall op | op in s.ops ensures op in s'.ops && s'.ops[op] == s.ops[op] {}
  }

  lemma DeliveryRecovers(s: System, a: Action, j: JobId)
    requires Steady(s) && Enabled(s, a) && a.Deliver? && j != "" && !Held(s, j)
    ensures Held(Apply(s, a), j) <==> Recovers(s, a, j)
  {
    hide Stores.Execute, Resume, CallOf, Carrying, Regains;
    var s' := Apply(s, a);
    assert Stranded(s.stores, s.ops[a.op], a.env, j);
    CallRegains(s.stores, s.ops[a.op], a.env, j);
    OthersHold(s, a, j);
    assert Alone(s, a.op, j);
    if Carrying(s'.ops[a.op], j) {
      assert Held(s', j);
    }
  }

  lemma FailureRecoversNothing(s: System, a: Action, j: JobId)
    requires Enabled(s, a) && a.Fail? && !Held(s, j)
    ensures !Held(Apply(s, a), j)
  {
    hide Resume, CallOf, Carrying;
    ErrorEmptiesHands(s.ops[a.op], a.code, j);
  }

  /** Of the steps from a state where a QUEUED job is queued or carried, exactly the listed ones drop it. */
  lemma StepDropsExactlyWhen(s: System, a: Action, j: JobId)
    requires Steady(s) && Enabled(s, a) && j != "" && Held(s, j)
    ensures !Held(Apply(s, a), j) <==> Drops(s, a, j)
  {
    hide Held, Steady, Apply, Alone, LosesJob, Carrying;
    match a {
      case Start(_, _) => StartKeepsHands(s, a, j);
      case Deliver(op, _) =>
        if s.ops[op].Lost? {
          LandingDrops(s, a, j);
        } else {
          HandlerNeverDrops(s, a, j);
        }
      case Fail(_, _, _) => FailureDrops(s, a, j);
    }
  }

  /** And of the steps from a state where it has been dropped, exactly the listed ones end that. */
  lemma StepRecoversExactlyWhen(s: System, a: Action, j: JobId)
    requires Steady(s) && Enabled(s, a) && j != "" && !Held(s, j)
    ensures Held(Apply(s, a), j) <==> Recovers(s, a, j)
  {
    hide Held, Steady, Apply, Regains;
    match a {
      case Start(_, _) => StartKeepsHands(s, a, j);
      case Deliver(_, _) => DeliveryRecovers(s, a, j);
      case Fail(_, _, _) => FailureRecoversNothing(s, a, j);
    }
  }

  // ---------- Runs ----------

  /** Bookkeeping over a run: the job is dropped by the steps that drop it, until one brings it back. */
  ghost predicate Dropped(s: System, run: seq<Action>, j: JobId)
    requires Legal(s, run)
  {
    run != [] && (
      var init, a := run[..|run| - 1], run[|run| - 1];
      if Dropped(s, init, j) then !Recovers(After(s, init), a, j) else Drops(After(s, init), a, j))
  }

  lemma {:induction false} SteadyAlways(dedupCap: int, outputCap: int, run: seq<Action>)
    requires Legal(Initial(dedupCap, outputCap), run)
    ensures Steady(After(Initial(dedupCap, outputCap), run))
  {
    OrderlyAlways(dedupCap, outputCap, run);
    if run != [] {
      var init, a := run[..|run| - 1], run[|run| - 1];
      SteadyAlways(dedupCap, outputCap, init);
      EnvelopesStayTerminal(After(Initial(dedupCap, outputCap), init), a);
    }
  }

  lemma EnvelopesStayTerminal(s: System, a: Action)
    requires Steady(s) && Enabled(s, a)
    ensures forall id | id in Apply(s, a).stores.results.envelopes :: Apply(s, a).stores.results.envelopes[id].terminalStatus.Terminal()
  {
    hide Stores.Execute, Resume, CallOf, Begin, Orderly;
    if a.Deliver? {
      EnvelopesTerminal(s.stores, CallOf(s.ops[a.op]), a.env);
    }
  }

  /** After any run without restriction, a QUEUED job is neither in the queue nor in anybody's hands if and
      only if some step of the run dropped it and no later one brought it back. */
  lemma {:induction false} DroppedExactlyWhen(dedupCap: int, outputCap: int, run: seq<Action>, j: JobId)
    requires Legal(Initial(dedupCap, outputCap), run) && j != ""
    ensures !Held(After(Initial(dedupCap, outputCap), run), j) <==> Dropped(Initial(dedupCap, outputCap), run, j)
  {
    hide Held, Drops, Recovers, Steady;
    if run == [] {
      NothingDropped(dedupCap, outputCap, j);
    } else {
      var init, a := run[..|run| - 1], run[|run| - 1];
      var s := After(Initial(dedupCap, outputCap), init);
      DroppedExactlyWhen(dedupCap, outputCap, init, j);
      SteadyAlways(dedupCap, outputCap, init);
      if Held(s, j) {
        StepDropsExactlyWhen(s, a, j);
      } else {
        StepRecoversExactlyWhen(s, a, j);
      }
    }
  }

  lemma NothingDropped(dedupCap: int, outputCap: int, j: JobId)
    ensures Held(Initial(dedupCap, outputCap), j)
  {}

  // ---------- It happens ----------

  /** A client submits a job and is told it is accepted. A worker's fetch fails, and the dequeue it sent
      arrives after all. */
  const DROPPING_RUN := [
    Start(0, Request.SubmitJob(SPEC, KEY)), Deliver(0, Env(0, Some(JOB))), Deliver(0, PLAIN),
    Start(1, Request.FetchWork("w", true)), Fail(1, Unavailable, 2), Deliver(2, PLAIN)]

  lemma DequeueFails(s: System)
    requires Stage(s, Queued, true, None, 2) && 1 in s.ops && s.ops[1] == FetchDequeue("w")
    ensures var a := Fail(1, Unavailable, 2);
            && Enabled(s, a) && Stage(Apply(s, a), Queued, true, None, 3)
            && Apply(s, a).ops == s.ops[1 := Finished(Refused(Unavailable))][2 := Pc.Lost(DequeueJob("w"))]
  {}

  lemma DequeueLands(s: System)
    requires Stage(s, Queued, true, None, 3) && 2 in s.ops && s.ops[2] == Pc.Lost(DequeueJob("w"))
    ensures Enabled(s, Deliver(2, PLAIN)) && Stage(Apply(s, Deliver(2, PLAIN)), Queued, false, None, 3)
    ensures Apply(s, Deliver(2, PLAIN)).ops == s.ops[2 := Finished(Unseen)]
  {}

  lemma FetchFails(cap: int, outputCap: int) returns (run: seq<Action>, s: System)
    ensures Legal(Initial(cap, outputCap), run) && After(Initial(cap, outputCap), run) == s && run == DROPPING_RUN[..5]
    ensures Stage(s, Queued, true, None, 3)
    ensures s.ops == map[0 := Finished(Submitted(JOB, Queued)), 1 := Finished(Refused(Unavailable)), 2 := Pc.Lost(DequeueJob("w"))]
  {
    hide Stage, Enabled, Legal, After, Apply, Begin, Reaches;
    Beginnings();
    var s0 := Initial(cap, outputCap);
    run, s := Opening(Keeping(false, false), cap, outputCap);
    Starts(s, Queued, true, None, 1, Request.FetchWork("w", true));
    run, s := Next(s0, run, s, Start(1, Request.FetchWork("w", true)));
    DequeueFails(s);
    run, s := Next(s0, run, s, Fail(1, Unavailable, 2));
  }

  lemma NobodyHasIt(s: System)
    requires Stage(s, Queued, false, None, 3) && forall op | op in s.ops :: s.ops[op].Finished?
    ensures IsQueued(s.stores, JOB) && s.stores.queue == [] && !Held(s, JOB)
  {
    hide FingerprintOf;
  }

  /** One failed call leaves an accepted job QUEUED and stranded: it is in no queue, and nothing at all is
      under way. */
  lemma FailedFetchDropsJob(cap: int, outputCap: int)
    ensures Legal(Initial(cap, outputCap), DROPPING_RUN)
    ensures var s := After(Initial(cap, outputCap), DROPPING_RUN);
            && s.ops == map[0 := Finished(Submitted(JOB, Queued)), 1 := Finished(Refused(Unavailable)), 2 := Finished(Unseen)]
            && IsQueued(s.stores, JOB) && s.stores.queue == [] && !Held(s, JOB)
  {
    hide Stage, Enabled, Legal, After, Apply, IsQueued, Held;
    var run, s := FetchFails(cap, outputCap);
    DequeueLands(s);
    run, s := Next(Initial(cap, outputCap), run, s, Deliver(2, PLAIN));
    NobodyHasIt(s);
    assert run == DROPPING_RUN;
  }
}
