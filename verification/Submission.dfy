/** Idempotent submission, over whole runs: as long as the index does not forget a key, every SubmitJob
    under it that is answered with a job is answered with the same job, for the same payload. This is what
    makes it safe for a client to resubmit after an error whose call may or may not have landed. */
module Submission {
  import opened Types
  import opened Messages
  import opened JobTable
  import Idempotency
  import opened Stores
  import opened Handlers
  import opened Protocol

  predicate Retains(s: System, k: string) { k in s.stores.table.dedup.entries }

  /** Once in the index, the key stays there. */
  ghost predicate NeverForgets(s: System, run: seq<Action>, k: string)
    requires Legal(s, run)
  {
    run == [] || (
      var init := run[..|run| - 1];
      NeverForgets(s, init, k) && (Retains(After(s, init), k) ==> Retains(After(s, run), k)))
  }

  // ---------- What the index holds for a submission ----------

  predicate Indexed(t: Table, request: Request, id: JobId, k: string) {
    && request.SubmitJob?
    && (SubmitKey(request) == k != "" ==> k in t.dedup.entries && t.dedup.entries[k] == DedupEntry(FingerprintOf(request.spec), id))
  }

  predicate Placed(t: Table, pc: Pc, request: Option<Request>, k: string) {
    match pc
    case SubmitCreate(spec, key) => request == Some(Request.SubmitJob(spec, key))
    case SubmitEnqueue(id) => request.Some? && Indexed(t, request.value, id, k)
    case Finished(Submitted(id, _)) => request.Some? && Indexed(t, request.value, id, k)
    case _ => true
  }

  ghost predicate SubmitInv(s: System, run: seq<Action>, k: string) {
    && TableOk(s.stores.table)
    && (forall op | op in s.ops :: Placed(s.stores.table, s.ops[op], RequestOf(run, op), k))
  }

  lemma TableAfter(w: World, call: Call, env: Env)
    ensures Execute(w, call, env).0.table == if IsJobCall(call) then JobCall(w.table, call, env).0 else w.table
  {}

  lemma PlacedStays(t: Table, call: Call, env: Env, pc: Pc, request: Option<Request>, k: string)
    requires IsJobCall(call) && Placed(t, pc, request, k)
    requires k in t.dedup.entries ==> k in JobCall(t, call, env).0.dedup.entries
    ensures Placed(JobCall(t, call, env).0, pc, request, k)
  {
    hide JobCall, Strip, FingerprintOf;
    EntriesAreNotReplaced(t, call, env, k);
  }

  /** A create answers with a job only if the index then holds it under the create's key. */
  lemma CreatePlaces(t: Table, spec: JobSpec, key: string, env: Env, k: string)
    requires TableOk(t)
    ensures var (t', reply) := CreateJobOp(t, spec, key, env);
            reply.Created? ==> Indexed(t', Request.SubmitJob(spec, key), reply.jobId, k)
  {
    hide CreateJobOp, FingerprintOf, Strip;
    if Strip(key) != "" {
      Idempotency.CreatedIsNewest(t, spec, key, env);
    }
  }

  lemma ResumeCreatePlaced(t: Table, pc: Pc, reply: Reply, request: Option<Request>, k: string)
    requires pc.SubmitCreate? && request == Some(Request.SubmitJob(pc.spec, pc.clientRequestId))
    requires reply.Created? ==> Indexed(t, request.value, reply.jobId, k)
    ensures Placed(t, Resume(pc, reply), request, k)
  {}

  lemma ResumeOtherPlaced(t: Table, pc: Pc, reply: Reply, request: Option<Request>, k: string)
    requires !pc.Finished? && !pc.SubmitCreate? && Placed(t, pc, request, k)
    ensures Placed(t, Resume(pc, reply), request, k)
  {}

  /** The handler's own step. */
  lemma ResumePlaced(w: World, pc: Pc, env: Env, request: Option<Request>, k: string)
    requires !pc.Finished? && TableOk(w.table) && Placed(w.table, pc, request, k)
    requires k in w.table.dedup.entries ==> k in Execute(w, CallOf(pc), env).0.table.dedup.entries
    ensures var (w', reply) := Execute(w, CallOf(pc), env);
            Placed(w'.table, Resume(pc, reply), request, k)
  {
    hide Strip, FingerprintOf, Resume, Indexed, CreateJobOp;
    TableAfter(w, CallOf(pc), env);
    var (w', reply) := Execute(w, CallOf(pc), env);
    if pc.SubmitCreate? {
      CreatePlaces(w.table, pc.spec, pc.clientRequestId, env, k);
      ResumeCreatePlaced(w'.table, pc, reply, request, k);
    } else {
      if IsJobCall(CallOf(pc)) {
        PlacedStays(w.table, CallOf(pc), env, pc, request, k);
      }
      ResumeOtherPlaced(w'.table, pc, reply, request, k);
    }
  }

  lemma BeginsPlaced(t: Table, request: Request, k: string)
    ensures Placed(t, Begin(request), Some(request), k)
  {}

  lemma ErrorPlaced(t: Table, pc: Pc, code: Code, request: Option<Request>, k: string)
    requires !pc.Finished?
    ensures Placed(t, Resume(pc, Failure(code)), request, k)
  {}

  lemma DeliverPlaces(s: System, run: seq<Action>, a: Action, k: string)
    requires SubmitInv(s, run, k) && a.Deliver? && Enabled(s, a) && (Retains(s, k) ==> Retains(Apply(s, a), k))
    ensures SubmitInv(Apply(s, a), run + [a], k)
  {
    hide Resume, Placed, JobCall, Strip;
    var s', call := Apply(s, a), CallOf(s.ops[a.op]);
    TableAfter(s.stores, call, a.env);
    if IsJobCall(call) {
      JobCallKeeps(s.stores.table, call, a.env);
    }
    ResumePlaced(s.stores, s.ops[a.op], a.env, RequestOf(run, a.op), k);
    forall op | op in s'.ops ensures Placed(s'.stores.table, s'.ops[op], RequestOf(run + [a], op), k) {
      assert (run + [a])[..|run|] == run;
      if op != a.op && IsJobCall(call) {
        PlacedStays(s.stores.table, call, a.env, s.ops[op], RequestOf(run, op), k);
      }
    }
  }

  lemma OtherPlaces(s: System, run: seq<Action>, a: Action, k: string)
    requires SubmitInv(s, run, k) && !a.Deliver? && Enabled(s, a)
    ensures SubmitInv(Apply(s, a), run + [a], k)
  {
    hide Resume, Begin, Strip, Indexed;
    var s' := Apply(s, a);
    assert (run + [a])[..|run|] == run;
    if a.Start? {
      BeginsPlaced(s.stores.table, a.request, k);
    } else {
      ErrorPlaced(s.stores.table, s.ops[a.op], a.code, RequestOf(run, a.op), k);
    }
    forall op | op in s'.ops ensures Placed(s'.stores.table, s'.ops[op], RequestOf(run + [a], op), k) {
      if op in s.ops && s'.ops[op] == s.ops[op] {
        assert Placed(s.stores.table, s.ops[op], RequestOf(run, op), k);
      }
    }
  }

  lemma {:induction false} SubmitAlways(dedupCap: int, outputCap: int, run: seq<Action>, k: string)
    requires Legal(Initial(dedupCap, outputCap), run) && NeverForgets(Initial(dedupCap, outputCap), run, k)
    ensures SubmitInv(After(Initial(dedupCap, outputCap), run), run, k)
  {
    hide SubmitInv, Enabled, Apply, Retains;
    if run == [] {
      NothingSubmitted(dedupCap, outputCap, k);
    } else {
      var init, a := run[..|run| - 1], run[|run| - 1];
      SubmitAlways(dedupCap, outputCap, init, k);
      assert init + [a] == run;
      if a.Deliver? {
        DeliverPlaces(After(Initial(dedupCap, outputCap), init), init, a, k);
      } else {
        OtherPlaces(After(Initial(dedupCap, outputCap), init), init, a, k);
      }
    }
  }

  lemma NothingSubmitted(dedupCap: int, outputCap: int, k: string)
    ensures SubmitInv(Initial(dedupCap, outputCap), [], k)
  {}

  /** Any two submissions under one key that were answered with a job were answered with the same one,
      and had the same payload, whatever failed, landed late or ran in between, and whatever other keys
      the index forgot. */
  lemma OneKeyOneJob(dedupCap: int, outputCap: int, run: seq<Action>, k: string, op: OpId, op': OpId)
    requires Legal(Initial(dedupCap, outputCap), run) && NeverForgets(Initial(dedupCap, outputCap), run, k) && k != ""
    requires var s := After(Initial(dedupCap, outputCap), run);
             && op in s.ops && s.ops[op].Finished? && s.ops[op].answer.Submitted?
             && op' in s.ops && s.ops[op'].Finished? && s.ops[op'].answer.Submitted?
    ensures RequestOf(run, op).Some? && RequestOf(run, op').Some?
    ensures var s := After(Initial(dedupCap, outputCap), run);
            var request, request' := RequestOf(run, op).value, RequestOf(run, op').value;
            && request.SubmitJob? && request'.SubmitJob?
            && (SubmitKey(request) == SubmitKey(request') == k ==>
                  s.ops[op].answer.jobId == s.ops[op'].answer.jobId
                  && FingerprintOf(request.spec) == FingerprintOf(request'.spec))
  {
    hide TableOk, FingerprintOf, Strip;
    SubmitAlways(dedupCap, outputCap, run, k);
    var s := After(Initial(dedupCap, outputCap), run);
    assert Placed(s.stores.table, s.ops[op], RequestOf(run, op), k);
    assert Placed(s.stores.table, s.ops[op'], RequestOf(run, op'), k);
  }

  // ---------- When nothing is forgotten ----------

  /** The keys the clients of a run use. */
  ghost predicate KeysFit(run: seq<Action>, keys: set<string>) {
    forall i | 0 <= i < |run| && run[i].Start? :: SubmitKey(run[i].request) in keys + {""}
  }

  ghost predicate RoomInv(s: System, keys: set<string>) {
    && Idempotency.HasRoom(s.stores.table, keys)
    && (forall op | op in s.ops && !s.ops[op].Finished? :: Idempotency.KeyKnown(CallOf(s.ops[op]), keys))
  }

  lemma BeginsKnown(request: Request, keys: set<string>)
    requires SubmitKey(request) in keys + {""}
    ensures !Begin(request).Finished? ==> Idempotency.KeyKnown(CallOf(Begin(request)), keys)
  {}

  lemma ResumesKnown(pc: Pc, reply: Reply, keys: set<string>)
    requires !pc.Finished?
    ensures !Resume(pc, reply).Finished? ==> Idempotency.KeyKnown(CallOf(Resume(pc, reply)), keys)
    ensures CallOf(Pc.Lost(CallOf(pc))) == CallOf(pc)
  {}

  lemma RoomStays(s: System, a: Action, keys: set<string>, k: string)
    requires RoomInv(s, keys) && Enabled(s, a) && (a.Start? ==> SubmitKey(a.request) in keys + {""})
    ensures RoomInv(Apply(s, a), keys) && (Retains(s, k) ==> Retains(Apply(s, a), k))
  {
    hide Resume, Begin, CallOf, Idempotency.HasRoom, Idempotency.KeyKnown, JobCall, Strip;
    match a {
      case Start(_, request) => BeginsKnown(request, keys);
      case Deliver(op, env) =>
        var call := CallOf(s.ops[op]);
        TableAfter(s.stores, call, env);
        if IsJobCall(call) {
          Idempotency.CallKeepsEntry(s.stores.table, call, env, keys, k);
        }
        ResumesKnown(s.ops[op], Execute(s.stores, call, env).1, keys);
      case Fail(op, code, _) => ResumesKnown(s.ops[op], Failure(code), keys);
    }
  }

  /** If all the keys a run uses fit under the cap, the index forgets none of them. */
  lemma {:induction false} RoomForgetsNothing(dedupCap: int, outputCap: int, run: seq<Action>, keys: set<string>, k: string)
    requires Legal(Initial(dedupCap, outputCap), run) && KeysFit(run, keys)
    requires |keys| <= EmptyTable(dedupCap).maxDedupKeys
    ensures RoomInv(After(Initial(dedupCap, outputCap), run), keys)
    ensures NeverForgets(Initial(dedupCap, outputCap), run, k)
  {
    if run != [] {
      var init := run[..|run| - 1];
      RoomForgetsNothing(dedupCap, outputCap, init, keys, k);
      RoomStays(After(Initial(dedupCap, outputCap), init), run[|run| - 1], keys, k);
    }
  }
}
