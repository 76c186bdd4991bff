/** The running system: the three stores and every handler in flight. One action starts a handler,
    delivers the call one is waiting for, or fails that call. A failed call is not necessarily dead:
    its caller moves on with the error, and the call itself stays behind as a lost operation that may
    land at any later time, or never. This covers a refused call, a lost reply and a late effect. */
module Protocol {
  import opened Types
  import opened Messages
  import opened JobTable
  import opened Stores
  import opened Handlers

  type OpId = nat

  /** `issued` are the identifiers the generator has ever handed out. */
  datatype System = System(stores: World, ops: map<OpId, Pc>, issued: set<JobId>)

  datatype Action =
    | Start(op: OpId, request: Request)
    | Deliver(op: OpId, env: Env)
    | Fail(op: OpId, code: Code, lost: OpId)

  function Initial(dedupCap: int, outputCap: int): System {
    System(World(EmptyTable(dedupCap), [], EmptyResults(outputCap)), map[], {})
  }

  predicate Pending(s: System, op: OpId) {
    op in s.ops && !s.ops[op].Finished?
  }

  /** Identifiers come out of the generator canonical and never twice, and only CreateJob asks it. */
  predicate FreshId(s: System, id: JobId) { id !in s.issued && Canonical(id) }

  predicate Enabled(s: System, a: Action) {
    match a
    case Start(op, _) => op !in s.ops
    case Deliver(op, env) => Pending(s, op) && (env.newId.Some? ==> CallOf(s.ops[op]).CreateJob? && FreshId(s, env.newId.value))
    case Fail(op, _, lost) => Pending(s, op) && !s.ops[op].Lost? && lost !in s.ops
  }

  function IdSet(id: Option<JobId>): set<JobId> {
    if id.Some? then {id.value} else {}
  }

  function Apply(s: System, a: Action): System
    requires Enabled(s, a)
  {
    match a
    case Start(op, request) => s.(ops := s.ops[op := Begin(request)])
    case Deliver(op, env) =>
      var (stores, reply) := Execute(s.stores, CallOf(s.ops[op]), env);
      System(stores, s.ops[op := Resume(s.ops[op], reply)], s.issued + IdSet(env.newId))
    case Fail(op, code, lost) =>
      var pc := s.ops[op];
      s.(ops := s.ops[op := Resume(pc, Failure(code))][lost := Pc.Lost(CallOf(pc))])
  }

  // ---------- Runs ----------

  ghost predicate Legal(s: System, run: seq<Action>) {
    run == [] || (Legal(s, run[..|run| - 1]) && Enabled(After(s, run[..|run| - 1]), run[|run| - 1]))
  }

  ghost function After(s: System, run: seq<Action>): System {
    if run == [] then s
    else
      var mid := After(s, run[..|run| - 1]);
      if Enabled(mid, run[|run| - 1]) then Apply(mid, run[|run| - 1]) else mid
  }

  /** The request an operation was started with. */
  ghost function RequestOf(run: seq<Action>, op: OpId): Option<Request> {
    if run == [] then None
    else
      var last := run[|run| - 1];
      if last.Start? && last.op == op then Some(last.request) else RequestOf(run[..|run| - 1], op)
  }

  lemma Extend(s: System, run: seq<Action>, a: Action)
    requires Legal(s, run) && Enabled(After(s, run), a)
    ensures Legal(s, run + [a]) && After(s, run + [a]) == Apply(After(s, run), a)
  {
    assert (run + [a])[..|run|] == run;
  }

  lemma {:induction false} LegalPrefix(s: System, run: seq<Action>, n: nat)
    requires Legal(s, run) && n <= |run|
    ensures Legal(s, run[..n])
    decreases |run|
  {
    if n < |run| {
      LegalPrefix(s, run[..|run| - 1], n);
      assert run[..|run| - 1][..n] == run[..n];
    } else {
      assert run[..n] == run;
    }
  }

  lemma {:induction false} Compose(s: System, run: seq<Action>, more: seq<Action>)
    requires Legal(s, run) && Legal(After(s, run), more)
    ensures Legal(s, run + more) && After(s, run + more) == After(After(s, run), more)
  {
    if more == [] {
      assert run + more == run;
    } else {
      var init := more[..|more| - 1];
      Compose(s, run, init);
      assert (run + more)[..|run + more| - 1] == run + init;
    }
  }

  lemma {:induction false} SomeFreshOp(used: set<OpId>) returns (op: OpId)
    ensures forall o | o in used :: o < op
  {
    if used == {} { return 0; }
    var o :| o in used;
    var above := SomeFreshOp(used - {o});
    op := if o < above then above else o + 1;
    forall x | x in used ensures x < op {
      assert x == o || x in used - {o};
    }
  }
}
