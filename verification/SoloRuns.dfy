/** A handler run alone is one of the runs of the protocol, so what the imperative handlers do is
    covered by the theorems about runs. */
module SoloRuns {
  import opened Types
  import opened Messages
  import opened Stores
  import opened Handlers
  import opened Protocol
  import opened Solo

  /** One transported call as one or two actions: a drop is a failure whose lost call lands at once. */
  lemma TransportIsARun(s: System, op: OpId, d: Delivery, pick: IdPicker) returns (run: seq<Action>)
    requires Pending(s, op) && !s.ops[op].Lost?
    requires s.ops[op].SubmitCreate? && (d.Delivered? || d.Dropped?) && pick(d.uuids).Some? ==>
               FreshId(s, pick(d.uuids).value)
    ensures Legal(s, run)
    ensures var (w', reply) := Transport(s.stores, CallOf(s.ops[op]), d, pick);
            var s' := After(s, run);
            s'.stores == w' && op in s'.ops && s'.ops[op] == Resume(s.ops[op], reply)
  {
    var pc := s.ops[op];
    assert Legal(s, []) && After(s, []) == s;
    if d.Delivered? {
      var env := Env(d.now, if pc.SubmitCreate? then pick(d.uuids) else None);
      IdsMatterToCreates(s.stores, CallOf(pc), env, Env(d.now, pick(d.uuids)));
      run := [Deliver(op, env)];
      Extend(s, [], run[0]);
      assert [] + [run[0]] == run;
    } else {
      var lost := SomeFreshOp(s.ops.Keys);
      var fail := Fail(op, if d.Declined? then d.code else d.error, lost);
      Extend(s, [], fail);
      assert [] + [fail] == [fail];
      run := [fail];
      if d.Dropped? {
        var env := Env(d.now, if pc.SubmitCreate? then pick(d.uuids) else None);
        IdsMatterToCreates(s.stores, CallOf(pc), env, Env(d.now, pick(d.uuids)));
        Extend(s, run, Deliver(lost, env));
        run := run + [Deliver(lost, env)];
      }
    }
  }

  lemma IdsMatterToCreates(w: World, call: Call, env: Env, env': Env)
    requires env.now == env'.now && (call.CreateJob? ==> env == env')
    ensures Execute(w, call, env) == Execute(w, call, env')
  {}

  /** From any state of the system, running the waiting handler `op` alone is a legal run that ends
      with the stores and the answer `RunAlone` gives. */
  lemma {:induction false} SoloIsARun(s: System, op: OpId, net: Network, k: nat, pick: IdPicker) returns (run: seq<Action>)
    requires op in s.ops && !s.ops[op].Lost?
    requires s.ops[op].SubmitCreate? && !net(k).Declined? && pick(net(k).uuids).Some? ==>
               FreshId(s, pick(net(k).uuids).value)
    ensures Legal(s, run)
    ensures var (w', answer) := RunAlone(s.stores, s.ops[op], net, k, pick);
            var s' := After(s, run);
            s'.stores == w' && op in s'.ops && s'.ops[op] == Finished(answer)
    decreases Rank(s.ops[op])
  {
    if s.ops[op].Finished? {
      return [];
    }
    var pc := s.ops[op];
    var first := TransportIsARun(s, op, net(k), pick);
    var (w', reply) := Transport(s.stores, CallOf(pc), net(k), pick);
    ResumeMakesProgress(pc, reply);
    assert !Resume(pc, reply).Lost? && !Resume(pc, reply).SubmitCreate?;
    var rest := SoloIsARun(After(s, first), op, net, k + 1, pick);
    Compose(s, first, rest);
    run := first + rest;
  }
}
