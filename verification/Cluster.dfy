/** The owner-affine nodes against one service that holds everything. Every operation answers as it would
    at the one service; only a fetch sees a difference, since it is offered the head of its own node's
    queue, or nothing while others have work. */
module Cluster {
  import opened Types
  import opened Messages
  import opened OrderedKeys
  import opened JobTable
  import opened Idempotency
  import opened Stores
  import opened Handlers
  import opened Protocol
  import opened OwnerNodes

  /** The idempotency keys a request uses. */
  predicate UsesKeys(request: Request, keys: set<string>) {
    SubmitKey(request) != "" ==> SubmitKey(request) in keys
  }

  // ---------- The one service ----------

  /** The one service keeps its queue as a set: a dequeue takes any entry, or finds none. */
  predicate Offers(m: System, a: Action, offer: Option<JobId>) {
    Enabled(m, a) && (offer.Some? ==> Dequeues(m, a) && offer.value in m.stores.queue)
  }

  predicate Dequeues(m: System, a: Action)
    requires Enabled(m, a)
  {
    a.Deliver? && CallOf(m.ops[a.op]).DequeueJob?
  }

  function Take(q: seq<JobId>, offer: Option<JobId>): (seq<JobId>, Reply) {
    match offer
    case None => (q, Dequeued(false, ""))
    case Some(id) => (Without(q, id), Dequeued(true, id))
  }

  function Served(m: System, a: Action, offer: Option<JobId>): System
    requires Offers(m, a, offer)
  {
    if Dequeues(m, a) then
      var (queue, reply) := Take(m.stores.queue, offer);
      System(m.stores.(queue := queue), m.ops[a.op := Resume(m.ops[a.op], reply)], m.issued + IdSet(a.env.newId))
    else Apply(m, a)
  }

  // ---------- How the two correspond ----------

  /** A job's owner and the one service hold the same about it. */
  predicate SameJob(w: World, m: World, id: JobId) {
    && (id in w.table.records <==> id in m.table.records)
    && (id in w.table.records ==> w.table.records[id] == m.table.records[id])
    && (id in w.results.envelopes <==> id in m.results.envelopes)
    && (id in w.results.envelopes ==> w.results.envelopes[id] == m.results.envelopes[id])
    && (id in w.queue <==> id in m.queue)
  }

  predicate SameKey(w: World, m: World, key: string) {
    && (key in w.table.dedup.entries <==> key in m.table.dedup.entries)
    && (key in w.table.dedup.entries ==> w.table.dedup.entries[key] == m.table.dedup.entries[key])
  }

  ghost predicate Roomy(w: World, keys: set<string>) {
    HasRoom(w.table, keys) && Distinct(w.queue)
  }

  /** The keys that a node owns. */
  ghost function Share(own: Owner, keys: set<string>, node: nat): set<string> {
    set k | k in keys && own(k) == node
  }

  ghost predicate NodeOk(own: Owner, w: World, node: nat, keys: set<string>) {
    NodeHome(own, w, node) && Roomy(w, Share(own, keys, node))
  }

  ghost predicate KnownKeys(ops: map<OpId, Pc>, keys: set<string>) {
    forall op | op in ops && !ops[op].Finished? :: KeyKnown(CallOf(ops[op]), keys)
  }

  ghost predicate SameStores(own: Owner, worlds: seq<World>, m: World)
    requires forall x {:trigger own(x)} :: own(x) < |worlds|
  {
    && (forall id :: SameJob(worlds[own(id)], m, id))
    && (forall key :: SameKey(worlds[own(key)], m, key))
    && (forall i | 0 <= i < |worlds| :: worlds[i].results.maxOutputBytes == m.results.maxOutputBytes)
  }

  /** In particular every answer is the same: answers are what finished operations hold. */
  ghost predicate Refines(own: Owner, c: Nodes, m: System, keys: set<string>) {
    && AllAtHome(own, c) && KnownKeys(c.ops, keys)
    && (forall i | 0 <= i < |c.worlds| :: Roomy(c.worlds[i], Share(own, keys, i)))
    && Roomy(m.stores, keys)
    && m.ops == c.ops && m.issued == c.issued
    && SameStores(own, c.worlds, m.stores)
  }

  // ---------- One call at a node and at the one service ----------

  /** What the call touches is the same at the node and at the one service. */
  predicate SameSubject(w: World, m: World, call: Call) {
    match call
    case CreateJob(_, key) =>
      Strip(key) != "" ==>
        && SameKey(w, m, Strip(key))
        && (Strip(key) in w.table.dedup.entries ==> SameJob(w, m, w.table.dedup.entries[Strip(key)].jobId))
    case DequeueJob(_) => false
    case _ => SameJob(w, m, call.jobId)
  }

  lemma SameReply(w: World, m: World, call: Call, env: Env)
    requires SameSubject(w, m, call) && w.results.maxOutputBytes == m.results.maxOutputBytes
    ensures Execute(w, call, env).1 == Execute(m, call, env).1
  {}

  lemma JobStaysSame(w: World, m: World, call: Call, env: Env, x: JobId)
    requires SameSubject(w, m, call) && w.results.maxOutputBytes == m.results.maxOutputBytes && SameJob(w, m, x)
    ensures SameJob(Execute(w, call, env).0, Execute(m, call, env).0, x)
  {
    if call.RemoveJobIfPresent? {
      WithoutMembers(w.queue, call.jobId);
      WithoutMembers(m.queue, call.jobId);
    }
  }

  lemma KeyStaysSame(w: World, m: World, call: Call, env: Env, share: set<string>, keys: set<string>, k: string)
    requires SameSubject(w, m, call) && SameKey(w, m, k)
    requires Roomy(w, share) && Roomy(m, keys) && KeyKnown(call, share) && KeyKnown(call, keys)
    ensures SameKey(Execute(w, call, env).0, Execute(m, call, env).0, k)
  {
    if call.CreateJob? {
      CreateAddsEntry(w.table, call.spec, call.clientRequestId, env, share);
      CreateAddsEntry(m.table, call.spec, call.clientRequestId, env, keys);
    } else {
      EntriesUnlessCreate(w, call, env);
      EntriesUnlessCreate(m, call, env);
    }
  }

  /** Other nodes do not notice a call: it touches neither their jobs nor their keys. */
  lemma OtherJobStaysSame(v: World, m: World, call: Call, env: Env, x: JobId)
    requires SameJob(v, m, x) && !call.DequeueJob?
    requires if call.CreateJob? then env.newId != Some(x) else call.jobId != x
    ensures SameJob(v, Execute(m, call, env).0, x)
  {
    if call.RemoveJobIfPresent? {
      WithoutMembers(m.queue, call.jobId);
    }
  }

  lemma OtherKeyStaysSame(v: World, m: World, call: Call, env: Env, keys: set<string>, k: string)
    requires SameKey(v, m, k) && Roomy(m, keys) && KeyKnown(call, keys)
    requires call.CreateJob? ==> Strip(call.clientRequestId) != k || k == ""
    ensures SameKey(v, Execute(m, call, env).0, k)
  {
    if call.CreateJob? {
      CreateAddsEntry(m.table, call.spec, call.clientRequestId, env, keys);
    } else {
      EntriesUnlessCreate(m, call, env);
    }
  }

  // ---------- A call keeps a node in order ----------

  lemma CallKeepsQueue(w: World, call: Call, env: Env)
    requires Distinct(w.queue)
    ensures Distinct(Execute(w, call, env).0.queue)
  {
    match call {
      case EnqueueJob(id) => if id !in w.queue { AppendDistinct(w.queue, id); }
      case DequeueJob(_) => if w.queue != [] { DropFirstDistinct(w.queue); }
      case RemoveJobIfPresent(id) => WithoutDistinct(w.queue, id);
      case _ =>
    }
  }

  lemma CallKeepsRoom(w: World, call: Call, env: Env, keys: set<string>)
    requires Roomy(w, keys) && KeyKnown(call, keys)
    ensures Roomy(Execute(w, call, env).0, keys)
  {
    CallKeepsQueue(w, call, env);
    if IsJobCall(call) {
      JobCallKeeps(w.table, call, env);
    }
    if call.CreateJob? {
      CreateAddsEntry(w.table, call.spec, call.clientRequestId, env, keys);
    } else {
      EntriesUnlessCreate(w, call, env);
    }
  }

  // ---------- All nodes ----------

  lemma SubjectIsSame(own: Owner, worlds: seq<World>, m: World, i: nat, call: Call, keys: set<string>)
    requires InRange(own, worlds) && i < |worlds| && SameStores(own, worlds, m) && NodeOk(own, worlds[i], i, keys)
    requires CallAtHome(own, call, i) && !call.DequeueJob?
    ensures SameSubject(worlds[i], m, call)
  {
    if call.CreateJob? {
      var key := Strip(call.clientRequestId);
      if key != "" {
        assert SameKey(worlds[own(key)], m, key) && KeyAtHome(own, worlds[i], i, key);
        if key in worlds[i].table.dedup.entries {
          var id := worlds[i].table.dedup.entries[key].jobId;
          assert SameJob(worlds[own(id)], m, id);
        }
      }
    } else {
      assert SameJob(worlds[own(call.jobId)], m, call.jobId);
    }
  }

  /** A call delivered at its home node answers as at the one service, and leaves the two the same. */
  lemma CallRefines(own: Owner, worlds: seq<World>, m: World, i: nat, call: Call, env: Env, keys: set<string>)
    requires InRange(own, worlds) && i < |worlds| && SameStores(own, worlds, m)
    requires NodeOk(own, worlds[i], i, keys) && Roomy(m, keys)
    requires CallAtHome(own, call, i) && KeyKnown(call, keys) && DrawnAtHome(own, env, i) && !call.DequeueJob?
    ensures var (w', reply) := Execute(worlds[i], call, env);
            Execute(m, call, env).1 == reply && SameStores(own, worlds[i := w'], Execute(m, call, env).0)
  {
    var w, m' := worlds[i], Execute(m, call, env).0;
    var worlds' := worlds[i := Execute(w, call, env).0];
    SubjectIsSame(own, worlds, m, i, call, keys);
    SameReply(w, m, call, env);
    forall x ensures SameJob(worlds'[own(x)], m', x) {
      assert SameJob(worlds[own(x)], m, x);
      if own(x) == i {
        JobStaysSame(w, m, call, env, x);
      } else {
        OtherJobStaysSame(worlds[own(x)], m, call, env, x);
      }
    }
    forall k ensures SameKey(worlds'[own(k)], m', k) {
      assert SameKey(worlds[own(k)], m, k);
      if own(k) == i {
        KeyStaysSame(w, m, call, env, Share(own, keys, i), keys, k);
      } else {
        OtherKeyStaysSame(worlds[own(k)], m, call, env, keys, k);
      }
    }
    CapsStay(w, m, call, env);
  }

  lemma CapsStay(w: World, m: World, call: Call, env: Env)
    ensures Execute(w, call, env).0.results.maxOutputBytes == w.results.maxOutputBytes
    ensures Execute(m, call, env).0.results.maxOutputBytes == m.results.maxOutputBytes
  {}

  /** What a node's queue has to offer. */
  function HeadOf(q: seq<JobId>): Option<JobId> {
    if q == [] then None else Some(q[0])
  }

  lemma HeadTaken(w: World, m: World, x: JobId)
    requires w.queue != [] && Distinct(w.queue) && SameJob(w, m, x)
    ensures SameJob(w.(queue := w.queue[1..]), m.(queue := Without(m.queue, w.queue[0])), x)
  {
    WithoutMembers(m.queue, w.queue[0]);
    DropFirstDistinct(w.queue);
    assert w.queue == [w.queue[0]] + w.queue[1..];
  }

  lemma OtherHeadTaken(v: World, m: World, head: JobId, x: JobId)
    requires SameJob(v, m, x) && x != head
    ensures SameJob(v, m.(queue := Without(m.queue, head)), x)
  {
    WithoutMembers(m.queue, head);
  }

  /** A dequeue at a node is a dequeue at the one service that happens to take the node's head. */
  lemma DequeueRefines(own: Owner, worlds: seq<World>, m: World, i: nat, call: Call, env: Env, keys: set<string>)
    requires InRange(own, worlds) && i < |worlds| && SameStores(own, worlds, m)
    requires NodeOk(own, worlds[i], i, keys) && Roomy(m, keys) && call.DequeueJob?
    ensures var offer := HeadOf(worlds[i].queue);
            var (w', reply) := Execute(worlds[i], call, env);
            var (queue, taken) := Take(m.queue, offer);
            && (offer.Some? ==> offer.value in m.queue) && taken == reply && Distinct(queue)
            && SameStores(own, worlds[i := w'], m.(queue := queue))
  {
    var w := worlds[i];
    if w.queue == [] {
      assert worlds[i := w] == worlds && m.(queue := m.queue) == m;
    } else {
      var head := w.queue[0];
      assert JobAtHome(own, w, i, head) && SameJob(worlds[own(head)], m, head);
      WithoutDistinct(m.queue, head);
      HeadLeaves(own, worlds, m, i);
    }
  }

  lemma HeadLeaves(own: Owner, worlds: seq<World>, m: World, i: nat)
    requires InRange(own, worlds) && i < |worlds| && SameStores(own, worlds, m)
    requires worlds[i].queue != [] && Distinct(worlds[i].queue) && own(worlds[i].queue[0]) == i
    ensures var w := worlds[i];
            SameStores(own, worlds[i := w.(queue := w.queue[1..])], m.(queue := Without(m.queue, w.queue[0])))
  {
    var w := worlds[i];
    var worlds', m' := worlds[i := w.(queue := w.queue[1..])], m.(queue := Without(m.queue, w.queue[0]));
    forall x ensures SameJob(worlds'[own(x)], m', x) {
      assert SameJob(worlds[own(x)], m, x);
      if own(x) == i {
        HeadTaken(w, m, x);
      } else {
        OtherHeadTaken(worlds[own(x)], m, w.queue[0], x);
      }
    }
    forall k ensures SameKey(worlds'[own(k)], m', k) {
      assert SameKey(worlds[own(k)], m, k);
    }
  }

  // ---------- One step ----------

  lemma BeginsKnown(request: Request, keys: set<string>)
    requires UsesKeys(request, keys)
    ensures !Begin(request).Finished? ==> KeyKnown(CallOf(Begin(request)), keys)
  {}

  /** Only the first call of a submit carries a key. */
  lemma ResumesKnown(pc: Pc, reply: Reply, keys: set<string>)
    requires !pc.Finished?
    ensures !Resume(pc, reply).Finished? ==> KeyKnown(CallOf(Resume(pc, reply)), keys)
  {}

  lemma StartRefines(own: Owner, c: Nodes, m: System, a: Action, node: nat, keys: set<string>)
    requires Refines(own, c, m, keys) && a.Start? && CanStep(own, c, a, node) && UsesKeys(a.request, keys)
    ensures Offers(m, a, None) && Refines(own, Stepped(own, c, a, node), Served(m, a, None), keys)
  {
    hide Stores.Execute, Begin, CallOf, AllAtHome, Roomy, SameStores;
    StepStaysHome(own, c, a, node);
    BeginsKnown(a.request, keys);
    assert InRange(own, c.worlds) by { StillInRange(own, c); }
  }

  lemma StillInRange(own: Owner, c: Nodes)
    requires AllAtHome(own, c)
    ensures InRange(own, c.worlds)
  {}

  lemma FailRefines(own: Owner, c: Nodes, m: System, a: Action, node: nat, keys: set<string>)
    requires Refines(own, c, m, keys) && a.Fail? && CanStep(own, c, a, node)
    ensures Offers(m, a, None) && Refines(own, Stepped(own, c, a, node), Served(m, a, None), keys)
  {
    hide Stores.Execute, Resume, CallOf, AllAtHome, Roomy, SameStores;
    StepStaysHome(own, c, a, node);
    ResumesKnown(c.ops[a.op], Failure(a.code), keys);
    assert KeyKnown(CallOf(c.ops[a.op]), keys);
    assert CallOf(Pc.Lost(CallOf(c.ops[a.op]))) == CallOf(c.ops[a.op]) by { LostCall(CallOf(c.ops[a.op])); }
    StillInRange(own, c);
  }

  lemma LostCall(call: Call)
    ensures CallOf(Pc.Lost(call)) == call
  {}

  /** What the one service is to offer so as to follow the nodes. */
  function OfferFor(own: Owner, c: Nodes, a: Action, node: nat): Option<JobId>
    requires CanStep(own, c, a, node)
  {
    if a.Deliver? && CallOf(c.ops[a.op]).DequeueJob? then HeadOf(c.worlds[c.home[a.op]].queue) else None
  }

  lemma DeliverKeepsRoom(own: Owner, c: Nodes, a: Action, node: nat, keys: set<string>)
    requires AllAtHome(own, c) && a.Deliver? && CanStep(own, c, a, node) && KnownKeys(c.ops, keys)
    requires forall i | 0 <= i < |c.worlds| :: Roomy(c.worlds[i], Share(own, keys, i))
    ensures var c' := Stepped(own, c, a, node);
            KnownKeys(c'.ops, keys) && forall i | 0 <= i < |c'.worlds| :: Roomy(c'.worlds[i], Share(own, keys, i))
  {
    hide Stores.Execute, Resume, CallOf, Roomy;
    var i, call := c.home[a.op], CallOf(c.ops[a.op]);
    assert PcAtHome(own, c.ops[a.op], i);
    KnownShare(own, call, i, keys);
    CallKeepsRoom(c.worlds[i], call, a.env, Share(own, keys, i));
    ResumesKnown(c.ops[a.op], Execute(c.worlds[i], call, a.env).1, keys);
  }

  lemma KnownShare(own: Owner, call: Call, node: nat, keys: set<string>)
    requires CallAtHome(own, call, node) && KeyKnown(call, keys)
    ensures KeyKnown(call, Share(own, keys, node))
  {}

  lemma DeliverRefines(own: Owner, c: Nodes, m: System, a: Action, node: nat, keys: set<string>)
    requires Refines(own, c, m, keys) && a.Deliver? && CanStep(own, c, a, node)
    ensures var offer := OfferFor(own, c, a, node);
            Offers(m, a, offer) && Refines(own, Stepped(own, c, a, node), Served(m, a, offer), keys)
  {
    hide Stores.Execute, Resume, NodeHome, SameStores, Roomy;
    var i, call := c.home[a.op], CallOf(c.ops[a.op]);
    StepStaysHome(own, c, a, node);
    DeliverKeepsRoom(own, c, a, node, keys);
    if call.DequeueJob? {
      DequeueRefines(own, c.worlds, m.stores, i, call, a.env, keys);
      TakeKeepsRoom(m.stores, HeadOf(c.worlds[i].queue), keys);
    } else {
      CallRefines(own, c.worlds, m.stores, i, call, a.env, keys);
      CallKeepsRoom(m.stores, call, a.env, keys);
    }
  }

  lemma TakeKeepsRoom(m: World, offer: Option<JobId>, keys: set<string>)
    requires Roomy(m, keys) && Distinct(Take(m.queue, offer).0)
    ensures Roomy(m.(queue := Take(m.queue, offer).0), keys)
  {}

  lemma StepRefines(own: Owner, c: Nodes, m: System, a: Action, node: nat, keys: set<string>)
    requires Refines(own, c, m, keys) && CanStep(own, c, a, node) && (a.Start? ==> UsesKeys(a.request, keys))
    ensures var offer := OfferFor(own, c, a, node);
            Offers(m, a, offer) && Refines(own, Stepped(own, c, a, node), Served(m, a, offer), keys)
  {
    hide Refines, Stepped, Served, Offers;
    match a {
      case Start(_, _) => StartRefines(own, c, m, a, node, keys);
      case Deliver(_, _) => DeliverRefines(own, c, m, a, node, keys);
      case Fail(_, _, _) => FailRefines(own, c, m, a, node, keys);
    }
  }

  // ---------- Whole runs ----------

  predicate RunUsesKeys(run: seq<Sent>, keys: set<string>) {
    forall k | 0 <= k < |run| && run[k].action.Start? :: UsesKeys(run[k].action.request, keys)
  }

  /** The one service taking the same actions, with what it offers to each fetch. */
  datatype Follows = Follows(action: Action, offer: Option<JobId>)

  function Followed(m: System, run: seq<Follows>): System {
    if run == [] then m
    else
      var mid, last := Followed(m, run[..|run| - 1]), run[|run| - 1];
      if Offers(mid, last.action, last.offer) then Served(mid, last.action, last.offer) else mid
  }

  predicate CanFollow(m: System, run: seq<Follows>) {
    run == []
    || (CanFollow(m, run[..|run| - 1]) && Offers(Followed(m, run[..|run| - 1]), run[|run| - 1].action, run[|run| - 1].offer))
  }

  lemma EmptyRefines(own: Owner, count: nat, dedupCap: int, serviceCap: int, outputCap: int, keys: set<string>)
    requires count > 0 && (forall x {:trigger own(x)} :: own(x) < count)
    requires forall i | 0 <= i < count :: |Share(own, keys, i)| <= EmptyTable(dedupCap).maxDedupKeys
    requires |keys| <= EmptyTable(serviceCap).maxDedupKeys
    ensures Refines(own, EmptyNodes(count, dedupCap, outputCap), Initial(serviceCap, outputCap), keys)
  {
    EmptyAtHome(own, count, dedupCap, outputCap);
  }

  /** Cluster refinement. Whatever a cluster of owner-affine nodes does behind the router, one service
      can do with the same actions, and at the end every operation has given the same answer, every job,
      index entry and envelope is the one its owner holds, and no other node holds anything about it.
      No index is to overflow: the keys a node owns fit under its cap, and all keys under the service's. */
  lemma {:induction false} ClusterRefinesOneService(own: Owner, count: nat, dedupCap: int, serviceCap: int, outputCap: int,
                                                    run: seq<Sent>, keys: set<string>)
      returns (follows: seq<Follows>)
    requires count > 0 && (forall x {:trigger own(x)} :: own(x) < count)
    requires forall i | 0 <= i < count :: |Share(own, keys, i)| <= EmptyTable(dedupCap).maxDedupKeys
    requires |keys| <= EmptyTable(serviceCap).maxDedupKeys && RunUsesKeys(run, keys)
    requires Runs(own, EmptyNodes(count, dedupCap, outputCap), run)
    ensures |follows| == |run| && forall k | 0 <= k < |run| :: follows[k].action == run[k].action
    ensures CanFollow(Initial(serviceCap, outputCap), follows)
    ensures Refines(own, Ran(own, EmptyNodes(count, dedupCap, outputCap), run), Followed(Initial(serviceCap, outputCap), follows), keys)
  {
    hide Refines, Stepped, Served, Offers, CanStep, EmptyNodes, Initial, EmptyTable;
    var c0, m0 := EmptyNodes(count, dedupCap, outputCap), Initial(serviceCap, outputCap);
    if run == [] {
      EmptyRefines(own, count, dedupCap, serviceCap, outputCap, keys);
      return [];
    }
    var init, last := run[..|run| - 1], run[|run| - 1];
    var before := ClusterRefinesOneService(own, count, dedupCap, serviceCap, outputCap, init, keys);
    var c, m := Ran(own, c0, init), Followed(m0, before);
    var offer := OfferFor(own, c, last.action, last.node);
    StepRefines(own, c, m, last.action, last.node, keys);
    follows := before + [Follows(last.action, offer)];
    assert follows[..|follows| - 1] == before;
  }
}
