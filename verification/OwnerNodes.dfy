/** Owner-affine nodes behind the router. Keyed submits go to the owner of the key, job-scoped requests to
    the owner of the job, unkeyed submits and fetches to any node, and a node only draws identifiers it
    owns. So a node only ever holds its own jobs and keys, and every answer leads back to the node that
    has the job, over every run and whatever the indexes forget. */
module OwnerNodes {
  import opened Types
  import opened Messages
  import opened OrderedKeys
  import opened JobTable
  import opened Stores
  import opened Handlers
  import opened Protocol

  /** The owner of an identifier or key among the nodes. */
  type Owner = string -> nat

  /** `home` says which node an operation was sent to. */
  datatype Nodes = Nodes(worlds: seq<World>, ops: map<OpId, Pc>, home: map<OpId, nat>, issued: set<JobId>)

  // ---------- Routing ----------

  predicate RoutedTo(own: Owner, request: Request, node: nat) {
    match request
    case SubmitJob(_, key) => Strip(key) != "" ==> own(Strip(key)) == node
    case GetJobStatus(id) => Strip(id) != "" ==> own(Strip(id)) == node
    case GetJobResult(id) => Strip(id) != "" ==> own(Strip(id)) == node
    case CancelJob(id, _) => Strip(id) != "" ==> own(Strip(id)) == node
    case FetchWork(_, _) => true
    case ReportWorkOutcome(r) => Strip(r.jobId) != "" ==> own(Strip(r.jobId)) == node
  }

  // ---------- The nodes' steps ----------

  /** As for one service, except that a start names its node and a node only draws identifiers it owns. */
  predicate CanStep(own: Owner, c: Nodes, a: Action, node: nat) {
    match a
    case Start(op, request) => op !in c.ops && node < |c.worlds| && RoutedTo(own, request, node)
    case Deliver(op, env) =>
      && op in c.ops && !c.ops[op].Finished? && op in c.home && c.home[op] < |c.worlds|
      && (env.newId.Some? ==> && CallOf(c.ops[op]).CreateJob?
                              && own(env.newId.value) == c.home[op]
                              && env.newId.value !in c.issued && Canonical(env.newId.value))
    case Fail(op, _, lost) => op in c.ops && !c.ops[op].Finished? && !c.ops[op].Lost? && lost !in c.ops && op in c.home
  }

  function Stepped(own: Owner, c: Nodes, a: Action, node: nat): Nodes
    requires CanStep(own, c, a, node)
  {
    match a
    case Start(op, request) => c.(ops := c.ops[op := Begin(request)], home := c.home[op := node])
    case Deliver(op, env) =>
      var i := c.home[op];
      var (w, reply) := Execute(c.worlds[i], CallOf(c.ops[op]), env);
      Nodes(c.worlds[i := w], c.ops[op := Resume(c.ops[op], reply)], c.home, c.issued + IdSet(env.newId))
    case Fail(op, code, lost) =>
      var pc := c.ops[op];
      c.(ops := c.ops[op := Resume(pc, Failure(code))][lost := Pc.Lost(CallOf(pc))], home := c.home[lost := c.home[op]])
  }

  // ---------- Whole runs ----------

  /** An action, and the node it is sent to if it is a start. */
  datatype Sent = Sent(node: nat, action: Action)

  function Ran(own: Owner, c: Nodes, run: seq<Sent>): Nodes {
    if run == [] then c
    else
      var mid, last := Ran(own, c, run[..|run| - 1]), run[|run| - 1];
      if CanStep(own, mid, last.action, last.node) then Stepped(own, mid, last.action, last.node) else mid
  }

  predicate Runs(own: Owner, c: Nodes, run: seq<Sent>) {
    run == []
    || (Runs(own, c, run[..|run| - 1]) && CanStep(own, Ran(own, c, run[..|run| - 1]), run[|run| - 1].action, run[|run| - 1].node))
  }

  function EmptyNodes(count: nat, dedupCap: int, outputCap: int): Nodes {
    Nodes(seq(count, _ => World(EmptyTable(dedupCap), [], EmptyResults(outputCap))), map[], map[], {})
  }

  // ---------- Everything at home ----------

  /** A node holds nothing about other nodes' jobs and keys. */
  predicate JobAtHome(own: Owner, w: World, node: nat, id: JobId) {
    Holds(w, id) ==> own(id) == node
  }

  /** The stores know something of the job. */
  predicate Holds(w: World, id: JobId) {
    id in w.table.records || id in w.results.envelopes || id in w.queue
  }

  predicate KeyAtHome(own: Owner, w: World, node: nat, key: string) {
    key in w.table.dedup.entries ==> own(key) == node && own(w.table.dedup.entries[key].jobId) == node
  }

  predicate CallAtHome(own: Owner, call: Call, node: nat) {
    match call
    case CreateJob(_, key) => Strip(key) != "" ==> own(Strip(key)) == node
    case DequeueJob(_) => true
    case _ => own(call.jobId) == node
  }

  /** Jobs a node submits or hands to its worker are its own. */
  predicate AnswerAtHome(own: Owner, answer: Answer, node: nat) {
    answer.Submitted? || answer.Assigned? ==> own(answer.jobId) == node
  }

  predicate PcAtHome(own: Owner, pc: Pc, node: nat) {
    if pc.Finished? then AnswerAtHome(own, pc.answer, node) else CallAtHome(own, CallOf(pc), node)
  }

  ghost predicate NodeHome(own: Owner, w: World, node: nat) {
    && TableOk(w.table)
    && (forall id :: JobAtHome(own, w, node, id))
    && (forall key :: KeyAtHome(own, w, node, key))
  }

  ghost predicate InRange(own: Owner, worlds: seq<World>) {
    forall x {:trigger own(x)} :: own(x) < |worlds|
  }

  ghost predicate AllAtHome(own: Owner, c: Nodes) {
    && c.worlds != [] && InRange(own, c.worlds)
    && (forall i | 0 <= i < |c.worlds| :: NodeHome(own, c.worlds[i], i))
    && (forall op | op in c.ops :: op in c.home && c.home[op] < |c.worlds| && PcAtHome(own, c.ops[op], c.home[op]))
  }

  // ---------- A call keeps a node in order ----------

  lemma EntriesUnlessCreate(w: World, call: Call, env: Env)
    requires !call.CreateJob?
    ensures Execute(w, call, env).0.table.dedup == w.table.dedup
  {}

  predicate DrawnAtHome(own: Owner, env: Env, node: nat) { env.newId.Some? ==> own(env.newId.value) == node }

  lemma JobKeepsHome(own: Owner, w: World, node: nat, call: Call, env: Env, id: JobId)
    requires CallAtHome(own, call, node) && DrawnAtHome(own, env, node) && JobAtHome(own, w, node, id)
    ensures JobAtHome(own, Execute(w, call, env).0, node, id)
  {
    if call.RemoveJobIfPresent? {
      WithoutMembers(w.queue, call.jobId);
    }
  }

  lemma KeyKeepsHome(own: Owner, w: World, node: nat, call: Call, env: Env, k: string)
    requires CallAtHome(own, call, node) && DrawnAtHome(own, env, node) && KeyAtHome(own, w, node, k)
    ensures KeyAtHome(own, Execute(w, call, env).0, node, k)
  {
    if call.CreateJob? {
      CreateAddsAtMost(w.table, call.spec, call.clientRequestId, env, k);
    } else {
      EntriesUnlessCreate(w, call, env);
    }
  }

  lemma CallKeepsTable(w: World, call: Call, env: Env)
    requires TableOk(w.table)
    ensures TableOk(Execute(w, call, env).0.table)
  {
    if IsJobCall(call) {
      JobCallKeeps(w.table, call, env);
    }
  }

  lemma CallKeepsNode(own: Owner, w: World, node: nat, call: Call, env: Env)
    requires CallAtHome(own, call, node) && DrawnAtHome(own, env, node) && NodeHome(own, w, node)
    ensures NodeHome(own, Execute(w, call, env).0, node)
  {
    CallKeepsTable(w, call, env);
    forall id ensures JobAtHome(own, Execute(w, call, env).0, node, id) {
      JobKeepsHome(own, w, node, call, env, id);
    }
    forall k ensures KeyAtHome(own, Execute(w, call, env).0, node, k) {
      KeyKeepsHome(own, w, node, call, env, k);
    }
  }

  /** Replies only ever name jobs of the node that sends them. */
  predicate ReplyAtHome(own: Owner, reply: Reply, node: nat) {
    && (reply.Created? ==> own(reply.jobId) == node)
    && (reply.Dequeued? && reply.found ==> own(reply.jobId) == node)
  }

  lemma NodeRepliesAtHome(own: Owner, w: World, node: nat, call: Call, env: Env)
    requires CallAtHome(own, call, node) && DrawnAtHome(own, env, node) && NodeHome(own, w, node)
    ensures ReplyAtHome(own, Execute(w, call, env).1, node)
  {
    if call.CreateJob? {
      assert KeyAtHome(own, w, node, Strip(call.clientRequestId));
    }
    if call.DequeueJob? && w.queue != [] {
      assert JobAtHome(own, w, node, w.queue[0]);
    }
  }

  lemma ResumeStaysHome(own: Owner, pc: Pc, reply: Reply, node: nat)
    requires !pc.Finished? && PcAtHome(own, pc, node) && ReplyAtHome(own, reply, node)
    ensures PcAtHome(own, Resume(pc, reply), node)
  {}

  lemma BeginsAtHome(own: Owner, request: Request, node: nat)
    requires RoutedTo(own, request, node)
    ensures PcAtHome(own, Begin(request), node)
  {}

  // ---------- Steps and runs ----------

  lemma StepStaysHome(own: Owner, c: Nodes, a: Action, node: nat)
    requires AllAtHome(own, c) && CanStep(own, c, a, node)
    ensures AllAtHome(own, Stepped(own, c, a, node))
  {
    hide Stores.Execute, Begin, Resume, NodeHome;
    match a {
      case Start(op, request) => BeginsAtHome(own, request, node);
      case Deliver(op, env) =>
        var i, call := c.home[op], CallOf(c.ops[op]);
        CallKeepsNode(own, c.worlds[i], i, call, env);
        NodeRepliesAtHome(own, c.worlds[i], i, call, env);
        ResumeStaysHome(own, c.ops[op], Execute(c.worlds[i], call, env).1, i);
      case Fail(op, code, lost) => ResumeStaysHome(own, c.ops[op], Failure(code), c.home[op]);
    }
  }

  lemma EmptyAtHome(own: Owner, count: nat, dedupCap: int, outputCap: int)
    requires count > 0 && (forall x {:trigger own(x)} :: own(x) < count)
    ensures AllAtHome(own, EmptyNodes(count, dedupCap, outputCap))
  {}

  lemma {:induction false} AtHomeAlways(own: Owner, count: nat, dedupCap: int, outputCap: int, run: seq<Sent>)
    requires count > 0 && (forall x {:trigger own(x)} :: own(x) < count)
    requires Runs(own, EmptyNodes(count, dedupCap, outputCap), run)
    ensures AllAtHome(own, Ran(own, EmptyNodes(count, dedupCap, outputCap), run))
  {
    hide AllAtHome, CanStep, Stepped, EmptyNodes;
    if run == [] {
      EmptyAtHome(own, count, dedupCap, outputCap);
    } else {
      var init, last := run[..|run| - 1], run[|run| - 1];
      AtHomeAlways(own, count, dedupCap, outputCap, init);
      StepStaysHome(own, Ran(own, EmptyNodes(count, dedupCap, outputCap), init), last.action, last.node);
    }
  }

  /** In every state of every run the owner of the identifier a submit or a fetch has answered with is the
      node it was sent to: later requests about the job, and the worker's own report, are routed to the
      node that has it. */
  lemma AnswersRouteBack(own: Owner, count: nat, dedupCap: int, outputCap: int, run: seq<Sent>, op: OpId)
    requires count > 0 && (forall x {:trigger own(x)} :: own(x) < count)
    requires Runs(own, EmptyNodes(count, dedupCap, outputCap), run)
    ensures var c := Ran(own, EmptyNodes(count, dedupCap, outputCap), run);
            op in c.ops && c.ops[op].Finished? && (c.ops[op].answer.Submitted? || c.ops[op].answer.Assigned?) ==>
              op in c.home && own(c.ops[op].answer.jobId) == c.home[op]
  {
    hide Runs, Ran, EmptyNodes;
    AtHomeAlways(own, count, dedupCap, outputCap, run);
  }

  /** In every state of every run a node holds records, envelopes and queue entries of its own jobs only;
      so no two nodes hold the same job. */
  lemma NodesAreDisjoint(own: Owner, count: nat, dedupCap: int, outputCap: int, run: seq<Sent>, i: nat, j: nat, id: JobId)
    requires count > 0 && (forall x {:trigger own(x)} :: own(x) < count)
    requires Runs(own, EmptyNodes(count, dedupCap, outputCap), run)
    ensures var c := Ran(own, EmptyNodes(count, dedupCap, outputCap), run);
            i < |c.worlds| && Holds(c.worlds[i], id) ==>
              i == own(id) && (j < |c.worlds| && Holds(c.worlds[j], id) ==> i == j)
  {
    hide Runs, Ran, EmptyNodes;
    AtHomeAlways(own, count, dedupCap, outputCap, run);
    var c := Ran(own, EmptyNodes(count, dedupCap, outputCap), run);
    if i < |c.worlds| {
      assert JobAtHome(own, c.worlds[i], i, id);
    }
    if j < |c.worlds| {
      assert JobAtHome(own, c.worlds[j], j, id);
    }
  }
}
