/** A handler running with no other in between. Each of its calls is delivered, refused before it took
    effect, or dropped after it did; the handler cannot tell the last two apart. */
module Solo {
  import opened Types
  import opened Messages
  import opened Stores
  import opened Handlers

  datatype Delivery =
    | Delivered(now: int, uuids: nat -> JobId)
    | Declined(code: Code)
    | Dropped(now: int, uuids: nat -> JobId, error: Code)

  /** What happens to a handler's calls, first to last. */
  type Network = nat -> Delivery

  /** Every call is delivered. */
  ghost predicate Smooth(net: Network) { forall k :: net(k).Delivered? }

  type IdPicker = (nat -> JobId) -> Option<JobId>

  function Transport(w: World, call: Call, d: Delivery, pick: IdPicker): (World, Reply) {
    match d
    case Delivered(now, uuids) => Execute(w, call, Env(now, pick(uuids)))
    case Declined(code) => (w, Failure(code))
    case Dropped(now, uuids, error) => (Execute(w, call, Env(now, pick(uuids))).0, Failure(error))
  }

  function RunAlone(w: World, pc: Pc, net: Network, k: nat, pick: IdPicker): (World, Answer)
    decreases Rank(pc)
  {
    if pc.Finished? then (w, pc.answer)
    else
      var (w', reply) := Transport(w, CallOf(pc), net(k), pick);
      ResumeMakesProgress(pc, reply);
      RunAlone(w', Resume(pc, reply), net, k + 1, pick)
  }

  function Handle(w: World, request: Request, net: Network, pick: IdPicker): (World, Answer) {
    RunAlone(w, Begin(request), net, 0, pick)
  }

  /** The replies a call can bring. */
  predicate Fits(call: Call, reply: Reply) {
    reply.Failure? || match call
      case CreateJob(_, _) => reply.Created?
      case DeleteJobIfStatus(_, _) => reply.Deleted?
      case GetJobRecord(_) => reply.Record?
      case TransitionJobStatus(_, _, _, _) => reply.Transitioned?
      case SetCancelRequested(_, _) => reply.CancelFlagged?
      case EnqueueJob(_) => reply.Enqueued?
      case DequeueJob(_) => reply.Dequeued?
      case RemoveJobIfPresent(_) => reply.Removed?
      case StoreResult(_, _) => reply.Stored?
      case GetResult(_) => reply.Fetched?
  }

  lemma ReplyFits(w: World, call: Call, env: Env)
    ensures Fits(call, Execute(w, call, env).1)
  {}

  lemma TransportFits(w: World, call: Call, d: Delivery, pick: IdPicker)
    ensures Fits(call, Transport(w, call, d, pick).1)
  {}

  lemma Unroll(w: World, pc: Pc, net: Network, k: nat, pick: IdPicker)
    requires !pc.Finished?
    ensures var (w', reply) := Transport(w, CallOf(pc), net(k), pick);
            RunAlone(w, pc, net, k, pick) == RunAlone(w', Resume(pc, reply), net, k + 1, pick)
  {}
}
