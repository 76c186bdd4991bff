/** Fairness of the queue over whole histories. An entry only ever moves forward, by exactly one place
    for each dequeue and for each removal of an entry ahead of it, whatever is enqueued meanwhile. */
module Fairness {
  import opened Types
  import opened Messages
  import opened OrderedKeys
  import opened Stores

  datatype QueueOp = Enq(id: JobId) | Deq | Rem(id: JobId)

  function Step(q: seq<JobId>, op: QueueOp): seq<JobId> {
    match op
    case Enq(id) => Enqueue(q, id)
    case Deq => Dequeue(q).0
    case Rem(id) => Remove(q, id).0
  }

  function Play(q: seq<JobId>, ops: seq<QueueOp>): seq<JobId> {
    if ops == [] then q else Step(Play(q, ops[..|ops| - 1]), ops[|ops| - 1])
  }

  function Deqs(ops: seq<QueueOp>): nat {
    if ops == [] then 0 else Deqs(ops[..|ops| - 1]) + if ops[|ops| - 1].Deq? then 1 else 0
  }

  // ---------- Positions ----------

  /** How many entries are ahead of `id`. */
  function Position(q: seq<JobId>, id: JobId): nat
    requires id in q
  {
    if q[|q| - 1] == id then |q| - 1 else Position(q[..|q| - 1], id)
  }

  lemma {:induction false} PositionFinds(q: seq<JobId>, id: JobId)
    requires id in q
    ensures Position(q, id) < |q| && q[Position(q, id)] == id
  {
    if q[|q| - 1] != id {
      PositionFinds(q[..|q| - 1], id);
    }
  }

  lemma {:induction false} PositionIsUnique(q: seq<JobId>, i: nat)
    requires Distinct(q) && i < |q|
    ensures Position(q, q[i]) == i
  {
    if i < |q| - 1 {
      assert q[..|q| - 1][i] == q[i];
      PositionIsUnique(q[..|q| - 1], i);
    }
  }

  predicate Ahead(q: seq<JobId>, a: JobId, b: JobId) {
    a in q && b in q && Position(q, a) < Position(q, b)
  }

  lemma LastApart(q: seq<JobId>, x: JobId)
    requires q != []
    ensures var init, last := q[..|q| - 1], q[|q| - 1];
            && q == init + [last]
            && (Distinct(q) ==> Distinct(init) && last !in init)
            && Without(q, x) == Without(init, x) + if last == x then [] else [last]
  {}

  lemma PositionAppended(q: seq<JobId>, last: JobId, id: JobId)
    requires id in q + [last]
    ensures Position(q + [last], id) == if last == id then |q| else Position(q, id)
  {
    assert (q + [last])[..|q|] == q;
  }

  lemma {:induction false} RemovalMovesUp(q: seq<JobId>, x: JobId, id: JobId)
    requires Distinct(q) && id in q && x != id
    ensures id in Without(q, x)
    ensures Position(Without(q, x), id) == Position(q, id) - if Ahead(q, x, id) then 1 else 0
  {
    hide Distinct, Without, Position;
    WithoutMembers(q, x);
    var init, last := q[..|q| - 1], q[|q| - 1];
    LastApart(q, x);
    PositionAppended(init, last, id);
    if x in q {
      PositionAppended(init, last, x);
    }
    if last == id {
      WithoutDistinct(init, x);
      if x in q {
        PositionFinds(init, x);
      }
      PositionAppended(Without(init, x), id, id);
    } else {
      RemovalMovesUp(init, x, id);
      PositionFinds(init, id);
      if last == x {
        assert Without(q, x) == Without(init, x);
      } else {
        PositionAppended(Without(init, x), last, id);
      }
    }
  }

  // ---------- One operation ----------

  lemma StepKeepsDistinct(q: seq<JobId>, op: QueueOp)
    requires Distinct(q)
    ensures Distinct(Step(q, op))
  {
    match op {
      case Enq(id) => if id !in q { AppendDistinct(q, id); }
      case Deq => if q != [] { DropFirstDistinct(q); }
      case Rem(id) => WithoutDistinct(q, id);
    }
  }

  /** How far one operation moves an entry that stays. */
  function Advance(q: seq<JobId>, op: QueueOp, id: JobId): nat {
    if op.Deq? || (op.Rem? && Ahead(q, op.id, id)) then 1 else 0
  }

  lemma StepMovesUp(q: seq<JobId>, op: QueueOp, id: JobId)
    requires Distinct(q) && id in q && id in Step(q, op)
    ensures Position(Step(q, op), id) + Advance(q, op, id) == Position(q, id)
  {
    PositionFinds(q, id);
    match op {
      case Enq(x) =>
        if x !in q {
          assert (q + [x])[..|q|] == q;
        }
      case Deq =>
        DropFirstDistinct(q);
        var i := Position(q, id);
        assert i > 0 && q[1..][i - 1] == id;
        PositionIsUnique(q[1..], i - 1);
      case Rem(x) =>
        WithoutMembers(q, x);
        RemovalMovesUp(q, x, id);
    }
  }

  /** An entry leaves only by being dequeued or by being removed by name. */
  lemma StepLoses(q: seq<JobId>, op: QueueOp, id: JobId)
    requires id in q && id !in Step(q, op)
    ensures op == Rem(id) || (op.Deq? && Dequeue(q).1 == Dequeued(true, id))
  {
    if op.Rem? {
      WithoutMembers(q, op.id);
    } else if op.Deq? {
      assert q == [q[0]] + q[1..];
    }
  }

  // ---------- Histories ----------

  lemma {:induction false} PlayKeepsDistinct(q: seq<JobId>, ops: seq<QueueOp>)
    requires Distinct(q)
    ensures Distinct(Play(q, ops))
  {
    if ops != [] {
      PlayKeepsDistinct(q, ops[..|ops| - 1]);
      StepKeepsDistinct(Play(q, ops[..|ops| - 1]), ops[|ops| - 1]);
    }
  }

  predicate Stays(q: seq<JobId>, ops: seq<QueueOp>, id: JobId) {
    id in Play(q, ops) && (ops == [] || Stays(q, ops[..|ops| - 1], id))
  }

  /** How many entries ahead of `id` a history removes by name. */
  function RemovedAhead(q: seq<JobId>, ops: seq<QueueOp>, id: JobId): nat {
    if ops == [] then 0
    else
      var init, last := ops[..|ops| - 1], ops[|ops| - 1];
      RemovedAhead(q, init, id) + if last.Rem? && Ahead(Play(q, init), last.id, id) then 1 else 0
  }

  /** Every place gained is accounted for: by a dequeue, or by a removal of an entry ahead. */
  lemma {:induction false} PlacesAreConserved(q: seq<JobId>, ops: seq<QueueOp>, id: JobId)
    requires Distinct(q) && Stays(q, ops, id)
    ensures id in q && Position(Play(q, ops), id) + Deqs(ops) + RemovedAhead(q, ops, id) == Position(q, id)
  {
    if ops != [] {
      var init := ops[..|ops| - 1];
      PlacesAreConserved(q, init, id);
      PlayKeepsDistinct(q, init);
      StepMovesUp(Play(q, init), ops[|ops| - 1], id);
    }
  }

  /** Nobody overtakes: while two entries stay, the one ahead stays ahead. */
  lemma {:induction false} NobodyOvertakes(q: seq<JobId>, ops: seq<QueueOp>, a: JobId, b: JobId)
    requires Distinct(q) && Stays(q, ops, a) && Stays(q, ops, b)
    ensures Ahead(q, a, b) <==> Ahead(Play(q, ops), a, b)
  {
    PlacesAreConserved(q, ops, a);
    PlacesAreConserved(q, ops, b);
    if ops != [] {
      var init, last := ops[..|ops| - 1], ops[|ops| - 1];
      var mid := Play(q, init);
      NobodyOvertakes(q, init, a, b);
      PlayKeepsDistinct(q, init);
      StepMovesUp(mid, last, a);
      StepMovesUp(mid, last, b);
      PositionFinds(mid, a);
      PositionFinds(mid, b);
      PositionFinds(Play(q, ops), a);
      PositionFinds(Play(q, ops), b);
      if last.Rem? {
        WithoutMembers(mid, last.id);
        if last.id in mid {
          PositionFinds(mid, last.id);
        }
      }
    }
  }

  /** Where an entry that does not stay leaves: the first operation after which it is gone. */
  lemma {:induction false} SomewhereItLeaves(q: seq<JobId>, ops: seq<QueueOp>, id: JobId) returns (i: nat)
    requires id in q && !Stays(q, ops, id)
    ensures i < |ops| && Stays(q, ops[..i], id) && id !in Step(Play(q, ops[..i]), ops[i])
  {
    var init := ops[..|ops| - 1];
    if Stays(q, init, id) {
      return |ops| - 1;
    }
    i := SomewhereItLeaves(q, init, id);
    assert init[..i] == ops[..i];
  }

  lemma {:induction false} StaysIsIn(q: seq<JobId>, ops: seq<QueueOp>, id: JobId)
    requires Stays(q, ops, id)
    ensures id in q && id in Play(q, ops)
  {
    if ops != [] {
      StaysIsIn(q, ops[..|ops| - 1], id);
    }
  }

  /** An entry with `p` others ahead is gone by the `p+1`-st dequeue at the latest, whatever is
      enqueued or removed in between: some operation, no later than that dequeue, either handed it to
      a worker or removed it by name. */
  lemma ServedInTurn(q: seq<JobId>, ops: seq<QueueOp>, id: JobId) returns (i: nat)
    requires Distinct(q) && id in q && Deqs(ops) > Position(q, id)
    ensures i < |ops| && Deqs(ops[..i]) <= Position(q, id)
    ensures id in Play(q, ops[..i]) && id !in Play(q, ops[..i + 1])
    ensures ops[i] == Rem(id) || (ops[i].Deq? && Dequeue(Play(q, ops[..i])).1 == Dequeued(true, id))
  {
    hide Stays, Step, RemovedAhead, Deqs, Distinct;
    if Stays(q, ops, id) {
      PlacesAreConserved(q, ops, id);
      assert false;
    } else {
      i := SomewhereItLeaves(q, ops, id);
      PlacesAreConserved(q, ops[..i], id);
      StaysIsIn(q, ops[..i], id);
      StepLoses(Play(q, ops[..i]), ops[i], id);
      assert ops[..i + 1][..i] == ops[..i];
    }
  }

  lemma {:induction false} NothingRemoved(q: seq<JobId>, ops: seq<QueueOp>, id: JobId)
    requires forall k | 0 <= k < |ops| :: !ops[k].Rem?
    ensures RemovedAhead(q, ops, id) == 0
  {
    if ops != [] {
      NothingRemoved(q, ops[..|ops| - 1], id);
    }
  }

  lemma {:induction false} DeqsGrow(ops: seq<QueueOp>, i: nat)
    requires i < |ops| && ops[i].Deq?
    ensures Deqs(ops[..i]) < Deqs(ops)
  {
    var init := ops[..|ops| - 1];
    if i < |ops| - 1 {
      DeqsGrow(init, i);
      assert init[..i] == ops[..i];
    }
  }

  /** Without removals the queue is exactly first in, first out: after any history with `n` dequeues the
      next dequeue hands out the entry that had `n` others ahead of it. */
  lemma ServedExactlyInTurn(q: seq<JobId>, ops: seq<QueueOp>, id: JobId)
    requires Distinct(q) && id in q && Deqs(ops) == Position(q, id)
    requires forall k | 0 <= k < |ops| :: !ops[k].Rem?
    ensures Dequeue(Play(q, ops)).1 == Dequeued(true, id)
  {
    if Stays(q, ops, id) {
      PlacesAreConserved(q, ops, id);
      StaysIsIn(q, ops, id);
      NothingRemoved(q, ops, id);
      PositionFinds(Play(q, ops), id);
    } else {
      var i := SomewhereItLeaves(q, ops, id);
      var mid := Play(q, ops[..i]);
      StaysIsIn(q, ops[..i], id);
      StepLoses(mid, ops[i], id);
      PlacesAreConserved(q, ops[..i], id);
      NothingRemoved(q, ops[..i], id);
      DeqsGrow(ops, i);
      PlayKeepsDistinct(q, ops[..i]);
      PositionIsUnique(mid, 0);
      assert false;
    }
  }
}
