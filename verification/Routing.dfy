/** The client-side router in front of the owner-affine nodes. */
module Routing {
  import opened Types
  import opened Servicers

  /** Blank names are dropped from the configured node order. */
  function Names(nodes: seq<string>): seq<string> {
    if nodes == [] then []
    else Names(nodes[..|nodes| - 1]) + if Strip(nodes[|nodes| - 1]) == "" then [] else [Strip(nodes[|nodes| - 1])]
  }

  /** The names kept are the non-blank ones, trimmed, in the order given. */
  lemma {:induction false} NamesAreTheNonBlank(nodes: seq<string>, more: seq<string>, x: string)
    ensures Names(nodes + more) == Names(nodes) + Names(more)
    ensures x in Names(nodes) <==> x != "" && exists i | 0 <= i < |nodes| :: Strip(nodes[i]) == x
    ensures Names([x]) == if Strip(x) == "" then [] else [Strip(x)]
    decreases |nodes|, |more|
  {
    hide Strip;
    assert Names([]) == [] && [x][..0] == [];
    if more != [] {
      NamesAreTheNonBlank(nodes, more[..|more| - 1], x);
      assert (nodes + more)[..|nodes + more| - 1] == nodes + more[..|more| - 1];
    } else {
      assert nodes + more == nodes;
      if nodes != [] {
        NamesAreTheNonBlank(nodes[..|nodes| - 1], [], x);
        assert nodes == nodes[..|nodes| - 1] + [nodes[|nodes| - 1]];
      }
    }
  }

  class DesignBClientRouter {
    const nodes: seq<string>
    const hash: string -> nat
    var rrIndex: nat

    ghost predicate Valid() reads this { nodes != [] && rrIndex < |nodes| }

    constructor (ordered: seq<string>, roundRobinStart: int, hash: string -> nat)
      requires ordered != []
      ensures Valid() && nodes == ordered && rrIndex == roundRobinStart % |ordered| && this.hash == hash
    {
      nodes, this.hash := ordered, hash;
      rrIndex := roundRobinStart % |ordered|;
    }

    /** `None` stands for the ValueError of a node order without a name. */
    static method Create(orderedNodes: seq<string>, roundRobinStart: int, hash: string -> nat)
        returns (router: Option<DesignBClientRouter>)
      ensures router.None? <==> Names(orderedNodes) == []
      ensures router.Some? ==> fresh(router.value) && router.value.Valid() && router.value.nodes == Names(orderedNodes)
                               && router.value.rrIndex == roundRobinStart % |Names(orderedNodes)|
    {
      var names: seq<string> := [];
      for i := 0 to |orderedNodes|
        invariant names == Names(orderedNodes[..i])
      {
        assert orderedNodes[..i + 1][..i] == orderedNodes[..i];
        if Strip(orderedNodes[i]) != "" {
          names := names + [Strip(orderedNodes[i])];
        }
      }
      assert orderedNodes[..|orderedNodes|] == orderedNodes;
      if names == [] {
        return None;
      }
      var created := new DesignBClientRouter(names, roundRobinStart, hash);
      return Some(created);
    }

    method NextRoundRobinTarget() returns (index: nat, node: string)
      requires Valid()
      modifies this
      ensures Valid() && index == old(rrIndex) && node == nodes[index]
      ensures rrIndex == (old(rrIndex) + 1) % |nodes|
    {
      index := rrIndex;
      rrIndex := (rrIndex + 1) % |nodes|;
      node := nodes[index];
    }

    method OwnerTargetForKey(key: string) returns (index: nat, node: string)
      requires Valid() && key != ""
      ensures index == OwnerIndex(hash, key, |nodes|) && index < |nodes| && node == nodes[index]
    {
      index := OwnerIndex(hash, key, |nodes|);
      node := nodes[index];
    }

    /** A keyed submit goes to the key's owner and leaves the rotation alone; an unkeyed one takes the
        next node in turn. */
    method SubmitTarget(clientRequestId: string) returns (index: nat, node: string, owner: bool)
      requires Valid()
      modifies this
      ensures Valid() && index < |nodes| && node == nodes[index] && (owner <==> Strip(clientRequestId) != "")
      ensures owner ==> index == OwnerIndex(hash, Strip(clientRequestId), |nodes|) && rrIndex == old(rrIndex)
      ensures !owner ==> index == old(rrIndex) && rrIndex == (old(rrIndex) + 1) % |nodes|
    {
      var key := Strip(clientRequestId);
      if key != "" {
        index, node := OwnerTargetForKey(key);
        return index, node, true;
      }
      index, node := NextRoundRobinTarget();
      return index, node, false;
    }

    /** `None` stands for the ValueError of a blank identifier. */
    method JobTarget(jobId: string) returns (target: Option<nat>)
      requires Valid()
      ensures target == if Strip(jobId) == "" then None else Some(OwnerIndex(hash, Strip(jobId), |nodes|))
    {
      var key := Strip(jobId);
      if key == "" {
        return None;
      }
      var index, _ := OwnerTargetForKey(key);
      return Some(index);
    }
  }

  // ---------- Rotation ----------

  /** The `k`-th unkeyed submit after the rotation stood at `start`. */
  function Turn(start: nat, k: nat, count: nat): nat
    requires count > 0
  {
    if k == 0 then start % count else (Turn(start, k - 1, count) + 1) % count
  }

  lemma NextInTurn(index: nat, count: nat)
    requires index < count
    ensures (index + 1) % count == if index + 1 < count then index + 1 else 0
  {}

  lemma {:induction false} TurnIsRotation(start: nat, k: nat, count: nat)
    requires start < count && k < count
    ensures Turn(start, k, count) == if start + k < count then start + k else start + k - count
  {
    if k > 0 {
      TurnIsRotation(start, k - 1, count);
      NextInTurn(Turn(start, k - 1, count), count);
    }
  }

  /** Of any `count` unkeyed submits in a row every node gets exactly one. */
  lemma EveryNodeHasItsTurn(start: nat, count: nat, node: nat)
    requires start < count && node < count
    ensures exists k | 0 <= k < count :: Turn(start, k, count) == node
    ensures forall i: nat, k: nat | i < k < count :: Turn(start, i, count) != Turn(start, k, count)
  {
    var k := if node >= start then node - start else node + count - start;
    TurnIsRotation(start, k, count);
    forall i: nat, k: nat | i < k < count ensures Turn(start, i, count) != Turn(start, k, count) {
      TurnIsRotation(start, i, count);
      TurnIsRotation(start, k, count);
    }
  }
}
