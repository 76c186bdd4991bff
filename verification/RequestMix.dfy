/** The weighted scheduler of the load generator: a shuffled list that names each method as often as its
    weight, gone round and round. */
module RequestMix {
  import opened Types

  const PRIMARY_METHODS := ["SubmitJob", "GetJobStatus", "GetJobResult", "CancelJob", "ListJobs"]

  function Weight(weights: map<string, int>, name: string): nat {
    if name in weights && weights[name] > 0 then weights[name] else 0
  }

  function Repeated(name: string, n: nat): seq<string> {
    seq(n, _ => name)
  }

  /** The list before it is shuffled. */
  function Spelled(names: seq<string>, weights: map<string, int>): seq<string> {
    if names == [] then []
    else Spelled(names[..|names| - 1], weights) + Repeated(names[|names| - 1], Weight(weights, names[|names| - 1]))
  }

  class RequestMixScheduler {
    const methods: seq<string>
    var index: nat
    ghost var picked: seq<string>

    /** All that was ever picked is what going round the list yields. */
    ghost predicate Valid() reads this {
      methods != [] && index == Ahead(methods, 0, |picked|) && picked == Picks(methods, |picked|)
    }

    constructor (methods: seq<string>)
      requires methods != []
      ensures Valid() && this.methods == methods && picked == []
    {
      this.methods, index, picked := methods, 0, [];
    }

    /** `shuffled` is what shuffling the list yields. `None` stands for the ValueError of a mix without a
        positive weight. */
    static method Create(weights: map<string, int>, shuffled: seq<string>) returns (scheduler: Option<RequestMixScheduler>)
      requires multiset(shuffled) == multiset(Spelled(PRIMARY_METHODS, weights))
      ensures scheduler.None? <==> shuffled == []
      ensures scheduler.Some? ==> fresh(scheduler.value) && scheduler.value.Valid() && scheduler.value.picked == []
                                  && scheduler.value.methods == shuffled
    {
      if shuffled == [] {
        return None;
      }
      var s := new RequestMixScheduler(shuffled);
      return Some(s);
    }

    method NextMethod() returns (name: string)
      requires Valid()
      modifies this
      ensures Valid() && picked == old(picked) + [name]
    {
      AheadInRange(methods, 0, |picked|);
      name := methods[index];
      index := (index + 1) % |methods|;
      picked := picked + [name];
      assert picked[..|picked| - 1] == old(picked);
    }
  }

  // ---------- Going round ----------

  function Next(methods: seq<string>, index: nat): nat
    requires methods != []
  {
    (index + 1) % |methods|
  }

  function Ahead(methods: seq<string>, index: nat, n: nat): nat
    requires methods != []
  {
    if n == 0 then index else Next(methods, Ahead(methods, index, n - 1))
  }

  lemma {:induction false} AheadInRange(methods: seq<string>, index: nat, n: nat)
    requires methods != [] && index < |methods|
    ensures Ahead(methods, index, n) < |methods|
  {}

  /** The first `n` picks. */
  function Picks(methods: seq<string>, n: nat): seq<string>
    requires methods != []
  {
    if n == 0 then []
    else
      AheadInRange(methods, 0, n - 1);
      Picks(methods, n - 1) + [methods[Ahead(methods, 0, n - 1)]]
  }

  lemma {:induction false} PickAt(methods: seq<string>, n: nat, k: nat)
    requires methods != [] && k < n
    ensures |Picks(methods, n)| == n
    ensures Ahead(methods, 0, k) < |methods| && Picks(methods, n)[k] == methods[Ahead(methods, 0, k)]
  {
    AheadInRange(methods, 0, k);
    if n > 1 {
      PickAt(methods, n - 1, if k < n - 1 then k else 0);
    }
  }

  lemma {:induction false} AheadAdds(methods: seq<string>, i: nat, k: nat)
    requires methods != []
    ensures Ahead(methods, 0, i + k) == Ahead(methods, Ahead(methods, 0, i), k)
  {
    if k > 0 {
      AheadAdds(methods, i, k - 1);
      assert i + k - 1 == i + (k - 1);
      assert Ahead(methods, 0, i + k) == Next(methods, Ahead(methods, 0, i + (k - 1)));
    }
  }

  lemma NextWraps(i: nat, n: nat)
    requires i < n
    ensures (i + 1) % n == if i + 1 < n then i + 1 else 0
  {}

  lemma {:induction false} AheadWraps(methods: seq<string>, index: nat, k: nat)
    requires methods != [] && index < |methods| && k <= |methods|
    ensures Ahead(methods, index, k) == if index + k < |methods| then index + k else index + k - |methods|
  {
    if k > 0 {
      AheadWraps(methods, index, k - 1);
      NextWraps(Ahead(methods, index, k - 1), |methods|);
    }
  }

  /** Any `|methods|` picks in a row are the list, turned. */
  lemma WindowIsTheList(methods: seq<string>, n: nat, i: nat)
    requires methods != [] && i + |methods| <= n
    ensures |Picks(methods, n)| == n
    ensures multiset(Picks(methods, n)[i..i + |methods|]) == multiset(methods)
  {
    var start := Ahead(methods, 0, i);
    AheadInRange(methods, 0, i);
    PickAt(methods, n, 0);
    forall k | 0 <= k < |methods|
      ensures Picks(methods, n)[i + k] == (methods[start..] + methods[..start])[k]
    {
      PickAt(methods, n, i + k);
      AheadAdds(methods, i, k);
      AheadWraps(methods, start, k);
    }
    assert Picks(methods, n)[i..i + |methods|] == methods[start..] + methods[..start];
    assert methods == methods[..start] + methods[start..];
  }

  lemma {:induction false} RepeatedCount(name: string, n: nat, x: string)
    ensures multiset(Repeated(name, n))[x] == if x == name then n else 0
  {
    if n > 0 {
      RepeatedCount(name, n - 1, x);
      assert Repeated(name, n) == Repeated(name, n - 1) + [name];
    }
  }

  lemma {:induction false} SpelledCount(names: seq<string>, weights: map<string, int>, x: string)
    requires forall i, j | 0 <= i < j < |names| :: names[i] != names[j]
    ensures multiset(Spelled(names, weights))[x] == if x in names then Weight(weights, x) else 0
  {
    if names != [] {
      var init, last := names[..|names| - 1], names[|names| - 1];
      SpelledCount(init, weights, x);
      RepeatedCount(last, Weight(weights, last), x);
      assert names == init + [last];
    }
  }

  /** The mix is exact over every window of as many picks as there are weights in all, wherever the
      window starts: each method appears as often as its weight. */
  lemma EveryWindowIsTheMix(weights: map<string, int>, shuffled: seq<string>, n: nat, i: nat, name: string)
    requires multiset(shuffled) == multiset(Spelled(PRIMARY_METHODS, weights)) && shuffled != []
    requires i + |shuffled| <= n
    ensures |Picks(shuffled, n)| == n
    ensures multiset(Picks(shuffled, n)[i..i + |shuffled|])[name] ==
            if name in PRIMARY_METHODS && name in weights && weights[name] > 0 then weights[name] else 0
  {
    WindowIsTheList(shuffled, n, i);
    SpelledCount(PRIMARY_METHODS, weights, name);
  }
}
