/** How long a `client_request_id` protects a submission, over arbitrary histories of the Job service. */
module Idempotency {
  import opened Types
  import opened Messages
  import opened JobTable
  import opened OrderedKeys

  datatype Event = Event(call: Call, env: Env)

  ghost predicate JobHistory(h: seq<Event>) {
    forall i | 0 <= i < |h| :: IsJobCall(h[i].call)
  }

  function After(t: Table, h: seq<Event>): Table
    requires JobHistory(h)
  {
    if h == [] then t
    else JobCall(After(t, h[..|h| - 1]), h[|h| - 1].call, h[|h| - 1].env).0
  }

  /** The idempotency key a call carries, or the empty string. */
  function KeyOf(call: Call): string {
    if call.CreateJob? then Strip(call.clientRequestId) else ""
  }

  function KeysOf(h: seq<Event>): set<string> {
    if h == [] then {} else KeysOf(h[..|h| - 1]) + ({KeyOf(h[|h| - 1].call)} - {""})
  }

  // ---------- Recency ----------

  /** `k` maps to `e`, and `recent` are the keys used since `k` was, oldest first. */
  predicate Holds(d: Dedup, k: string, e: DedupEntry, recent: seq<string>) {
    && k in d.entries && d.entries[k] == e
    && Recent(d.order, k, recent)
  }

  predicate Recent(order: seq<string>, k: string, recent: seq<string>) {
    && |recent| < |order|
    && order[|order| - |recent| - 1] == k
    && order[|order| - |recent|..] == recent
  }

  lemma TouchOther(order: seq<string>, k: string, x: string, recent: seq<string>)
    requires Recent(order, k, recent) && x != k
    ensures Recent(Without(order, x) + [x], k, Without(recent, x) + [x])
  {
    var older := order[..|order| - |recent| - 1];
    assert order == older + [k] + recent;
    WithoutConcat(older + [k], recent, x);
    WithoutConcat(older, [k], x);
    assert Without([k], x) == [k];
    assert Without(order, x) + [x] == Without(older, x) + [k] + (Without(recent, x) + [x]);
  }

  lemma TouchSelf(order: seq<string>, k: string)
    ensures Recent(Without(order, k) + [k], k, [])
  {}

  /** Dropping the oldest of more than `cap` keys spares a key with fewer than `cap` newer ones. */
  lemma DropSpares(order: seq<string>, k: string, recent: seq<string>)
    requires Distinct(order) && Recent(order, k, recent)
    requires |recent| + 1 < |order|
    ensures order[0] != k && Recent(order[1..], k, recent)
  {
    var i := |order| - |recent| - 1;
    assert order[..i] + order[i..] == order;
    DistinctParts(order[..i], order[i..]);
    assert order[0] in order[..i] && k == order[i..][0];
  }

  /** Distinct keys drawn from a small set are few. */
  lemma RecentAreFew(order: seq<string>, k: string, recent: seq<string>, others: set<string>)
    requires Distinct(order) && Recent(order, k, recent) && Elements(recent) <= others
    ensures |recent| <= |others|
  {
    var i := |order| - |recent|;
    assert order[..i] + order[i..] == order;
    DistinctParts(order[..i], order[i..]);
    FewerElements(recent, others);
  }

  /** Remembering `x` puts it last and keeps `k`, unless at least `cap` keys are newer than `k`. */
  lemma RememberOther(d: Dedup, k: string, e: DedupEntry, recent: seq<string>, x: string, entry: DedupEntry, cap: nat)
    requires DedupOk(d) && Holds(d, k, e, recent) && x != k && 0 < cap && |d.order| <= cap
    requires |Without(recent, x)| + 1 < cap
    ensures Holds(Remember(d, x, entry, cap), k, e, Without(recent, x) + [x])
  {
    hide Without, Distinct;
    TouchOther(d.order, k, x, recent);
    TouchDistinct(d.order, x);
    if |Without(d.order, x) + [x]| > cap {
      DropSpares(Without(d.order, x) + [x], k, Without(recent, x) + [x]);
    }
  }

  // ---------- One call ----------

  /** A created reply leaves its key the most recently used one, mapped to the job returned. */
  lemma CreatedIsNewest(t: Table, spec: JobSpec, clientRequestId: string, env: Env)
    requires TableOk(t) && Strip(clientRequestId) != ""
    ensures var (t', reply) := CreateJobOp(t, spec, clientRequestId, env);
            reply.Created? ==>
              Holds(t'.dedup, Strip(clientRequestId), DedupEntry(FingerprintOf(spec), reply.jobId), [])
  {
    hide Without, Distinct, FingerprintOf, AsMap, Strip;
    var k := Strip(clientRequestId);
    var touched := Without(t.dedup.order, k) + [k];
    TouchSelf(t.dedup.order, k);
    TouchDistinct(t.dedup.order, k);
    if |touched| > t.maxDedupKeys {
      DropSpares(touched, k, []);
    }
  }

  /** A call about another key. */
  lemma OtherCallKeeps(t: Table, call: Call, env: Env, k: string, e: DedupEntry, recent: seq<string>)
      returns (recent': seq<string>)
    requires TableOk(t) && IsJobCall(call) && Holds(t.dedup, k, e, recent)
    requires KeyOf(call) != k && |Without(recent, KeyOf(call))| + 1 < t.maxDedupKeys
    ensures Holds(JobCall(t, call, env).0.dedup, k, e, recent')
    ensures recent' == recent || (KeyOf(call) != "" && recent' == Without(recent, KeyOf(call)) + [KeyOf(call)])
  {
    var x := KeyOf(call);
    var t' := JobCall(t, call, env).0;
    if t'.dedup == t.dedup {
      return recent;
    } else if x in t.dedup.entries {
      TouchOther(t.dedup.order, k, x, recent);
      return Without(recent, x) + [x];
    } else {
      RememberOther(t.dedup, k, e, recent, x, DedupEntry(FingerprintOf(call.spec), env.newId.value), t.maxDedupKeys);
      return Without(recent, x) + [x];
    }
  }

  /** A call with the same key answers from the entry and never replaces it. */
  lemma SameKeyAnswers(t: Table, call: Call, env: Env, k: string, e: DedupEntry, recent: seq<string>)
      returns (recent': seq<string>)
    requires TableOk(t) && IsJobCall(call) && Holds(t.dedup, k, e, recent)
    requires call.CreateJob? && KeyOf(call) == k && k != ""
    ensures Holds(JobCall(t, call, env).0.dedup, k, e, recent') && (recent' == recent || recent' == [])
    ensures JobCall(t, call, env).1 ==
            if Strip(call.spec.jobType) == "" then Failure(InvalidArgument)
            else if FingerprintOf(call.spec) != e.fingerprint then Failure(FailedPrecondition)
            else if e.jobId !in t.records then Failure(Internal)
            else Created(e.jobId, t.records[e.jobId].status)
  {
    TouchSelf(t.dedup.order, k);
    return if JobCall(t, call, env).0.dedup == t.dedup then recent else [];
  }

  // ---------- Whole histories ----------

  lemma {:induction false} AfterOk(t: Table, h: seq<Event>)
    requires TableOk(t) && JobHistory(h)
    ensures TableOk(After(t, h)) && After(t, h).maxDedupKeys == t.maxDedupKeys
  {
    if h != [] {
      AfterOk(t, h[..|h| - 1]);
      JobCallKeeps(After(t, h[..|h| - 1]), h[|h| - 1].call, h[|h| - 1].env);
    }
  }

  /** One more call, while the other keys seen so far number fewer than the cap. */
  lemma StepKeeps(t: Table, c: Event, k: string, e: DedupEntry, recent: seq<string>, others: set<string>)
      returns (recent': seq<string>)
    requires TableOk(t) && IsJobCall(c.call) && k != ""
    requires Holds(t.dedup, k, e, recent) && Elements(recent) <= others
    requires KeyOf(c.call) == "" || KeyOf(c.call) == k || KeyOf(c.call) in others
    requires |others| < t.maxDedupKeys
    ensures Holds(JobCall(t, c.call, c.env).0.dedup, k, e, recent') && Elements(recent') <= others
  {
    var x := KeyOf(c.call);
    if x == k {
      recent' := SameKeyAnswers(t, c.call, c.env, k, e, recent);
    } else if x == "" {
      recent' := recent;
    } else {
      TouchOther(t.dedup.order, k, x, recent);
      TouchDistinct(t.dedup.order, x);
      WithoutMembers(recent, x);
      RecentAreFew(Without(t.dedup.order, x) + [x], k, Without(recent, x) + [x], others);
      recent' := OtherCallKeeps(t, c.call, c.env, k, e, recent);
    }
  }

  /** Over any history whose other keys number fewer than the cap, an entry stays put. */
  lemma {:induction false} WindowKeeps(t: Table, h: seq<Event>, k: string, e: DedupEntry, others: set<string>)
      returns (recent: seq<string>)
    requires TableOk(t) && JobHistory(h) && k != "" && Holds(t.dedup, k, e, [])
    requires KeysOf(h) <= others + {k} && |others| < t.maxDedupKeys
    ensures Holds(After(t, h).dedup, k, e, recent) && Elements(recent) <= others
  {
    if h == [] { return []; }
    var init, last := h[..|h| - 1], h[|h| - 1];
    recent := WindowKeeps(t, init, k, e, others);
    AfterOk(t, init);
    assert KeyOf(last.call) != "" ==> KeyOf(last.call) in KeysOf(h);
    recent := StepKeeps(After(t, init), last, k, e, recent, others);
  }

  /** The idempotency window. Once a keyed create has answered with a job, any history in which
      fewer than `maxDedupKeys` other keys appear leaves the key in the index, and from there the
      key is answered with that job, for an equal payload only; the index stays within its cap. */
  lemma IdempotencyWindow(t: Table, spec: JobSpec, clientRequestId: string, env: Env, h: seq<Event>,
                          spec': JobSpec, clientRequestId': string, env': Env)
    requires TableOk(t) && JobHistory(h)
    requires Strip(clientRequestId) != "" && Strip(clientRequestId') == Strip(clientRequestId)
    ensures var (t0, reply) := CreateJobOp(t, spec, clientRequestId, env);
            var t' := After(t0, h);
            reply.Created? && |KeysOf(h) - {Strip(clientRequestId)}| < t.maxDedupKeys ==>
              && Strip(clientRequestId) in t'.dedup.entries
              && |t'.dedup.order| <= t.maxDedupKeys
              && CreateJobOp(t', spec', clientRequestId', env').1 ==
                 if Strip(spec'.jobType) == "" then Failure(InvalidArgument)
                 else if FingerprintOf(spec') != FingerprintOf(spec) then Failure(FailedPrecondition)
                 else if reply.jobId !in t'.records then Failure(Internal)
                 else Created(reply.jobId, t'.records[reply.jobId].status)
  {
    hide CreateJobOp, Without, Distinct, Strip, FingerprintOf, KeysOf;
    var k := Strip(clientRequestId);
    var (t0, reply) := CreateJobOp(t, spec, clientRequestId, env);
    if reply.Created? && |KeysOf(h) - {k}| < t.maxDedupKeys {
      JobCallKeeps(t, CreateJob(spec, clientRequestId), env);
      CreatedIsNewest(t, spec, clientRequestId, env);
      var e := DedupEntry(FingerprintOf(spec), reply.jobId);
      var recent := WindowKeeps(t0, h, k, e, KeysOf(h) - {k});
      AfterOk(t0, h);
      recent := SameKeyAnswers(After(t0, h), CreateJob(spec', clientRequestId'), env', k, e, recent);
    }
  }

  // ---------- The bound is exact ----------

  /** Every call of the history is a keyed create for another key than `k`, and answers with a job. */
  predicate OthersCreate(t: Table, h: seq<Event>, k: string)
    requires JobHistory(h)
  {
    h == [] || (
      var init, last := h[..|h| - 1], h[|h| - 1];
      && OthersCreate(t, init, k)
      && KeyOf(last.call) !in {"", k}
      && JobCall(After(t, init), last.call, last.env).1.Created?)
  }

  lemma OtherCreateEvicts(t: Table, c: Event, k: string, recent: seq<string>, seen: set<string>)
      returns (recent': seq<string>)
    requires TableOk(t) && IsJobCall(c.call) && KeyOf(c.call) !in {"", k} && JobCall(t, c.call, c.env).1.Created?
    requires k in t.dedup.entries ==> Recent(t.dedup.order, k, recent) && seen <= Elements(recent)
    ensures var d := JobCall(t, c.call, c.env).0.dedup;
            k in d.entries ==> Recent(d.order, k, recent') && seen + {KeyOf(c.call)} <= Elements(recent')
  {
    hide Without, Distinct, FingerprintOf, AsMap, Strip;
    var x := KeyOf(c.call);
    recent' := Without(recent, x) + [x];
    var d := JobCall(t, c.call, c.env).0.dedup;
    if k in d.entries {
      assert k in t.dedup.entries;
      TouchOther(t.dedup.order, k, x, recent);
      TouchDistinct(t.dedup.order, x);
      WithoutMembers(recent, x);
      var touched := Without(t.dedup.order, x) + [x];
      if d.order != touched {
        assert touched[0] != k;
        DropSpares(touched, k, recent');
      }
    }
  }

  lemma {:induction false} OthersCrowd(t: Table, h: seq<Event>, k: string) returns (recent: seq<string>)
    requires TableOk(t) && JobHistory(h)
    requires k in t.dedup.entries ==> Recent(t.dedup.order, k, [])
    ensures OthersCreate(t, h, k) && k in After(t, h).dedup.entries ==>
              Recent(After(t, h).dedup.order, k, recent) && KeysOf(h) <= Elements(recent)
  {
    if h == [] || !OthersCreate(t, h, k) { return []; }
    var init, last := h[..|h| - 1], h[|h| - 1];
    recent := OthersCrowd(t, init, k);
    AfterOk(t, init);
    recent := OtherCreateEvicts(After(t, init), last, k, recent, KeysOf(init));
  }

  lemma CrowdBound(t: Table, h: seq<Event>, k: string)
    requires TableOk(t) && JobHistory(h) && Recent(t.dedup.order, k, [])
    ensures OthersCreate(t, h, k) && k in After(t, h).dedup.entries ==> |KeysOf(h)| < t.maxDedupKeys
  {
    hide OthersCreate, KeysOf, After;
    if OthersCreate(t, h, k) && k in After(t, h).dedup.entries {
      var recent := OthersCrowd(t, h, k);
      AfterOk(t, h);
      var order := After(t, h).dedup.order;
      RecentAreFew(order, k, recent, Elements(recent));
      var i := |order| - |recent|;
      assert order[..i] + order[i..] == order;
      DistinctParts(order[..i], order[i..]);
      DistinctSize(recent);
      SubsetSize(KeysOf(h), Elements(recent));
    }
  }

  /** The window's size is exact: among histories of successful creates for other keys, those that
      leave the key in the index are precisely those that use fewer than `maxDedupKeys` of them. */
  lemma WindowIsExact(t: Table, spec: JobSpec, clientRequestId: string, env: Env, h: seq<Event>)
    requires TableOk(t) && JobHistory(h) && Strip(clientRequestId) != ""
    ensures var (t0, reply) := CreateJobOp(t, spec, clientRequestId, env);
            reply.Created? && OthersCreate(t0, h, Strip(clientRequestId)) ==>
              (Strip(clientRequestId) in After(t0, h).dedup.entries <==> |KeysOf(h)| < t.maxDedupKeys)
  {
    var k := Strip(clientRequestId);
    var (t0, reply) := CreateJobOp(t, spec, clientRequestId, env);
    if reply.Created? && OthersCreate(t0, h, k) {
      var e := DedupEntry(FingerprintOf(spec), reply.jobId);
      CreateJobKeeps(t, spec, clientRequestId, env);
      CreatedIsNewest(t, spec, clientRequestId, env);
      assert Holds(t0.dedup, k, e, []) && t0.maxDedupKeys == t.maxDedupKeys && TableOk(t0);
      if |KeysOf(h)| < t.maxDedupKeys {
        var recent := WindowKeeps(t0, h, k, e, KeysOf(h));
      }
      CrowdBound(t0, h, k);
    }
  }

  // ---------- With room for all ----------

  /** Every key in use fits in the index. */
  ghost predicate HasRoom(t: Table, keys: set<string>) {
    TableOk(t) && t.dedup.entries.Keys <= keys && |keys| <= t.maxDedupKeys
  }

  predicate KeyKnown(call: Call, keys: set<string>) {
    call.CreateJob? && Strip(call.clientRequestId) != "" ==> Strip(call.clientRequestId) in keys
  }

  /** With room for every key nothing is evicted. */
  lemma NothingForgotten(d: Dedup, key: string, entry: DedupEntry, cap: nat, keys: set<string>)
    requires DedupOk(d) && d.entries.Keys <= keys && key in keys && |keys| <= cap
    ensures Remember(d, key, entry, cap).entries == d.entries[key := entry]
  {
    var order := Without(d.order, key) + [key];
    TouchDistinct(d.order, key);
    WithoutMembers(d.order, key);
    FewerElements(order, keys);
  }

  /** What a CreateJob adds to the index. */
  function EntriesAfter(t: Table, spec: JobSpec, clientRequestId: string, env: Env): map<string, DedupEntry> {
    var key := Strip(clientRequestId);
    if Strip(spec.jobType) == "" || key == "" || key in t.dedup.entries || env.newId.None? then t.dedup.entries
    else t.dedup.entries[key := DedupEntry(FingerprintOf(spec), env.newId.value)]
  }

  lemma CreateAddsEntry(t: Table, spec: JobSpec, clientRequestId: string, env: Env, keys: set<string>)
    requires HasRoom(t, keys) && (Strip(clientRequestId) != "" ==> Strip(clientRequestId) in keys)
    ensures CreateJobOp(t, spec, clientRequestId, env).0.dedup.entries == EntriesAfter(t, spec, clientRequestId, env)
  {
    var key := Strip(clientRequestId);
    if key != "" && key !in t.dedup.entries && env.newId.Some? {
      NothingForgotten(t.dedup, key, DedupEntry(FingerprintOf(spec), env.newId.value), t.maxDedupKeys, keys);
    }
  }

  /** With room for every key an entry never changes, and every call leaves room. */
  lemma CallKeepsEntry(t: Table, call: Call, env: Env, keys: set<string>, k: string)
    requires HasRoom(t, keys) && IsJobCall(call) && KeyKnown(call, keys)
    ensures var t' := JobCall(t, call, env).0;
            && HasRoom(t', keys)
            && (k in t.dedup.entries ==> k in t'.dedup.entries && t'.dedup.entries[k] == t.dedup.entries[k])
  {
    JobCallKeeps(t, call, env);
    if call.CreateJob? {
      CreateAddsEntry(t, call.spec, call.clientRequestId, env, keys);
    }
  }
}
