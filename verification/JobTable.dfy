/** The Job service's state and its handlers as functions: the record table with compare-and-swap
    status changes, and the least-recently-used idempotency index. */
module JobTable {
  import opened Types
  import opened Messages
  import opened Sorting
  import opened OrderedKeys

  // ---------- Payload fingerprints ----------

  datatype Fingerprint = Fingerprint(jobType: string, workDurationMs: nat, payloadSizeBytes: nat, labels: seq<Label>)

  predicate LabelLe(a: Label, b: Label) {
    if a.key == b.key then StringLe(a.value, b.value) else StringLe(a.key, b.key)
  }

  function FingerprintOf(spec: JobSpec): Fingerprint {
    Fingerprint(spec.jobType, spec.workDurationMs, spec.payloadSizeBytes, Sort(LabelLe, spec.labels))
  }

  ghost predicate DistinctKeys(labels: seq<Label>) {
    forall i, j | 0 <= i < j < |labels| :: labels[i].key != labels[j].key
  }

  function AsMap(labels: seq<Label>): map<string, string> {
    if labels == [] then map[] else AsMap(labels[..|labels| - 1])[labels[|labels| - 1].key := labels[|labels| - 1].value]
  }

  lemma LabelOrder()
    ensures Orders(LabelLe)
    ensures forall s: seq<Label> :: Separates(LabelLe, s)
  {
    forall a, b: Label ensures LabelLe(a, b) || LabelLe(b, a) {
      StringLeTotal(a.key, b.key);
      StringLeTotal(a.value, b.value);
    }
    forall a, b, c: Label | LabelLe(a, b) && LabelLe(b, c) ensures LabelLe(a, c) {
      if a.key == b.key && b.key == c.key {
        StringLeTransitive(a.value, b.value, c.value);
      } else if a.key == c.key {
        StringLeAntisymmetric(a.key, b.key);
      } else {
        StringLeTotal(a.key, b.key);
        StringLeTotal(b.key, c.key);
        StringLeTransitive(a.key, b.key, c.key);
      }
    }
    forall a, b: Label | LabelLe(a, b) && LabelLe(b, a) ensures a == b {
      if a.key == b.key {
        StringLeAntisymmetric(a.value, b.value);
      } else {
        StringLeAntisymmetric(a.key, b.key);
      }
    }
  }

  lemma {:induction false} AsMapHolds(labels: seq<Label>)
    requires DistinctKeys(labels)
    ensures forall l :: l in labels <==> l.key in AsMap(labels) && AsMap(labels)[l.key] == l.value
  {
    if labels != [] {
      var init, last := labels[..|labels| - 1], labels[|labels| - 1];
      AsMapHolds(init);
      assert labels == init + [last];
      forall k | k in AsMap(init) ensures k != last.key {
        assert Label(k, AsMap(init)[k]) in init;
      }
    }
  }

  lemma {:induction false} EachLabelOnce(labels: seq<Label>, l: Label)
    requires DistinctKeys(labels)
    ensures multiset(labels)[l] == if l in labels then 1 else 0
  {
    if labels != [] {
      EachLabelOnce(labels[1..], l);
      assert labels == [labels[0]] + labels[1..];
    }
  }

  /** A sequence with distinct keys is determined, up to order, by the labels it holds. */
  lemma SameLabels(a: seq<Label>, b: seq<Label>)
    requires DistinctKeys(a) && DistinctKeys(b)
    requires forall l :: l in a <==> l in b
    ensures multiset(a) == multiset(b)
  {
    forall l ensures multiset(a)[l] == multiset(b)[l] {
      EachLabelOnce(a, l);
      EachLabelOnce(b, l);
    }
  }

  lemma SameSortMeansSameLabels(a: seq<Label>, b: seq<Label>)
    requires Sort(LabelLe, a) == Sort(LabelLe, b)
    ensures forall l :: l in a <==> l in b
  {
    SortPermutes(LabelLe, a);
    SortPermutes(LabelLe, b);
    SameElements(a, b);
  }

  lemma SameLabelsMeansSameMap(a: seq<Label>, b: seq<Label>)
    requires DistinctKeys(a) && DistinctKeys(b)
    requires forall l :: l in a <==> l in b
    ensures AsMap(a) == AsMap(b)
  {
    AsMapHolds(a);
    AsMapHolds(b);
    var ma, mb := AsMap(a), AsMap(b);
    forall k | k in ma ensures k in mb && mb[k] == ma[k] {
      assert Label(k, ma[k]) in b;
    }
    forall k | k in mb ensures k in ma {
      assert Label(k, mb[k]) in a;
    }
  }

  lemma SameMapMeansSameSort(a: seq<Label>, b: seq<Label>)
    requires DistinctKeys(a) && DistinctKeys(b) && AsMap(a) == AsMap(b)
    ensures Sort(LabelLe, a) == Sort(LabelLe, b)
  {
    LabelOrder();
    AsMapHolds(a);
    AsMapHolds(b);
    SameLabels(a, b);
    SortIsCanonical(LabelLe, a, b);
  }

  /** Two payloads share a fingerprint exactly when they agree field by field with their labels
      compared as maps: the order the label map iterates in never shows. */
  lemma FingerprintsCompareMaps(a: JobSpec, b: JobSpec)
    requires DistinctKeys(a.labels) && DistinctKeys(b.labels)
    ensures FingerprintOf(a) == FingerprintOf(b) <==>
            a.jobType == b.jobType && a.workDurationMs == b.workDurationMs
            && a.payloadSizeBytes == b.payloadSizeBytes && AsMap(a.labels) == AsMap(b.labels)
  {
    if Sort(LabelLe, a.labels) == Sort(LabelLe, b.labels) {
      SameSortMeansSameLabels(a.labels, b.labels);
      SameLabelsMeansSameMap(a.labels, b.labels);
    } else if AsMap(a.labels) == AsMap(b.labels) {
      SameMapMeansSameSort(a.labels, b.labels);
    }
  }

  // ---------- State ----------

  datatype DedupEntry = DedupEntry(fingerprint: Fingerprint, jobId: JobId)

  /** An ordered dictionary: `order` lists the keys, least recently used first. */
  datatype Dedup = Dedup(order: seq<string>, entries: map<string, DedupEntry>)

  datatype Table = Table(records: map<JobId, JobRecord>, dedup: Dedup, maxDedupKeys: nat)

  ghost predicate DedupOk(d: Dedup) {
    && Distinct(d.order)
    && forall k :: k in d.order <==> k in d.entries
  }

  ghost predicate TableOk(t: Table) {
    && (forall id | id in t.records :: t.records[id].jobId == id)
    && DedupOk(t.dedup)
    && 0 < t.maxDedupKeys
    && |t.dedup.order| <= t.maxDedupKeys
  }

  const DEFAULT_MAX_DEDUP_KEYS: nat := 10000

  function EmptyTable(configuredCap: int): (t: Table)
    ensures TableOk(t)
  {
    Table(map[], Dedup([], map[]), if configuredCap > 0 then configuredCap else DEFAULT_MAX_DEDUP_KEYS)
  }

  // ---------- The ordered dictionary ----------

  function MoveToEnd(d: Dedup, key: string): Dedup {
    Dedup(Without(d.order, key) + [key], d.entries)
  }

  function DropOldest(d: Dedup): Dedup
    requires d.order != []
  {
    Dedup(d.order[1..], d.entries - {d.order[0]})
  }

  /** Adds a key as the most recently used one, then drops the oldest key if the index overflows. */
  function Remember(d: Dedup, key: string, entry: DedupEntry, cap: nat): Dedup {
    var added := Dedup(Without(d.order, key) + [key], d.entries[key := entry]);
    if |added.order| > cap then DropOldest(added) else added
  }

  lemma TouchDistinct(order: seq<string>, key: string)
    requires Distinct(order)
    ensures Distinct(Without(order, key) + [key])
    ensures |Without(order, key) + [key]| == |order| + if key in order then 0 else 1
  {
    WithoutDistinct(order, key);
    WithoutMembers(order, key);
    AppendDistinct(Without(order, key), key);
  }

  lemma MoveToEndKeeps(d: Dedup, key: string)
    requires DedupOk(d) && key in d.entries
    ensures DedupOk(MoveToEnd(d, key)) && |MoveToEnd(d, key).order| == |d.order|
  {
    TouchDistinct(d.order, key);
    WithoutMembers(d.order, key);
  }

  lemma RememberKeeps(d: Dedup, key: string, entry: DedupEntry, cap: nat)
    requires DedupOk(d) && |d.order| <= cap && 0 < cap
    ensures DedupOk(Remember(d, key, entry, cap)) && |Remember(d, key, entry, cap).order| <= cap
  {
    hide Without;
    TouchDistinct(d.order, key);
    WithoutMembers(d.order, key);
    var order := Without(d.order, key) + [key];
    if |order| > cap {
      DropFirstDistinct(order);
      assert order == [order[0]] + order[1..];
    }
  }

  // ---------- Handlers ----------

  function SummaryOf(rec: JobRecord): Summary {
    Summary(rec.jobId, rec.status, rec.jobType, rec.createdAtMs, rec.startedAtMs, rec.finishedAtMs, rec.cancelRequested)
  }

  function NewRecord(id: JobId, spec: JobSpec, now: int): JobRecord {
    JobRecord(id, Queued, spec.jobType, spec.workDurationMs, spec.payloadSizeBytes, AsMap(spec.labels),
              now, 0, 0, false, "")
  }

  function CreateReply(t: Table, entry: DedupEntry, spec: JobSpec): Reply {
    if entry.fingerprint != FingerprintOf(spec) then Failure(FailedPrecondition)
    else if entry.jobId !in t.records then Failure(Internal)
    else Created(t.records[entry.jobId].jobId, t.records[entry.jobId].status)
  }

  function CreateJobOp(t: Table, spec: JobSpec, clientRequestId: string, env: Env): (Table, Reply)
  {
    var key := Strip(clientRequestId);
    if Strip(spec.jobType) == "" then (t, Failure(InvalidArgument))
    else if key != "" && key in t.dedup.entries then
      var reply := CreateReply(t, t.dedup.entries[key], spec);
      if reply.Failure? then (t, reply)
      else (t.(dedup := MoveToEnd(t.dedup, key)), reply)
    else if env.newId.None? then (t, Failure(Internal))
    else
      var id := env.newId.value;
      var dedup' := if key == "" then t.dedup
                    else Remember(t.dedup, key, DedupEntry(FingerprintOf(spec), id), t.maxDedupKeys);
      (t.(records := t.records[id := NewRecord(id, spec, env.now)], dedup := dedup'), Created(id, Queued))
  }

  function DeleteJobIfStatusOp(t: Table, id: JobId, expected: JobStatus): (Table, Reply)
  {
    if id !in t.records then (t, Deleted(false, Unspecified))
    else if t.records[id].status != expected then (t, Deleted(false, t.records[id].status))
    else (t.(records := t.records - {id}), Deleted(true, expected))
  }

  function GetJobRecordOp(t: Table, id: JobId): Reply {
    if id !in t.records then Failure(NotFound)
    else Record(SummaryOf(t.records[id]), t.records[id].failureReason)
  }

  predicate AllowedTransition(from: JobStatus, to: JobStatus) {
    || (from.Queued? && (to.Running? || to.Canceled?))
    || (from.Running? && to.Terminal())
  }

  function Advance(rec: JobRecord, to: JobStatus, reason: string, now: int): JobRecord {
    rec.(status := to,
         startedAtMs := if to.Running? && rec.startedAtMs == 0 then now else rec.startedAtMs,
         finishedAtMs := if to.Terminal() then now else rec.finishedAtMs,
         failureReason := if to.Failed? then reason else rec.failureReason,
         cancelRequested := rec.cancelRequested || to.Canceled?)
  }

  function TransitionJobStatusOp(t: Table, id: JobId, from: JobStatus, to: JobStatus, reason: string, now: int):
      (Table, Reply)
  {
    if from.Unspecified? || to.Unspecified? then (t, Failure(InvalidArgument))
    else if id !in t.records then (t, Failure(NotFound))
    else if t.records[id].status != from then (t, Transitioned(false, t.records[id].status))
    else if !AllowedTransition(from, to) then (t, Failure(InvalidArgument))
    else (t.(records := t.records[id := Advance(t.records[id], to, reason, now)]), Transitioned(true, to))
  }

  function SetCancelRequestedOp(t: Table, id: JobId, requested: bool): (Table, Reply)
  {
    if id !in t.records then (t, Failure(NotFound))
    else
      var rec := t.records[id];
      if rec.status.Terminal() then (t, CancelFlagged(false, rec.status))
      else (t.(records := t.records[id := rec.(cancelRequested := requested)]),
            CancelFlagged(rec.cancelRequested != requested, rec.status))
  }

  // ---------- All handlers together ----------

  predicate IsJobCall(call: Call) {
    call.CreateJob? || call.DeleteJobIfStatus? || call.GetJobRecord? || call.TransitionJobStatus? || call.SetCancelRequested?
  }

  function JobCall(t: Table, call: Call, env: Env): (Table, Reply)
    requires IsJobCall(call)
  {
    match call
    case CreateJob(spec, key) => CreateJobOp(t, spec, key, env)
    case DeleteJobIfStatus(id, expected) => DeleteJobIfStatusOp(t, id, expected)
    case GetJobRecord(id) => (t, GetJobRecordOp(t, id))
    case TransitionJobStatus(id, from, to, reason) => TransitionJobStatusOp(t, id, from, to, reason, env.now)
    case SetCancelRequested(id, requested) => SetCancelRequestedOp(t, id, requested)
  }

  lemma CreateJobKeeps(t: Table, spec: JobSpec, clientRequestId: string, env: Env)
    requires TableOk(t)
    ensures TableOk(CreateJobOp(t, spec, clientRequestId, env).0)
  {
    var key := Strip(clientRequestId);
    if key in t.dedup.entries {
      MoveToEndKeeps(t.dedup, key);
    } else if env.newId.Some? {
      RememberKeeps(t.dedup, key, DedupEntry(FingerprintOf(spec), env.newId.value), t.maxDedupKeys);
    }
  }

  /** Every call keeps the record table keyed by its records, and the index duplicate-free and
      within its cap. */
  lemma JobCallKeeps(t: Table, call: Call, env: Env)
    requires TableOk(t) && IsJobCall(call)
    ensures TableOk(JobCall(t, call, env).0) && JobCall(t, call, env).0.maxDedupKeys == t.maxDedupKeys
  {
    match call {
      case CreateJob(spec, key) => CreateJobKeeps(t, spec, key, env);
      case DeleteJobIfStatus(id, expected) =>
      case GetJobRecord(id) =>
      case TransitionJobStatus(id, from, to, reason) =>
      case SetCancelRequested(id, requested) =>
    }
  }

  /** Whatever a create evicts, the index gains no entry but the one for its own key. */
  lemma CreateAddsAtMost(t: Table, spec: JobSpec, clientRequestId: string, env: Env, k: string)
    ensures var entries, key := CreateJobOp(t, spec, clientRequestId, env).0.dedup.entries, Strip(clientRequestId);
            k in entries ==>
              || (k in t.dedup.entries && entries[k] == t.dedup.entries[k])
              || (k == key != "" && k !in t.dedup.entries && env.newId.Some?
                  && entries[k] == DedupEntry(FingerprintOf(spec), env.newId.value))
  {
    hide Strip, FingerprintOf, Without;
  }

  /** So an entry is only ever forgotten, never replaced. */
  lemma EntriesAreNotReplaced(t: Table, call: Call, env: Env, k: string)
    requires IsJobCall(call)
    ensures k in t.dedup.entries && k in JobCall(t, call, env).0.dedup.entries ==>
              JobCall(t, call, env).0.dedup.entries[k] == t.dedup.entries[k]
  {
    hide Strip, FingerprintOf, Without, CreateJobOp;
    if call.CreateJob? {
      CreateAddsAtMost(t, call.spec, call.clientRequestId, env, k);
    }
  }
}
