/** Paged listings: what ListJobRecords answers, and that following page tokens over an unchanged table
    walks through the wanted records in order, each once. */
module Listing {
  import opened Types
  import opened JobTable
  import opened Sorting
  import opened OrderedKeys
  import opened Decimal

  type Records = map<JobId, JobRecord>

  /** `OtherSort` stands for any number the protocol does not name. */
  datatype JobSort = SortUnspecified | CreatedAtDesc | CreatedAtAsc | OtherSort

  datatype ListRequest = ListRequest(statusFilter: seq<JobStatus>, pageSize: nat, pageToken: string, sort: JobSort)

  datatype ListReply = BadRequest | Page(jobs: seq<Summary>, nextPageToken: string)

  const DEFAULT_PAGE_SIZE: nat := 50
  const MAX_PAGE_SIZE: nat := 200

  // ---------- Reading the request ----------

  function CoerceSort(sort: JobSort): JobSort {
    if sort.CreatedAtAsc? then CreatedAtAsc else CreatedAtDesc
  }

  function PageSize(requested: nat): nat {
    Max(1, Min(if requested == 0 then DEFAULT_PAGE_SIZE else requested, MAX_PAGE_SIZE))
  }

  function ParseOffset(token: string): Option<nat> {
    var value := Strip(token);
    if value == "" then Some(0)
    else if !Numeral(value) then None
    else Some(Read(value))
  }

  predicate Accepted(request: ListRequest) {
    ParseOffset(request.pageToken).Some? && Unspecified !in request.statusFilter
  }

  lemma {:induction false} NumeralsStay(s: string)
    requires Numeral(s)
    ensures Strip(s) == s
  {
    assert IsDigit(s[0]) && IsDigit(s[|s| - 1]);
  }

  /** Tokens survive the trip through a client, even one that pads them with blanks. */
  lemma TokensRoundTrip(n: nat)
    ensures ParseOffset(Print(n)) == Some(n) && Print(n) != ""
  {
    ReadPrint(n);
    NumeralsStay(Print(n));
  }

  // ---------- The listing ----------

  predicate Wanted(rec: JobRecord, filter: seq<JobStatus>) { filter == [] || rec.status in filter }

  /** The order in which a table's dictionary may iterate. */
  ghost predicate Enumerates(order: seq<JobId>, records: Records) {
    Distinct(order) && Within(order, records) && forall id | id in records :: id in order
  }

  predicate Within(order: seq<JobId>, records: Records) {
    forall i | 0 <= i < |order| :: order[i] in records
  }

  ghost predicate Keyed(records: Records) { forall id | id in records :: records[id].jobId == id }

  function Filtered(records: Records, order: seq<JobId>, filter: seq<JobStatus>): seq<JobRecord>
    requires Within(order, records)
  {
    if order == [] then []
    else
      var n := |order| - 1;
      var rec := records[order[n]];
      Filtered(records, order[..n], filter) + if Wanted(rec, filter) then [rec] else []
  }

  function RecordLe(sort: JobSort): (JobRecord, JobRecord) -> bool {
    (a: JobRecord, b: JobRecord) =>
      if a.createdAtMs == b.createdAtMs then StringLe(a.jobId, b.jobId)
      else if sort.CreatedAtAsc? then a.createdAtMs < b.createdAtMs
      else a.createdAtMs > b.createdAtMs
  }

  /** All that a request selects, in the order it asks for. */
  function Selected(records: Records, order: seq<JobId>, request: ListRequest): seq<JobRecord>
    requires Within(order, records)
  {
    Sort(RecordLe(CoerceSort(request.sort)), Filtered(records, order, request.statusFilter))
  }

  function Summaries(recs: seq<JobRecord>): seq<Summary> {
    seq(|recs|, i requires 0 <= i < |recs| => SummaryOf(recs[i]))
  }

  function Window(recs: seq<JobRecord>, offset: nat, size: nat): ListReply {
    var start := Min(offset, |recs|);
    var end := Min(start + size, |recs|);
    Page(Summaries(recs[start..end]), if end < |recs| then Print(end) else "")
  }

  function ListOp(records: Records, order: seq<JobId>, request: ListRequest): ListReply
    requires Within(order, records)
  {
    if !Accepted(request) then BadRequest
    else Window(Selected(records, order, request), ParseOffset(request.pageToken).value, PageSize(request.pageSize))
  }

  // ---------- The order a table iterates in does not show ----------

  lemma RecordOrder(sort: JobSort)
    ensures Orders(RecordLe(sort))
  {
    var le := RecordLe(sort);
    forall a, b: JobRecord ensures le(a, b) || le(b, a) {
      StringLeTotal(a.jobId, b.jobId);
    }
    forall a, b, c: JobRecord | le(a, b) && le(b, c) ensures le(a, c) {
      if a.createdAtMs == b.createdAtMs == c.createdAtMs {
        StringLeTransitive(a.jobId, b.jobId, c.jobId);
      }
    }
  }

  lemma {:induction false} FilteredCounts(records: Records, order: seq<JobId>, filter: seq<JobStatus>, rec: JobRecord)
    requires Keyed(records) && Distinct(order) && Within(order, records)
    ensures multiset(Filtered(records, order, filter))[rec]
            == if rec.jobId in order && records[rec.jobId] == rec && Wanted(rec, filter) then 1 else 0
  {
    if order != [] {
      var n := |order| - 1;
      FilteredCounts(records, order[..n], filter, rec);
      assert order == order[..n] + [order[n]];
    }
  }

  /** The listing holds exactly the records the filter admits, each once, in the order asked for. */
  lemma SelectedIsExact(records: Records, order: seq<JobId>, request: ListRequest)
    requires Keyed(records) && Enumerates(order, records)
    ensures var recs := Selected(records, order, request);
            && Sorted(RecordLe(CoerceSort(request.sort)), recs)
            && forall rec :: multiset(recs)[rec]
                 == if rec.jobId in records && records[rec.jobId] == rec && Wanted(rec, request.statusFilter) then 1 else 0
  {
    var le := RecordLe(CoerceSort(request.sort));
    var recs := Filtered(records, order, request.statusFilter);
    RecordOrder(CoerceSort(request.sort));
    SortSorts(le, recs);
    SortPermutes(le, recs);
    forall rec: JobRecord ensures multiset(recs)[rec]
                       == if rec.jobId in records && records[rec.jobId] == rec && Wanted(rec, request.statusFilter) then 1 else 0 {
      FilteredCounts(records, order, request.statusFilter, rec);
    }
  }

  lemma SameSelection(records: Records, order: seq<JobId>, order': seq<JobId>, request: ListRequest)
    requires Keyed(records) && Enumerates(order, records) && Enumerates(order', records)
    ensures Selected(records, order, request) == Selected(records, order', request)
  {
    var le := RecordLe(CoerceSort(request.sort));
    var a, b := Selected(records, order, request), Selected(records, order', request);
    SelectedIsExact(records, order, request);
    SelectedIsExact(records, order', request);
    RecordOrder(CoerceSort(request.sort));
    forall rec ensures multiset(a)[rec] == multiset(b)[rec] {}
    assert multiset(a) == multiset(b);
    forall x, y | x in a && y in a && le(x, y) && le(y, x) ensures x == y {
      assert x in multiset(a) && y in multiset(a);
      StringLeAntisymmetric(x.jobId, y.jobId);
    }
    SortedIsUnique(le, a, b);
  }

  lemma OrderIsInvisible(records: Records, order: seq<JobId>, order': seq<JobId>, request: ListRequest)
    requires Keyed(records) && Enumerates(order, records) && Enumerates(order', records)
    ensures ListOp(records, order, request) == ListOp(records, order', request)
  {
    SameSelection(records, order, order', request);
  }

  // ---------- Following the tokens ----------

  /** A page is never empty unless it is the last one, and its token points right behind it. */
  lemma TokenAdvances(recs: seq<JobRecord>, offset: nat, size: nat)
    requires size > 0
    ensures Window(recs, offset, size).Page?
    ensures var page := Window(recs, offset, size);
            page.nextPageToken != "" ==>
              && offset + size < |recs| && ParseOffset(page.nextPageToken) == Some(offset + size)
              && page.jobs == Summaries(recs[offset..offset + size])
    ensures var page := Window(recs, offset, size);
            page.nextPageToken == "" ==> offset + size >= |recs| && page.jobs == Summaries(recs[Min(offset, |recs|)..])
  {
    var start := Min(offset, |recs|);
    assert recs[start..|recs|] == recs[start..];
    TokensRoundTrip(Min(Min(offset, |recs|) + size, |recs|));
  }

  ghost predicate AllEnumerate(orders: nat -> seq<JobId>, records: Records) {
    forall i {:trigger orders(i)} :: Enumerates(orders(i), records)
  }

  /** The `k`-th answer a client gets that asks again with each token it is handed, until the token is
      empty. The table may iterate differently each time. */
  ghost function PageAt(records: Records, orders: nat -> seq<JobId>, request: ListRequest, k: nat): ListReply {
    var asked :=
      if k == 0 then request
      else
        var before := PageAt(records, orders, request, k - 1);
        if before.Page? then request.(pageToken := before.nextPageToken) else request;
    if Within(orders(k), records) then ListOp(records, orders(k), asked) else BadRequest
  }

  /** The jobs of the answers `k` to `n`, one page after the other. */
  ghost function Gathered(records: Records, orders: nat -> seq<JobId>, request: ListRequest, k: nat, n: nat): seq<Summary>
    decreases n - k
  {
    var page := PageAt(records, orders, request, k);
    (if page.Page? then page.jobs else []) + if k < n then Gathered(records, orders, request, k + 1, n) else []
  }

  predicate EndsAt(page: ListReply) { page.Page? && page.nextPageToken == "" }

  lemma FirstPage(records: Records, orders: nat -> seq<JobId>, request: ListRequest)
    requires AllEnumerate(orders, records) && Accepted(request)
    ensures Within(orders(0), records)
    ensures PageAt(records, orders, request, 0) ==
            Window(Selected(records, orders(0), request), ParseOffset(request.pageToken).value, PageSize(request.pageSize))
  {
    assert Enumerates(orders(0), records);
  }

  /** The answer after a page that is not the last is the window right behind it. */
  lemma NextPage(records: Records, orders: nat -> seq<JobId>, request: ListRequest, offset: nat, k: nat)
    requires Keyed(records) && AllEnumerate(orders, records) && Accepted(request) && Within(orders(0), records)
    ensures var recs, size := Selected(records, orders(0), request), PageSize(request.pageSize);
            var page := PageAt(records, orders, request, k);
            page == Window(recs, offset, size) && !EndsAt(page) ==>
              && PageAt(records, orders, request, k + 1) == Window(recs, offset + size, size)
              && offset + size < |recs|
  {
    hide Window, ParseOffset, PageSize, Sort, Filtered;
    var size := PageSizeIsPositive(request.pageSize);
    var recs := Selected(records, orders(0), request);
    var page := PageAt(records, orders, request, k);
    if page == Window(recs, offset, size) && !EndsAt(page) {
      TokenAdvances(recs, offset, size);
      var asked := request.(pageToken := page.nextPageToken);
      assert Enumerates(orders(k + 1), records) && Enumerates(orders(0), records);
      SameSelection(records, orders(0), orders(k + 1), asked);
      assert Selected(records, orders(0), asked) == recs;
      assert PageAt(records, orders, request, k + 1) == ListOp(records, orders(k + 1), asked);
    }
  }

  lemma PageSizeIsPositive(requested: nat) returns (size: nat)
    ensures size == PageSize(requested) > 0
  {
    return PageSize(requested);
  }

  /** From any page on, asking again ends, and gathers the rest of the selection. */
  lemma {:induction false} FollowReadsOn(records: Records, orders: nat -> seq<JobId>, request: ListRequest, recs: seq<JobRecord>, offset: nat, k: nat)
      returns (n: nat)
    requires Keyed(records) && AllEnumerate(orders, records) && Accepted(request)
    requires Within(orders(0), records) && recs == Selected(records, orders(0), request)
    requires PageAt(records, orders, request, k) == Window(recs, offset, PageSize(request.pageSize))
    ensures n >= k && EndsAt(PageAt(records, orders, request, n))
    ensures forall i | k <= i < n :: !EndsAt(PageAt(records, orders, request, i))
    ensures Gathered(records, orders, request, k, n) == Summaries(recs[Min(offset, |recs|)..])
    decreases |recs| - offset
  {
    hide Window, PageAt, PageSize, Summaries, Selected;
    var size := PageSizeIsPositive(request.pageSize);
    TokenAdvances(recs, offset, size);
    if EndsAt(PageAt(records, orders, request, k)) {
      return k;
    }
    NextPage(records, orders, request, offset, k);
    n := FollowReadsOn(records, orders, request, recs, offset + size, k + 1);
    SplitSummaries(recs, offset, size);
  }

  lemma SplitSummaries(recs: seq<JobRecord>, offset: nat, size: nat)
    requires offset + size <= |recs|
    ensures Summaries(recs[offset..]) == Summaries(recs[offset..offset + size]) + Summaries(recs[offset + size..])
  {
    assert recs[offset..] == recs[offset..offset + size] + recs[offset + size..];
  }

  // ---------- What a client sees ----------

  /** The selected records never step back in the order asked for: times do not decrease for oldest first,
      and do not increase otherwise, and identifiers of equal times ascend. */
  lemma RecordsAreInOrder(request: ListRequest, recs: seq<JobRecord>)
    requires Sorted(RecordLe(CoerceSort(request.sort)), recs)
    ensures forall i, k | 0 <= i < k < |recs| ::
              && (if request.sort.CreatedAtAsc? then recs[i].createdAtMs <= recs[k].createdAtMs
                  else recs[i].createdAtMs >= recs[k].createdAtMs)
              && (recs[i].createdAtMs == recs[k].createdAtMs ==> StringLe(recs[i].jobId, recs[k].jobId))
  {
    forall i, k | 0 <= i < k < |recs| ensures RecordLe(CoerceSort(request.sort))(recs[i], recs[k]) {}
  }

  /** And so are the summaries the client gathers. */
  lemma SummariesAreInOrder(request: ListRequest, recs: seq<JobRecord>)
    requires Sorted(RecordLe(CoerceSort(request.sort)), recs)
    ensures var jobs := Summaries(recs);
            && |jobs| == |recs|
            && (forall i | 0 <= i < |jobs| ::
                  && jobs[i].jobId == recs[i].jobId && jobs[i].status == recs[i].status && jobs[i].jobType == recs[i].jobType
                  && jobs[i].createdAtMs == recs[i].createdAtMs && jobs[i].startedAtMs == recs[i].startedAtMs
                  && jobs[i].finishedAtMs == recs[i].finishedAtMs && jobs[i].cancelRequested == recs[i].cancelRequested)
            && (forall i, k | 0 <= i < k < |jobs| ::
                  && (if request.sort.CreatedAtAsc? then jobs[i].createdAtMs <= jobs[k].createdAtMs
                      else jobs[i].createdAtMs >= jobs[k].createdAtMs)
                  && (jobs[i].createdAtMs == jobs[k].createdAtMs ==> StringLe(jobs[i].jobId, jobs[k].jobId)))
  {
    RecordsAreInOrder(request, recs);
  }

  /** A page holds 50 jobs unless the request says otherwise, never more than 200, and fewer only at the end. */
  lemma PageHolds(records: Records, order: seq<JobId>, request: ListRequest)
    requires Within(order, records) && Accepted(request)
    ensures var count, offset := |Selected(records, order, request)|, ParseOffset(request.pageToken).value;
            var page := ListOp(records, order, request);
            var size := if request.pageSize == 0 then 50 else if request.pageSize > 200 then 200 else request.pageSize;
            && page.Page?
            && |page.jobs| == (if offset >= count then 0 else if offset + size > count then count - offset else size)
            && (page.nextPageToken == "" <==> offset + size >= count)
  {
    hide Selected, Strip, Read;
    var recs := Selected(records, order, request);
    TokenAdvances(recs, ParseOffset(request.pageToken).value, PageSize(request.pageSize));
  }

  /** Requests are refused exactly for a token that is neither blank nor digits, or for a filter that names
      the unspecified status. */
  lemma RefusedExactlyWhen(records: Records, order: seq<JobId>, request: ListRequest)
    requires Within(order, records)
    ensures ListOp(records, order, request) == BadRequest <==>
              || (Strip(request.pageToken) != "" && exists i | 0 <= i < |Strip(request.pageToken)| :: !('0' <= Strip(request.pageToken)[i] <= '9'))
              || Unspecified in request.statusFilter
  {
    hide Strip, Selected, Read;
  }

  /** Following the tokens from "" ends, at the first empty token, and yields the records the filter
      admits, each once, in the order asked for, however the table iterates from page to page. */
  lemma PagesCoverTheTable(records: Records, orders: nat -> seq<JobId>, request: ListRequest) returns (n: nat)
    requires Keyed(records) && AllEnumerate(orders, records)
    requires request.pageToken == "" && Unspecified !in request.statusFilter
    ensures EndsAt(PageAt(records, orders, request, n)) && forall i | 0 <= i < n :: !EndsAt(PageAt(records, orders, request, i))
    ensures Within(orders(0), records)
    ensures var recs := Selected(records, orders(0), request);
            && Gathered(records, orders, request, 0, n) == Summaries(recs)
            && (forall i, k | 0 <= i < k < |recs| ::
                  && (if request.sort.CreatedAtAsc? then recs[i].createdAtMs <= recs[k].createdAtMs
                      else recs[i].createdAtMs >= recs[k].createdAtMs)
                  && (recs[i].createdAtMs == recs[k].createdAtMs ==> StringLe(recs[i].jobId, recs[k].jobId)))
            && forall rec :: multiset(recs)[rec]
                 == if rec.jobId in records && records[rec.jobId] == rec
                       && (request.statusFilter == [] || rec.status in request.statusFilter) then 1 else 0
  {
    hide Window, Summaries, Sort, Filtered, PageAt, Gathered, PageSize, RecordLe;
    assert Enumerates(orders(0), records);
    SelectedIsExact(records, orders(0), request);
    FirstPage(records, orders, request);
    var recs := Selected(records, orders(0), request);
    n := FollowReadsOn(records, orders, request, recs, 0, 0);
    assert recs[0..] == recs;
    RecordsAreInOrder(request, recs);
  }
}
