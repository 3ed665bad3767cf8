/**
 * The history route (src/app/api/history/route.ts, `GET`): pagination
 * parameters with their defaults and bounds, the optional verdict filter, and
 * one page of the stored logs, newest first, with its pagination metadata.
 *
 * The collection is a sequence of stored logs. A database that cannot be
 * connected to fails before the parameters are read; one whose
 * `countDocuments` or `find` fails does so only after they are validated.
 * `page` and `limit` arrive already parsed: `None` is an absent or empty query
 * parameter.
 */
module History {
  import opened Wrappers
  import opened Text
  import opened DeepfakeTypes
  import opened AnalysisLogModel

  const DefaultPage := 1
  const DefaultLimit := 10
  const MaxLimit := 50

  const InvalidPaginationMessage :=
    "Invalid pagination parameters." + " Page must be >= 1," + " limit must be between 1 and 50."
  const FetchFailedMessage := "Failed to fetch analysis history"

  /** `connectToDatabase()` throws, a query throws, or both succeed on these contents. */
  datatype Database = Unreachable | QueryFails | Available(logs: seq<AnalysisLog>)

  datatype Query = Query(page: Option<int>, limit: Option<int>, verdict: Option<string>)

  datatype Pagination = Pagination(
    currentPage: int,
    totalPages: nat,
    totalCount: nat,
    limit: int,
    hasNextPage: bool,
    hasPrevPage: bool,
    nextPage: Option<int>,   // `null` is `None`
    prevPage: Option<int>)

  datatype HistoryResponse =
    | Listing(analyses: seq<AnalysisLog>, pagination: Pagination)
    | Rejected(status: int, message: string)

  /** `parseInt(searchParams.get('page') || '1')`. */
  function PageOf(q: Query): int
  {
    if q.page.Some? then q.page.value else DefaultPage
  }

  /** `parseInt(searchParams.get('limit') || '10')`. */
  function LimitOf(q: Query): int
  {
    if q.limit.Some? then q.limit.value else DefaultLimit
  }

  predicate ValidPagination(page: int, limit: int)
  {
    page >= 1 && 1 <= limit <= MaxLimit
  }

  /**
   * The `overallVerdict` filter: the upper-cased parameter when it names a
   * verdict; no filter for an absent, empty or unknown value.
   */
  function VerdictFilter(verdict: Option<string>): Option<string>
  {
    if verdict.Some? && verdict.value != "" && IsVerdict(ToUpper(verdict.value))
    then Some(ToUpper(verdict.value))
    else None
  }

  predicate Matches(f: Option<string>, log: AnalysisLog)
  {
    f.None? || log.report.overallVerdict == f.value
  }

  /** The documents the filter selects, in collection order. */
  function FilterLogs(logs: seq<AnalysisLog>, f: Option<string>): (r: seq<AnalysisLog>)
    ensures |r| <= |logs|
    ensures forall i :: 0 <= i < |r| ==> Matches(f, r[i])
    ensures forall x :: multiset(r)[x] == if Matches(f, x) then multiset(logs)[x] else 0
  {
    if logs == [] then []
    else
      var rest := FilterLogs(logs[1..], f);
      assert logs == [logs[0]] + logs[1..];
      if Matches(f, logs[0]) then [logs[0]] + rest else rest
  }

  /** Newest first: `createdAt` never increases along the sequence. */
  predicate SortedDesc(s: seq<AnalysisLog>)
  {
    forall i, j :: 0 <= i < j < |s| ==> s[i].createdAt >= s[j].createdAt
  }

  /** `x` placed before the first element older than it. */
  function InsertDesc(x: AnalysisLog, s: seq<AnalysisLog>): (r: seq<AnalysisLog>)
    requires SortedDesc(s)
    ensures SortedDesc(r)
    ensures multiset(r) == multiset(s) + multiset{x}
    ensures |r| == |s| + 1
    ensures r[0] == x || (|s| > 0 && r[0] == s[0])
  {
    if s == [] || x.createdAt >= s[0].createdAt then
      ConsSorted(x, s);
      [x] + s
    else
      var rest := InsertDesc(x, s[1..]);
      assert s == [s[0]] + s[1..];
      ConsSorted(s[0], rest);
      assert multiset([s[0]] + rest) == multiset{s[0]} + multiset(rest);
      [s[0]] + rest
  }

  /** A document at least as new as the head of a newest-first list can go before it. */
  lemma ConsSorted(a: AnalysisLog, rest: seq<AnalysisLog>)
    requires SortedDesc(rest) && (|rest| > 0 ==> a.createdAt >= rest[0].createdAt)
    ensures SortedDesc([a] + rest)
  {
    var r := [a] + rest;
    forall i, j | 0 <= i < j < |r| ensures r[i].createdAt >= r[j].createdAt {
      assert r[j] == rest[j - 1];
      if i > 0 {
        assert r[i] == rest[i - 1];
      } else if j > 1 {
        assert rest[0].createdAt >= rest[j - 1].createdAt;
      }
    }
  }

  /** `.sort({ createdAt: -1 })`. */
  function SortDesc(s: seq<AnalysisLog>): (r: seq<AnalysisLog>)
    ensures SortedDesc(r)
    ensures multiset(r) == multiset(s)
    ensures |r| == |s|
  {
    if s == [] then []
    else
      assert s == [s[0]] + s[1..];
      InsertDesc(s[0], SortDesc(s[1..]))
  }

  /** `Math.ceil(n / d)` for a positive divisor. */
  function CeilDiv(n: nat, d: nat): (q: nat)
    requires d >= 1
  {
    (n + d - 1) / d
  }

  /** The ceiling is the least multiple count that covers `n`. */
  lemma CeilDivIsCeiling(n: nat, d: nat)
    requires d >= 1
    ensures CeilDiv(n, d) * d >= n
    ensures CeilDiv(n, d) == 0 || (CeilDiv(n, d) - 1) * d < n
  {
    var q := CeilDiv(n, d);
    var m := (n + d - 1) % d;
    assert n + d - 1 == q * d + m;
    assert 0 <= m < d;
    if q > 0 {
      assert (q - 1) * d == q * d - d;
    }
  }

  /** `.skip(skip).limit(limit)`: at most `limit` documents from position `skip` on. */
  function Window(s: seq<AnalysisLog>, skip: nat, limit: nat): (r: seq<AnalysisLog>)
  {
    var lo := if skip < |s| then skip else |s|;
    var hi := if skip + limit < |s| then skip + limit else |s|;
    s[lo..hi]
  }

  /** The window is the run of documents at positions `skip .. skip + limit - 1` that exist. */
  lemma WindowContents(s: seq<AnalysisLog>, skip: nat, limit: nat)
    ensures |Window(s, skip, limit)| <= limit
    ensures |Window(s, skip, limit)| == if skip >= |s| then 0 else if skip + limit <= |s| then limit else |s| - skip
    ensures forall i :: 0 <= i < |Window(s, skip, limit)| ==> Window(s, skip, limit)[i] == s[skip + i]
  {
  }

  /** `(page - 1) * limit`. */
  function Skip(page: int, limit: int): nat
    requires ValidPagination(page, limit)
  {
    var k: nat := page - 1;
    var l: nat := limit;
    k * l
  }

  function PaginationFor(page: int, limit: int, totalCount: nat): (p: Pagination)
    requires ValidPagination(page, limit)
  {
    var totalPages := CeilDiv(totalCount, limit);
    var hasNext := page < totalPages;
    var hasPrev := page > 1;
    Pagination(page, totalPages, totalCount, limit, hasNext, hasPrev,
               if hasNext then Some(page + 1) else None,
               if hasPrev then Some(page - 1) else None)
  }

  /** `GET /api/history`. */
  function Get(db: Database, q: Query): (resp: HistoryResponse)
  {
    if db.Unreachable? then Rejected(500, FetchFailedMessage)
    else
      var page := PageOf(q);
      var limit := LimitOf(q);
      if !ValidPagination(page, limit) then Rejected(400, InvalidPaginationMessage)
      else if db.QueryFails? then Rejected(500, FetchFailedMessage)
      else
        var skip := Skip(page, limit);
        var selected := FilterLogs(db.logs, VerdictFilter(q.verdict));
        Listing(Window(SortDesc(selected), skip, limit), PaginationFor(page, limit, |selected|))
  }

  // ---------------------------------------------------------------------------
  // Properties

  /**
   * With the database reachable, a listing is returned exactly when the page
   * is at least 1 and the limit between 1 and 50; otherwise a 400.
   */
  lemma GetListsIff(logs: seq<AnalysisLog>, q: Query)
    ensures Get(Available(logs), q).Listing? <==> PageOf(q) >= 1 && 1 <= LimitOf(q) <= 50
    ensures Get(Available(logs), q).Rejected? ==> Get(Available(logs), q) == Rejected(400, InvalidPaginationMessage)
  {
  }

  /** The database is connected to before the parameters are looked at: an outage is a 500 for any query. */
  lemma DatabaseFailureFirst(q: Query)
    ensures Get(Unreachable, q) == Rejected(500, FetchFailedMessage)
  {
  }

  /** A failing query runs only after validation: invalid parameters still get the 400, valid ones the 500. */
  lemma QueryFailureAfterValidation(q: Query)
    ensures Get(QueryFails, q) == if ValidPagination(PageOf(q), LimitOf(q)) then Rejected(500, FetchFailedMessage)
                                  else Rejected(400, InvalidPaginationMessage)
  {
  }

  /** An absent page is page 1, an absent limit is 10, and that pair is accepted. */
  lemma DefaultsApply(logs: seq<AnalysisLog>, v: Option<string>)
    ensures var resp := Get(Available(logs), Query(None, None, v));
            && resp.Listing?
            && resp.pagination.currentPage == 1
            && resp.pagination.limit == 10
            && !resp.pagination.hasPrevPage
  {
  }

  /** A filter is set exactly when the upper-cased parameter is one of the three verdicts. */
  lemma VerdictFilterIff(verdict: Option<string>)
    ensures VerdictFilter(verdict).Some? <==>
              verdict.Some? && verdict.value != "" && ToUpper(verdict.value) in VerdictValues
    ensures VerdictFilter(verdict).Some? ==>
              VerdictFilter(verdict).value == ToUpper(verdict.value) && IsVerdict(VerdictFilter(verdict).value)
  {
  }

  /** The filter is case-insensitive: `fake` selects the `FAKE` reports; an unknown value filters nothing. */
  lemma VerdictFilterExamples()
    ensures VerdictFilter(Some("fake")) == Some("FAKE")
    ensures VerdictFilter(Some("Real")) == Some("REAL")
    ensures VerdictFilter(Some("maybe")) == None
    ensures VerdictFilter(None) == None
  {
    assert ToUpper("fake") == "FAKE";
    assert ToUpper("Real") == "REAL";
    assert ToUpper("maybe") == "MAYBE";
  }

  /** The listing a valid query gets, spelled out. */
  lemma GetListing(logs: seq<AnalysisLog>, q: Query)
    requires ValidPagination(PageOf(q), LimitOf(q))
    ensures var selected := FilterLogs(logs, VerdictFilter(q.verdict));
            Get(Available(logs), q) == Listing(Window(SortDesc(selected), Skip(PageOf(q), LimitOf(q)), LimitOf(q)),
                                          PaginationFor(PageOf(q), LimitOf(q), |selected|))
  {
  }

  /** A window of a newest-first sequence is newest first, and is drawn from it. */
  lemma WindowOfSorted(s: seq<AnalysisLog>, skip: nat, limit: nat)
    requires SortedDesc(s)
    ensures SortedDesc(Window(s, skip, limit))
    ensures forall i :: 0 <= i < |Window(s, skip, limit)| ==> Window(s, skip, limit)[i] in s
  {
    var w := Window(s, skip, limit);
    WindowContents(s, skip, limit);
    forall i, j | 0 <= i < j < |w| ensures w[i].createdAt >= w[j].createdAt {
      assert w[i] == s[skip + i] && w[j] == s[skip + j];
    }
  }

  /** `items` are the elements of `s` at positions `skip`, `skip + 1`, ... in that order. */
  predicate TakenFrom(items: seq<AnalysisLog>, s: seq<AnalysisLog>, skip: nat)
  {
    forall i :: 0 <= i < |items| ==> skip + i < |s| && items[i] == s[skip + i]
  }

  /** A window of a newest-first sequence: at most `limit` items, newest first, taken from `skip` on. */
  lemma WindowOrder(s: seq<AnalysisLog>, skip: nat, limit: nat)
    requires SortedDesc(s)
    ensures var w := Window(s, skip, limit);
            && |w| <= limit
            && SortedDesc(w)
            && TakenFrom(w, s, skip)
  {
    WindowContents(s, skip, limit);
    WindowOfSorted(s, skip, limit);
  }

  /** Whatever the sorted selection holds is a stored log that passes the filter. */
  lemma SelectedProvenance(logs: seq<AnalysisLog>, f: Option<string>, x: AnalysisLog)
    requires x in SortDesc(FilterLogs(logs, f))
    ensures x in logs && Matches(f, x)
  {
    var selected := FilterLogs(logs, f);
    assert x in multiset(SortDesc(selected));
    assert multiset(selected)[x] > 0;
  }

  /**
   * The items of a page are newest first, at most `limit` of them, and they
   * are the positions `skip ..` of the filtered documents in that order.
   */
  lemma ListingOrder(logs: seq<AnalysisLog>, q: Query)
    requires ValidPagination(PageOf(q), LimitOf(q))
    ensures var items := Get(Available(logs), q).analyses;
            var ordered := SortDesc(FilterLogs(logs, VerdictFilter(q.verdict)));
            && |items| <= LimitOf(q)
            && SortedDesc(items)
            && TakenFrom(items, ordered, Skip(PageOf(q), LimitOf(q)))
  {
    var ordered := SortDesc(FilterLogs(logs, VerdictFilter(q.verdict)));
    GetListing(logs, q);
    WindowOrder(ordered, Skip(PageOf(q), LimitOf(q)), LimitOf(q));
  }

  /** Each item of a page is a stored log that passes the filter. */
  lemma ListingProvenance(logs: seq<AnalysisLog>, q: Query)
    requires ValidPagination(PageOf(q), LimitOf(q))
    ensures var items := Get(Available(logs), q).analyses;
            forall i :: 0 <= i < |items| ==> items[i] in logs && Matches(VerdictFilter(q.verdict), items[i])
  {
    var f := VerdictFilter(q.verdict);
    var ordered := SortDesc(FilterLogs(logs, f));
    var items := Window(ordered, Skip(PageOf(q), LimitOf(q)), LimitOf(q));
    GetListing(logs, q);
    WindowOfSorted(ordered, Skip(PageOf(q), LimitOf(q)), LimitOf(q));
    forall i | 0 <= i < |items| ensures items[i] in logs && Matches(f, items[i]) {
      SelectedProvenance(logs, f, items[i]);
    }
  }

  /** `totalCount` counts the documents passing the filter, and `totalPages` is its ceiling over `limit`. */
  lemma CountsMatchFilter(logs: seq<AnalysisLog>, q: Query)
    requires ValidPagination(PageOf(q), LimitOf(q))
    ensures var p := Get(Available(logs), q).pagination;
            && p == PaginationFor(PageOf(q), LimitOf(q), p.totalCount)
            && p.totalCount == |FilterLogs(logs, VerdictFilter(q.verdict))|
  {
    GetListing(logs, q);
  }

  /** `totalPages` is the least number of pages of `limit` documents that hold all `totalCount`. */
  lemma TotalPagesIsCeiling(page: int, limit: int, totalCount: nat)
    requires ValidPagination(page, limit)
    ensures var p := PaginationFor(page, limit, totalCount);
            && p.totalCount == totalCount && p.currentPage == page && p.limit == limit
            && p.totalPages * limit >= totalCount
            && (p.totalPages == 0 || (p.totalPages - 1) * limit < totalCount)
  {
    CeilDivIsCeiling(totalCount, limit);
  }

  /** Multiplying by a positive factor keeps a strict order. */
  lemma MulStrict(a: int, b: int, d: int)
    requires d >= 1 && a < b
    ensures a * d < b * d
  {
    assert b * d - a * d == (b - a) * d;
  }

  /**
   * There is a next page exactly when the pages so far have not shown every
   * document; there is a previous page exactly when this is not page 1; the
   * page numbers are offered exactly with the flags.
   */
  lemma NavigationFlags(page: int, limit: int, totalCount: nat)
    requires ValidPagination(page, limit)
    ensures var p := PaginationFor(page, limit, totalCount);
            && (p.hasNextPage <==> page < p.totalPages)
            && (p.hasNextPage <==> page * limit < totalCount)
            && (p.hasPrevPage <==> page > 1)
            && (p.nextPage == if p.hasNextPage then Some(page + 1) else None)
            && (p.prevPage == if p.hasPrevPage then Some(page - 1) else None)
  {
    var q := CeilDiv(totalCount, limit);
    CeilDivIsCeiling(totalCount, limit);
    if page < q {
      assert page <= q - 1;
      if page < q - 1 { MulStrict(page, q - 1, limit); }
    } else if page * limit < totalCount {
      MulStrict(q, page, limit);
      assert false;
    }
  }

  /**
   * Past the last page a window is empty; on a page that exists it is full
   * unless it is the last one, which holds the remainder.
   */
  lemma WindowFill(ordered: seq<AnalysisLog>, page: int, limit: int)
    requires ValidPagination(page, limit)
    ensures var t := CeilDiv(|ordered|, limit);
            var w := Window(ordered, Skip(page, limit), limit);
            && (page > t ==> w == [])
            && (page < t ==> |w| == limit)
            && (page == t ==> |w| == |ordered| - Skip(page, limit) && |w| > 0)
  {
    var n := |ordered|;
    var t := CeilDiv(n, limit);
    var skip := Skip(page, limit);
    CeilDivIsCeiling(n, limit);
    WindowContents(ordered, skip, limit);
    assert skip + limit == page * limit;
    if page > t {
      assert t <= page - 1;
      if t < page - 1 { MulStrict(t, page - 1, limit); }
      assert skip >= n;
    } else if page < t {
      assert page <= t - 1;
      if page < t - 1 { MulStrict(page, t - 1, limit); }
    } else {
      MulStrict(page - 1, page, limit);
    }
  }

  /** The page-fill rule for the listings of the route. */
  lemma PageFill(logs: seq<AnalysisLog>, q: Query)
    requires ValidPagination(PageOf(q), LimitOf(q))
    ensures var resp := Get(Available(logs), q);
            var n := resp.pagination.totalCount;
            var skip := Skip(PageOf(q), LimitOf(q));
            && (PageOf(q) > resp.pagination.totalPages ==> resp.analyses == [])
            && (PageOf(q) < resp.pagination.totalPages ==> |resp.analyses| == LimitOf(q))
            && (PageOf(q) == resp.pagination.totalPages ==> |resp.analyses| == n - skip && |resp.analyses| > 0)
  {
    var selected := FilterLogs(logs, VerdictFilter(q.verdict));
    GetListing(logs, q);
    WindowFill(SortDesc(selected), PageOf(q), LimitOf(q));
  }

  /** Twenty-five matching documents at ten a page make three pages; the third holds five. */
  lemma TwentyFiveAtTen(logs: seq<AnalysisLog>, v: Option<string>)
    requires |FilterLogs(logs, VerdictFilter(v))| == 25
    ensures Get(Available(logs), Query(Some(3), None, v)).pagination.totalPages == 3
    ensures |Get(Available(logs), Query(Some(3), None, v)).analyses| == 5
    ensures !Get(Available(logs), Query(Some(3), None, v)).pagination.hasNextPage
    ensures Get(Available(logs), Query(Some(2), None, v)).pagination.nextPage == Some(3)
  {
    PageFill(logs, Query(Some(3), None, v));
  }
}
