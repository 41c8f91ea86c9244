/**
  The grid component: it owns the committed query state, replaces it on
  every change, and translates it into the ordered calls made on the query
  builder of the filter library, whose string encoding is outside this model.
 */
module Grid {
  import opened Model

  /** One call made on the filter library's query builder. */
  datatype BuilderCall =
    | AddFilter(field: Field, op: Op, value: string)
    | AddOrderBy(field: Field, dir: Dir)
    | SetPageSize(size: int)
    | RequestPage(page: int)

  /** The one-based page number sent with a query: page `r` holds rows `[(r - 1) * size, r * size)`. */
  function RequestedPage(q: QueryState): (r: int)
    ensures PageSize(q) > 0 ==> PageSize(q) * (r - 1) <= Offset(q) < PageSize(q) * r
    ensures PageSize(q) < 0 ==> PageSize(q) * (r - 1) >= Offset(q) > PageSize(q) * r
  {
    FloorDiv(Offset(q), PageSize(q)) + 1
  }

  function FilterCalls(fs: seq<Criterion>): seq<BuilderCall>
  {
    if fs == [] then [] else [AddFilter(fs[0].field, fs[0].op, fs[0].value)] + FilterCalls(fs[1..])
  }

  function OrderCalls(os: seq<OrderBy>): seq<BuilderCall>
  {
    if os == [] then [] else [AddOrderBy(os[0].field, os[0].dir)] + OrderCalls(os[1..])
  }

  /** The whole call sequence: filters in list order, then order entries, then page size, then page. */
  function Encode(q: QueryState): (r: seq<BuilderCall>)
    ensures |r| == |q.filter| + |q.order| + 2
    ensures r[|r| - 2] == SetPageSize(PageSize(q)) && r[|r| - 1] == RequestPage(RequestedPage(q))
    ensures forall i :: 0 <= i < |r| - 2 ==> r[i].AddFilter? || r[i].AddOrderBy?
  {
    FilterCallsAt(q.filter);
    OrderCallsAt(q.order);
    FilterCalls(q.filter) + OrderCalls(q.order) + [SetPageSize(PageSize(q)), RequestPage(RequestedPage(q))]
  }

  // ---------------------------------------------------------------------------
  // The builder as the grid drives it
  // ---------------------------------------------------------------------------

  /** Records the calls made on a query builder, in order. */
  class FilterBuilder {
    var calls: seq<BuilderCall>

    constructor ()
      ensures calls == []
    {
      calls := [];
    }

    method AddFilter(field: Field, op: Op, value: string)
      modifies this
      ensures calls == old(calls) + [BuilderCall.AddFilter(field, op, value)]
    {
      calls := calls + [BuilderCall.AddFilter(field, op, value)];
    }

    method AddOrderBy(field: Field, dir: Dir)
      modifies this
      ensures calls == old(calls) + [BuilderCall.AddOrderBy(field, dir)]
    {
      calls := calls + [BuilderCall.AddOrderBy(field, dir)];
    }

    method SetPageSize(size: int)
      modifies this
      ensures calls == old(calls) + [BuilderCall.SetPageSize(size)]
    {
      calls := calls + [BuilderCall.SetPageSize(size)];
    }

    method RequestPage(page: int)
      modifies this
      ensures calls == old(calls) + [BuilderCall.RequestPage(page)]
    {
      calls := calls + [BuilderCall.RequestPage(page)];
    }
  }

  lemma {:induction false} FilterCallsSnoc(fs: seq<Criterion>, i: nat)
    requires i < |fs|
    ensures FilterCalls(fs[..i + 1]) == FilterCalls(fs[..i]) + [AddFilter(fs[i].field, fs[i].op, fs[i].value)]
  {
    if i > 0 {
      assert fs[..i + 1][1..] == fs[1..][..i];
      assert fs[..i][1..] == fs[1..][..i - 1];
      FilterCallsSnoc(fs[1..], i - 1);
    } else {
      assert fs[..1] == [fs[0]];
    }
  }

  lemma {:induction false} OrderCallsSnoc(os: seq<OrderBy>, i: nat)
    requires i < |os|
    ensures OrderCalls(os[..i + 1]) == OrderCalls(os[..i]) + [AddOrderBy(os[i].field, os[i].dir)]
  {
    if i > 0 {
      assert os[..i + 1][1..] == os[1..][..i];
      assert os[..i][1..] == os[1..][..i - 1];
      OrderCallsSnoc(os[1..], i - 1);
    } else {
      assert os[..1] == [os[0]];
    }
  }

  /**
    Feed a query state to a fresh builder: one call per filter entry in list
    order, one per order entry in list order, the page size, the page.
   */
  method UpdateQueryString(q: QueryState) returns (calls: seq<BuilderCall>)
    ensures calls == Encode(q)
  {
    var builder := new FilterBuilder();
    var i := 0;
    while i < |q.filter|
      invariant 0 <= i <= |q.filter|
      invariant builder.calls == FilterCalls(q.filter[..i])
    {
      var f := q.filter[i];
      builder.AddFilter(f.field, f.op, f.value);
      FilterCallsSnoc(q.filter, i);
      i := i + 1;
    }
    assert q.filter[..i] == q.filter;
    var j := 0;
    while j < |q.order|
      invariant 0 <= j <= |q.order|
      invariant builder.calls == FilterCalls(q.filter) + OrderCalls(q.order[..j])
    {
      var o := q.order[j];
      builder.AddOrderBy(o.field, o.dir);
      OrderCallsSnoc(q.order, j);
      j := j + 1;
    }
    assert q.order[..j] == q.order;
    var size := PageSize(q);
    builder.SetPageSize(size);
    builder.RequestPage(FloorDiv(Offset(q), size) + 1);
    calls := builder.calls;
  }

  // ---------------------------------------------------------------------------
  // Reading a call sequence back
  // ---------------------------------------------------------------------------

  /** What a call sequence says: filters, order entries, page size and page. */
  datatype Request = Request(filter: seq<Criterion>, order: seq<OrderBy>, pageSize: int, page: int)

  /** Parse order calls followed by exactly the page-size and page calls. */
  function ParseTail(calls: seq<BuilderCall>): Option<Request>
  {
    if |calls| == 2 && calls[0].SetPageSize? && calls[1].RequestPage? then
      Some(Request([], [], calls[0].size, calls[1].page))
    else if calls != [] && calls[0].AddOrderBy? then
      match ParseTail(calls[1..])
      case Some(r) => Some(r.(order := [OrderBy(calls[0].field, calls[0].dir)] + r.order))
      case None => None
    else None
  }

  /** Parse a whole call sequence in the grid's layout, or None when it does not follow it. */
  function Parse(calls: seq<BuilderCall>): Option<Request>
  {
    if calls != [] && calls[0].AddFilter? then
      match Parse(calls[1..])
      case Some(r) => Some(r.(filter := [Criterion(calls[0].field, calls[0].op, calls[0].value)] + r.filter))
      case None => None
    else ParseTail(calls)
  }

  lemma {:induction false} ParseTailOrderCalls(os: seq<OrderBy>, size: int, page: int)
    ensures ParseTail(OrderCalls(os) + [SetPageSize(size), RequestPage(page)]) == Some(Request([], os, size, page))
  {
    var tail := [SetPageSize(size), RequestPage(page)];
    if os == [] {
      assert OrderCalls(os) + tail == tail;
    } else {
      ParseTailOrderCalls(os[1..], size, page);
      var calls := OrderCalls(os) + tail;
      assert calls == [AddOrderBy(os[0].field, os[0].dir)] + (OrderCalls(os[1..]) + tail);
      assert calls[1..] == OrderCalls(os[1..]) + tail;
      assert [os[0]] + os[1..] == os;
    }
  }

  /** A parsable tail never starts with a filter call. */
  lemma ParseTailNotFilter(rest: seq<BuilderCall>)
    requires ParseTail(rest).Some?
    ensures rest != [] && !rest[0].AddFilter?
  {
  }

  lemma {:induction false} ParseFilterCalls(fs: seq<Criterion>, rest: seq<BuilderCall>, r: Request)
    requires ParseTail(rest) == Some(r) && r.filter == []
    ensures Parse(FilterCalls(fs) + rest) == Some(Request(fs, r.order, r.pageSize, r.page))
  {
    if fs == [] {
      ParseTailNotFilter(rest);
      assert FilterCalls(fs) + rest == rest;
    } else {
      ParseFilterCalls(fs[1..], rest, r);
      var calls := FilterCalls(fs) + rest;
      assert calls == [AddFilter(fs[0].field, fs[0].op, fs[0].value)] + (FilterCalls(fs[1..]) + rest);
      assert calls[1..] == FilterCalls(fs[1..]) + rest;
      assert [fs[0]] + fs[1..] == fs;
    }
  }

  /** The call sequence can be read back: it carries the whole query, nothing lost or reordered. */
  lemma EncodeRoundTrip(q: QueryState)
    ensures Parse(Encode(q)) == Some(Request(q.filter, q.order, PageSize(q), RequestedPage(q)))
  {
    var tail := OrderCalls(q.order) + [SetPageSize(PageSize(q)), RequestPage(RequestedPage(q))];
    ParseTailOrderCalls(q.order, PageSize(q), RequestedPage(q));
    ParseFilterCalls(q.filter, tail, Request([], q.order, PageSize(q), RequestedPage(q)));
    assert Encode(q) == FilterCalls(q.filter) + tail;
  }

  /**
    The calls depend on the state through its lists, page size and page only,
    and exactly: two states give the same calls if and only if those agree.
   */
  lemma EncodeDeterminedByQuery(a: QueryState, b: QueryState)
    ensures Encode(a) == Encode(b) <==>
            a.filter == b.filter && a.order == b.order &&
            PageSize(a) == PageSize(b) && RequestedPage(a) == RequestedPage(b)
  {
    EncodeRoundTrip(a);
    EncodeRoundTrip(b);
  }

  /** Calls come out in the grid's layout, position by position. */
  lemma {:induction false} FilterCallsAt(fs: seq<Criterion>)
    ensures |FilterCalls(fs)| == |fs|
    ensures forall i :: 0 <= i < |fs| ==> FilterCalls(fs)[i] == AddFilter(fs[i].field, fs[i].op, fs[i].value)
  {
    if fs != [] {
      FilterCallsAt(fs[1..]);
    }
  }

  lemma {:induction false} OrderCallsAt(os: seq<OrderBy>)
    ensures |OrderCalls(os)| == |os|
    ensures forall i :: 0 <= i < |os| ==> OrderCalls(os)[i] == AddOrderBy(os[i].field, os[i].dir)
  {
    if os != [] {
      OrderCallsAt(os[1..]);
    }
  }

  /** One filter call per entry in list order, then one order call per entry, then page size, then page. */
  lemma EncodeLayout(q: QueryState)
    ensures var c := Encode(q);
            var nf := |q.filter|;
            var no := |q.order|;
            |c| == nf + no + 2 &&
            (forall i :: 0 <= i < nf ==> c[i] == AddFilter(q.filter[i].field, q.filter[i].op, q.filter[i].value)) &&
            (forall i :: 0 <= i < no ==> c[nf + i] == AddOrderBy(q.order[i].field, q.order[i].dir)) &&
            c[nf + no] == SetPageSize(PageSize(q)) &&
            c[nf + no + 1] == RequestPage(RequestedPage(q))
  {
    FilterCallsAt(q.filter);
    OrderCallsAt(q.order);
  }

  /** The page size sent is the limit, or 10 when the limit is missing or 0. */
  lemma PageSizeSent(q: QueryState)
    ensures SetPageSize(if q.limit.Some? && q.limit.value != 0 then q.limit.value else 10) in Encode(q)
  {
    EncodeLayout(q);
    assert Encode(q)[|q.filter| + |q.order|] == SetPageSize(PageSize(q));
  }

  /** The page requested is one more than the page the table shows, so at least 1 for a sane state. */
  lemma RequestedPageIsDisplayedPlusOne(q: QueryState)
    ensures RequestedPage(q) == DisplayedPage(q) + 1
    ensures Offset(q) >= 0 && PageSize(q) > 0 ==> RequestedPage(q) >= 1
  {
    if Offset(q) >= 0 && PageSize(q) > 0 {
      FloorDivNonNegative(Offset(q), PageSize(q));
    }
  }

  /** The default state asks for the first page of 10 rows with no filters or order. */
  lemma DefaultEncoding()
    ensures Encode(DefaultState) == [SetPageSize(10), RequestPage(1)]
  {
  }

  /** An age filter, a name sort, 10 rows from offset 0: one filter call, one order call, page 1. */
  lemma EncodingExample()
    ensures var q := QueryState([Criterion("age", Gt, "25")], [OrderBy("name", Asc)], Some(0), Some(10));
            Encode(q) == [AddFilter("age", Gt, "25"), AddOrderBy("name", Asc), SetPageSize(10), RequestPage(1)]
  {
  }

  // ---------------------------------------------------------------------------
  // The grid's state
  // ---------------------------------------------------------------------------

  class DataGrid {
    /** The committed query state. */
    var filters: QueryState
    /** The builder calls behind the displayed query string. */
    var queryCalls: seq<BuilderCall>
    /** Every query state handed to the data source, in order. */
    var requests: seq<QueryState>

    /** The query shown and the last request always match the committed state. */
    ghost predicate Valid()
      reads this
    {
      queryCalls == Encode(filters) && requests != [] && requests[|requests| - 1] == filters
    }

    /** Mount: take the initial state and run the query once. */
    constructor (initial: Option<QueryState>)
      ensures Valid()
      ensures filters == InitialState(initial) && requests == [filters]
    {
      var q := InitialState(initial);
      filters := q;
      var calls := UpdateQueryString(q);
      queryCalls := calls;
      requests := [q];
    }

    /** Replace the committed state wholesale; the query is recomputed and fetched exactly once. */
    method HandleFiltersChange(newFilters: QueryState)
      requires Valid()
      modifies this
      ensures Valid()
      ensures filters == newFilters && queryCalls == Encode(newFilters)
      ensures requests == old(requests) + [newFilters]
    {
      filters := newFilters;
      var calls := UpdateQueryString(newFilters);
      queryCalls := calls;
      requests := requests + [newFilters];
    }
  }
}
