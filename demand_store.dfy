/**
 * The supplier portal's demand store (productor_PC/src/stores/demand.ts), a
 * Pinia store over the demand API. As for the quote store, `fetchList` is split
 * into the part before its request (`FetchListBegin`, returning the request it
 * sends, if any) and the handling of the response (`FetchListEnd`, where `None`
 * stands for a request that threw).
 */
module DemandStore {
  import opened Wrappers
  import opened Lists
  import opened SupplierTypes
  import SupplierMock

  /** The parameters `fetchList` sends to `getDemandList`: page, size and the stored filter's fields. */
  datatype DemandListRequest = DemandListRequest(page: int, size: int, filter: DemandFilter)

  /** Every ref of the store, as one value. */
  datatype Snapshot = Snapshot(
    list: seq<Demand>,
    total: int,
    currentDemand: Option<Demand>,
    loading: bool,
    page: int,
    size: int,
    filter: DemandFilter)

  /** The empty filter `{}`. */
  const NoFilter := DemandFilter(None, None, None, None, None)

  /**
   * The mock back-end's answer to a request: the API layer passes on page,
   * size, category, brand and status, and drops the time range.
   */
  function MockAnswer(demands: seq<Demand>, request: DemandListRequest): (res: ApiResponse<PageResult<Demand>>)
    ensures res.code == 0 && res.data.Some?
    ensures res.data.value.list == Page(Filter(demands, SupplierMock.MatchesFilter(Some(request.filter))), request.page, request.size)
    ensures res.data.value.total == |Filter(demands, SupplierMock.MatchesFilter(Some(request.filter)))|
  {
    var f := request.filter;
    var sent := DemandFilter(f.category, f.brand, None, None, f.status);
    FilterExt(demands, SupplierMock.MatchesFilter(Some(sent)), SupplierMock.MatchesFilter(Some(f)));
    SupplierMock.ListDemands(demands, Some(request.page), Some(request.size), Some(sent))
  }

  class DemandStore {
    var list: seq<Demand>
    var total: int
    var currentDemand: Option<Demand>
    var loading: bool
    var page: int
    var size: int
    var filter: DemandFilter

    function State(): Snapshot
      reads this
    {
      Snapshot(list, total, currentDemand, loading, page, size, filter)
    }

    /** `hasMore` */
    function HasMore(): bool
      reads this
    {
      |list| < total
    }

    constructor ()
      ensures State() == Snapshot([], 0, None, false, 1, 10, NoFilter)
    {
      list, total, currentDemand := [], 0, None;
      loading, page, size, filter := false, 1, 10, NoFilter;
    }

    /**
     * `fetchList(isRefresh)` up to its request: nothing happens while a fetch is
     * in flight; otherwise a refresh goes back to an empty page 1, loading
     * starts, and the current page, size and filter are requested.
     */
    method FetchListBegin(isRefresh: bool) returns (request: Option<DemandListRequest>)
      modifies this
      ensures old(loading) ==> request.None? && State() == old(State())
      ensures !old(loading) ==>
                && State() == (if isRefresh then old(State()).(page := 1, list := []) else old(State())).(loading := true)
                && request == Some(DemandListRequest(page, size, filter))
    {
      if loading {
        return None;
      }
      if isRefresh {
        page := 1;
        list := [];
      }
      loading := true;
      request := Some(DemandListRequest(page, size, filter));
    }

    /**
     * `fetchList(isRefresh)` after its response: a successful answer replaces
     * the list (refresh) or is appended to it, and sets the total; anything else
     * leaves both; loading ends in every case.
     */
    method FetchListEnd(isRefresh: bool, res: Option<ApiResponse<PageResult<Demand>>>)
      modifies this
      ensures var ok := res.Some? && res.value.code == 0 && res.value.data.Some?;
              State() == (if ok then old(State()).(
                             list := if isRefresh then res.value.data.value.list else old(list) + res.value.data.value.list,
                             total := res.value.data.value.total)
                          else old(State())).(loading := false)
    {
      if res.Some? && res.value.code == 0 && res.value.data.Some? {
        if isRefresh {
          list := res.value.data.value.list;
        } else {
          list := list + res.value.data.value.list;
        }
        total := res.value.data.value.total;
      }
      loading := false;
    }

    /**
     * `loadMore` up to its request, as written: without more data nothing
     * happens; otherwise the page advances and `fetchList` is started, which
     * does nothing while a fetch is in flight even though the page has advanced.
     */
    method LoadMore() returns (request: Option<DemandListRequest>)
      modifies this
      ensures !old(HasMore()) ==> request.None? && State() == old(State())
      ensures old(HasMore()) && old(loading) ==> request.None? && State() == old(State()).(page := old(page) + 1)
      ensures old(HasMore()) && !old(loading) ==>
                && State() == old(State()).(page := old(page) + 1, loading := true)
                && request == Some(DemandListRequest(page, size, filter))
    {
      if !HasMore() {
        return None;
      }
      page := page + 1;
      request := FetchListBegin(false);
    }

    /**
     * `loadMore` as evidently intended: the page advances only when the fetch
     * for it actually starts, so the page field always names the last page
     * requested and no page is skipped.
     */
    method LoadMoreWhenIdle() returns (request: Option<DemandListRequest>)
      modifies this
      ensures request.None? <==> !old(HasMore()) || old(loading)
      ensures request.None? ==> State() == old(State())
      ensures request.Some? ==>
                && State() == old(State()).(page := old(page) + 1, loading := true)
                && request.value.page == old(page) + 1
    {
      if !HasMore() || loading {
        return None;
      }
      page := page + 1;
      request := FetchListBegin(false);
    }

    /** `setFilter(newFilter)`: store a copy of the filter, then start a refresh fetch. */
    method SetFilter(newFilter: DemandFilter) returns (request: Option<DemandListRequest>)
      modifies this
      ensures old(loading) ==> request.None? && State() == old(State()).(filter := newFilter)
      ensures !old(loading) ==>
                && State() == old(State()).(filter := newFilter, page := 1, list := [], loading := true)
                && request == Some(DemandListRequest(1, old(size), newFilter))
    {
      filter := newFilter;
      request := FetchListBegin(true);
    }

    /** `setCurrentDemand` */
    method SetCurrentDemand(d: Option<Demand>)
      modifies this
      ensures State() == old(State()).(currentDemand := d)
    {
      currentDemand := d;
    }

    /**
     * `addNewDemand` (pushed over the WebSocket): the demand goes first, the
     * others keep their order after it, and the total grows by one.
     */
    method AddNewDemand(d: Demand)
      modifies this
      ensures State() == old(State()).(list := [d] + old(list), total := old(total) + 1)
      ensures list[0] == d && list[1..] == old(list)
      ensures HasMore() == old(HasMore())
    {
      list := [d] + list;
      total := total + 1;
    }
  }

  /**
   * Choosing a filter on an idle store and receiving the mock back-end's answer
   * shows the first page of the stored demands that pass the filter, each of
   * them stored and matching, with the full match count as total.
   */
  method FilterThenShow(demands: seq<Demand>, f: DemandFilter) returns (shown: seq<Demand>, total: int, loading: bool)
    ensures shown == Page(Filter(demands, SupplierMock.MatchesFilter(Some(f))), 1, 10)
    ensures forall i :: 0 <= i < |shown| ==> shown[i] in demands && SupplierMock.DemandMatches(shown[i], Some(f))
    ensures total == |Filter(demands, SupplierMock.MatchesFilter(Some(f)))|
    ensures !loading
  {
    var store := new DemandStore();
    var request := store.SetFilter(f);
    store.FetchListEnd(true, Some(MockAnswer(demands, request.value)));
    SupplierMock.ListedDemandsMatch(demands, Some(1), Some(10), Some(f));
    shown, total, loading := store.list, store.total, store.loading;
  }

  /** A successful answer for `page` of a list of 30 demands. */
  function PageAnswer(items: seq<Demand>, page: int): ApiResponse<PageResult<Demand>> {
    ApiResponse(0, "success", Some(PageResult(30, items, page, 10)))
  }

  /**
   * Scrolling twice before the first extra page arrives, as written: page 2
   * is requested, the second `loadMore` advances the page without a request,
   * and the next `loadMore` requests page 4, so page 3 is never fetched.
   */
  method DoubleLoadMoreSkipsPage(first: seq<Demand>, second: seq<Demand>)
    returns (r1: Option<DemandListRequest>, r2: Option<DemandListRequest>, r3: Option<DemandListRequest>)
    requires |first| == 10 && |second| == 10
    ensures r1.Some? && r1.value.page == 2
    ensures r2.None?
    ensures r3.Some? && r3.value.page == 4
  {
    var store := new DemandStore();
    var r0 := store.FetchListBegin(true);
    store.FetchListEnd(true, Some(PageAnswer(first, 1)));
    r1 := store.LoadMore();
    r2 := store.LoadMore();
    store.FetchListEnd(false, Some(PageAnswer(second, 2)));
    r3 := store.LoadMore();
  }

  /** The same scrolling with `LoadMoreWhenIdle`: the pages requested are 2 and then 3. */
  method DoubleLoadMoreWhenIdle(first: seq<Demand>, second: seq<Demand>)
    returns (r1: Option<DemandListRequest>, r2: Option<DemandListRequest>, r3: Option<DemandListRequest>)
    requires |first| == 10 && |second| == 10
    ensures r1.Some? && r1.value.page == 2
    ensures r2.None?
    ensures r3.Some? && r3.value.page == 3
  {
    var store := new DemandStore();
    var r0 := store.FetchListBegin(true);
    store.FetchListEnd(true, Some(PageAnswer(first, 1)));
    r1 := store.LoadMoreWhenIdle();
    r2 := store.LoadMoreWhenIdle();
    store.FetchListEnd(false, Some(PageAnswer(second, 2)));
    r3 := store.LoadMoreWhenIdle();
  }
}
