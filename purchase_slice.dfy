/**
 * The buyer app's Redux purchase slice (src/store/slices/purchase.ts): the list
 * state behind the purchase list page, changed by plain reducers and by the
 * pending/fulfilled/rejected cases of the asynchronous thunks. Each reducer or
 * case is a method on the state object; its postcondition gives the whole new
 * state through `Snapshot()`, the way Immer produces the next state.
 */
module PurchaseSlice {
  import opened Wrappers
  import opened Lists
  import opened ApiTypes
  import opened PurchaseTypes
  import PurchaseMock

  /** Every field of `PurchaseState`, as one value. */
  datatype Snapshot = Snapshot(
    purchaseList: seq<Purchase>,
    total: int,
    page: int,
    size: int,
    loading: bool,
    refreshing: bool,
    currentPurchase: Option<Purchase>,
    filterStatus: Option<PurchaseStatus>,
    keyword: string,
    categories: seq<PartCategory>,
    brands: seq<Brand>)

  /** `initialState` */
  const Initial := Snapshot([], 0, 1, 10, false, false, None, None, "", [], [])

  /** The request `fetchPurchaseList` sends: size fixed at 10, a null status sent as absent. */
  function ListRequest(page: int, status: Option<PurchaseStatus>, keyword: Option<string>): PurchaseListParams {
    PurchaseListParams(page, 10, status, keyword)
  }

  /** The thunk's payload `{ ...result, page: params.page }`. */
  function ListPayload(result: PageResult<Purchase>, page: int): PageResult<Purchase> {
    result.(page := page)
  }

  /**
   * Fetching page `page` through the mock back-end: the payload carries the page
   * asked for and the full match count, and for a page of at least 1 its list is
   * that page of the filtered, newest-first query result. (A page of 0 is served
   * as page 1 by the back-end but still reported as page 0.)
   */
  function FetchPage(stored: seq<Purchase>, page: int, status: Option<PurchaseStatus>, keyword: Option<string>): (payload: PageResult<Purchase>)
    ensures var all := PurchaseMock.QueryResult(stored, status, keyword);
            payload.page == page && payload.size == 10 && payload.total == |all| &&
            (page >= 1 ==> payload.list == Page(all, page, 10))
  {
    ListPayload(PurchaseMock.ListPurchases(stored, ListRequest(page, status, keyword)).data, page)
  }

  class PurchaseState {
    var purchaseList: seq<Purchase>
    var total: int
    var page: int
    var size: int
    var loading: bool
    var refreshing: bool
    var currentPurchase: Option<Purchase>
    var filterStatus: Option<PurchaseStatus>
    var keyword: string
    var categories: seq<PartCategory>
    var brands: seq<Brand>

    function State(): Snapshot
      reads this
    {
      Snapshot(purchaseList, total, page, size, loading, refreshing, currentPurchase,
               filterStatus, keyword, categories, brands)
    }

    constructor ()
      ensures State() == Initial
    {
      purchaseList, total, page, size := [], 0, 1, 10;
      loading, refreshing := false, false;
      currentPurchase, filterStatus, keyword := None, None, "";
      categories, brands := [], [];
    }

    /** `setCurrentPurchase` */
    method SetCurrentPurchase(p: Option<Purchase>)
      modifies this
      ensures State() == old(State()).(currentPurchase := p)
    {
      currentPurchase := p;
    }

    /** `setFilterStatus`: a new status filter starts again from page 1; the list stays until the next fetch. */
    method SetFilterStatus(status: Option<PurchaseStatus>)
      modifies this
      ensures State() == old(State()).(filterStatus := status, page := 1)
    {
      filterStatus := status;
      page := 1;
    }

    /** `setKeyword`: a new keyword starts again from page 1; the list stays until the next fetch. */
    method SetKeyword(k: string)
      modifies this
      ensures State() == old(State()).(keyword := k, page := 1)
    {
      keyword := k;
      page := 1;
    }

    /** `setLoading` */
    method SetLoading(b: bool)
      modifies this
      ensures State() == old(State()).(loading := b)
    {
      loading := b;
    }

    /** `setRefreshing` */
    method SetRefreshing(b: bool)
      modifies this
      ensures State() == old(State()).(refreshing := b)
    {
      refreshing := b;
    }

    /** `clearPurchaseList`: an empty first page. */
    method ClearPurchaseList()
      modifies this
      ensures State() == old(State()).(purchaseList := [], total := 0, page := 1)
    {
      purchaseList, total, page := [], 0, 1;
    }

    /** `fetchPurchaseList.pending` */
    method FetchListPending()
      modifies this
      ensures State() == old(State()).(loading := true)
    {
      loading := true;
    }

    /**
     * `fetchPurchaseList.fulfilled`: page 1 replaces the list, any other page is
     * appended after what is already shown; total and page come from the payload.
     */
    method FetchListFulfilled(payload: PageResult<Purchase>)
      modifies this
      ensures State() == old(State()).(
                loading := false, refreshing := false,
                purchaseList := if payload.page == 1 then payload.list else old(purchaseList) + payload.list,
                total := payload.total, page := payload.page)
    {
      loading := false;
      refreshing := false;
      if payload.page == 1 {
        purchaseList := payload.list;
      } else {
        purchaseList := purchaseList + payload.list;
      }
      total := payload.total;
      page := payload.page;
    }

    /** `fetchPurchaseList.rejected`: both spinners stop, the list is kept. */
    method FetchListRejected()
      modifies this
      ensures State() == old(State()).(loading := false, refreshing := false)
    {
      loading := false;
      refreshing := false;
    }

    /** `fetchCategories.fulfilled` */
    method FetchCategoriesFulfilled(c: seq<PartCategory>)
      modifies this
      ensures State() == old(State()).(categories := c)
    {
      categories := c;
    }

    /** `fetchBrands.fulfilled` */
    method FetchBrandsFulfilled(b: seq<Brand>)
      modifies this
      ensures State() == old(State()).(brands := b)
    {
      brands := b;
    }

    /** `createPurchaseOrder.fulfilled`: the new purchase goes first and the total grows by one. */
    method CreatePurchaseFulfilled(p: Purchase)
      modifies this
      ensures State() == old(State()).(purchaseList := [p] + old(purchaseList), total := old(total) + 1)
    {
      purchaseList := [p] + purchaseList;
      total := total + 1;
    }
  }

  /** Page `page + 1` of `all` continues where the first `page` pages end. */
  lemma NextPage(all: seq<Purchase>, page: nat, size: nat)
    requires (page + 1) * size <= |all|
    ensures all[..page * size] + Page(all, page + 1, size) == all[..(page + 1) * size]
  {
    assert PageStart(page + 1, size) == page * size;
    assert (page + 1) * size == page * size + size;
  }

  /**
   * Scrolling the list page: starting from the initial state, pages 1 to `n` are
   * requested, each as a pending then a fulfilled event, and `fetch(p)` is the
   * payload the thunk delivers for page `p`: page `p` of `all`, with the full
   * count. The slice then shows the first `n` pages of `all`, in order, is on
   * page `n`, holds the full count and is no longer loading.
   */
  method Scroll(all: seq<Purchase>, n: nat, fetch: int -> PageResult<Purchase>)
    returns (shown: seq<Purchase>, page: int, total: int, loading: bool)
    requires 1 <= n && n * 10 <= |all|
    requires forall p :: 1 <= p <= n ==> fetch(p) == PageResult(Page(all, p, 10), |all|, p, 10)
    ensures shown == all[..n * 10]
    ensures page == n && !loading && total == |all|
  {
    var slice := new PurchaseState();
    var p: nat := 0;
    while p < n
      invariant p <= n
      invariant slice.purchaseList == all[..p * 10]
      invariant p >= 1 ==> slice.page == p && !slice.loading && slice.total == |all|
    {
      NextPage(all, p, 10);
      slice.FetchListPending();
      slice.FetchListFulfilled(fetch(p + 1));
      p := p + 1;
    }
    shown, page, total, loading := slice.purchaseList, slice.page, slice.total, slice.loading;
  }

  /**
   * Scrolling through the mock back-end's answers: after pages 1 to `n` the
   * slice shows the first `n` pages of the filtered, newest-first query result,
   * and its total is the number of stored purchases matching the filter.
   */
  method ScrollPages(stored: seq<Purchase>, status: Option<PurchaseStatus>, keyword: Option<string>, n: nat)
    returns (shown: seq<Purchase>, page: int, total: int, loading: bool)
    requires 1 <= n && n * 10 <= |PurchaseMock.QueryResult(stored, status, keyword)|
    ensures shown == PurchaseMock.QueryResult(stored, status, keyword)[..n * 10]
    ensures page == n && !loading
    ensures total == |Filter(stored, PurchaseMock.Matches(status, keyword))|
  {
    var all := PurchaseMock.QueryResult(stored, status, keyword);
    var fetch := p => FetchPage(stored, p, status, keyword);
    FetchedPages(stored, status, keyword);
    PurchaseMock.ListPurchasesSound(stored, ListRequest(1, status, keyword));
    shown, page, total, loading := Scroll(all, n, fetch);
  }

  /** Every page from the first on is the matching slice of the query result, with its length as total. */
  lemma FetchedPages(stored: seq<Purchase>, status: Option<PurchaseStatus>, keyword: Option<string>)
    ensures var all := PurchaseMock.QueryResult(stored, status, keyword);
            forall p :: p >= 1 ==> FetchPage(stored, p, status, keyword) == PageResult(Page(all, p, 10), |all|, p, 10)
  {
  }
}
