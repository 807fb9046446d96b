/**
 * The supplier's quote store (src/stores/quote.ts, a Pinia store over the
 * portal's quote API). The refs become fields of `QuoteStore`; the computed
 * getters become functions; each asynchronous action is split into the
 * synchronous part before its request (`...Begin`, returning the request it
 * sends, if any) and the part that handles the response (`...End`). A response
 * of `None` stands for a request that threw.
 */
module QuoteStore {
  import opened Wrappers
  import opened Lists
  import opened SupplierTypes

  /** The parameters `fetchList` sends to `getMyQuoteList`. */
  datatype QuoteListRequest = QuoteListRequest(page: int, size: int, status: Option<string>)

  /** What `submitQuote` returns to its caller. */
  datatype SubmitOutcome = Submitted(quote: Quote) | SubmitFailed(message: string)

  /** Every ref of the store, as one value. */
  datatype Snapshot = Snapshot(
    list: seq<Quote>,
    total: int,
    currentQuote: Option<Quote>,
    loading: bool,
    page: int,
    size: int,
    statusFilter: string)

  function HasStatus(status: QuoteStatus): Quote -> bool {
    (q: Quote) => q.status == status
  }

  /** How many quotes in `s` have `status`: `s.filter(q => q.status === status).length`. */
  function CountStatus(s: seq<Quote>, status: QuoteStatus): (n: nat)
    ensures n <= |s|
  {
    |Filter(s, HasStatus(status))|
  }

  /** Counting splits over concatenation. */
  lemma CountAppend(a: seq<Quote>, b: seq<Quote>, status: QuoteStatus)
    ensures CountStatus(a + b, status) == CountStatus(a, status) + CountStatus(b, status)
  {
    FilterAppend(a, b, HasStatus(status));
  }

  /** Every quote is pending, won or lost, so the three counts add up to the list length. */
  lemma {:induction false} CountsPartition(s: seq<Quote>)
    ensures CountStatus(s, QuotePending) + CountStatus(s, QuoteWon) + CountStatus(s, QuoteLost) == |s|
  {
    if s != [] {
      CountsPartition(s[1..]);
    }
  }

  /** Replacing one quote changes a count by what left and what arrived. */
  lemma CountUpdate(s: seq<Quote>, k: nat, q: Quote, status: QuoteStatus)
    requires k < |s|
    ensures CountStatus(s[k := q], status) ==
              CountStatus(s, status) - (if s[k].status == status then 1 else 0) + (if q.status == status then 1 else 0)
  {
    assert s == s[..k] + [s[k]] + s[k + 1..];
    assert s[k := q] == s[..k] + [q] + s[k + 1..];
    CountAppend(s[..k] + [s[k]], s[k + 1..], status);
    CountAppend(s[..k], [s[k]], status);
    CountAppend(s[..k] + [q], s[k + 1..], status);
    CountAppend(s[..k], [q], status);
  }

  /** A winner flag, where a quote carries one, agrees with its status. */
  predicate WinnerFlagsAgree(s: seq<Quote>) {
    forall i :: 0 <= i < |s| ==> (s[i].isWinner.Some? ==> s[i].isWinner.value == (s[i].status == QuoteWon))
  }

  /** `list.find(q => q.id === quoteId)`, as a position. */
  function QuoteWithId(id: string): Quote -> bool {
    (q: Quote) => q.id == id
  }

  /** The quote after `updateQuoteStatus` has written to it. */
  function WithStatus(q: Quote, status: QuoteStatus): (r: Quote)
    ensures r.status == status && r.isWinner == Some(status == QuoteWon)
    ensures r.(status := q.status, isWinner := q.isWinner) == q
  {
    q.(status := status, isWinner := Some(status == QuoteWon))
  }

  class QuoteStore {
    var list: seq<Quote>
    var total: int
    var currentQuote: Option<Quote>
    var loading: bool
    var page: int
    var size: int
    var statusFilter: string

    function State(): Snapshot
      reads this
    {
      Snapshot(list, total, currentQuote, loading, page, size, statusFilter)
    }

    /** `hasMore` */
    function HasMore(): bool
      reads this
    {
      |list| < total
    }

    /** `pendingCount` */
    function PendingCount(): nat
      reads this
    {
      CountStatus(list, QuotePending)
    }

    /** `wonCount` */
    function WonCount(): nat
      reads this
    {
      CountStatus(list, QuoteWon)
    }

    /** The request `fetchList` would send from the current state. */
    function Request(): QuoteListRequest
      reads this
    {
      QuoteListRequest(page, size, if statusFilter == "" then None else Some(statusFilter))
    }

    constructor ()
      ensures State() == Snapshot([], 0, None, false, 1, 10, "")
    {
      list, total, currentQuote := [], 0, None;
      loading, page, size, statusFilter := false, 1, 10, "";
    }

    /**
     * `fetchList(isRefresh)` up to its request: nothing happens while a fetch is
     * in flight; otherwise a refresh goes back to an empty page 1, loading starts,
     * and the current page, size and (non-empty) status filter are requested.
     */
    method FetchListBegin(isRefresh: bool) returns (request: Option<QuoteListRequest>)
      modifies this
      ensures old(loading) ==> request.None? && State() == old(State())
      ensures !old(loading) ==>
                && State() == (if isRefresh then old(State()).(page := 1, list := []) else old(State())).(loading := true)
                && request == Some(Request())
    {
      if loading {
        return None;
      }
      if isRefresh {
        page := 1;
        list := [];
      }
      loading := true;
      request := Some(Request());
    }

    /**
     * `fetchList(isRefresh)` after its response: a successful answer replaces the
     * list (refresh) or is appended to it, and sets the total; anything else
     * leaves both; loading ends in every case.
     */
    method FetchListEnd(isRefresh: bool, res: Option<ApiResponse<PageResult<Quote>>>)
      modifies this
      ensures var ok := res.Some? && res.value.code == 0 && res.value.data.Some?;
              State() == (if ok then old(State()).(
                             list := if isRefresh then res.value.data.value.list else old(list) + res.value.data.value.list,
                             total := res.value.data.value.total)
                          else old(State())).(loading := false)
      ensures (old(WinnerFlagsAgree(list)) && res.Some? && res.value.data.Some? &&
               WinnerFlagsAgree(res.value.data.value.list)) ==> WinnerFlagsAgree(list)
    {
      if res.Some? && res.value.code == 0 && res.value.data.Some? {
        if isRefresh {
          list := res.value.data.value.list;
        } else {
          list := list + res.value.data.value.list;
        }
        total := res.value.data.value.total;
      }
      loading := false;
    }

    /**
     * `loadMore` up to its request, as written: without more data nothing
     * happens; otherwise the page advances and `fetchList` is started, which
     * does nothing while a fetch is in flight even though the page has advanced.
     */
    method LoadMore() returns (request: Option<QuoteListRequest>)
      modifies this
      ensures !old(HasMore()) ==> request.None? && State() == old(State())
      ensures old(HasMore()) && old(loading) ==> request.None? && State() == old(State()).(page := old(page) + 1)
      ensures old(HasMore()) && !old(loading) ==>
                && State() == old(State()).(page := old(page) + 1, loading := true)
                && request == Some(Request())
    {
      if !HasMore() {
        return None;
      }
      page := page + 1;
      request := FetchListBegin(false);
    }

    /**
     * `loadMore` as evidently intended: the page advances only when the fetch
     * for it actually starts, so the page field always names the last page
     * requested and no page is skipped.
     */
    method LoadMoreWhenIdle() returns (request: Option<QuoteListRequest>)
      modifies this
      ensures request.None? <==> !old(HasMore()) || old(loading)
      ensures request.None? ==> State() == old(State())
      ensures request.Some? ==>
                && State() == old(State()).(page := old(page) + 1, loading := true)
                && request.value.page == old(page) + 1
    {
      if !HasMore() || loading {
        return None;
      }
      page := page + 1;
      request := FetchListBegin(false);
    }

    /** `setStatusFilter(status)`: store the filter, then start a refresh fetch. */
    method SetStatusFilter(status: string) returns (request: Option<QuoteListRequest>)
      modifies this
      ensures old(loading) ==> request.None? && State() == old(State()).(statusFilter := status)
      ensures !old(loading) ==>
                && State() == old(State()).(statusFilter := status, page := 1, list := [], loading := true)
                && request == Some(QuoteListRequest(1, old(size), if status == "" then None else Some(status)))
    {
      statusFilter := status;
      request := FetchListBegin(true);
    }

    /**
     * `submitQuote` after the API answered: a successful answer puts the new
     * quote first and counts it in the total; otherwise nothing changes and the
     * message is passed on.
     */
    method SubmitQuote(res: ApiResponse<Quote>) returns (outcome: SubmitOutcome)
      modifies this
      ensures res.code == 0 && res.data.Some? ==>
                && outcome == Submitted(res.data.value)
                && State() == old(State()).(list := [res.data.value] + old(list), total := old(total) + 1)
                && PendingCount() == old(PendingCount()) + (if res.data.value.status == QuotePending then 1 else 0)
      ensures !(res.code == 0 && res.data.Some?) ==> outcome == SubmitFailed(res.msg) && State() == old(State())
    {
      if res.code == 0 && res.data.Some? {
        CountAppend([res.data.value], list, QuotePending);
        list := [res.data.value] + list;
        total := total + 1;
        return Submitted(res.data.value);
      }
      return SubmitFailed(res.msg);
    }

    /**
     * `updateQuoteStatus` (pushed over the WebSocket): the first quote with the
     * id gets the status and a winner flag saying whether it won; an unknown id
     * changes nothing. The winner flags keep agreeing with the statuses.
     */
    method UpdateQuoteStatus(quoteId: string, status: QuoteStatus)
      modifies this
      ensures var k := FindIndex(old(list), QuoteWithId(quoteId));
              && (k == -1 ==> State() == old(State()))
              && (k >= 0 ==> State() == old(State()).(list := old(list)[k := WithStatus(old(list)[k], status)]))
      ensures old(WinnerFlagsAgree(list)) ==> WinnerFlagsAgree(list)
    {
      var k := FindIndex(list, QuoteWithId(quoteId));
      if k >= 0 {
        list := list[k := WithStatus(list[k], status)];
      }
    }

    /** `setCurrentQuote` */
    method SetCurrentQuote(q: Option<Quote>)
      modifies this
      ensures State() == old(State()).(currentQuote := q)
    {
      currentQuote := q;
    }
  }

  /**
   * A pushed status change moves exactly one quote between the pending and won
   * counts when a pending quote wins, and leaves the list length alone.
   */
  lemma WinningMovesCounts(s: seq<Quote>, k: nat)
    requires k < |s| && s[k].status == QuotePending
    ensures var t := s[k := WithStatus(s[k], QuoteWon)];
            && CountStatus(t, QuotePending) == CountStatus(s, QuotePending) - 1
            && CountStatus(t, QuoteWon) == CountStatus(s, QuoteWon) + 1
            && CountStatus(t, QuoteLost) == CountStatus(s, QuoteLost)
  {
    CountUpdate(s, k, WithStatus(s[k], QuoteWon), QuotePending);
    CountUpdate(s, k, WithStatus(s[k], QuoteWon), QuoteWon);
    CountUpdate(s, k, WithStatus(s[k], QuoteWon), QuoteLost);
  }

  /** A successful list answer for `page`. */
  function PageAnswer(items: seq<Quote>, total: nat, page: int): ApiResponse<PageResult<Quote>> {
    ApiResponse(0, "success", Some(PageResult(total, items, page, 10)))
  }

  /**
   * Scrolling twice before the first extra page arrives, as written: the first
   * `loadMore` requests page 2, the second finds a fetch in flight yet still
   * advances the page, so the next `loadMore` requests page 4 and page 3 is
   * never fetched.
   */
  method DoubleLoadMoreSkipsPage(first: seq<Quote>, second: seq<Quote>)
    returns (r1: Option<QuoteListRequest>, r2: Option<QuoteListRequest>, r3: Option<QuoteListRequest>)
    requires |first| == 10 && |second| == 10
    ensures r1.Some? && r1.value.page == 2
    ensures r2.None?
    ensures r3.Some? && r3.value.page == 4
  {
    var store := new QuoteStore();
    var r0 := store.FetchListBegin(true);
    store.FetchListEnd(true, Some(PageAnswer(first, 30, 1)));
    r1 := store.LoadMore();
    r2 := store.LoadMore();
    store.FetchListEnd(false, Some(PageAnswer(second, 30, 2)));
    r3 := store.LoadMore();
  }

  /** The same scrolling with `LoadMoreWhenIdle`: the pages requested are 2 and then 3. */
  method DoubleLoadMoreWhenIdle(first: seq<Quote>, second: seq<Quote>)
    returns (r1: Option<QuoteListRequest>, r2: Option<QuoteListRequest>, r3: Option<QuoteListRequest>)
    requires |first| == 10 && |second| == 10
    ensures r1.Some? && r1.value.page == 2
    ensures r2.None?
    ensures r3.Some? && r3.value.page == 3
  {
    var store := new QuoteStore();
    var r0 := store.FetchListBegin(true);
    store.FetchListEnd(true, Some(PageAnswer(first, 30, 1)));
    r1 := store.LoadMoreWhenIdle();
    r2 := store.LoadMoreWhenIdle();
    store.FetchListEnd(false, Some(PageAnswer(second, 30, 2)));
    r3 := store.LoadMoreWhenIdle();
  }
}
