# Auto-parts procurement marketplace — verified model of its client-side core

The marketplace connects repair shops (buyers) with parts suppliers. A shop
publishes a purchase request, suppliers quote for it, the shop awards one
quote, and the resulting order runs through a delivery timeline until the
shop confirms receipt. The repository has three front-ends: the buyer app
(Taro/React with Redux, under `src/`), the supplier portal (Vue with Pinia,
`productor_PC/`) and the admin portal (UmiJS, `manager_PC/auto-service-admin/`).
All the logic they hold runs in the browser: in-memory mock back-ends, list
and session stores, and validators and formatters.

This Dafny project models that logic, one module per source file:

| module | source | form |
|---|---|---|
| `OrderTypes`, `PurchaseTypes`, `QuoteTypes`, `SupplierTypes`, `ApiTypes` | `src/types/*.ts`, `productor_PC/src/types/index.ts` | datatypes, status vocabularies |
| `QuoteMock` | `src/services/mock/quote.ts` | generation and sorting as functions; `QuoteService` holds the `quotesMap` cache |
| `OrderMock` | `src/services/mock/order.ts` | the timeline as functions; `OrderService` holds `ordersMap` |
| `PurchaseMock` | `src/services/mock/purchase.ts` | query as functions; `PurchaseService` holds `mockPurchases` |
| `SupplierMock` | `productor_PC/src/mock/index.ts` | generators and queries as functions; `SupplierApi` holds `mockDemands` and `mockQuotes` |
| `PurchaseSlice`, `OrderSlice` | `src/store/slices/purchase.ts`, `order.ts` | a class per slice state; each reducer case is a method |
| `QuoteStore`, `DemandStore`, `UserStore` | `src/stores/quote.ts`, `productor_PC/src/stores/demand.ts`, `user.ts` | a class per store; refs are fields, computed values are functions |
| `BuyerValidator`, `SupplierValidator` | `src/utils/validator.ts`, `productor_PC/src/utils/validator.ts` | predicates over character classes |
| `Format` | `src/utils/format.ts` | functions with round-trip lemmas |
| `Access` | `manager_PC/auto-service-admin/src/access.ts` | a function from the stored user to the permission record |
| `CategoryTree` | `manager_PC/auto-service-admin/src/pages/MasterData/Category/index.tsx` | recursive search and conversion over the category forest |
| `PurchaseCreate` | `src/pages/purchase/create/index.tsx` | the flattening loop as a method; the page state as a class |
| `Wrappers`, `Text`, `Lists` | — | `Option`, string and sequence helpers: trimming, lower-casing, number rendering, `indexOf`, first-occurrence replace, filter, paging, stable sort |

Conventions:
- **Inputs from outside.** Randomness (`Math.random`), the clock (`Date.now`) and values read from storage are parameters. Each random record is a "draw" whose ranges are those of the generator.
- **Asynchronous store actions.** Each is split into the state change before the request (returning the request sent, if any) and the state change on the answer. An answer of `None` stands for a request that threw.
- **Number types.** Amounts, timestamps and counts are mathematical integers. The sources never come near a width limit with them.

## Model

| member | source | states |
|---|---|---|
| OrderTypes.OrderStatusLabelsDistinct | src/types/order.ts:15-23 | no two order statuses share a label |
| PurchaseTypes.PurchaseStatusLabelsDistinct | src/types/purchase.ts:13-19 | no two purchase statuses share a label |
| QuoteTypes.QuoteStatusLabelsDistinct | src/types/quote.ts:12-17 | no two quote statuses share a label |
| SupplierTypes.DemandStatusNamesDistinct | productor_PC/src/types/index.ts:37 | two demand status strings are equal exactly when the statuses are |
| SupplierTypes.QuoteStatusNamesDistinct | productor_PC/src/types/index.ts:76 | two quote status strings are equal exactly when the statuses are, and no status is written `all` or empty |
| QuoteMock.DrawnQuoteIsFresh | src/services/mock/quote.ts:31-33 | every drawn quote is PENDING with label '待选择' and has no attachments |
| QuoteMock.GenerateMockQuotes | src/services/mock/quote.ts:13-42 | one quote per draw, each PENDING/'待选择' with no attachments, as a permutation of the drawn quotes sorted by ascending price |
| QuoteMock.ListView | src/services/mock/quote.ts:56-71 | the listed quotes are a permutation of the stored ones, sorted by price or delivery time ascending or descending as asked, and the stored order when no known sort key is given |
| QuoteMock.ListViewKeepsTies | src/services/mock/quote.ts:61-66 | quotes of equal price (when sorting by price) or equal delivery time (when sorting by delivery time) keep their stored order |
| Lists.SortByStable | src/services/mock/quote.ts:63-66 | the sort is stable: the elements a predicate selects, all of one key, come out in their input order |
| Lists.EqualKeysKeepOrder | src/services/mock/quote.ts:63-66 | for every key value, the elements with that key come out of the sort in their input order |
| QuoteMock.RevealedPhone | src/services/mock/quote.ts:128 | the revealed phone is `138****` followed by four digits |
| QuoteMock.Award | src/services/mock/quote.ts:123-134 | exactly the quotes with the chosen id become SELECTED/'已中标' with the revealed contact, every other quote becomes REJECTED/'未中标', and no other field changes |
| QuoteMock.CountStatusNone | src/services/mock/quote.ts:123-134 | a list without quotes of a status counts none of it |
| QuoteMock.AwardSingleWinner | src/services/mock/quote.ts:123-134 | with unique ids and the chosen id present, one quote is selected and all the others are rejected |
| QuoteMock.CountRejectedAll | src/services/mock/quote.ts:130-133 | a list of rejected quotes counts all of them as rejected |
| QuoteMock.ReawardMovesSelection | src/services/mock/quote.ts:123-134 | awarding a second quote after a first leaves the same statuses as awarding the second alone; the first winner is rejected but keeps its revealed phone |
| QuoteMock.QuoteService.constructor | src/services/mock/quote.ts:45 | the quote cache starts empty |
| QuoteMock.QuoteService.GetQuoteList | src/services/mock/quote.ts:48-78 | an uncached purchase gets freshly generated quotes stored once; a cached one is reused unchanged; the answer is code 200 with the sorted view of the cached list |
| QuoteMock.QuoteService.GetQuoteDetail | src/services/mock/quote.ts:81-98 | an unknown purchase gives 404 '报价不存在' and null; otherwise code 200, with the first quote of that id in the list and 'success', or null and '报价不存在' exactly when no quote has the id |
| QuoteMock.QuoteService.ConfirmSupplier | src/services/mock/quote.ts:101-145 | an unknown purchase or quote gives 404 with `success: false` and changes nothing; otherwise the purchase's quotes are awarded and the answer carries the revealed phone and the winner's supplier code |
| QuoteMock.AwardIsVisibleToLaterLists | src/services/mock/quote.ts:101-134 | after awarding the first listed quote, a later list of the same purchase shows the same quotes with that one selected and every other one rejected |
| OrderMock.TimelineIndex | src/services/mock/order.ts:20 | the position of a status in the five-step timeline, and -1 exactly for RECEIVED and CANCELLED |
| OrderMock.GenerateStatusNodes | src/services/mock/order.ts:19-31 | five nodes in the configured order and labels; the steps before the current one are completed, exactly the current one is marked current, the steps up to it have a time, operator and phone, with times strictly increasing and the current step at `now`; a status outside the timeline gives five empty steps |
| OrderMock.GenerateMockOrder | src/services/mock/order.ts:34-66 | the drawn status is one of the five timeline steps; quantity 2, total twice the unit price, the label of its status, the timeline of its status, and no delivery or receipt data |
| OrderMock.GeneratedOrderHasOneCurrentStep | src/services/mock/order.ts:22-30 | a generated order's timeline marks exactly its own status as current |
| OrderMock.MarkReceived | src/services/mock/order.ts:123-127 | receiving sets RECEIVED/'已收货', the delivery number, photos and receipt time, and changes nothing else, the timeline included |
| OrderMock.OrderService.constructor | src/services/mock/order.ts:69 | the order cache starts empty |
| OrderMock.OrderService.GetOrderDetail | src/services/mock/order.ts:72-86 | an unknown id gets a generated order for 'purchase_001' at 1200 stored under that id; a known id is returned unchanged; the answer is always code 200 |
| OrderMock.OrderService.GetOrderStatus | src/services/mock/order.ts:89-109 | an unknown id gives 404 '订单不存在' with PREPARING and no nodes; a known one gives code 200 with the order's status, label and timeline |
| OrderMock.OrderService.ReceiveOrder | src/services/mock/order.ts:112-134 | an unknown id gives 404 and `success: false` and changes nothing; a known order is marked received in place |
| OrderMock.OrderService.CreateOrder | src/services/mock/order.ts:146-155 | a generated order is stored under its own id and returned with code 200 |
| OrderMock.DetailLookupIsStable | src/services/mock/order.ts:72-86 | a second detail request for the same id returns the order generated by the first, whatever the second draw |
| OrderMock.ReceiptLeavesTimeline | src/services/mock/order.ts:112-134 | after a receipt the status reads RECEIVED while the timeline is still the one generated with the order, which has no RECEIVED step |
| PurchaseMock.OrElse | src/services/mock/purchase.ts:93-94 | `a \|\| b` on text: the first value when present and non-empty, otherwise the second |
| PurchaseMock.ChildAt | src/services/mock/purchase.ts:77 | `category.children?.[k]` is defined exactly when the children exist and `k` is within them |
| PurchaseMock.PurchaseIdInjective | src/services/mock/purchase.ts:91 | distinct indices give distinct `purchase_NNN` ids |
| PurchaseMock.DrawnPurchaseId | src/services/mock/purchase.ts:90 | the i-th generated purchase has id `purchase_` followed by i padded to three digits |
| PurchaseMock.DrawnPurchaseStatus | src/services/mock/purchase.ts:78-113 | a generated purchase is never cancelled, carries its status's label, and has no quotes exactly when PENDING and at most five otherwise |
| PurchaseMock.DrawnPurchaseFields | src/services/mock/purchase.ts:80-115 | a generated purchase asks for 1-10 parts on a budget of 500-5499, arrives 7 days and closes quoting 3 days after publication, has no attachments and belongs to store 'store_001' |
| PurchaseMock.GenerateMockPurchases | src/services/mock/purchase.ts:69-121 | twenty purchases, the k-th built from the k-th draw and numbered k |
| PurchaseMock.DrawnPurchasesDistinct | src/services/mock/purchase.ts:73-90 | purchases numbered 1, 2, ... in push order have pairwise distinct ids |
| PurchaseMock.SearchedIsFilter | src/services/mock/purchase.ts:145-159 | the status filter followed by the keyword filter is one filter by both conditions |
| PurchaseMock.QueryResult | src/services/mock/purchase.ts:145-162 | the filtered list is a permutation of the matching purchases, newest publication first |
| PurchaseMock.QueryResultKeepsTies | src/services/mock/purchase.ts:162 | matching purchases published at the same instant appear in the result in their stored order, as the stable `sort` leaves them |
| PurchaseMock.QueryResultMembers | src/services/mock/purchase.ts:145-162 | a purchase is in the result exactly when it is stored and matches the status and the case-insensitive keyword in part name or order number |
| PurchaseMock.ListPurchases | src/services/mock/purchase.ts:144-181 | code 200; page and size default to 1 and 10; total counts every match; the list is that page of the sorted matches |
| PurchaseMock.ListPurchasesSound | src/services/mock/purchase.ts:144-181 | every listed purchase is stored and matches, the page is newest first, and the total is the number of matches |
| PurchaseMock.NewPurchase | src/services/mock/purchase.ts:196-222 | a created purchase is PENDING/'待应标' with no quotes, the given id, order number and time, and the caller's fields and attachments |
| PurchaseMock.Attachments | src/services/mock/purchase.ts:211-216 | one attachment per URL in order, `att_i` and `附件i+1`, typed pdf exactly when the URL contains '.pdf' |
| PurchaseMock.AttachmentsDistinct | src/services/mock/purchase.ts:211-216 | attachment ids and names are pairwise distinct |
| PurchaseMock.MarkCancelled | src/services/mock/purchase.ts:237-238 | cancelling sets CANCELLED/'已取消' and changes nothing else |
| PurchaseMock.PurchaseService.constructor | src/services/mock/purchase.ts:123 | the store starts with the twenty generated purchases |
| PurchaseMock.PurchaseService.GetPurchaseDetail | src/services/mock/purchase.ts:184-192 | code 200; the first stored purchase with the id and 'success', or null and '采购单不存在' exactly when none has it |
| PurchaseMock.PurchaseService.CreatePurchase | src/services/mock/purchase.ts:195-231 | the new purchase is put at the front of the store and returned with code 200 |
| PurchaseMock.PurchaseService.CancelPurchase | src/services/mock/purchase.ts:234-250 | an unknown id gives 404 and false and changes nothing; otherwise the first purchase with the id is cancelled in place and the answer is true |
| PurchaseMock.CancelVisibleInDetail | src/services/mock/purchase.ts:234-250 | after a cancellation, looking the id up finds the same position and the cancelled purchase |
| PurchaseMock.CreateThenCancel | src/services/mock/purchase.ts:195-250 | creating then cancelling a purchase leaves 21 purchases and the detail shows the created one as cancelled |
| SupplierMock.NumberedIdInjective | productor_PC/src/mock/index.ts:51 | distinct numbers give distinct `D001`-style ids |
| SupplierMock.Numbered | productor_PC/src/mock/index.ts:43-51 | the ids of the first `n` generated records, numbered from 1 |
| SupplierMock.NextNumberedIdIsFresh | productor_PC/src/mock/index.ts:192 | the next number's id is not among ids numbered 1 to `n` |
| SupplierMock.DrawnDemand | productor_PC/src/mock/index.ts:44-68 | the i-th demand has id `Dnnn`; it was created within the past, its deadline falls in the week after creation, it is pending exactly when the deadline is still ahead, quantity 1-10, budget bounds 100-599 and 600-1099, and no attachments |
| SupplierMock.DrawnDemands | productor_PC/src/mock/index.ts:43-69 | one demand per draw, the k-th numbered k+1 |
| SupplierMock.GenerateDemands | productor_PC/src/mock/index.ts:39-72 | twenty-five demands, a permutation of the drawn ones, newest first, each satisfying the generator's bounds, with ids D001 to D025 |
| SupplierMock.GeneratedDemandsPermuted | productor_PC/src/mock/index.ts:71 | sorting keeps the generator's bounds on every demand |
| SupplierMock.PermutedDrawnDemands | productor_PC/src/mock/index.ts:43-71 | any reordering of the twenty-five drawn demands keeps the generator's bounds on each and has ids D001 to D025, each once |
| SupplierMock.RandomInstant | productor_PC/src/mock/index.ts:33-36 | a random instant between two instants lies between them |
| SupplierMock.DrawnQuote | productor_PC/src/mock/index.ts:81-104 | the i-th quote has id `Qnnn`, belongs to one of the first ten demands with its quantity, was created between that demand's creation and now, has a price 300-799, `isWinner` exactly when won, and no attachments |
| SupplierMock.DrawnQuotes | productor_PC/src/mock/index.ts:80-105 | one quote per draw, the k-th numbered k+1 |
| SupplierMock.GenerateQuotes | productor_PC/src/mock/index.ts:75-108 | fifteen quotes, a permutation of the drawn ones, newest first, each satisfying the generator's bounds, with ids Q001 to Q015 |
| SupplierMock.GeneratedQuotesPermuted | productor_PC/src/mock/index.ts:107 | sorting keeps the generator's bounds on every quote |
| SupplierMock.PermutedDrawnQuotes | productor_PC/src/mock/index.ts:76-107 | any reordering of the fifteen drawn quotes keeps the generator's bounds on each and has ids Q001 to Q015, each once |
| SupplierMock.Login | productor_PC/src/mock/index.ts:116-136 | code 0 exactly for admin/123456, then with the first mock user and `mock_token_`/`mock_refresh_token_` tokens; otherwise 401 '用户名或密码错误' without data |
| SupplierMock.FilteredDemandsMatch | productor_PC/src/mock/index.ts:142-153 | the category, brand and status filters applied in turn are one filter by all present conditions |
| SupplierMock.ListDemands | productor_PC/src/mock/index.ts:139-169 | code 0; total counts all matching demands; page and size default to 1 and 10; the list is that page of the matches in stored order |
| SupplierMock.ListedDemandsMatch | productor_PC/src/mock/index.ts:139-169 | every listed demand is stored and matches the filter |
| SupplierMock.ListMyQuotes | productor_PC/src/mock/index.ts:217-240 | code 0; no status or 'all' lists every quote; otherwise only quotes of that status; the list is the requested page of them |
| SupplierMock.NewQuote | productor_PC/src/mock/index.ts:191-209 | a submitted quote is numbered one past the current count, pending, not yet a winner, created now, with the demand's number and title and the caller's price, quantity and brand; the submitted attachment URLs are dropped, so it has no attachments |
| SupplierMock.SupplierApi.constructor | productor_PC/src/mock/index.ts:110-111 | the back-end starts with the 25 drawn demands reordered newest first and the 15 quotes drawn over those stored demands, also newest first; the demand ids are D001-D025 and the quote ids Q001-Q015, each once, and every record keeps the generator's bounds |
| SupplierMock.SupplierApi.GetDemandDetail | productor_PC/src/mock/index.ts:172-180 | code 0 with the first demand of that id exactly when one exists, otherwise 404 '需求不存在' |
| SupplierMock.SupplierApi.SubmitQuote | productor_PC/src/mock/index.ts:183-214 | an unknown demand gives 404 and changes nothing; otherwise the new quote, without attachments, is put at the front of the quotes and returned with code 0; the demands never change |
| SupplierMock.SupplierApi.SubmitShipping | productor_PC/src/mock/index.ts:243-262 | code 0 with a shipped record of the parameters exactly when a quote of that id exists, otherwise 404 '报价不存在' |
| SupplierMock.SubmittedIdIsFresh | productor_PC/src/mock/index.ts:192 | while the quotes are numbered 1 to n, a new quote's id is not taken |
| SupplierMock.FirstDemandIsStored | productor_PC/src/mock/index.ts:43-51 | D001 is always among the generated demands |
| SupplierMock.UnfilteredListHead | productor_PC/src/mock/index.ts:217-240 | the unfiltered first page starts with the newest stored quote and counts all quotes |
| SupplierMock.SixteenthQuoteId | productor_PC/src/mock/index.ts:192 | the sixteenth quote is `Q016` |
| SupplierMock.SubmitQuoteHeadsMyList | productor_PC/src/mock/index.ts:183-240 | on a fresh back-end, a quote for D001 gets id Q016, is pending, heads the unfiltered quote list and raises the total to 16 |
| PurchaseSlice.FetchPage | src/store/slices/purchase.ts:45-60 | the payload reports the page asked for, size 10 and the full match count, and for a page of at least 1 lists exactly that page of the filtered newest-first query |
| PurchaseSlice.PurchaseState.constructor | src/store/slices/purchase.ts:30-42 | a new state is `initialState`: empty list, total 0, page 1, size 10, nothing loading, no filter, empty keyword |
| PurchaseSlice.PurchaseState.SetCurrentPurchase | src/store/slices/purchase.ts:106-108 | only the current purchase changes, to the payload |
| PurchaseSlice.PurchaseState.SetFilterStatus | src/store/slices/purchase.ts:110-113 | the filter status becomes the payload and the page goes back to 1; nothing else changes |
| PurchaseSlice.PurchaseState.SetKeyword | src/store/slices/purchase.ts:115-118 | the keyword becomes the payload and the page goes back to 1; nothing else changes |
| PurchaseSlice.PurchaseState.SetLoading | src/store/slices/purchase.ts:120-122 | only the loading flag changes |
| PurchaseSlice.PurchaseState.SetRefreshing | src/store/slices/purchase.ts:124-126 | only the refreshing flag changes |
| PurchaseSlice.PurchaseState.ClearPurchaseList | src/store/slices/purchase.ts:128-132 | the list empties, the total is 0 and the page 1; filters and everything else are kept |
| PurchaseSlice.PurchaseState.FetchListPending | src/store/slices/purchase.ts:137-139 | only the loading flag is set |
| PurchaseSlice.PurchaseState.FetchListFulfilled | src/store/slices/purchase.ts:140-150 | page 1 replaces the list, a later page is appended after it; total and page come from the payload and both busy flags clear |
| PurchaseSlice.PurchaseState.FetchListRejected | src/store/slices/purchase.ts:151-154 | both busy flags clear and the list, total and page are kept |
| PurchaseSlice.PurchaseState.FetchCategoriesFulfilled | src/store/slices/purchase.ts:156-158 | only the categories change, to the payload |
| PurchaseSlice.PurchaseState.FetchBrandsFulfilled | src/store/slices/purchase.ts:160-162 | only the brands change, to the payload |
| PurchaseSlice.PurchaseState.CreatePurchaseFulfilled | src/store/slices/purchase.ts:164-167 | the created purchase goes to the front of the list and the total grows by one |
| PurchaseSlice.NextPage | src/store/slices/purchase.ts:143-147 | appending page p+1 to the first p pages gives the first p+1 pages of the result |
| PurchaseSlice.Scroll | src/store/slices/purchase.ts:137-150 | after loading pages 1..n in turn (pending then fulfilled) the list shown is exactly the first 10n results, the page is n, nothing is loading and the total is the full count |
| PurchaseSlice.ScrollPages | src/store/slices/purchase.ts:45-60 | scrolling n pages through the mock back-end shows the first 10n purchases of the filtered newest-first query, with the match count as total |
| OrderSlice.MarkedReceived | src/store/slices/order.ts:124-127 | the order becomes RECEIVED with the label '已收货' and every other field is kept |
| OrderSlice.OrderState.constructor | src/store/slices/order.ts:22-28 | a new state is `initialState`: no order, no status, empty label and timeline, not loading |
| OrderSlice.OrderState.SetCurrentOrder | src/store/slices/order.ts:87-89 | only the current order changes, to the payload |
| OrderSlice.OrderState.ClearOrder | src/store/slices/order.ts:91-96 | order, status, label and timeline go back to their initial values and the loading flag is kept |
| OrderSlice.OrderState.FetchDetailPending | src/store/slices/order.ts:101-103 | only the loading flag is set |
| OrderSlice.OrderState.FetchDetailFulfilled | src/store/slices/order.ts:104-112 | a found order becomes current and its status, label and timeline are copied; no order clears the current one and keeps the old copies; loading clears and the copies agree with the order afterwards |
| OrderSlice.OrderState.FetchDetailRejected | src/store/slices/order.ts:113-115 | only the loading flag clears |
| OrderSlice.OrderState.FetchStatusFulfilled | src/store/slices/order.ts:117-121 | the status, label and timeline copies take the payload's values; the current order is untouched |
| OrderSlice.OrderState.ConfirmReceiveFulfilled | src/store/slices/order.ts:123-128 | on success with a current order that order alone is marked received; otherwise nothing changes |
| OrderSlice.ReceiptThenStatusReload | src/store/slices/order.ts:101-128 | in a composition of the slice's thunks that no page performs, after a receipt the order shows RECEIVED while the separate status copy keeps its earlier, different value; a status reload brings the copy to RECEIVED with the timeline the order was generated with |
| QuoteStore.CountStatus | src/stores/quote.ts:16-17 | a status count never exceeds the list length |
| QuoteStore.CountAppend | src/stores/quote.ts:16-17 | the count over two joined lists is the sum of their counts |
| QuoteStore.CountsPartition | src/stores/quote.ts:16-17 | the pending, won and lost counts add up to the list length |
| QuoteStore.CountUpdate | src/stores/quote.ts:70-76 | replacing one quote changes a status count by at most the old quote leaving and the new one arriving |
| QuoteStore.WithStatus | src/stores/quote.ts:72-75 | the quote gets the new status and a winner flag that is true exactly for `won`; every other field is kept |
| QuoteStore.QuoteStore.constructor | src/stores/quote.ts:7-13 | a new store has an empty list, total 0, no current quote, page 1, size 10 and no status filter |
| QuoteStore.QuoteStore.FetchListBegin | src/stores/quote.ts:19-34 | while a fetch is in flight nothing is sent and nothing changes; otherwise a refresh resets page and list, loading is set and the request carries page, size and the filter (absent when empty) |
| QuoteStore.QuoteStore.FetchListEnd | src/stores/quote.ts:35-45 | a successful answer replaces (refresh) or extends the list and sets the total; any other answer keeps them; loading always clears, and consistent winner flags stay consistent |
| QuoteStore.QuoteStore.LoadMore | src/stores/quote.ts:48-52 | with nothing more to load nothing happens; otherwise the page advances, and a fetch is sent only when none is in flight, so a call during a fetch still advances the page |
| QuoteStore.QuoteStore.LoadMoreWhenIdle | src/stores/quote.ts:48-52 | a request is sent exactly when more is available and no fetch is in flight, for the next page; otherwise the state is unchanged |
| QuoteStore.QuoteStore.SetStatusFilter | src/stores/quote.ts:54-57 | the filter is stored; when idle the list resets to page 1 and a refresh for that filter is requested |
| QuoteStore.QuoteStore.SubmitQuote | src/stores/quote.ts:59-67 | an accepted quote goes to the front of the list, the total grows by one and the pending count grows when it is pending; a refusal returns the message and changes nothing |
| QuoteStore.QuoteStore.UpdateQuoteStatus | src/stores/quote.ts:70-76 | the first quote with the id takes the status and matching winner flag; an unknown id changes nothing; consistent winner flags stay consistent |
| QuoteStore.QuoteStore.SetCurrentQuote | src/stores/quote.ts:78-80 | only the current quote changes |
| QuoteStore.WinningMovesCounts | src/stores/quote.ts:15-17 | a pending quote that wins moves one unit from the pending count to the won count and leaves the lost count alone |
| QuoteStore.DoubleLoadMoreSkipsPage | src/stores/quote.ts:48-52 | two `loadMore` calls before page 2 arrives make the next request ask for page 4, so page 3 is skipped |
| QuoteStore.DoubleLoadMoreWhenIdle | src/stores/quote.ts:48-52 | with the corrected `loadMore` the same scrolling requests page 2 and then page 3 |
| DemandStore.MockAnswer | productor_PC/src/api/demand.ts:18-27 | the mock answers every request with code 0, the requested page of the stored demands matching its category, brand and status, and the full match count; the time range is not passed on |
| DemandStore.DemandStore.constructor | productor_PC/src/stores/demand.ts:7-13 | a new store has an empty list, total 0, no current demand, page 1, size 10 and the empty filter |
| DemandStore.DemandStore.FetchListBegin | productor_PC/src/stores/demand.ts:17-31 | while a fetch is in flight nothing is sent and nothing changes; otherwise a refresh resets page and list, loading is set and the request carries page, size and the filter |
| DemandStore.DemandStore.FetchListEnd | productor_PC/src/stores/demand.ts:33-43 | a successful answer replaces (refresh) or extends the list and sets the total; any other answer keeps them; loading always clears |
| DemandStore.DemandStore.LoadMore | productor_PC/src/stores/demand.ts:46-50 | with nothing more to load nothing happens; otherwise the page advances, and a fetch is sent only when none is in flight, so a call during a fetch still advances the page |
| DemandStore.DemandStore.LoadMoreWhenIdle | productor_PC/src/stores/demand.ts:46-50 | a request is sent exactly when more is available and no fetch is in flight, for the next page; otherwise the state is unchanged |
| DemandStore.DemandStore.SetFilter | productor_PC/src/stores/demand.ts:52-55 | the filter is stored; when idle the list resets to page 1 and a refresh with that filter is requested |
| DemandStore.DemandStore.SetCurrentDemand | productor_PC/src/stores/demand.ts:57-59 | only the current demand changes |
| DemandStore.DemandStore.AddNewDemand | productor_PC/src/stores/demand.ts:62-65 | the pushed demand goes in front of the unchanged list, the total grows by one and whether more remain to load is unchanged |
| DemandStore.FilterThenShow | productor_PC/src/stores/demand.ts:52-55 | choosing a filter and receiving the answer shows the first ten stored demands that match it, each stored and matching, with the full match count as total and loading cleared |
| DemandStore.DoubleLoadMoreSkipsPage | productor_PC/src/stores/demand.ts:46-50 | two `loadMore` calls before page 2 arrives make the next request ask for page 4, so page 3 is skipped |
| DemandStore.DoubleLoadMoreWhenIdle | productor_PC/src/stores/demand.ts:46-50 | with the corrected `loadMore` the same scrolling requests page 2 and then page 3 |
| UserStore.Merge | productor_PC/src/stores/user.ts:49-54 | each field present in the patch overrides the stored one and an absent field keeps it; an empty patch changes nothing |
| UserStore.MergeIdempotent | productor_PC/src/stores/user.ts:49-54 | applying the same update twice is the same as applying it once |
| UserStore.MergeCompose | productor_PC/src/stores/user.ts:49-54 | two updates in a row equal one update with both patches combined, the later field winning |
| UserStore.UserStore.constructor | productor_PC/src/stores/user.ts:9-14 | the token and user are the stored ones, no failed logins are counted and no captcha is needed |
| UserStore.UserStore.Login | productor_PC/src/stores/user.ts:16-35 | a successful answer stores its token and user and resets the failure count, so no captcha is needed; any other answer returns its message, keeps the session and counts one more failure |
| UserStore.UserStore.Logout | productor_PC/src/stores/user.ts:37-47 | token and user are cleared whatever the API did, so the user is logged out; the failure count is kept |
| UserStore.UserStore.UpdateUserInfo | productor_PC/src/stores/user.ts:49-54 | a signed-in user is merged with the patch; without a user nothing is created; token, failure count and login state are kept |
| UserStore.FailuresThenSuccess | productor_PC/src/stores/user.ts:14-35 | n wrong passwords against the mock count n failures and require the captcha exactly when n is at least 5; the right credentials then sign in and clear it |
| BuyerValidator.ValidateAmount | src/utils/validator.ts:24-27 | the scan that takes the first dot as the decimal point accepts exactly the texts that split into an integer part without leading zeros and an optional one- or two-digit fraction |
| BuyerValidator.OnlySplitAtFirstDot | src/utils/validator.ts:25 | the amount pattern can only split a text at its first dot, or at its end when it has none |
| BuyerValidator.AmountRejectsFraction | src/utils/validator.ts:25 | `1` followed by a dot and a fraction the pattern refuses (no digit, or more than two) is not an amount |
| BuyerValidator.AmountOfInteger | src/utils/validator.ts:24-27 | the text of a whole number is a valid amount exactly when the number is not negative |
| BuyerValidator.AmountRejects | src/utils/validator.ts:25 | a leading zero before more digits, a trailing dot and three decimals are refused; 0, 12.5 and 0.05 are accepted |
| BuyerValidator.PositiveIntegerOfInteger | src/utils/validator.ts:32-35 | the text of a whole number passes the positive-integer check exactly when the number is above zero |
| BuyerValidator.RequiredIffNonBlank | src/utils/validator.ts:40-42 | required text is text with at least one character that is not white space |
| BuyerValidator.PhoneMeans | src/utils/validator.ts:8-11 | a phone number passes exactly when it has eleven digits, starts with `1` and its second digit is not 0, 1 or 2 |
| BuyerValidator.PhoneSecondDigit | src/utils/validator.ts:8-11 | `1`, a character `d` and nine digits pass exactly when `d` is 3 to 9 |
| BuyerValidator.VerifyCodeOfNumber | src/utils/validator.ts:16-19 | a number zero-padded to six places is a verification code exactly when it is below 1000000 |
| BuyerValidator.MillionIsPow10 | src/utils/validator.ts:18 | ten to the sixth is 1000000 |
| BuyerValidator.RequiredIsLengthFromOne | src/utils/validator.ts:40-50 | the required check is the length check with bounds one and the text's own length |
| BuyerValidator.LengthAndRequired | src/utils/validator.ts:40-50 | with a minimum of at least one, text of valid length is required text; with a minimum of zero and a non-negative maximum, blank text passes the length check |
| BuyerValidator.LengthMonotone | src/utils/validator.ts:47-50 | widening the bounds never rejects a text the narrower bounds accept |
| BuyerValidator.OnlySeparatorMayBeSpace | src/utils/validator.ts:67 | in a date-time of the required shape no character but the separator can be a space |
| BuyerValidator.DateTimeSeparator | src/utils/validator.ts:66-72 | with a space separator the parser gets the text with that space turned into `T`; with another white-space separator it gets the text unchanged |
| BuyerValidator.TimeOrderStrict | src/utils/validator.ts:80-84 | no two times are each later than the other and no time is later than itself |
| BuyerValidator.FormChecks | src/utils/validator.ts:123-143 | the form has exactly seven checks |
| BuyerValidator.FirstFailure | src/utils/validator.ts:123-144 | the result is valid with an empty message exactly when every check passes; otherwise its message is that of the first failing check |
| BuyerValidator.SevenChecks | src/utils/validator.ts:123-144 | seven checks run in order give the same result as the chain of seven early returns |
| BuyerValidator.PurchaseFormChecksInOrder | src/utils/validator.ts:115-145 | the form validator is the seven checks, category through time order, run in order until one fails |
| BuyerValidator.ValidFormMeans | src/utils/validator.ts:115-145 | a form is valid exactly when a category is chosen, the part name is not blank, quantity and budget are above zero, both times are well-formed dates and the quote deadline is strictly before the arrival time |
| SupplierValidator.PhoneMeans | productor_PC/src/utils/validator.ts:2-5 | a phone number passes exactly when it has eleven digits, starts with `1` and its second digit is 3 to 9 |
| SupplierValidator.QuantityAgreesWithPositiveInteger | productor_PC/src/utils/validator.ts:24-27 | an integer quantity passes exactly when it is above zero, which is when its decimal text passes the buyer app's positive-integer check |
| SupplierValidator.TrackingNumberOfNumber | productor_PC/src/utils/validator.ts:30-34 | a number written in decimal is a tracking number exactly when it is at least 10^7 and below 10^30, that is, has 8 to 30 digits |
| SupplierValidator.TrackingNumberIsRequired | productor_PC/src/utils/validator.ts:30-47 | a tracking number always passes the required check |
| SupplierValidator.PasswordCountsBlanks | productor_PC/src/utils/validator.ts:37-39 | text with at least six characters after trimming is a valid password, and so are six spaces, which a trimmed length check refuses |
| SupplierValidator.FileSizeAgrees | productor_PC/src/utils/validator.ts:50-53 | a limit in MB accepts exactly the files the buyer app's byte-limit check accepts with the limit times 1048576 |
| SupplierValidator.PlainEntriesAgree | productor_PC/src/utils/validator.ts:56-70 | for a lower-case MIME type and a list of plain entries, a type that the buyer app's exact-match check accepts is also accepted here |
| SupplierValidator.SplitIsFirstAtLastDot | productor_PC/src/utils/validator.ts:9 | any way of matching the e-mail pattern puts the `@` at the first `@` of the text and the domain dot at its last dot |
| SupplierValidator.ValidateEmail | productor_PC/src/utils/validator.ts:8-11 | the one-pass check accepts exactly the texts the e-mail pattern matches |
| SupplierValidator.EmailHasOneAt | productor_PC/src/utils/validator.ts:8-11 | an accepted address has exactly one `@`, with text on both sides of it |
| SupplierValidator.EmailAccepts | productor_PC/src/utils/validator.ts:8-11 | `li@ap.cn` is accepted |
| SupplierValidator.EmailRejectsShortDomain | productor_PC/src/utils/validator.ts:9 | a one-letter top-level domain is refused |
| SupplierValidator.EmailRejectsSecondAt | productor_PC/src/utils/validator.ts:9 | an address with a second `@` is refused |
| SupplierValidator.RequiredTextAgrees | productor_PC/src/utils/validator.ts:42-47 | on text, the portal's required check agrees with the buyer app's |
| SupplierValidator.DefaultFileSize | productor_PC/src/utils/validator.ts:50-53 | without a limit a file passes exactly when it has at most 2097152 bytes |
| SupplierValidator.LastSegment | productor_PC/src/utils/validator.ts:57 | the extension holds no dot, ends the name and is the whole name or follows its last dot |
| SupplierValidator.MainType | productor_PC/src/utils/validator.ts:65 | the main type is a prefix of the entry |
| SupplierValidator.AnyEntryMatches | productor_PC/src/utils/validator.ts:60-69 | the file is accepted exactly when at least one allowed entry matches it |
| SupplierValidator.LowerIdempotent | productor_PC/src/utils/validator.ts:57-58 | lower-casing an already lower-cased text changes nothing |
| SupplierValidator.ExtensionEntry | productor_PC/src/utils/validator.ts:56-70 | a `.ext` entry accepts a file exactly when the text after the name's last dot equals `ext` ignoring case, whatever the MIME type |
| Format.LeadingDigits | src/utils/format.ts:99-111 | the count is of the digits the text starts with: all of them are digits and the next character, if any, is not |
| Format.ReadNumberOf | src/utils/format.ts:99-111 | a number written out and followed by a non-digit reads back as itself |
| Format.DurationParts | src/utils/format.ts:104-110 | a duration of a day or more is whole days (at least one) plus remaining hours under 24 that add back up to the input, and the remaining hours are shown only when not zero |
| Format.NegativeDurationRoundTrip | src/utils/format.ts:100-102 | a negative hour count reads back from its text |
| Format.HoursDurationRoundTrip | src/utils/format.ts:100-102 | under a day, the hour count reads back from its text |
| Format.DaysDurationRoundTrip | src/utils/format.ts:104-110 | a day or more reads back from the days-and-hours text |
| Format.DurationRoundTrip | src/utils/format.ts:99-111 | every hour count can be read back from its formatted duration |
| Format.DurationInjective | src/utils/format.ts:99-111 | two different hour counts never format to the same text |
| Format.DigitRun | src/utils/format.ts:93 | the search returns the first position from which the required run of digits starts, or -1 when there is none |
| Format.FormatPhoneHidden | src/utils/format.ts:91-94 | the length is kept; an 11-digit number keeps its first three and last four digits with `****` between; anything else is returned unchanged |
| Format.PhoneHiddenIdempotent | src/utils/format.ts:91-94 | masking an already masked number changes nothing |
| Format.ValidPhoneIsMasked | src/utils/format.ts:91-94 | a valid mobile number is shown as its first three digits, `****` and its last four |
| Format.GroupBy4Layout | src/utils/format.ts:117 | grouping by four puts a space after each complete group and keeps every other character in order |
| Format.GroupBy4Spaces | src/utils/format.ts:117 | removing the spaces from the grouped text gives back the input |
| Format.OrderNoTrim | src/utils/format.ts:117 | the trim removes exactly the trailing space left when the length is a multiple of four |
| Format.OrderNoSpaces | src/utils/format.ts:116-118 | removing the spaces from a formatted order number gives back the order number |
| Format.OrderNoLayout | src/utils/format.ts:116-118 | the formatted number has one space between consecutive groups of four and none at the end, with the characters in order |
| Format.OrderNoGroups | src/utils/format.ts:116-118 | the formatted number neither starts nor ends with a space, has a space in every fifth place, and drops back to the input without its spaces |
| Format.Group3Length | src/utils/format.ts:19 | grouping a digit string adds one comma per complete group of three after the first group |
| Format.Group3Commas | src/utils/format.ts:19 | the grouped digits have a comma in every fourth place counted from the right and digits elsewhere |
| Format.Group3Digits | src/utils/format.ts:19 | removing the commas from grouped digits gives back the digits |
| Format.Zeros | src/utils/format.ts:11 | the padding is n zero characters |
| Format.AmountPieces | src/utils/format.ts:10-12 | an integer amount is formatted as its sign, its digits and a fraction of zeros, two by default |
| Format.AmountWithCommaDigits | src/utils/format.ts:17-21 | the amount with thousands separators is the plain formatted amount once its commas are removed, with a comma every three digits |
| Format.AmountWithCommaExample | src/utils/format.ts:17-21 | 1234567 is shown as `1,234,567.00` |
| Format.PaddedField | src/utils/format.ts:133-135 | a number below 10^width padded with zeros is exactly width digits and reads back as the number |
| Text.NatToStringLongEnough | src/utils/format.ts:132 | a number of at least 10^k has at least k+1 digits |
| Format.YearField | src/utils/format.ts:132 | a four-digit year is written as four digits that read back as the year |
| Format.DateDigitsLayout | src/utils/format.ts:137 | the digit part of an order number is twelve digits: the year, then month and day padded to two, then the random number padded to four |
| Format.FieldValues | src/utils/format.ts:132-137 | twelve digits laid out that way read back as year, month, day and random number |
| Format.DateDigitsRoundTrip | src/utils/format.ts:132-137 | the digit part of an order number reads back as the date and random number it was made from |
| Format.ReadPrefixed | src/utils/format.ts:137 | an order number is split back into any prefix and the fields of its last twelve digits |
| Format.OrderNoRoundTrip | src/utils/format.ts:130-138 | a generated order number is the prefix (`PO` by default) plus twelve characters, and reads back as exactly that prefix, year, month, day and random number |
| Format.FormatDate | src/utils/format.ts:28-47 | an invalid date formats as the empty text |
| Format.FirstTokenAfter | src/utils/format.ts:40-46 | a token after text without letters is the one replaced |
| Format.NoTokenIn | src/utils/format.ts:40-46 | text without letters is left alone by every token replacement |
| Format.RenderedHasNoLetters | src/utils/format.ts:33-38 | rendered numbers hold no letters, so a filled-in field is never taken for a later token |
| Format.Pad2RoundTrip | src/utils/format.ts:34-38 | a number under 100 padded to two is two digits that read back as the number |
| Format.YearTokenFilled | src/utils/format.ts:41 | the year replaces `YYYY` in the default format |
| Format.MonthTokenFilled | src/utils/format.ts:42 | after the year, the month replaces `MM` |
| Format.DayTokenFilled | src/utils/format.ts:43 | after year and month, the day replaces `DD` |
| Format.DefaultFormatFilled | src/utils/format.ts:40-46 | filling the default format gives year, month and day joined by dashes; the time tokens find nothing to replace |
| Format.DefaultDateFormat | src/utils/format.ts:28-47 | with the default format a valid date is shown as `YYYY-MM-DD`, month and day padded to two digits |
| Format.FormatWithoutTokens | src/utils/format.ts:40-46 | a format without letters is returned unchanged |
| Format.FormatRelativeTime | src/utils/format.ts:52-73 | an invalid date or under a minute reads `刚刚`; then whole minutes, hours or days ago; from eight days on the date as `MM-DD HH:mm` |
| Access.Roles | manager_PC/auto-service-admin/src/access.ts:19-33 | roles are found only for a non-empty stored text that parsed to an object, and are then its `roles` list when it has one |
| Access.GetAccess | manager_PC/auto-service-admin/src/access.ts:18-57 | logged in exactly when a non-empty text is stored; admin and user management exactly with the `admin` role; operator with `operator` or `admin`; analyst with `analyst` or `admin` |
| Access.ManageFlagsFollowAdminOrOperator | manager_PC/auto-service-admin/src/access.ts:43-55 | the seven other management flags hold together, exactly when the roles include admin or operator, and otherwise none of them holds |
| Access.NoRolesNoAccess | manager_PC/auto-service-admin/src/access.ts:19-33 | nothing stored, an empty text, malformed JSON, `null` or no roles gives no roles and no role or management flag |
| Access.MalformedIsLoggedInWithoutRoles | manager_PC/auto-service-admin/src/access.ts:19-28 | a stored text that does not parse still counts as logged in, with no role or management flag |
| Access.AdminHasEverything | manager_PC/auto-service-admin/src/access.ts:35-55 | an admin is logged in and has every role and management flag |
| Access.OperatorManagesAllButUsers | manager_PC/auto-service-admin/src/access.ts:37-55 | an operator who is not an admin manages everything except users |
| Access.AnalystOnlyManagesNothing | manager_PC/auto-service-admin/src/access.ts:39-55 | a user whose only role is analyst is an analyst, neither admin nor operator, and manages nothing |
| Access.FlagHierarchy | manager_PC/auto-service-admin/src/access.ts:35-55 | user management goes with admin; admin implies every other flag; any management flag implies operator and login; any role implies login |
| CategoryTree.ChildrenSizeIs | manager_PC/auto-service-admin/src/pages/MasterData/Category/index.tsx:35-42 | the size counted over the children of a category is the size of the forest of those children |
| CategoryTree.SizeUnfold | manager_PC/auto-service-admin/src/pages/MasterData/Category/index.tsx:35-42 | a subtree is its root plus the forest of its children |
| CategoryTree.FirstWithId | manager_PC/auto-service-admin/src/pages/MasterData/Category/index.tsx:149-158 | nothing is found exactly when no category in the list has the id; a result has the id and no earlier category has it |
| CategoryTree.FirstWithIdAppend | manager_PC/auto-service-admin/src/pages/MasterData/Category/index.tsx:149-158 | the first match in two joined lists is the first match in the first list, or else in the second |
| CategoryTree.FindIsFirstInPreorder | manager_PC/auto-service-admin/src/pages/MasterData/Category/index.tsx:149-158 | the search returns the first category with the id in preorder (each category before its children, siblings in order) |
| CategoryTree.FindNodeByIdSpec | manager_PC/auto-service-admin/src/pages/MasterData/Category/index.tsx:149-158 | a found category has the id and belongs to the tree; nothing is found exactly when no category of the tree has the id |
| CategoryTree.TopLevelFirst | manager_PC/auto-service-admin/src/pages/MasterData/Category/index.tsx:149-158 | a top-level category with the id is found when no earlier top-level subtree holds the id |
| CategoryTree.NotFoundWhenAbsent | manager_PC/auto-service-admin/src/pages/MasterData/Category/index.tsx:149-158 | an id that no category of the tree has is not found |
| CategoryTree.ConvertToTreeData | manager_PC/auto-service-admin/src/pages/MasterData/Category/index.tsx:134-140 | each category becomes one node in the same place, keyed by its id and titled by its name, with children exactly when it has a children list |
| CategoryTree.ConvertKeepsPreorder | manager_PC/auto-service-admin/src/pages/MasterData/Category/index.tsx:134-140 | the converted tree lists in preorder the same keys as the category ids, so nesting and order are kept |
| CategoryTree.ConvertChildren | manager_PC/auto-service-admin/src/pages/MasterData/Category/index.tsx:134-140 | a present children list converts to the conversion of those children, of the same length, and an empty one stays empty |
| PurchaseCreate.Entries | src/pages/purchase/create/index.tsx:64-70 | a category with children contributes one entry per child, any other category exactly one |
| PurchaseCreate.FlatCategories | src/pages/purchase/create/index.tsx:63-72 | the list built by the loop is the flattening of the categories: their entries in order |
| PurchaseCreate.FlattenLength | src/pages/purchase/create/index.tsx:63-72 | the flat list has one entry per child of each category with children and one per other category |
| PurchaseCreate.FlattenAppend | src/pages/purchase/create/index.tsx:63-72 | flattening two lists of categories one after the other gives their flat lists one after the other |
| PurchaseCreate.EntriesFromOne | src/pages/purchase/create/index.tsx:64-70 | each entry of a category is either one of its children, labelled `parent / child`, or the leaf category itself |
| PurchaseCreate.FlattenEntriesOrigin | src/pages/purchase/create/index.tsx:63-72 | every flat entry comes from one of the categories, as a direct child or as a leaf; nothing else is listed |
| PurchaseCreate.ChildrenInOrder | src/pages/purchase/create/index.tsx:64-67 | a category with children is replaced by its children in order, each with the child's id and the label `parent / child` |
| PurchaseCreate.LeafListsItself | src/pages/purchase/create/index.tsx:68-70 | a category with no or empty children lists itself with its own id and name |
| PurchaseCreate.AtNoon | src/pages/purchase/create/index.tsx:99-100 | the chosen date is kept and followed by ` 12:00` |
| PurchaseCreate.ParseIntRoundTrip | src/pages/purchase/create/index.tsx:114 | the quantity written as a whole number is read back as that number |
| PurchaseCreate.NonNumericReadsZero | src/pages/purchase/create/index.tsx:114 | a quantity without leading digits (after white space and a sign) is taken as 0 |
| PurchaseCreate.SubmittedForm | src/pages/purchase/create/index.tsx:111-118 | the validator sees the category, part name and both times as entered, the parsed quantity and the budget |
| PurchaseCreate.NonPositiveQuantityRejected | src/pages/purchase/create/index.tsx:110-123 | a quantity that reads as zero or less, blank or non-numeric text included, never passes the submit check |
| PurchaseCreate.PurchaseCreatePage.constructor | src/pages/purchase/create/index.tsx:49-54 | the page starts with the empty form, no date picker, no confirmation dialog and no message |
| PurchaseCreate.PurchaseCreatePage.OpenDatePicker | src/pages/purchase/create/index.tsx:53 | only the open date picker changes, to the one chosen |
| PurchaseCreate.PurchaseCreatePage.HandleDateSelect | src/pages/purchase/create/index.tsx:98-108 | with the arrival picker open the arrival time is set to the date at noon, otherwise the quote deadline is; the picker closes and nothing else changes |
| PurchaseCreate.PurchaseCreatePage.HandleSubmit | src/pages/purchase/create/index.tsx:110-126 | a valid form opens the confirmation dialog; an invalid one shows the validator's message and leaves the dialog as it was; the form is not changed |
| PurchaseCreate.PickDatesThenSubmit | src/pages/purchase/create/index.tsx:98-126 | picking both dates on a fresh page fills both times at noon, and submitting without a category shows the category message and opens no dialog |

## Left out

- Rendering, routing and framework wiring: every React/Vue/Taro page apart from the handlers named above, the dashboard charts, and the router and build configuration.
- HTTP clients and the service wrappers that choose between mock and HTTP. The model calls the mock functions directly.
- Storage: reads from `localStorage`/Taro storage are parameters (the user store's constructor, `Access.GetAccess`), and writes to storage are not modelled.
- The `delay` before each supplier-mock answer, the `async`/`await` sequencing and thunk dispatch. Each thunk's pending, fulfilled and rejected cases are separate events.
- The WebSocket simulation, browser notifications, sound and upload pickers (`uploadFile` in the supplier mock). These are driven by timers and foreign APIs.
- `generateId` in `src/utils/format.ts`: its text comes from the clock and `Math.random` in base 36, and nothing in the core reads it back.
- `mockGetCategories`, `mockGetBrands` and `mockSubmitFeedback` (`src/services/mock/purchase.ts:126-142`, `src/services/mock/order.ts:137-143`) answer with a constant. Only the tables they return are modelled (`PurchaseMock.MockCategories`, `PurchaseMock.MockBrands`).
- Floating point: `validatePrice`, `formatFileSize`, `toFixed` on fractional amounts and `parseFloat`.
- Format.FormatAmount: takes whole amounts only. For an integer below 1e21, `toFixed` only appends zeros; larger values switch to exponent notation, which is not modelled.
- PurchaseCreate.SubmittedForm: takes the budget as an already parsed whole number, because `parseFloat(formData.budget) \|\| 0` is floating point.
- PurchaseCreate.ParseIntOrZero: reads optional white space, an optional sign and decimal digits. The `0x` prefix that `parseInt` also accepts is not modelled.
- SupplierValidator.ValidateQuantity: takes a number that is already an integer. The string branch through `parseInt` and non-integer numbers are not modelled.
- Dates: `new Date(text).getTime()` is the parameter `parse` (`None` for NaN), and a `Date` is given by its calendar fields (`DateFields`). Time zones and calendar validity are not modelled.
- Text.Lower and Text.LowerChar: lower-case ASCII letters only, where JavaScript's `toLowerCase` uses the full Unicode tables. Trimming uses JavaScript's white-space set.
- Access.Roles: a stored `roles` value that is not an array is not modelled. A string would make `includes` a substring test. `Parsed` records only whether the parse threw, gave `null`, or gave an object with or without a role list.
- The admin Category page outside `findNodeById` and `convertToTreeData`: its form, modal and drag handlers, and its inline mock categories.
- The create-purchase page outside `flatCategories`, `handleDateSelect` and the validation gate of `handleSubmit`: `handleInputChange`, `handleCategorySelect`, `handleBrandSelect`, `handleConfirmSubmit`, uploads and the `submitting` flag.
- SupplierValidator.ValidatePassword: counts Unicode characters, where JavaScript's `length` counts UTF-16 code units. A password holding characters outside the Basic Multilingual Plane, such as emoji, is judged on a different length.
- BuyerValidator.ValidateLength: counts Unicode characters after trimming, where JavaScript counts UTF-16 code units. Texts with characters outside the Basic Multilingual Plane are judged on a different length.
- Format.FormatPhoneHidden: its 11-character test counts Unicode characters, where JavaScript counts UTF-16 code units. Input with characters outside the Basic Multilingual Plane is treated differently.
- Format.GroupBy4: groups Unicode characters, where the expression `.{4}` without the `u` flag matches UTF-16 code units. Input with characters outside the Basic Multilingual Plane is grouped differently.
- Shared objects and aliasing. The quote mock returns its cached array and later changes that array in place. The order mock returns its stored order and later changes that object. The buyer quote store changes quote objects that the supplier mock's list also holds. The model copies values, so it does not capture a list the caller already holds changing later, or a mock record changing through the store. Immer freezing state objects is not modelled either.
- Format.ToFixed and Format.FormatAmount: take any number of decimals. `toFixed` throws a `RangeError` for more than 100 digits, and that case is not modelled.
- QuoteStore.QuoteStore.SubmitQuote: models answers the service returns. `submitQuote` has no `try`/`catch`, so a rejected request propagates to the caller with the store unchanged, and that path is not modelled.
- UserStore.UserStore.Login: models answers the service returns. `login` has no `try`/`catch`, so a rejected request propagates with the session and failure count unchanged, and that path is not modelled.
- UserStore.Merge: a patch field is either present with a value or absent. In JavaScript, a key that is present with the value `undefined` overwrites the field with `undefined`; the model reads such a key as absent.
- QuoteStore.CountStatus: states only that a count is bounded by the list length. How counts change is stated by `CountAppend`, `CountUpdate`, `CountsPartition` and `WinningMovesCounts`.
- Format.FormatDate: its own contract covers only the invalid date. The filled-in formats are stated by `DefaultDateFormat`, `FormatWithoutTokens` and the token lemmas.

## Findings

| source | as written | input that shows it | evidently intended | confidence | as-written member | corrected member |
|---|---|---|---|---|---|---|
| src/stores/quote.ts:48-52 | `loadMore` advances `page` before `fetchList`, which returns at once while a fetch is in flight | 30 quotes on the server, page 1 loaded; `loadMore` twice before page 2 arrives, then once more: the requests are for pages 2 and 4, and page 3 is never loaded | advance the page only when a fetch is actually sent | medium, not executed | QuoteStore.DoubleLoadMoreSkipsPage | QuoteStore.QuoteStore.LoadMoreWhenIdle |
| productor_PC/src/stores/demand.ts:46-50 | same pattern in the demand store's `loadMore` | the same sequence on 30 demands requests pages 2 and 4 | advance the page only when a fetch is actually sent | medium, not executed | DemandStore.DoubleLoadMoreSkipsPage | DemandStore.DemandStore.LoadMoreWhenIdle |
