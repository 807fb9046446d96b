/**
 * The supplier portal's in-memory back-end (productor_PC/src/mock/index.ts):
 * the generated demands and quotes, login, the demand list and detail, quote
 * submission (prepended to `mockQuotes`), the supplier's own quote list and
 * shipping submission.
 */
module SupplierMock {
  import opened Wrappers
  import opened Text
  import opened Lists
  import opened SupplierTypes

  // ---------------------------------------------------------------------------
  // Fixed tables
  // ---------------------------------------------------------------------------

  /** `mockUsers[0]` */
  const AdminUser: User :=
    User("U001", "admin", "admin@example.com", "13800138000", "优质汽配供应商有限公司", SupplierRole, Some(""))

  const Categories: seq<string> := ["发动机配件", "制动系统", "悬挂系统", "电气系统", "车身配件", "滤清器", "变速箱配件"]

  const Brands: seq<string> := ["博世", "电装", "大陆", "采埃孚", "德尔福", "海拉", "法雷奥", "天合", "其他"]

  /** `stores`, each with its name, contact, phone and address. */
  const Stores: seq<(string, string, string, string)> := [
    ("北京朝阳汽修店", "张经理", "13900139001", "北京市朝阳区xxx路123号"),
    ("上海浦东维修中心", "李主管", "13900139002", "上海市浦东新区xxx街456号"),
    ("广州天河汽修厂", "王总", "13900139003", "广州市天河区xxx大道789号"),
    ("深圳南山区快修店", "赵店长", "13900139004", "深圳市南山区xxx路101号"),
    ("杭州西湖维修站", "钱经理", "13900139005", "杭州市西湖区xxx巷202号")
  ]

  const DayMs: int := 86400000

  // ---------------------------------------------------------------------------
  // Numbered ids
  // ---------------------------------------------------------------------------

  /** `prefix + String(i).padStart(3, '0')`, as in `D001` and `Q016`. */
  function NumberedId(prefix: string, i: nat): string {
    prefix + PadStart(NatToString(i), 3, '0')
  }

  lemma NumberedIdInjective(prefix: string, i: nat, j: nat)
    ensures NumberedId(prefix, i) == NumberedId(prefix, j) ==> i == j
  {
    if NumberedId(prefix, i) == NumberedId(prefix, j) {
      assert PadStart(NatToString(i), 3, '0') == NumberedId(prefix, i)[|prefix|..];
      assert PadStart(NatToString(j), 3, '0') == NumberedId(prefix, j)[|prefix|..];
      ZeroPaddedRoundTrip(i, 3);
      ZeroPaddedRoundTrip(j, 3);
    }
  }

  /** The ids `prefix` 001 up to `prefix` n, in order. */
  function Numbered(prefix: string, n: nat): (r: seq<string>)
    ensures |r| == n
    ensures forall k :: 0 <= k < n ==> r[k] == NumberedId(prefix, k + 1)
  {
    seq(n, k requires 0 <= k < n => NumberedId(prefix, k + 1))
  }

  /** When the ids in use are exactly the first `n` numbered ids, number `n + 1` is not among them. */
  lemma NextNumberedIdIsFresh(ids: seq<string>, prefix: string, n: nat)
    requires multiset(ids) == multiset(Numbered(prefix, n))
    ensures NumberedId(prefix, n + 1) !in ids
  {
    if NumberedId(prefix, n + 1) in ids {
      assert NumberedId(prefix, n + 1) in multiset(Numbered(prefix, n));
      var k :| 0 <= k < n && Numbered(prefix, n)[k] == NumberedId(prefix, n + 1);
      NumberedIdInjective(prefix, k + 1, n + 1);
    }
  }

  function DemandIdOf(d: Demand): string { d.id }

  function QuoteIdOf(q: Quote): string { q.id }

  function DemandCreatedAt(d: Demand): int { d.createdAt }

  function QuoteCreatedAt(q: Quote): int { q.createdAt }

  // ---------------------------------------------------------------------------
  // Generated demands
  // ---------------------------------------------------------------------------

  /**
   * The random choices behind one generated demand: the store, category and
   * brand indices, the creation time, the deadline offset after it, and the
   * raw quantity and budget draws.
   */
  datatype DemandDraw = DemandDraw(
    storeIndex: nat, categoryIndex: nat, brandIndex: nat, createdAt: int, deadlineOffset: int,
    quantityDraw: nat, budgetMinDraw: nat, budgetMaxDraw: nat)

  predicate ValidDemandDraw(d: DemandDraw, now: int) {
    && d.storeIndex < |Stores| && d.categoryIndex < |Categories| && d.brandIndex < |Brands|
    && now - 30 * DayMs <= d.createdAt <= now && 0 <= d.deadlineOffset < 7 * DayMs
    && d.quantityDraw < 10 && d.budgetMinDraw < 500 && d.budgetMaxDraw < 500
  }

  /** What every generated demand satisfies. */
  predicate GeneratedDemand(d: Demand, now: int) {
    && d.createdAt <= now
    && d.status == (if d.deadline > now then DemandPending else DemandClosed)
    && d.createdAt <= d.deadline < d.createdAt + 7 * DayMs
    && 1 <= d.quantity <= 10
    && 100 <= d.budgetMin < 600 <= d.budgetMax < 1100
    && d.attachments == []
  }

  /**
   * The `i`-th demand pushed by `generateDemands`. `dateStamp` renders a
   * timestamp as its local YYYYMMDD.
   */
  function DrawnDemand(i: nat, d: DemandDraw, now: int, dateStamp: int -> string): (r: Demand)
    requires ValidDemandDraw(d, now)
    ensures r.id == NumberedId("D", i)
    ensures GeneratedDemand(r, now)
  {
    var store := Stores[d.storeIndex];
    var category := Categories[d.categoryIndex];
    var brand := Brands[d.brandIndex];
    var deadline := d.createdAt + d.deadlineOffset;
    Demand(
      id := NumberedId("D", i),
      demandNo := "D" + dateStamp(d.createdAt) + PadStart(NatToString(i), 3, '0'),
      title := brand + category + "采购需求",
      description := "因业务需要，现采购" + brand + "品牌" + category + "相关配件，要求原厂正品，质量有保障。请供应商提供详细产品信息及报价方案。",
      category := category,
      brand := brand,
      quantity := d.quantityDraw + 1,
      budgetMin := d.budgetMinDraw + 100,
      budgetMax := d.budgetMaxDraw + 600,
      deadline := deadline,
      status := if deadline > now then DemandPending else DemandClosed,
      attachments := [],
      createdAt := d.createdAt,
      storeInfo := StoreInfo("S" + NatToString(d.storeIndex + 1), store.0, store.1, store.2, store.3))
  }

  /** The demands 1 to 25 in the order `generateDemands` pushes them. */
  function DrawnDemands(draws: seq<DemandDraw>, now: int, dateStamp: int -> string): (r: seq<Demand>)
    requires forall k :: 0 <= k < |draws| ==> ValidDemandDraw(draws[k], now)
    ensures |r| == |draws|
    ensures forall k :: 0 <= k < |draws| ==> r[k] == DrawnDemand(k + 1, draws[k], now, dateStamp)
  {
    seq(|draws|, k requires 0 <= k < |draws| => DrawnDemand(k + 1, draws[k], now, dateStamp))
  }

  /**
   * `generateDemands`: twenty-five demands, newest first. Each satisfies the
   * generator's invariants, and the ids are D001 to D025, each once.
   */
  method GenerateDemands(draws: seq<DemandDraw>, now: int, dateStamp: int -> string) returns (demands: seq<Demand>)
    requires |draws| == 25 && forall k :: 0 <= k < 25 ==> ValidDemandDraw(draws[k], now)
    ensures |demands| == 25
    ensures multiset(demands) == multiset(DrawnDemands(draws, now, dateStamp))
    ensures SortedBy(demands, DemandCreatedAt, true)
    ensures forall k :: 0 <= k < |demands| ==> GeneratedDemand(demands[k], now)
    ensures multiset(Map(demands, DemandIdOf)) == multiset(Numbered("D", 25))
  {
    var pushed: seq<Demand> := [];
    for i := 1 to 26
      invariant pushed == DrawnDemands(draws[..i - 1], now, dateStamp)
    {
      DrawnDemandsSnoc(draws, i - 1, now, dateStamp);
      pushed := pushed + [DrawnDemand(i, draws[i - 1], now, dateStamp)];
    }
    assert draws[..25] == draws;
    demands := SortBy(pushed, DemandCreatedAt, true);
    PermutedDrawnDemands(demands, draws, now, dateStamp);
  }

  /** Drawing one more demand appends it. */
  lemma DrawnDemandsSnoc(draws: seq<DemandDraw>, n: nat, now: int, dateStamp: int -> string)
    requires n < |draws| && forall k :: 0 <= k < |draws| ==> ValidDemandDraw(draws[k], now)
    ensures DrawnDemands(draws[..n + 1], now, dateStamp)
            == DrawnDemands(draws[..n], now, dateStamp) + [DrawnDemand(n + 1, draws[n], now, dateStamp)]
  {
    assert forall k :: 0 <= k < n ==> draws[..n + 1][k] == draws[..n][k];
  }

  /**
   * Any reordering of the twenty-five drawn demands keeps the generator's
   * bounds on each and has the ids D001 to D025, each once.
   */
  lemma PermutedDrawnDemands(demands: seq<Demand>, draws: seq<DemandDraw>, now: int, dateStamp: int -> string)
    requires |draws| == 25 && forall k :: 0 <= k < 25 ==> ValidDemandDraw(draws[k], now)
    requires multiset(demands) == multiset(DrawnDemands(draws, now, dateStamp))
    ensures forall k :: 0 <= k < |demands| ==> GeneratedDemand(demands[k], now)
    ensures multiset(Map(demands, DemandIdOf)) == multiset(Numbered("D", 25))
  {
    var drawn := DrawnDemands(draws, now, dateStamp);
    GeneratedDemandsPermuted(drawn, demands, now);
    MapPermutation(demands, drawn, DemandIdOf);
    assert Map(drawn, DemandIdOf) == Numbered("D", 25);
  }

  /** Reordering generated demands keeps each of them generated. */
  lemma GeneratedDemandsPermuted(s: seq<Demand>, t: seq<Demand>, now: int)
    requires multiset(s) == multiset(t)
    requires forall k :: 0 <= k < |s| ==> GeneratedDemand(s[k], now)
    ensures forall k :: 0 <= k < |t| ==> GeneratedDemand(t[k], now)
  {
    forall k | 0 <= k < |t| ensures GeneratedDemand(t[k], now) {
      assert t[k] in multiset(s);
    }
  }

  // ---------------------------------------------------------------------------
  // Generated quotes
  // ---------------------------------------------------------------------------

  const DeliveryMethods: seq<DeliveryMethod> := [Express, Pickup, Logistics]

  const QuoteStatuses: seq<QuoteStatus> := [QuotePending, QuoteWon, QuoteLost]

  /** The resolution of the random fraction used by `randomDate`. */
  const FractionScale: nat := 1000000

  /**
   * `randomDate(start, end)`: the instant the fraction `f` (out of
   * `FractionScale`) of the way from `start` to `end`, rounded down.
   */
  function RandomInstant(start: int, end: int, f: nat): (t: int)
    requires start <= end && f < FractionScale
    ensures start <= t <= end
  {
    var span := end - start;
    assert 0 <= f * span <= FractionScale * span by {
      assert f * span <= FractionScale * span;
    }
    start + f * span / FractionScale
  }

  /**
   * The random choices behind one generated quote: which of the ten newest
   * demands it answers, its status, where its creation time falls between the
   * demand's and now, its raw price, production date, delivery method and
   * delivery-hours draw.
   */
  datatype QuoteDraw = QuoteDraw(
    demandIndex: nat, statusIndex: nat, createdAtFraction: nat, priceDraw: nat, productionDate: string,
    methodIndex: nat, hoursDraw: nat)

  /** `demands[Math.floor(Math.random() * Math.min(10, demands.length))]` and the other table indices are in range. */
  predicate ValidQuoteDraw(d: QuoteDraw, demandCount: nat) {
    && d.demandIndex < 10 && d.demandIndex < demandCount && d.statusIndex < 3 && d.methodIndex < 3
    && d.createdAtFraction < FractionScale && d.priceDraw < 500 && d.hoursDraw < 48
  }

  /** What every generated quote satisfies. */
  predicate GeneratedQuote(q: Quote) {
    && q.isWinner == Some(q.status == QuoteWon)
    && 300 <= q.price < 800
    && q.attachments == []
  }

  /** The `i`-th quote pushed by `generateQuotes`. */
  function DrawnQuote(i: nat, demands: seq<Demand>, d: QuoteDraw, now: int, dateStamp: int -> string): (q: Quote)
    requires ValidQuoteDraw(d, |demands|) && demands[d.demandIndex].createdAt <= now
    ensures q.id == NumberedId("Q", i)
    ensures GeneratedQuote(q)
    ensures q.demandId == demands[d.demandIndex].id && q.quantity == demands[d.demandIndex].quantity
    ensures demands[d.demandIndex].createdAt <= q.createdAt <= now
  {
    var demand := demands[d.demandIndex];
    var status := QuoteStatuses[d.statusIndex];
    var createdAt := RandomInstant(demand.createdAt, now, d.createdAtFraction);
    Quote(
      id := NumberedId("Q", i),
      quoteNo := "Q" + dateStamp(createdAt) + PadStart(NatToString(i), 3, '0'),
      demandId := demand.id,
      demandNo := demand.demandNo,
      demandTitle := demand.title,
      price := d.priceDraw + 300,
      brand := demand.brand,
      productionDate := d.productionDate,
      quantity := demand.quantity,
      warrantyPeriod := "12个月",
      deliveryMethod := DeliveryMethods[d.methodIndex],
      deliveryDuration := NatToString(d.hoursDraw + 24) + "小时",
      contactPhone := "13800138000",
      detailContent := "<p>原厂正品配件，质量保证，售后无忧。</p>",
      attachments := [],
      status := status,
      createdAt := createdAt,
      isWinner := Some(status == QuoteWon))
  }

  function DrawnQuotes(demands: seq<Demand>, draws: seq<QuoteDraw>, now: int, dateStamp: int -> string): (r: seq<Quote>)
    requires forall k :: 0 <= k < |demands| ==> demands[k].createdAt <= now
    requires forall k :: 0 <= k < |draws| ==> ValidQuoteDraw(draws[k], |demands|)
    ensures |r| == |draws|
    ensures forall k :: 0 <= k < |draws| ==> r[k] == DrawnQuote(k + 1, demands, draws[k], now, dateStamp)
  {
    seq(|draws|, k requires 0 <= k < |draws| => DrawnQuote(k + 1, demands, draws[k], now, dateStamp))
  }

  /**
   * `generateQuotes`: fifteen quotes, newest first, each winning exactly when
   * its status is won, with ids Q001 to Q015, each once.
   */
  method GenerateQuotes(demands: seq<Demand>, draws: seq<QuoteDraw>, now: int, dateStamp: int -> string)
    returns (quotes: seq<Quote>)
    requires forall k :: 0 <= k < |demands| ==> demands[k].createdAt <= now
    requires |draws| == 15 && forall k :: 0 <= k < 15 ==> ValidQuoteDraw(draws[k], |demands|)
    ensures |quotes| == 15
    ensures multiset(quotes) == multiset(DrawnQuotes(demands, draws, now, dateStamp))
    ensures SortedBy(quotes, QuoteCreatedAt, true)
    ensures forall k :: 0 <= k < |quotes| ==> GeneratedQuote(quotes[k])
    ensures multiset(Map(quotes, QuoteIdOf)) == multiset(Numbered("Q", 15))
  {
    var pushed: seq<Quote> := [];
    for i := 1 to 16
      invariant pushed == DrawnQuotes(demands, draws[..i - 1], now, dateStamp)
    {
      DrawnQuotesSnoc(demands, draws, i - 1, now, dateStamp);
      pushed := pushed + [DrawnQuote(i, demands, draws[i - 1], now, dateStamp)];
    }
    assert draws[..15] == draws;
    quotes := SortBy(pushed, QuoteCreatedAt, true);
    PermutedDrawnQuotes(quotes, demands, draws, now, dateStamp);
  }

  /** Drawing one more quote appends it. */
  lemma DrawnQuotesSnoc(demands: seq<Demand>, draws: seq<QuoteDraw>, n: nat, now: int, dateStamp: int -> string)
    requires forall k :: 0 <= k < |demands| ==> demands[k].createdAt <= now
    requires n < |draws| && forall k :: 0 <= k < |draws| ==> ValidQuoteDraw(draws[k], |demands|)
    ensures DrawnQuotes(demands, draws[..n + 1], now, dateStamp)
            == DrawnQuotes(demands, draws[..n], now, dateStamp) + [DrawnQuote(n + 1, demands, draws[n], now, dateStamp)]
  {
    assert forall k :: 0 <= k < n ==> draws[..n + 1][k] == draws[..n][k];
  }

  /**
   * Any reordering of the fifteen drawn quotes keeps the generator's bounds on
   * each and has the ids Q001 to Q015, each once.
   */
  lemma PermutedDrawnQuotes(quotes: seq<Quote>, demands: seq<Demand>, draws: seq<QuoteDraw>, now: int, dateStamp: int -> string)
    requires forall k :: 0 <= k < |demands| ==> demands[k].createdAt <= now
    requires |draws| == 15 && forall k :: 0 <= k < 15 ==> ValidQuoteDraw(draws[k], |demands|)
    requires multiset(quotes) == multiset(DrawnQuotes(demands, draws, now, dateStamp))
    ensures forall k :: 0 <= k < |quotes| ==> GeneratedQuote(quotes[k])
    ensures multiset(Map(quotes, QuoteIdOf)) == multiset(Numbered("Q", 15))
  {
    var drawn := DrawnQuotes(demands, draws, now, dateStamp);
    GeneratedQuotesPermuted(drawn, quotes);
    MapPermutation(quotes, drawn, QuoteIdOf);
    assert Map(drawn, QuoteIdOf) == Numbered("Q", 15);
  }

  /** Reordering generated quotes keeps each of them generated. */
  lemma GeneratedQuotesPermuted(s: seq<Quote>, t: seq<Quote>)
    requires multiset(s) == multiset(t)
    requires forall k :: 0 <= k < |s| ==> GeneratedQuote(s[k])
    ensures forall k :: 0 <= k < |t| ==> GeneratedQuote(t[k])
  {
    forall k | 0 <= k < |t| ensures GeneratedQuote(t[k]) {
      assert t[k] in multiset(s);
    }
  }

  // ---------------------------------------------------------------------------
  // Login
  // ---------------------------------------------------------------------------

  datatype LoginData = LoginData(token: string, refreshToken: string, userInfo: User)

  /** `mockApi.login`: only admin / 123456 succeeds, with tokens stamped with the time. */
  function Login(username: string, password: string, now: nat): (resp: ApiResponse<LoginData>)
    ensures resp.code == 0 <==> username == "admin" && password == "123456"
    ensures resp.code == 0 ==>
              && resp.data.Some? && resp.data.value.userInfo == AdminUser
              && StartsWith(resp.data.value.token, "mock_token_")
              && StartsWith(resp.data.value.refreshToken, "mock_refresh_token_")
    ensures resp.code != 0 ==> resp == ApiResponse(401, "用户名或密码错误", None)
  {
    if username == "admin" && password == "123456" then
      ApiResponse(0, "success", Some(LoginData("mock_token_" + NatToString(now),
                                               "mock_refresh_token_" + NatToString(now), AdminUser)))
    else
      ApiResponse(401, "用户名或密码错误", None)
  }

  // ---------------------------------------------------------------------------
  // Demand queries
  // ---------------------------------------------------------------------------

  /** A filter field is applied when it is present and not the empty string. */
  predicate Active(field: Option<string>) {
    field.Some? && field.value != ""
  }

  /** Whether a demand passes every active field of the filter. */
  predicate DemandMatches(d: Demand, filter: Option<DemandFilter>) {
    filter.None? ||
    (&& (!Active(filter.value.category) || d.category == filter.value.category.value)
     && (!Active(filter.value.brand) || d.brand == filter.value.brand.value)
     && (!Active(filter.value.status) || DemandStatusName(d.status) == filter.value.status.value))
  }

  function MatchesFilter(filter: Option<DemandFilter>): Demand -> bool {
    (d: Demand) => DemandMatches(d, filter)
  }

  function ByCategory(category: string): Demand -> bool { (d: Demand) => d.category == category }

  function ByBrand(brand: string): Demand -> bool { (d: Demand) => d.brand == brand }

  function ByStatus(status: string): Demand -> bool { (d: Demand) => DemandStatusName(d.status) == status }

  /** The three optional filters of `getDemandList`, applied one after the other. */
  function FilteredDemands(demands: seq<Demand>, filter: Option<DemandFilter>): seq<Demand> {
    if filter.None? then demands
    else
      var f := filter.value;
      var a := if Active(f.category) then Filter(demands, ByCategory(f.category.value)) else demands;
      var b := if Active(f.brand) then Filter(a, ByBrand(f.brand.value)) else a;
      if Active(f.status) then Filter(b, ByStatus(f.status.value)) else b
  }

  /** The successive filters keep exactly the demands matching the whole filter, in stored order. */
  lemma FilteredDemandsMatch(demands: seq<Demand>, filter: Option<DemandFilter>)
    ensures FilteredDemands(demands, filter) == Filter(demands, MatchesFilter(filter))
  {
    var all := MatchesFilter(filter);
    if filter.None? {
      FilterAll(demands, all);
    } else {
      var f := filter.value;
      var always := (d: Demand) => true;
      var m1 := (d: Demand) => !Active(f.category) || d.category == f.category.value;
      var m2 := (d: Demand) => m1(d) && (!Active(f.brand) || d.brand == f.brand.value);
      FilterAll(demands, always);
      FilterThen(demands, always, Active(f.category), ByCategory(f.category.GetOr("")), m1);
      FilterThen(demands, m1, Active(f.brand), ByBrand(f.brand.GetOr("")), m2);
      FilterThen(demands, m2, Active(f.status), ByStatus(f.status.GetOr("")), all);
    }
  }

  /** A missing page or size takes the default the source's parameter list gives it. */
  function OrDefault(x: Option<int>, default: int): int {
    if x.Some? then x.value else default
  }

  /** `getDemandList(page = 1, size = 10, filter)` over the stored demands. */
  function ListDemands(demands: seq<Demand>, page: Option<int>, size: Option<int>, filter: Option<DemandFilter>)
    : (resp: ApiResponse<PageResult<Demand>>)
    ensures resp.code == 0 && resp.data.Some?
    ensures resp.data.value.total == |Filter(demands, MatchesFilter(filter))|
    ensures resp.data.value.page == OrDefault(page, 1) && resp.data.value.size == OrDefault(size, 10)
    ensures resp.data.value.list ==
              Page(Filter(demands, MatchesFilter(filter)), OrDefault(page, 1), OrDefault(size, 10))
  {
    FilteredDemandsMatch(demands, filter);
    var list := FilteredDemands(demands, filter);
    var p, s := OrDefault(page, 1), OrDefault(size, 10);
    ApiResponse(0, "success", Some(PageResult(|list|, Page(list, p, s), p, s)))
  }

  /** Every demand on a page of the list is stored and passes the filter. */
  lemma ListedDemandsMatch(demands: seq<Demand>, page: Option<int>, size: Option<int>, filter: Option<DemandFilter>)
    ensures var list := ListDemands(demands, page, size, filter).data.value.list;
            forall i :: 0 <= i < |list| ==> list[i] in demands && DemandMatches(list[i], filter)
  {
    var matching := Filter(demands, MatchesFilter(filter));
    FilterMembership(demands, MatchesFilter(filter));
    var list := Page(matching, OrDefault(page, 1), OrDefault(size, 10));
    assert forall i :: 0 <= i < |list| ==> list[i] in matching;
  }

  /** `status && status !== 'all'` */
  predicate QuoteStatusFilterActive(status: Option<string>) {
    status.Some? && status.value != "" && status.value != "all"
  }

  predicate QuoteMatches(q: Quote, status: Option<string>) {
    !QuoteStatusFilterActive(status) || QuoteStatusName(q.status) == status.value
  }

  function MatchesStatus(status: Option<string>): Quote -> bool {
    (q: Quote) => QuoteMatches(q, status)
  }

  /** `getMyQuoteList(page = 1, size = 10, status)` over the stored quotes; stored order is kept. */
  function ListMyQuotes(quotes: seq<Quote>, page: Option<int>, size: Option<int>, status: Option<string>)
    : (resp: ApiResponse<PageResult<Quote>>)
    ensures resp.code == 0 && resp.data.Some?
    ensures resp.data.value.total == |Filter(quotes, MatchesStatus(status))|
    ensures !QuoteStatusFilterActive(status) ==> resp.data.value.total == |quotes|
    ensures resp.data.value.list ==
              Page(Filter(quotes, MatchesStatus(status)), OrDefault(page, 1), OrDefault(size, 10))
    ensures forall i :: 0 <= i < |resp.data.value.list| ==>
              resp.data.value.list[i] in quotes && QuoteMatches(resp.data.value.list[i], status)
  {
    var matches := MatchesStatus(status);
    var list := if QuoteStatusFilterActive(status) then Filter(quotes, (q: Quote) => QuoteStatusName(q.status) == status.value) else quotes;
    assert list == Filter(quotes, matches) by {
      if QuoteStatusFilterActive(status) {
        FilterExt(quotes, (q: Quote) => QuoteStatusName(q.status) == status.value, matches);
      } else {
        FilterAll(quotes, matches);
      }
    }
    var p, s := OrDefault(page, 1), OrDefault(size, 10);
    var pageList := Page(list, p, s);
    assert forall i :: 0 <= i < |pageList| ==> pageList[i] in list;
    ApiResponse(0, "success", Some(PageResult(|list|, pageList, p, s)))
  }

  // ---------------------------------------------------------------------------
  // The back-end with its store
  // ---------------------------------------------------------------------------

  function DemandWithId(id: string): Demand -> bool { (d: Demand) => d.id == id }

  function QuoteWithId(id: string): Quote -> bool { (q: Quote) => q.id == id }

  /**
   * The quote `submitQuote` builds as the `n + 1`-th quote, stamped with `now`
   * and the UTC date `today` (YYYYMMDD). The submitted `attachmentUrls` are
   * ignored: the stored quote has no attachments.
   */
  function NewQuote(params: QuoteSubmitParams, demand: Demand, n: nat, today: string, now: int): (q: Quote)
    ensures q.id == NumberedId("Q", n + 1)
    ensures q.status == QuotePending && q.isWinner.None? && q.createdAt == now
    ensures q.demandId == params.demandId && q.demandNo == demand.demandNo && q.demandTitle == demand.title
    ensures q.price == params.price && q.quantity == params.quantity && q.brand == params.brand
    ensures q.attachments == []
  {
    Quote(
      id := NumberedId("Q", n + 1),
      quoteNo := "Q" + today + PadStart(NatToString(n + 1), 3, '0'),
      demandId := params.demandId,
      demandNo := demand.demandNo,
      demandTitle := demand.title,
      price := params.price,
      brand := params.brand,
      productionDate := params.productionDate,
      quantity := params.quantity,
      warrantyPeriod := params.warrantyPeriod,
      deliveryMethod := params.deliveryMethod,
      deliveryDuration := params.deliveryDuration,
      contactPhone := params.contactPhone,
      detailContent := params.detailContent,
      attachments := [],
      status := QuotePending,
      createdAt := now,
      isWinner := None)
  }

  class SupplierApi {
    /** `mockDemands` */
    var demands: seq<Demand>
    /** `mockQuotes` */
    var quotes: seq<Quote>

    /** The stored quote ids are Q001 up to Q<number of quotes>, each once. */
    predicate Valid()
      reads this
    {
      multiset(Map(quotes, QuoteIdOf)) == multiset(Numbered("Q", |quotes|))
    }

    /** The module's start-up: `mockDemands = generateDemands()`, `mockQuotes = generateQuotes(mockDemands)`. */
    constructor (demandDraws: seq<DemandDraw>, quoteDraws: seq<QuoteDraw>, now: int, dateStamp: int -> string)
      requires |demandDraws| == 25 && forall k :: 0 <= k < 25 ==> ValidDemandDraw(demandDraws[k], now)
      requires |quoteDraws| == 15 && forall k :: 0 <= k < 15 ==> ValidQuoteDraw(quoteDraws[k], 25)
      ensures Valid() && |demands| == 25 && |quotes| == 15
      ensures multiset(Map(demands, DemandIdOf)) == multiset(Numbered("D", 25))
      ensures forall k :: 0 <= k < 25 ==> GeneratedDemand(demands[k], now)
      ensures forall k :: 0 <= k < 15 ==> GeneratedQuote(quotes[k])
      ensures multiset(demands) == multiset(DrawnDemands(demandDraws, now, dateStamp))
      ensures SortedBy(demands, DemandCreatedAt, true)
      ensures forall k :: 0 <= k < |demands| ==> demands[k].createdAt <= now
      ensures multiset(quotes) == multiset(DrawnQuotes(demands, quoteDraws, now, dateStamp))
      ensures SortedBy(quotes, QuoteCreatedAt, true)
    {
      var ds := GenerateDemands(demandDraws, now, dateStamp);
      var qs := GenerateQuotes(ds, quoteDraws, now, dateStamp);
      demands, quotes := ds, qs;
    }

    /** `getDemandList` */
    function GetDemandList(page: Option<int>, size: Option<int>, filter: Option<DemandFilter>): (resp: ApiResponse<PageResult<Demand>>)
      reads this
      {
      ListDemands(demands, page, size, filter)
    }

    /** `getDemandDetail`: the first demand with the id, or 404 "需求不存在" without data. */
    function GetDemandDetail(id: string): (resp: ApiResponse<Demand>)
      reads this
      ensures resp.code == 0 <==> exists k :: 0 <= k < |demands| && demands[k].id == id
      ensures resp.code == 0 ==> resp.data == Some(demands[FindIndex(demands, DemandWithId(id))])
      ensures resp.code != 0 ==> resp == ApiResponse(404, "需求不存在", None)
    {
      var found := Find(demands, DemandWithId(id));
      if found.Some? then ApiResponse(0, "success", found) else ApiResponse(404, "需求不存在", None)
    }

    /**
     * `submitQuote`: an unknown demand gives 404 and changes nothing; otherwise
     * the new pending quote, numbered one past the current count, goes to the
     * front of the store. The demand's status and deadline are not consulted,
     * and the submitted attachment URLs are dropped.
     */
    method SubmitQuote(params: QuoteSubmitParams, today: string, now: int) returns (resp: ApiResponse<Quote>)
      requires Valid()
      modifies this
      ensures Valid()
      ensures demands == old(demands)
      ensures var k := FindIndex(demands, DemandWithId(params.demandId));
              && (k == -1 ==> resp == ApiResponse(404, "需求不存在", None) && quotes == old(quotes))
              && (k >= 0 ==>
                    && resp.code == 0
                    && resp.data == Some(NewQuote(params, demands[k], |old(quotes)|, today, now))
                    && resp.data.value.attachments == []
                    && quotes == [resp.data.value] + old(quotes))
    {
      var k := FindIndex(demands, DemandWithId(params.demandId));
      if k == -1 {
        return ApiResponse(404, "需求不存在", None);
      }
      var quote := NewQuote(params, demands[k], |quotes|, today, now);
      ghost var oldIds := Map(quotes, QuoteIdOf);
      quotes := [quote] + quotes;
      assert Map(quotes, QuoteIdOf) == [quote.id] + oldIds;
      assert Numbered("Q", |quotes|) == Numbered("Q", |quotes| - 1) + [quote.id];
      resp := ApiResponse(0, "success", Some(quote));
    }

    /** `getMyQuoteList` over the stored quotes. */
    function GetMyQuoteList(page: Option<int>, size: Option<int>, status: Option<string>): (resp: ApiResponse<PageResult<Quote>>)
      reads this
    {
      ListMyQuotes(quotes, page, size, status)
    }

    /**
     * `submitShipping`: a shipping record in state shipped for a known quote,
     * 404 "报价不存在" otherwise; the quote itself is not changed.
     */
    function SubmitShipping(params: ShippingParams, shippingId: string, now: int): (resp: ApiResponse<Shipping>)
      reads this
      ensures resp.code == 0 <==> exists k :: 0 <= k < |quotes| && quotes[k].id == params.quoteId
      ensures resp.code == 0 ==> resp.data == Some(Shipping(shippingId, params, Shipped, now))
      ensures resp.code != 0 ==> resp == ApiResponse(404, "报价不存在", None)
    {
      if Find(quotes, QuoteWithId(params.quoteId)).Some? then
        ApiResponse(0, "success", Some(Shipping(shippingId, params, Shipped, now)))
      else
        ApiResponse(404, "报价不存在", None)
    }
  }

  /** A submitted quote's id is not the id of any quote already stored. */
  lemma SubmittedIdIsFresh(quotes: seq<Quote>)
    requires multiset(Map(quotes, QuoteIdOf)) == multiset(Numbered("Q", |quotes|))
    ensures forall k :: 0 <= k < |quotes| ==> quotes[k].id != NumberedId("Q", |quotes| + 1)
  {
    NextNumberedIdIsFresh(Map(quotes, QuoteIdOf), "Q", |quotes|);
  }
  /** Demand D001 is among demands numbered D001 to D025. */
  lemma FirstDemandIsStored(demands: seq<Demand>)
    requires multiset(Map(demands, DemandIdOf)) == multiset(Numbered("D", 25))
    ensures FindIndex(demands, DemandWithId("D001")) >= 0
  {
    var numbered := Numbered("D", 25);
    FirstDemandId();
    assert numbered[0] == "D001";
    assert "D001" in multiset(numbered);
    IdIsStored(demands, "D001");
  }

  /** A demand whose id is among the stored ids is found by id. */
  lemma IdIsStored(demands: seq<Demand>, id: string)
    requires id in multiset(Map(demands, DemandIdOf))
    ensures FindIndex(demands, DemandWithId(id)) >= 0
  {
    var ids := Map(demands, DemandIdOf);
    var k :| 0 <= k < |ids| && ids[k] == id;
    assert DemandWithId(id)(demands[k]);
  }

  lemma FirstDemandId()
    ensures NumberedId("D", 1) == "D001"
  {
    assert DigitChar(1) == '1';
    assert NatToString(1) == "1";
    assert ['0'] + "1" == "01" && ['0'] + "01" == "001";
    assert PadStart("001", 3, '0') == "001";
    assert PadStart("01", 3, '0') == "001";
    assert PadStart("1", 3, '0') == "001";
  }

  /** Without paging or status arguments the quote list starts with the first stored quote and counts them all. */
  lemma UnfilteredListHead(quotes: seq<Quote>)
    requires |quotes| >= 1
    ensures var resp := ListMyQuotes(quotes, None, None, None);
            |resp.data.value.list| >= 1 && resp.data.value.list[0] == quotes[0] && resp.data.value.total == |quotes|
  {
    FilterAll(quotes, MatchesStatus(None));
    assert PageStart(1, 10) == 0;
  }

  lemma SixteenthQuoteId()
    ensures NumberedId("Q", 16) == "Q016"
  {
    assert DigitChar(1) == '1' && DigitChar(6) == '6';
    assert NatToString(1) == "1";
    assert 16 / 10 == 1 && 16 % 10 == 6;
    assert NatToString(16) == NatToString(1) + [DigitChar(6)];
    assert NatToString(16) == "16";
    assert ['0'] + "16" == "016";
    assert PadStart("016", 3, '0') == "016";
    assert PadStart("16", 3, '0') == "016";
    assert "Q" + "016" == "Q016";
  }

  /**
   * From start-up, a quote submitted for demand D001 gets id Q016 and heads the unfiltered quote list, whose total becomes 16.
   */
  method SubmitQuoteHeadsMyList(demandDraws: seq<DemandDraw>, quoteDraws: seq<QuoteDraw>, now: int,
                                dateStamp: int -> string, params: QuoteSubmitParams, today: string, at: int)
    returns (submitted: Quote, first: Quote, total: nat)
    requires |demandDraws| == 25 && forall k :: 0 <= k < 25 ==> ValidDemandDraw(demandDraws[k], now)
    requires |quoteDraws| == 15 && forall k :: 0 <= k < 15 ==> ValidQuoteDraw(quoteDraws[k], 25)
    requires params.demandId == "D001"
    ensures submitted.id == "Q016" && submitted.status == QuotePending
    ensures first == submitted && total == 16
  {
    var api := new SupplierApi(demandDraws, quoteDraws, now, dateStamp);
    FirstDemandIsStored(api.demands);
    SixteenthQuoteId();
    var resp := api.SubmitQuote(params, today, at);
    submitted := resp.data.value;
    UnfilteredListHead(api.quotes);
    var list := api.GetMyQuoteList(None, None, None);
    first := list.data.value.list[0];
    total := list.data.value.total;
  }
}
