/**
 * The buyer app's in-memory purchase back-end (src/services/mock/purchase.ts):
 * the category and brand tables, the twenty generated purchases held in
 * `mockPurchases`, the filtered, sorted and paged list query, the detail
 * lookup, creation (prepended) and cancellation (in place).
 */
module PurchaseMock {
  import opened Wrappers
  import opened Text
  import opened Lists
  import opened ApiTypes
  import opened PurchaseTypes

  // ---------------------------------------------------------------------------
  // Fixed tables
  // ---------------------------------------------------------------------------

  function Leaf(id: string, name: string): PartCategory {
    PartCategory(id, name, None)
  }

  /** `mockCategories`: five systems, each with its parts. */
  const MockCategories: seq<PartCategory> := [
    PartCategory("cat_001", "发动机系统", Some([
      Leaf("cat_001_001", "活塞"), Leaf("cat_001_002", "气缸套"),
      Leaf("cat_001_003", "曲轴"), Leaf("cat_001_004", "凸轮轴")])),
    PartCategory("cat_002", "制动系统", Some([
      Leaf("cat_002_001", "刹车片"), Leaf("cat_002_002", "刹车盘"), Leaf("cat_002_003", "刹车卡钳")])),
    PartCategory("cat_003", "悬挂系统", Some([
      Leaf("cat_003_001", "减震器"), Leaf("cat_003_002", "弹簧"), Leaf("cat_003_003", "控制臂")])),
    PartCategory("cat_004", "电气系统", Some([
      Leaf("cat_004_001", "发电机"), Leaf("cat_004_002", "起动机"), Leaf("cat_004_003", "点火线圈")])),
    PartCategory("cat_005", "冷却系统", Some([
      Leaf("cat_005_001", "散热器"), Leaf("cat_005_002", "水泵"), Leaf("cat_005_003", "节温器")]))
  ]

  /** `mockBrands` */
  const MockBrands: seq<Brand> := [
    Brand("brand_001", "博世"), Brand("brand_002", "电装"), Brand("brand_003", "德尔福"),
    Brand("brand_004", "法雷奥"), Brand("brand_005", "大陆"), Brand("brand_006", "采埃孚")
  ]

  const StoreId: string := "store_001"

  const StoreName: string := "测试汽服门店"

  const DayMs: int := 86400000

  // ---------------------------------------------------------------------------
  // Generated purchases
  // ---------------------------------------------------------------------------

  /**
   * The random choices behind one generated purchase: indices into the category,
   * sub-category, brand and status tables, the age in days, the raw quantity,
   * budget and quote-count draws, and the generated order number.
   */
  datatype PurchaseDraw = PurchaseDraw(
    categoryIndex: nat, subIndex: nat, brandIndex: nat, statusIndex: nat,
    daysAgo: nat, quantityDraw: nat, budgetDraw: nat, quoteCountDraw: nat, orderNo: string)

  predicate ValidPurchaseDraw(d: PurchaseDraw) {
    && d.categoryIndex < 5 && d.brandIndex < 6 && d.statusIndex < 4
    && d.daysAgo < 30 && d.quantityDraw < 10 && d.budgetDraw < 5000 && d.quoteCountDraw < 5
  }

  /** The statuses a generated purchase can have; never cancelled. */
  const GeneratedStatuses: seq<PurchaseStatus> := [Pending, Quoted, Confirmed, Completed]

  /** `a || b` on strings: the first unless it is absent or empty. */
  function OrElse(a: Option<string>, b: string): (r: string)
    ensures a.Some? && a.value != "" ==> r == a.value
    ensures a.None? || a.value == "" ==> r == b
  {
    if a.Some? && a.value != "" then a.value else b
  }

  /** `category.children?.[k]` */
  function ChildAt(c: PartCategory, k: nat): (r: Option<PartCategory>)
    ensures r.Some? <==> c.children.Some? && k < |c.children.value|
  {
    if c.children.Some? && k < |c.children.value| then Some(c.children.value[k]) else None
  }

  /** `"purchase_" + String(i).padStart(3, '0')` */
  function PurchaseId(i: nat): string {
    "purchase_" + PadStart(NatToString(i), 3, '0')
  }

  /** Generated purchase ids are distinct for distinct numbers. */
  lemma PurchaseIdInjective(i: nat, j: nat)
    ensures PurchaseId(i) == PurchaseId(j) ==> i == j
  {
    if PurchaseId(i) == PurchaseId(j) {
      var pi, pj := PadStart(NatToString(i), 3, '0'), PadStart(NatToString(j), 3, '0');
      assert pi == PurchaseId(i)[9..] && pj == PurchaseId(j)[9..];
      ZeroPaddedRoundTrip(i, 3);
      ZeroPaddedRoundTrip(j, 3);
    }
  }

  /**
   * The `i`-th purchase of `generateMockPurchases` (counting from 1). The ISO
   * rendering of dates is the parameter `iso`; `now` is the generation time.
   */
  function DrawnPurchase(i: nat, d: PurchaseDraw, iso: int -> string, now: int): Purchase
    requires ValidPurchaseDraw(d)
  {
    var category := MockCategories[d.categoryIndex];
    var sub := ChildAt(category, d.subIndex);
    var subName := OrElse(if sub.Some? then Some(sub.value.name) else None, category.name);
    var brand := MockBrands[d.brandIndex];
    var status := GeneratedStatuses[d.statusIndex];
    var base := now - d.daysAgo * DayMs;
    Purchase(
      id := PurchaseId(i),
      orderNo := d.orderNo,
      categoryId := OrElse(if sub.Some? then Some(sub.value.id) else None, category.id),
      categoryName := subName,
      brandId := brand.id,
      brandName := brand.name,
      partName := brand.name + subName,
      specification := "规格型号-" + PadStart(NatToString(i), 4, '0'),
      quantity := d.quantityDraw + 1,
      budget := d.budgetDraw + 500,
      description := "采购描述：需要采购" + subName + "，用于车辆维修。质量要求：原厂品质或同等品质替代品。",
      expectedArrivalTime := iso(base + 7 * DayMs),
      quoteDeadline := iso(base + 3 * DayMs),
      publishTime := base,
      attachments := [],
      status := status,
      statusLabel := PurchaseStatusLabel(status),
      quoteCount := if status == Pending then 0 else d.quoteCountDraw + 1,
      storeId := StoreId,
      storeName := StoreName)
  }

  /** The `i`-th generated purchase is numbered `i`. */
  lemma DrawnPurchaseId(i: nat, d: PurchaseDraw, iso: int -> string, now: int)
    requires ValidPurchaseDraw(d)
    ensures DrawnPurchase(i, d, iso, now).id == PurchaseId(i)
  {
  }

  /**
   * A generated purchase is never cancelled and carries its status's label;
   * it has no quotes exactly when pending, and at most five otherwise.
   */
  lemma DrawnPurchaseStatus(i: nat, d: PurchaseDraw, iso: int -> string, now: int)
    requires ValidPurchaseDraw(d)
    ensures var p := DrawnPurchase(i, d, iso, now);
            && p.status != PurchaseStatus.Cancelled && p.statusLabel == PurchaseStatusLabel(p.status)
            && (p.quoteCount == 0 <==> p.status == Pending) && p.quoteCount <= 5
  {
  }

  /**
   * A generated purchase asks for 1 to 10 parts on a budget of 500 to 5499,
   * wants them 7 days after publication with quotes due after 3, has no
   * attachments and belongs to the test store.
   */
  lemma DrawnPurchaseFields(i: nat, d: PurchaseDraw, iso: int -> string, now: int)
    requires ValidPurchaseDraw(d)
    ensures var p := DrawnPurchase(i, d, iso, now);
            && 1 <= p.quantity <= 10 && 500 <= p.budget < 5500
            && p.expectedArrivalTime == iso(p.publishTime + 7 * DayMs)
            && p.quoteDeadline == iso(p.publishTime + 3 * DayMs)
            && p.attachments == [] && p.storeId == StoreId
  {
  }

  /** `generateMockPurchases`: purchases 1 to 20, pushed in order. */
  method GenerateMockPurchases(draws: seq<PurchaseDraw>, iso: int -> string, now: int) returns (purchases: seq<Purchase>)
    requires |draws| == 20 && forall k :: 0 <= k < 20 ==> ValidPurchaseDraw(draws[k])
    ensures |purchases| == 20
    ensures forall k :: 0 <= k < 20 ==> purchases[k] == DrawnPurchase(k + 1, draws[k], iso, now)
  {
    var draw := (i: nat) requires 1 <= i <= 20 => DrawnPurchase(i, draws[i - 1], iso, now);
    purchases := [];
    for i := 1 to 21
      invariant purchases == Pushed(draw, i - 1)
    {
      purchases := purchases + [draw(i)];
    }
  }

  /** Purchases drawn with the numbers 1, 2, ... in order have distinct ids. */
  lemma DrawnPurchasesDistinct(purchases: seq<Purchase>, draws: seq<PurchaseDraw>, iso: int -> string, now: int)
    requires |purchases| == |draws| && forall k :: 0 <= k < |draws| ==> ValidPurchaseDraw(draws[k])
    requires forall k :: 0 <= k < |purchases| ==> purchases[k] == DrawnPurchase(k + 1, draws[k], iso, now)
    ensures forall j, k :: 0 <= j < k < |purchases| ==> purchases[j].id != purchases[k].id
  {
    forall j, k | 0 <= j < k < |purchases| ensures purchases[j].id != purchases[k].id {
      DrawnPurchaseId(j + 1, draws[j], iso, now);
      DrawnPurchaseId(k + 1, draws[k], iso, now);
      PurchaseIdInjective(j + 1, k + 1);
    }
  }

  // ---------------------------------------------------------------------------
  // The list query
  // ---------------------------------------------------------------------------

  /** Whether `p` passes the status filter and the case-insensitive keyword search. */
  predicate MatchesQuery(p: Purchase, status: Option<PurchaseStatus>, keyword: Option<string>) {
    && (status.None? || p.status == status.value)
    && (keyword.None? || keyword.value == []
        || Contains(Lower(p.partName), Lower(keyword.value))
        || Contains(Lower(p.orderNo), Lower(keyword.value)))
  }

  function Matches(status: Option<PurchaseStatus>, keyword: Option<string>): Purchase -> bool {
    (p: Purchase) => MatchesQuery(p, status, keyword)
  }

  function StatusFilter(status: Option<PurchaseStatus>): Purchase -> bool {
    (p: Purchase) => status.None? || p.status == status.value
  }

  function KeywordFilter(keyword: Option<string>): Purchase -> bool {
    (p: Purchase) => keyword.None? || keyword.value == []
                     || Contains(Lower(p.partName), Lower(keyword.value))
                     || Contains(Lower(p.orderNo), Lower(keyword.value))
  }

  function PublishTime(p: Purchase): int {
    p.publishTime
  }

  /** The copy of the store after the status filter (when a status is given) and the keyword filter (when a keyword is given). */
  function Searched(stored: seq<Purchase>, status: Option<PurchaseStatus>, keyword: Option<string>): seq<Purchase> {
    var filtered := if status.Some? then Filter(stored, StatusFilter(status)) else stored;
    if keyword.Some? && keyword.value != [] then Filter(filtered, KeywordFilter(keyword)) else filtered
  }

  /** The two optional filters together keep exactly the purchases matching the query, in stored order. */
  lemma SearchedIsFilter(stored: seq<Purchase>, status: Option<PurchaseStatus>, keyword: Option<string>)
    ensures Searched(stored, status, keyword) == Filter(stored, Matches(status, keyword))
  {
    var matches := Matches(status, keyword);
    var always := (p: Purchase) => true;
    if status.Some? && keyword.Some? && keyword.value != [] {
      FilterFilter(stored, StatusFilter(status), KeywordFilter(keyword), matches);
    } else if status.Some? {
      FilterFilter(stored, StatusFilter(status), always, matches);
      FilterAll(Filter(stored, StatusFilter(status)), always);
    } else if keyword.Some? && keyword.value != [] {
      FilterFilter(stored, always, KeywordFilter(keyword), matches);
      FilterAll(stored, always);
    } else {
      FilterAll(stored, matches);
    }
  }

  /**
   * The copy, status filter, keyword filter and newest-first sort of
   * `mockGetPurchaseList`, before paging: exactly the stored purchases that
   * match, each as often as it is stored, newest first.
   */
  function QueryResult(stored: seq<Purchase>, status: Option<PurchaseStatus>, keyword: Option<string>): (r: seq<Purchase>)
    ensures multiset(r) == multiset(Filter(stored, Matches(status, keyword)))
    ensures SortedBy(r, PublishTime, true)
  {
    SearchedIsFilter(stored, status, keyword);
    SortBy(Searched(stored, status, keyword), PublishTime, true)
  }

  /** Matching purchases published at the same instant keep their stored order. */
  lemma QueryResultKeepsTies(stored: seq<Purchase>, status: Option<PurchaseStatus>, keyword: Option<string>, t: int)
    ensures Filter(QueryResult(stored, status, keyword), KeyIs(PublishTime, t))
            == Filter(Filter(stored, Matches(status, keyword)), KeyIs(PublishTime, t))
  {
    SearchedIsFilter(stored, status, keyword);
    EqualKeysKeepOrder(Searched(stored, status, keyword), PublishTime, true, t);
  }

  /** The query result holds exactly the stored purchases that match the query. */
  lemma QueryResultMembers(stored: seq<Purchase>, status: Option<PurchaseStatus>, keyword: Option<string>)
    ensures forall p :: p in QueryResult(stored, status, keyword) <==> p in stored && MatchesQuery(p, status, keyword)
  {
    FilterMembership(stored, Matches(status, keyword));
    MultisetMembership(Filter(stored, Matches(status, keyword)), QueryResult(stored, status, keyword));
  }

  /** Sequences with the same multiset have the same members. */
  lemma MultisetMembership(s: seq<Purchase>, t: seq<Purchase>)
    requires multiset(s) == multiset(t)
    ensures |s| == |t|
    ensures forall p :: p in s <==> p in t
  {
    assert |s| == |multiset(s)|;
    forall p ensures p in s <==> p in t {
      assert p in s <==> p in multiset(s);
      assert p in t <==> p in multiset(t);
    }
  }

  /**
   * `mockGetPurchaseList`: always 200; the page of the newest-first matches,
   * where a missing (zero) page means 1 and a missing size means 10, and the
   * number of all matches.
   */
  function ListPurchases(stored: seq<Purchase>, params: PurchaseListParams): (resp: ApiResponse<PageResult<Purchase>>)
    ensures resp.code == 200
    ensures resp.data.page == (if params.page == 0 then 1 else params.page)
    ensures resp.data.size == (if params.size == 0 then 10 else params.size)
    ensures resp.data.total == |QueryResult(stored, params.status, params.keyword)|
    ensures resp.data.list == Page(QueryResult(stored, params.status, params.keyword), resp.data.page, resp.data.size)
  {
    var all := QueryResult(stored, params.status, params.keyword);
    var page := if params.page == 0 then 1 else params.page;
    var size := if params.size == 0 then 10 else params.size;
    ApiResponse(200, "success", PageResult(Page(all, page, size), |all|, page, size))
  }

  /**
   * Every listed purchase is stored and matches the query, the page is newest
   * first, and `total` is the number of stored matches, whatever the page.
   */
  lemma ListPurchasesSound(stored: seq<Purchase>, params: PurchaseListParams)
    ensures var resp := ListPurchases(stored, params);
            && (forall p :: p in resp.data.list ==> p in stored && MatchesQuery(p, params.status, params.keyword))
            && SortedBy(resp.data.list, PublishTime, true)
            && resp.data.total == |Filter(stored, Matches(params.status, params.keyword))|
  {
    var resp := ListPurchases(stored, params);
    var all := QueryResult(stored, params.status, params.keyword);
    PageOfSorted(all, resp.data.page, resp.data.size, PublishTime, true);
    QueryResultMembers(stored, params.status, params.keyword);
    assert |all| == |multiset(all)|;
  }

  // ---------------------------------------------------------------------------
  // The back-end with its store
  // ---------------------------------------------------------------------------

  function HasId(id: string): Purchase -> bool {
    (p: Purchase) => p.id == id
  }

  /** The purchase `mockCreatePurchase` builds, before it is stored. */
  function NewPurchase(params: CreatePurchaseParams, id: string, orderNo: string, publishTime: int): (p: Purchase)
    ensures p.id == id && p.orderNo == orderNo && p.publishTime == publishTime
    ensures p.status == Pending && p.statusLabel == PurchaseStatusLabel(Pending) && p.quoteCount == 0
    ensures p.partName == params.partName && p.quantity == params.quantity && p.budget == params.budget
    ensures p.categoryId == params.categoryId && p.brandId == params.brandId
    ensures p.expectedArrivalTime == params.expectedArrivalTime && p.quoteDeadline == params.quoteDeadline
    ensures p.attachments == Attachments(params.attachmentUrls)
  {
    Purchase(
      id := id,
      orderNo := orderNo,
      categoryId := params.categoryId,
      categoryName := "待更新",
      brandId := params.brandId,
      brandName := "待更新",
      partName := params.partName,
      specification := params.specification,
      quantity := params.quantity,
      budget := params.budget,
      description := params.description,
      expectedArrivalTime := params.expectedArrivalTime,
      quoteDeadline := params.quoteDeadline,
      publishTime := publishTime,
      attachments := Attachments(params.attachmentUrls),
      status := Pending,
      statusLabel := "待应标",
      quoteCount := 0,
      storeId := StoreId,
      storeName := StoreName)
  }

  /** `attachmentUrls.map(...)`: one attachment per URL, a PDF exactly when the URL contains ".pdf". */
  function Attachments(urls: seq<string>): (r: seq<PurchaseAttachment>)
    ensures |r| == |urls|
    ensures forall i :: 0 <= i < |urls| ==> r[i].url == urls[i]
    ensures forall i :: 0 <= i < |urls| ==> (r[i].attachmentType == Pdf <==> Contains(urls[i], ".pdf"))
    ensures forall i :: 0 <= i < |urls| ==>
              r[i].id == "att_" + NatToString(i) && r[i].name == "附件" + NatToString(i + 1)
  {
    seq(|urls|, i requires 0 <= i < |urls| =>
      PurchaseAttachment("att_" + NatToString(i), urls[i], "附件" + NatToString(i + 1),
                         if Contains(urls[i], ".pdf") then Pdf else Image))
  }

  /** The attachments of one purchase have distinct ids and distinct names. */
  lemma AttachmentsDistinct(urls: seq<string>)
    ensures var r := Attachments(urls);
            forall i, j :: 0 <= i < j < |r| ==> r[i].id != r[j].id && r[i].name != r[j].name
  {
    var r := Attachments(urls);
    forall i, j | 0 <= i < j < |r| ensures r[i].id != r[j].id && r[i].name != r[j].name {
      NatToStringInjective(i, j);
      NatToStringInjective(i + 1, j + 1);
      assert r[i].id[4..] == NatToString(i) && r[j].id[4..] == NatToString(j);
      assert r[i].name[2..] == NatToString(i + 1) && r[j].name[2..] == NatToString(j + 1);
    }
  }

  /** The purchase after `mockCancelPurchase`: cancelled, whatever its status was. */
  function MarkCancelled(p: Purchase): (r: Purchase)
    ensures r.status == PurchaseStatus.Cancelled && r.statusLabel == PurchaseStatusLabel(PurchaseStatus.Cancelled)
    ensures r.(status := p.status, statusLabel := p.statusLabel) == p
  {
    p.(status := PurchaseStatus.Cancelled, statusLabel := "已取消")
  }

  class PurchaseService {
    /** `mockPurchases` */
    var purchases: seq<Purchase>

    /** The module's start-up: `mockPurchases = generateMockPurchases()`. */
    constructor (draws: seq<PurchaseDraw>, iso: int -> string, now: int)
      requires |draws| == 20 && forall k :: 0 <= k < 20 ==> ValidPurchaseDraw(draws[k])
      ensures |purchases| == 20
      ensures forall k :: 0 <= k < 20 ==> purchases[k] == DrawnPurchase(k + 1, draws[k], iso, now)
    {
      var generated := GenerateMockPurchases(draws, iso, now);
      purchases := generated;
    }

    /** `mockGetPurchaseList` over the stored purchases. */
    function GetPurchaseList(params: PurchaseListParams): (resp: ApiResponse<PageResult<Purchase>>)
      reads this
      {
      ListPurchases(purchases, params)
    }

    /**
     * `mockGetPurchaseDetail`: always code 200; the first purchase with the id,
     * or no data and the message "采购单不存在" when there is none.
     */
    function GetPurchaseDetail(id: string): (resp: ApiResponse<Option<Purchase>>)
      reads this
      ensures resp.code == 200
      ensures resp.data.Some? ==> resp.data.value in purchases && resp.data.value.id == id
      ensures resp.data.None? <==> forall k :: 0 <= k < |purchases| ==> purchases[k].id != id
      ensures resp.data.Some? ==> resp.data.value == purchases[FindIndex(purchases, HasId(id))]
      ensures resp.message == if resp.data.Some? then "success" else "采购单不存在"
    {
      var found := Find(purchases, HasId(id));
      ApiResponse(200, if found.Some? then "success" else "采购单不存在", found)
    }

    /** `mockCreatePurchase`: the new pending purchase goes to the front of the store. */
    method CreatePurchase(params: CreatePurchaseParams, id: string, orderNo: string, now: int)
      returns (resp: ApiResponse<Purchase>)
      modifies this
      ensures resp.code == 200 && resp.data == NewPurchase(params, id, orderNo, now)
      ensures purchases == [resp.data] + old(purchases)
    {
      var p := NewPurchase(params, id, orderNo, now);
      purchases := [p] + purchases;
      resp := ApiResponse(200, "success", p);
    }

    /**
     * `mockCancelPurchase`: the first purchase with the id becomes cancelled,
     * from any status, and nothing else changes; an unknown id gives 404.
     */
    method CancelPurchase(id: string) returns (resp: ApiResponse<bool>)
      modifies this
      ensures FindIndex(old(purchases), HasId(id)) == -1 ==>
                resp == ApiResponse(404, "采购单不存在", false) && purchases == old(purchases)
      ensures var k := FindIndex(old(purchases), HasId(id));
              k >= 0 ==>
                && resp == ApiResponse(200, "success", true)
                && purchases == old(purchases)[k := MarkCancelled(old(purchases)[k])]
    {
      var index := FindIndex(purchases, HasId(id));
      if index == -1 {
        return ApiResponse(404, "采购单不存在", false);
      }
      purchases := purchases[index := MarkCancelled(purchases[index])];
      resp := ApiResponse(200, "success", true);
    }
  }

  /** After a cancel that succeeds, the detail lookup of that id shows the purchase cancelled. */
  lemma CancelVisibleInDetail(stored: seq<Purchase>, id: string)
    requires FindIndex(stored, HasId(id)) >= 0
    ensures var k := FindIndex(stored, HasId(id));
            var after := stored[k := MarkCancelled(stored[k])];
            && FindIndex(after, HasId(id)) == k
            && Find(after, HasId(id)) == Some(MarkCancelled(stored[k]))
  {
    var k := FindIndex(stored, HasId(id));
    var after := stored[k := MarkCancelled(stored[k])];
    assert HasId(id)(after[k]);
    assert forall j :: 0 <= j < k ==> after[j] == stored[j];
  }

  /** Creating a purchase and then cancelling its id leaves it at the front, cancelled. */
  method CreateThenCancel(draws: seq<PurchaseDraw>, iso: int -> string, now: int,
                          params: CreatePurchaseParams, id: string, orderNo: string)
    returns (created: Purchase, shown: Option<Purchase>, count: nat)
    requires |draws| == 20 && forall k :: 0 <= k < 20 ==> ValidPurchaseDraw(draws[k])
    ensures created.status == Pending && created.id == id
    ensures shown == Some(created.(status := PurchaseStatus.Cancelled, statusLabel := "已取消"))
    ensures count == 21
  {
    var service := new PurchaseService(draws, iso, now);
    var r := service.CreatePurchase(params, id, orderNo, now);
    created := r.data;
    var c := service.CancelPurchase(id);
    var detail := service.GetPurchaseDetail(id);
    shown := detail.data;
    count := |service.purchases|;
  }
}
