/**
 * The buyer app's in-memory quote back-end (src/services/mock/quote.ts): quotes
 * are generated once per purchase and cached in `quotesMap`; the list query
 * returns a sorted copy; the award ("confirm supplier") marks one quote
 * SELECTED and every sibling REJECTED, revealing the winner's contact.
 */
module QuoteMock {
  import opened Wrappers
  import opened Text
  import opened Lists
  import opened ApiTypes
  import opened QuoteTypes

  // ---------------------------------------------------------------------------
  // Generation
  // ---------------------------------------------------------------------------

  /** `supplierCodes` */
  const SupplierCodes: seq<char> := ['A', 'B', 'C', 'D', 'E']

  const Brands: seq<string> := ["博世", "电装", "德尔福", "法雷奥", "大陆"]

  const Description: string := "品质保证，原厂正品，支持验货。送货上门，售后无忧。"

  /**
   * The random numbers one generated quote consumes, already scaled to the
   * ranges `Math.floor(Math.random() * n)` produces, plus the generated id and
   * creation time.
   */
  datatype QuoteDraw = QuoteDraw(
    id: string,
    priceDraw: nat,
    brandIndex: nat,
    monthDraw: nat,
    quantityDraw: nat,
    warrantyDraw: nat,
    deliveryDraw: nat,
    createTime: int)

  predicate ValidDraw(d: QuoteDraw) {
    d.priceDraw < 3000 && d.brandIndex < 5 && d.monthDraw < 9 &&
    d.quantityDraw < 10 && d.warrantyDraw < 24 && d.deliveryDraw < 72
  }

  predicate ValidDraws(draws: seq<QuoteDraw>) {
    2 <= |draws| <= 5 && forall i :: 0 <= i < |draws| ==> ValidDraw(draws[i])
  }

  /** The `i`-th quote pushed by the generator loop, before sorting. */
  function DrawnQuote(i: nat, d: QuoteDraw): Quote
    requires i < 5 && ValidDraw(d)
  {
    Quote(
      id := "quote_" + d.id,
      supplierCode := "供应商" + [SupplierCodes[i]],
      price := d.priceDraw + 500,
      brand := Brands[d.brandIndex],
      productionDate := "2024-0" + NatToString(d.monthDraw + 1),
      quantity := d.quantityDraw + 1,
      warrantyPeriod := NatToString(d.warrantyDraw + 6) + "个月",
      deliveryTime := d.deliveryDraw + 12,
      description := Description,
      contactPhone := None,
      contactName := None,
      status := Pending,
      statusLabel := "待选择",
      attachments := [],
      createTime := d.createTime)
  }

  function PriceOf(q: Quote): int { q.price }

  function DeliveryTimeOf(q: Quote): int { q.deliveryTime }

  /** What every freshly generated quote satisfies. */
  predicate FreshQuote(q: Quote) {
    && q.status == Pending && q.statusLabel == QuoteStatusLabel(Pending)
    && q.contactPhone.None? && q.contactName.None? && q.attachments == []
    && 500 <= q.price < 3500 && 12 <= q.deliveryTime < 84 && 1 <= q.quantity <= 10
  }

  /** Every drawn quote is fresh. */
  lemma DrawnQuoteIsFresh(i: nat, d: QuoteDraw)
    requires i < 5 && ValidDraw(d)
    ensures FreshQuote(DrawnQuote(i, d))
  {
  }

  /** The quotes in the order the generator loop pushes them. */
  function DrawnQuotes(draws: seq<QuoteDraw>): (r: seq<Quote>)
    requires ValidDraws(draws)
    ensures |r| == |draws|
    ensures forall i :: 0 <= i < |r| ==> r[i] == DrawnQuote(i, draws[i])
  {
    seq(|draws|, i requires 0 <= i < |draws| => DrawnQuote(i, draws[i]))
  }

  /** Reordering keeps every quote fresh. */
  lemma PermutedFresh(s: seq<Quote>, t: seq<Quote>)
    requires multiset(s) == multiset(t)
    requires forall i :: 0 <= i < |s| ==> FreshQuote(s[i])
    ensures forall i :: 0 <= i < |t| ==> FreshQuote(t[i])
  {
    forall i | 0 <= i < |t| ensures FreshQuote(t[i]) {
      assert t[i] in multiset(s);
    }
  }

  /** `generateMockQuotes`: two to five pending quotes, cheapest first. */
  function GenerateMockQuotes(draws: seq<QuoteDraw>): (r: seq<Quote>)
    requires ValidDraws(draws)
    ensures |r| == |draws|
    ensures forall i :: 0 <= i < |r| ==> FreshQuote(r[i])
    ensures SortedBy(r, PriceOf, false)
    ensures multiset(r) == multiset(DrawnQuotes(draws))
  {
    var pushed := DrawnQuotes(draws);
    assert forall i :: 0 <= i < |pushed| ==> FreshQuote(pushed[i]) by {
      forall i | 0 <= i < |pushed| ensures FreshQuote(pushed[i]) {
        DrawnQuoteIsFresh(i, draws[i]);
      }
    }
    var r := SortBy(pushed, PriceOf, false);
    PermutedFresh(pushed, r);
    r
  }

  // ---------------------------------------------------------------------------
  // List and detail
  // ---------------------------------------------------------------------------

  /**
   * The list `mockGetQuoteList` returns for the cached quotes `stored`: a
   * re-ordered copy when a known sort key is asked for, the cached list itself
   * otherwise.
   */
  function ListView(stored: seq<Quote>, params: QuoteListParams): (r: seq<Quote>)
    ensures multiset(r) == multiset(stored)
    ensures params.sortBy == Some(ByPrice) ==> SortedBy(r, PriceOf, params.sortOrder == Some(Desc))
    ensures params.sortBy == Some(ByDeliveryTime) ==> SortedBy(r, DeliveryTimeOf, params.sortOrder == Some(Desc))
    ensures params.sortBy != Some(ByPrice) && params.sortBy != Some(ByDeliveryTime) ==> r == stored
  {
    var desc := params.sortOrder == Some(Desc);
    match params.sortBy
    case Some(ByPrice) => SortBy(stored, PriceOf, desc)
    case Some(ByDeliveryTime) => SortBy(stored, DeliveryTimeOf, desc)
    case _ => stored
  }

  /** Quotes of equal price, or of equal delivery time, are listed in their stored order. */
  lemma ListViewKeepsTies(stored: seq<Quote>, params: QuoteListParams, k: int)
    ensures params.sortBy == Some(ByPrice) ==>
              Filter(ListView(stored, params), KeyIs(PriceOf, k)) == Filter(stored, KeyIs(PriceOf, k))
    ensures params.sortBy == Some(ByDeliveryTime) ==>
              Filter(ListView(stored, params), KeyIs(DeliveryTimeOf, k)) == Filter(stored, KeyIs(DeliveryTimeOf, k))
  {
    var desc := params.sortOrder == Some(Desc);
    if params.sortBy == Some(ByPrice) {
      assert ListView(stored, params) == SortBy(stored, PriceOf, desc);
      EqualKeysKeepOrder(stored, PriceOf, desc, k);
    } else if params.sortBy == Some(ByDeliveryTime) {
      assert ListView(stored, params) == SortBy(stored, DeliveryTimeOf, desc);
      EqualKeysKeepOrder(stored, DeliveryTimeOf, desc, k);
    }
  }

  function HasId(quoteId: string): Quote -> bool {
    (q: Quote) => q.id == quoteId
  }

  // ---------------------------------------------------------------------------
  // Award
  // ---------------------------------------------------------------------------

  /** The contact number revealed to the buyer: `'138****'` and a four-digit draw. */
  function RevealedPhone(phoneDraw: nat): (p: string)
    requires phoneDraw < 10000
    ensures |p| == 11 && p[..7] == "138****" && AllDigits(p[7..])
  {
    NatToStringLength(phoneDraw, 4);
    "138****" + PadStart(NatToString(phoneDraw), 4, '0')
  }

  const ContactName: string := "供应商联系人"

  /** The `forEach` body of the award applied to one quote. */
  function AwardOne(q: Quote, quoteId: string, phone: string): Quote {
    if q.id == quoteId then
      q.(status := Selected, statusLabel := "已中标", contactPhone := Some(phone), contactName := Some(ContactName))
    else
      q.(status := Rejected, statusLabel := "未中标")
  }

  /**
   * The award cascade on a purchase's quotes: the quotes with the chosen id
   * become SELECTED with the contact revealed, all others become REJECTED and
   * keep whatever contact fields they had. Nothing else about a quote changes.
   * The source draws a phone number for each quote with the chosen id; the one
   * `phone` stands for that draw, which is exact when ids are distinct, as in
   * the generated lists (`AwardSingleWinner`).
   */
  function Award(qs: seq<Quote>, quoteId: string, phone: string): (r: seq<Quote>)
    ensures |r| == |qs|
    ensures forall i :: 0 <= i < |r| ==> (r[i].status == Selected <==> qs[i].id == quoteId)
    ensures forall i :: 0 <= i < |r| ==> (r[i].status == Rejected <==> qs[i].id != quoteId)
    ensures forall i :: 0 <= i < |r| ==> r[i].statusLabel == QuoteStatusLabel(r[i].status)
    ensures forall i :: 0 <= i < |r| && qs[i].id == quoteId ==>
              r[i].contactPhone == Some(phone) && r[i].contactName == Some(ContactName)
    ensures forall i :: 0 <= i < |r| && qs[i].id != quoteId ==>
              r[i].contactPhone == qs[i].contactPhone && r[i].contactName == qs[i].contactName
    ensures forall i :: 0 <= i < |r| ==>
              r[i].(status := qs[i].status, statusLabel := qs[i].statusLabel,
                    contactPhone := qs[i].contactPhone, contactName := qs[i].contactName) == qs[i]
  {
    seq(|qs|, i requires 0 <= i < |qs| => AwardOne(qs[i], quoteId, phone))
  }

  /** Awarding each quote in place, one after another, gives the award of the list. */
  lemma AwardedInPlace(s: seq<Quote>, qs: seq<Quote>, quoteId: string, phone: string)
    requires |s| == |qs| && forall k :: 0 <= k < |s| ==> s[k] == AwardOne(qs[k], quoteId, phone)
    ensures s == Award(qs, quoteId, phone)
  {
  }

  predicate UniqueIds(qs: seq<Quote>) {
    forall i, j :: 0 <= i < j < |qs| ==> qs[i].id != qs[j].id
  }

  function CountStatus(qs: seq<Quote>, s: QuoteStatus): (n: nat)
    ensures n <= |qs|
  {
    if qs == [] then 0 else (if qs[0].status == s then 1 else 0) + CountStatus(qs[1..], s)
  }

  lemma {:induction false} CountStatusNone(qs: seq<Quote>, s: QuoteStatus)
    requires forall i :: 0 <= i < |qs| ==> qs[i].status != s
    ensures CountStatus(qs, s) == 0
  {
    if qs != [] {
      CountStatusNone(qs[1..], s);
    }
  }

  /**
   * With distinct quote ids, awarding a quote that is present leaves exactly
   * one SELECTED quote and all the others REJECTED.
   */
  lemma {:induction false} AwardSingleWinner(qs: seq<Quote>, quoteId: string, phone: string)
    requires UniqueIds(qs)
    requires exists i :: 0 <= i < |qs| && qs[i].id == quoteId
    ensures CountStatus(Award(qs, quoteId, phone), Selected) == 1
    ensures CountStatus(Award(qs, quoteId, phone), Rejected) == |qs| - 1
  {
    var r := Award(qs, quoteId, phone);
    assert r[0] == AwardOne(qs[0], quoteId, phone);
    assert r[1..] == Award(qs[1..], quoteId, phone);
    if qs[0].id == quoteId {
      var t := Award(qs[1..], quoteId, phone);
      CountStatusNone(t, Selected);
      CountRejectedAll(t);
    } else {
      AwardSingleWinner(qs[1..], quoteId, phone);
    }
  }

  lemma {:induction false} CountRejectedAll(qs: seq<Quote>)
    requires forall i :: 0 <= i < |qs| ==> qs[i].status == Rejected
    ensures CountStatus(qs, Rejected) == |qs|
  {
    if qs != [] {
      CountRejectedAll(qs[1..]);
    }
  }

  /**
   * Awarding again moves the selection: afterwards the statuses are those of a
   * single award of the new quote, and an earlier winner with another id is
   * REJECTED while still carrying the contact revealed to it.
   */
  lemma ReawardMovesSelection(qs: seq<Quote>, first: string, second: string, p1: string, p2: string)
    requires first != second
    ensures var twice, once := Award(Award(qs, first, p1), second, p2), Award(qs, second, p2);
            && |twice| == |once|
            && (forall i :: 0 <= i < |twice| ==> twice[i].status == once[i].status)
            && (forall i :: 0 <= i < |qs| && qs[i].id == first ==>
                  twice[i].status == Rejected && twice[i].contactPhone == Some(p1))
  {
  }

  datatype ConfirmResult = ConfirmResult(success: bool, supplierPhone: string, supplierName: string)

  const NotFound: ApiResponse<ConfirmResult> := ApiResponse(404, "报价不存在", ConfirmResult(false, "", ""))

  // ---------------------------------------------------------------------------
  // The back-end with its cache
  // ---------------------------------------------------------------------------

  class QuoteService {
    /** `quotesMap`: the quotes generated for each purchase id. */
    var quotesMap: map<string, seq<Quote>>

    constructor ()
      ensures quotesMap == map[]
    {
      quotesMap := map[];
    }

    /**
     * `mockGetQuoteList`: generates and caches the quotes of an unseen purchase
     * (`draws` are the generator's random numbers), then returns the cached
     * list, re-ordered on a copy when a sort key is given.
     */
    method GetQuoteList(params: QuoteListParams, draws: seq<QuoteDraw>) returns (resp: ApiResponse<seq<Quote>>)
      requires ValidDraws(draws)
      modifies this
      ensures params.purchaseId in old(quotesMap) ==> quotesMap == old(quotesMap)
      ensures params.purchaseId !in old(quotesMap) ==>
                quotesMap == old(quotesMap)[params.purchaseId := GenerateMockQuotes(draws)]
      ensures resp == ApiResponse(200, "success", ListView(quotesMap[params.purchaseId], params))
    {
      if params.purchaseId !in quotesMap {
        quotesMap := quotesMap[params.purchaseId := GenerateMockQuotes(draws)];
      }
      resp := ApiResponse(200, "success", ListView(quotesMap[params.purchaseId], params));
    }

    /**
     * `mockGetQuoteDetail`: 404 when nothing was cached for the purchase;
     * otherwise 200, with the first quote of that id or no data.
     */
    function GetQuoteDetail(purchaseId: string, quoteId: string): (resp: ApiResponse<Option<Quote>>)
      reads this
      ensures purchaseId !in quotesMap ==> resp == ApiResponse(404, "报价不存在", None)
      ensures purchaseId in quotesMap ==> resp.code == 200
      ensures purchaseId in quotesMap ==>
                (resp.data.None? <==> forall i :: 0 <= i < |quotesMap[purchaseId]| ==> quotesMap[purchaseId][i].id != quoteId)
      ensures resp.data.Some? ==>
                resp.data.value.id == quoteId && resp.data.value in quotesMap[purchaseId] && resp.message == "success"
      ensures purchaseId in quotesMap && resp.data.None? ==> resp.message == "报价不存在"
      ensures resp.data.Some? ==>
                resp.data.value == quotesMap[purchaseId][FindIndex(quotesMap[purchaseId], HasId(quoteId))]
    {
      if purchaseId !in quotesMap then ApiResponse(404, "报价不存在", None)
      else
        var found := Find(quotesMap[purchaseId], HasId(quoteId));
        ApiResponse(200, if found.Some? then "success" else "报价不存在", found)
    }

    /**
     * `mockConfirmSupplier`: 404 and no change when the purchase has no cached
     * quotes or none with this id; otherwise every cached quote of the purchase
     * goes through the award, in place, whatever its previous status, and the
     * winner's code and revealed phone are returned.
     */
    method ConfirmSupplier(purchaseId: string, quoteId: string, phoneDraw: nat) returns (resp: ApiResponse<ConfirmResult>)
      requires phoneDraw < 10000
      modifies this
      ensures purchaseId !in old(quotesMap) ==> resp == NotFound && quotesMap == old(quotesMap)
      ensures purchaseId in old(quotesMap) && Find(old(quotesMap)[purchaseId], HasId(quoteId)).None? ==>
                resp == NotFound && quotesMap == old(quotesMap)
      ensures purchaseId in old(quotesMap) && Find(old(quotesMap)[purchaseId], HasId(quoteId)).Some? ==>
                && quotesMap == old(quotesMap)[purchaseId := Award(old(quotesMap)[purchaseId], quoteId, RevealedPhone(phoneDraw))]
                && resp == ApiResponse(200, "success", ConfirmResult(true, RevealedPhone(phoneDraw),
                                         Find(old(quotesMap)[purchaseId], HasId(quoteId)).value.supplierCode))
    {
      if purchaseId !in quotesMap {
        return NotFound;
      }
      var quotes := quotesMap[purchaseId];
      var selected := Find(quotes, HasId(quoteId));
      if selected.None? {
        return NotFound;
      }
      var phone := RevealedPhone(phoneDraw);
      var cached := quotes;
      var i := 0;
      while i < |quotes|
        invariant 0 <= i <= |quotes| == |cached|
        invariant forall k :: 0 <= k < i ==> quotes[k] == AwardOne(cached[k], quoteId, phone)
        invariant forall k :: i <= k < |quotes| ==> quotes[k] == cached[k]
      {
        quotes := quotes[i := AwardOne(quotes[i], quoteId, phone)];
        i := i + 1;
      }
      AwardedInPlace(quotes, cached, quoteId, phone);
      quotesMap := quotesMap[purchaseId := quotes];
      resp := ApiResponse(200, "success", ConfirmResult(true, phone, selected.value.supplierCode));
    }
  }

  /**
   * A buyer session: list the quotes of a purchase, award the first of them,
   * list again with other random draws. The second list comes from the cache,
   * so it shows the same quotes with the award applied: the awarded quote is
   * SELECTED and every quote with another id is REJECTED.
   */
  method AwardIsVisibleToLaterLists(purchaseId: string, draws: seq<QuoteDraw>, later: seq<QuoteDraw>, phoneDraw: nat)
    returns (before: seq<Quote>, after: seq<Quote>)
    requires ValidDraws(draws) && ValidDraws(later) && phoneDraw < 10000
    ensures |before| == |after| == |draws|
    ensures forall i :: 0 <= i < |before| ==> before[i].status == Pending
    ensures forall i :: 0 <= i < |after| ==> after[i].id == before[i].id
    ensures after[0].status == Selected && after[0].contactPhone == Some(RevealedPhone(phoneDraw))
    ensures forall i :: 0 <= i < |after| ==> (after[i].status == Selected <==> after[i].id == before[0].id)
    ensures forall i :: 0 <= i < |after| && after[i].id != before[0].id ==> after[i].status == Rejected
  {
    var service := new QuoteService();
    var noSort := QuoteListParams(purchaseId, None, None);
    var listed := service.GetQuoteList(noSort, draws);
    before := listed.data;
    var _ := service.ConfirmSupplier(purchaseId, before[0].id, phoneDraw);
    listed := service.GetQuoteList(noSort, later);
    after := listed.data;
  }
}
