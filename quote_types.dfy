/** Buyer-side quote records and their status vocabulary (src/types/quote.ts). */
module QuoteTypes {
  import opened Wrappers

  datatype QuoteStatus = Pending | Selected | Rejected | Expired

  /** `QuoteStatusLabels` */
  function QuoteStatusLabel(s: QuoteStatus): string {
    match s
    case Pending => "待选择"
    case Selected => "已中标"
    case Rejected => "未中标"
    case Expired => "已过期"
  }

  /** Each status has its own label, so a label names one status. */
  lemma QuoteStatusLabelsDistinct(a: QuoteStatus, b: QuoteStatus)
    ensures QuoteStatusLabel(a) == QuoteStatusLabel(b) ==> a == b
  {
  }

  /** A file attached to a quote. */
  datatype QuoteAttachment = QuoteAttachment(id: string, url: string, name: string)

  /**
   * A supplier's quote as the buyer sees it. Timestamps are milliseconds;
   * `contactPhone` and `contactName` stay absent until the quote wins.
   */
  datatype Quote = Quote(
    id: string,
    supplierCode: string,
    price: int,
    brand: string,
    productionDate: string,
    quantity: int,
    warrantyPeriod: string,
    deliveryTime: int,
    description: string,
    contactPhone: Option<string>,
    contactName: Option<string>,
    status: QuoteStatus,
    statusLabel: string,
    attachments: seq<QuoteAttachment>,
    createTime: int)

  datatype SortKey = ByPrice | ByDeliveryTime | ByBrandMatch

  datatype SortOrder = Asc | Desc

  datatype QuoteListParams = QuoteListParams(purchaseId: string, sortBy: Option<SortKey>, sortOrder: Option<SortOrder>)
}
