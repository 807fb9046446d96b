/** Records of the supplier portal (productor_PC/src/types/index.ts). */
module SupplierTypes {
  import opened Wrappers

  datatype Role = SupplierRole | AdminRole

  datatype User = User(
    id: string,
    username: string,
    email: string,
    phone: string,
    companyName: string,
    role: Role,
    avatar: Option<string>)

  datatype DemandStatus = DemandPending | DemandQuoted | DemandClosed | DemandAwarded

  /** The string the source stores in `Demand.status`. */
  function DemandStatusName(s: DemandStatus): string {
    match s
    case DemandPending => "pending"
    case DemandQuoted => "quoted"
    case DemandClosed => "closed"
    case DemandAwarded => "awarded"
  }

  /** Comparing status strings is comparing statuses. */
  lemma DemandStatusNamesDistinct(a: DemandStatus, b: DemandStatus)
    ensures DemandStatusName(a) == DemandStatusName(b) <==> a == b
  {
  }

  datatype StoreInfo = StoreInfo(id: string, name: string, contact: string, phone: string, address: string)

  datatype AttachmentKind = ImageFile | PdfFile | OtherFile

  /** A file attached to a demand or a quote; `size` is in bytes. */
  datatype Attachment = Attachment(id: string, name: string, url: string, kind: AttachmentKind, size: int)

  /** A buyer's demand; `deadline` and `createdAt` are millisecond timestamps. */
  datatype Demand = Demand(
    id: string,
    demandNo: string,
    title: string,
    description: string,
    category: string,
    brand: string,
    quantity: int,
    budgetMin: int,
    budgetMax: int,
    deadline: int,
    status: DemandStatus,
    attachments: seq<Attachment>,
    createdAt: int,
    storeInfo: StoreInfo)

  datatype QuoteStatus = QuotePending | QuoteWon | QuoteLost

  /** The string the source stores in `Quote.status`. */
  function QuoteStatusName(s: QuoteStatus): string {
    match s
    case QuotePending => "pending"
    case QuoteWon => "won"
    case QuoteLost => "lost"
  }

  /** Comparing status strings is comparing statuses; none is named `all`. */
  lemma QuoteStatusNamesDistinct(a: QuoteStatus, b: QuoteStatus)
    ensures QuoteStatusName(a) == QuoteStatusName(b) <==> a == b
    ensures QuoteStatusName(a) != "all" && QuoteStatusName(a) != ""
  {
  }

  datatype DeliveryMethod = Express | Pickup | Logistics

  /** A supplier's own quote; `createdAt` is a millisecond timestamp. */
  datatype Quote = Quote(
    id: string,
    quoteNo: string,
    demandId: string,
    demandNo: string,
    demandTitle: string,
    price: int,
    brand: string,
    productionDate: string,
    quantity: int,
    warrantyPeriod: string,
    deliveryMethod: DeliveryMethod,
    deliveryDuration: string,
    contactPhone: string,
    detailContent: string,
    attachments: seq<Attachment>,
    status: QuoteStatus,
    createdAt: int,
    isWinner: Option<bool>)

  datatype QuoteSubmitParams = QuoteSubmitParams(
    demandId: string,
    price: int,
    brand: string,
    productionDate: string,
    quantity: int,
    warrantyPeriod: string,
    deliveryMethod: DeliveryMethod,
    deliveryDuration: string,
    contactPhone: string,
    detailContent: string,
    attachmentUrls: seq<string>)

  datatype ShippingParams = ShippingParams(
    quoteId: string,
    deliveryPerson: string,
    deliveryPhone: string,
    deliveryTime: string,
    consignee: string,
    consigneePhone: string,
    trackingNumber: string,
    remark: Option<string>,
    deliverySlipUrl: string)

  datatype ShippingStatus = Shipped | ShippingReceived

  /** `{ id, ...params, status, createdAt }` */
  datatype Shipping = Shipping(id: string, params: ShippingParams, status: ShippingStatus, createdAt: int)

  datatype PageResult<T> = PageResult(total: nat, list: seq<T>, page: int, size: int)

  /** `DemandFilter`; an absent field and an empty string both mean "no filter". */
  datatype DemandFilter = DemandFilter(
    category: Option<string>,
    brand: Option<string>,
    startTime: Option<string>,
    endTime: Option<string>,
    status: Option<string>)

  /** The portal's envelope `{ code, msg, data }`; `None` stands for `data: null`. */
  datatype ApiResponse<T> = ApiResponse(code: int, msg: string, data: Option<T>)
}
