/** Purchase (demand) records on the buyer side and their status vocabulary (src/types/purchase.ts). */
module PurchaseTypes {
  import opened Wrappers

  datatype PurchaseStatus = Pending | Quoted | Confirmed | Completed | Cancelled

  /** `PurchaseStatusLabels` */
  function PurchaseStatusLabel(s: PurchaseStatus): string {
    match s
    case Pending => "待应标"
    case Quoted => "已应标"
    case Confirmed => "已成交"
    case Completed => "已完成"
    case Cancelled => "已取消"
  }

  /** Each status has its own label, so a label names one status. */
  lemma PurchaseStatusLabelsDistinct(a: PurchaseStatus, b: PurchaseStatus)
    ensures PurchaseStatusLabel(a) == PurchaseStatusLabel(b) ==> a == b
  {
  }

  /** A part category; `children` is absent on leaves of the mock data. */
  datatype PartCategory = PartCategory(id: string, name: string, children: Option<seq<PartCategory>>)

  datatype AttachmentType = Image | Pdf

  datatype PurchaseAttachment = PurchaseAttachment(id: string, url: string, name: string, attachmentType: AttachmentType)

  /** A purchase order; `publishTime` is a millisecond timestamp. */
  datatype Purchase = Purchase(
    id: string,
    orderNo: string,
    categoryId: string,
    categoryName: string,
    brandId: string,
    brandName: string,
    partName: string,
    specification: string,
    quantity: int,
    budget: int,
    description: string,
    expectedArrivalTime: string,
    quoteDeadline: string,
    publishTime: int,
    attachments: seq<PurchaseAttachment>,
    status: PurchaseStatus,
    statusLabel: string,
    quoteCount: nat,
    storeId: string,
    storeName: string)

  datatype CreatePurchaseParams = CreatePurchaseParams(
    categoryId: string,
    brandId: string,
    partName: string,
    specification: string,
    quantity: int,
    budget: int,
    description: string,
    expectedArrivalTime: string,
    quoteDeadline: string,
    attachmentUrls: seq<string>)

  /** `page` and `size` of 0 stand for the source's falsy (missing) values. */
  datatype PurchaseListParams = PurchaseListParams(page: int, size: int, status: Option<PurchaseStatus>, keyword: Option<string>)

  datatype Brand = Brand(id: string, name: string)
}
