/** Buyer-side order records and their status vocabulary (src/types/order.ts). */
module OrderTypes {
  import opened Wrappers

  datatype OrderStatus = Preparing | ReadyToShip | Shipped | Delivering | Delivered | Received | Cancelled

  /** `OrderStatusLabels` */
  function OrderStatusLabel(s: OrderStatus): string {
    match s
    case Preparing => "供应商备货"
    case ReadyToShip => "待发货"
    case Shipped => "已发货"
    case Delivering => "派送中"
    case Delivered => "已送达"
    case Received => "已收货"
    case Cancelled => "已取消"
  }

  /** Each status has its own label, so a label names one status. */
  lemma OrderStatusLabelsDistinct(a: OrderStatus, b: OrderStatus)
    ensures OrderStatusLabel(a) == OrderStatusLabel(b) ==> a == b
  {
  }

  /** One step of the order timeline; `time` is a millisecond timestamp. */
  datatype OrderStatusNode = OrderStatusNode(
    status: OrderStatus,
    nodeLabel: string,  // the source's `label` (a reserved word here)
    time: Option<int>,
    operator: Option<string>,
    contactPhone: Option<string>,
    completed: bool,
    current: bool)

  datatype Order = Order(
    id: string,
    orderNo: string,
    purchaseId: string,
    purchaseOrderNo: string,
    supplierId: string,
    supplierName: string,
    supplierPhone: string,
    supplierContact: string,
    partName: string,
    specification: string,
    quantity: int,
    unitPrice: int,
    totalPrice: int,
    status: OrderStatus,
    statusLabel: string,
    statusNodes: seq<OrderStatusNode>,
    trackingNo: Option<string>,
    logisticsCompany: Option<string>,
    deliveryNo: Option<string>,
    receiveTime: Option<int>,
    receivePhotos: Option<seq<string>>,
    createTime: int,
    updateTime: int)

  datatype ReceiveOrderParams = ReceiveOrderParams(orderId: string, deliveryNo: string, photos: seq<string>)

  /** The payload of the status query: `{ status, statusLabel, statusNodes }`. */
  datatype OrderStatusInfo = OrderStatusInfo(status: OrderStatus, statusLabel: string, statusNodes: seq<OrderStatusNode>)
}
