/**
 * The buyer app's in-memory order back-end (src/services/mock/order.ts): the
 * five-step order timeline, generated orders cached in `ordersMap`, the detail
 * and status lookups, receipt confirmation and order creation.
 */
module OrderMock {
  import opened Wrappers
  import opened Text
  import opened ApiTypes
  import opened OrderTypes

  // ---------------------------------------------------------------------------
  // Timeline
  // ---------------------------------------------------------------------------

  /** `statusNodeConfig`: the five timeline steps and their labels, in order. */
  const StatusNodeConfig: seq<(OrderStatus, string)> := [
    (Preparing, "供应商备货"),
    (ReadyToShip, "待发货"),
    (Shipped, "已发货"),
    (Delivering, "派送中"),
    (Delivered, "已送达")
  ]

  const HourMs: int := 3600000

  const SystemOperator: string := "系统"

  const ServicePhone: string := "400-xxx-xxxx"

  /** `statusNodeConfig.findIndex(item => item.status === s)` */
  function TimelineIndex(s: OrderStatus): (k: int)
    ensures -1 <= k < |StatusNodeConfig|
    ensures k >= 0 ==> StatusNodeConfig[k].0 == s
    ensures k == -1 <==> s == Received || s == Cancelled
  {
    match s
    case Preparing => 0
    case ReadyToShip => 1
    case Shipped => 2
    case Delivering => 3
    case Delivered => 4
    case _ => -1
  }

  /**
   * `generateStatusNodes`: the five steps in their fixed order; the steps before
   * the current status are completed, the current one is marked current, and
   * exactly the steps up to the current one carry a time (one hour apart,
   * ending now), an operator and a contact phone. A status off the timeline
   * (received, cancelled) completes, marks and stamps nothing.
   */
  function GenerateStatusNodes(current: OrderStatus, now: int): (nodes: seq<OrderStatusNode>)
    ensures |nodes| == |StatusNodeConfig| == 5
    ensures forall i :: 0 <= i < 5 ==>
              nodes[i].status == StatusNodeConfig[i].0 && nodes[i].nodeLabel == StatusNodeConfig[i].1
    ensures forall i :: 0 <= i < 5 ==> (nodes[i].completed <==> i < TimelineIndex(current))
    ensures forall i :: 0 <= i < 5 ==> (nodes[i].current <==> nodes[i].status == current)
    ensures forall i, j :: 0 <= i < 5 && 0 <= j < 5 && nodes[i].current && nodes[j].current ==> i == j
    ensures forall i :: 0 <= i < 5 ==>
              (nodes[i].time.Some? <==> i <= TimelineIndex(current)) &&
              (nodes[i].operator.Some? <==> i <= TimelineIndex(current)) &&
              (nodes[i].contactPhone.Some? <==> i <= TimelineIndex(current))
    ensures forall i, j :: 0 <= i < j < 5 && nodes[j].time.Some? ==>
              nodes[i].time.Some? && nodes[i].time.value < nodes[j].time.value
    ensures TimelineIndex(current) >= 0 ==> nodes[TimelineIndex(current)].time == Some(now)
    ensures TimelineIndex(current) == -1 ==>
              forall i :: 0 <= i < 5 ==> !nodes[i].completed && !nodes[i].current && nodes[i].time.None?
  {
    var k := TimelineIndex(current);
    seq(5, i requires 0 <= i < 5 =>
      OrderStatusNode(
        status := StatusNodeConfig[i].0,
        nodeLabel := StatusNodeConfig[i].1,
        time := if i <= k then Some(now - (k - i) * HourMs) else None,
        operator := if i <= k then Some(SystemOperator) else None,
        contactPhone := if i <= k then Some(ServicePhone) else None,
        completed := i < k,
        current := i == k))
  }

  // ---------------------------------------------------------------------------
  // Generated orders
  // ---------------------------------------------------------------------------

  /** The generated parts of an order: its ids, order numbers and the random timeline position. */
  datatype OrderDraw = OrderDraw(id: string, orderNo: string, purchaseOrderNo: string, statusIndex: nat)

  const DayMs: int := 86400000

  /**
   * `generateMockOrder`: an order two units of the given price, at a random
   * step of the timeline, whose label and nodes agree with that step. The quote
   * id is accepted and not used, as in the source.
   */
  function GenerateMockOrder(purchaseId: string, quoteId: string, price: int, draw: OrderDraw, now: int): (o: Order)
    requires draw.statusIndex < 5
    ensures o.id == draw.id && o.purchaseId == purchaseId
    ensures o.quantity == 2 && o.unitPrice == price && o.totalPrice == o.unitPrice * o.quantity
    ensures TimelineIndex(o.status) == draw.statusIndex
    ensures o.statusLabel == OrderStatusLabel(o.status)
    ensures o.statusNodes == GenerateStatusNodes(o.status, now)
    ensures o.deliveryNo.None? && o.receiveTime.None? && o.receivePhotos.None?
  {
    var status := StatusNodeConfig[draw.statusIndex].0;
    Order(
      id := draw.id,
      orderNo := draw.orderNo,
      purchaseId := purchaseId,
      purchaseOrderNo := draw.purchaseOrderNo,
      supplierId := "supplier_001",
      supplierName := "供应商A",
      supplierPhone := "138****8888",
      supplierContact := "张经理",
      partName := "博世刹车片",
      specification := "规格型号-0001",
      quantity := 2,
      unitPrice := price,
      totalPrice := price * 2,
      status := status,
      statusLabel := OrderStatusLabel(status),
      statusNodes := GenerateStatusNodes(status, now),
      trackingNo := None,
      logisticsCompany := None,
      deliveryNo := None,
      receiveTime := None,
      receivePhotos := None,
      createTime := now - 2 * DayMs,
      updateTime := now)
  }

  /** A generated order's timeline has exactly one current step, and it is the order's status. */
  lemma GeneratedOrderHasOneCurrentStep(purchaseId: string, quoteId: string, price: int, draw: OrderDraw, now: int)
    requires draw.statusIndex < 5
    ensures var o := GenerateMockOrder(purchaseId, quoteId, price, draw, now);
            && o.statusNodes[draw.statusIndex].current
            && o.statusNodes[draw.statusIndex].status == o.status
            && forall i :: 0 <= i < 5 && i != draw.statusIndex ==> !o.statusNodes[i].current
  {
  }

  const NotFoundStatus: ApiResponse<OrderStatusInfo> :=
    ApiResponse(404, "订单不存在", OrderStatusInfo(Preparing, "供应商备货", []))

  /** The order after `mockReceiveOrder`: received, with the delivery note and photos; nodes untouched. */
  function MarkReceived(o: Order, params: ReceiveOrderParams, now: int): (r: Order)
    ensures r.status == Received && r.statusLabel == OrderStatusLabel(Received)
    ensures r.deliveryNo == Some(params.deliveryNo) && r.receivePhotos == Some(params.photos)
    ensures r.receiveTime == Some(now)
    ensures r.statusNodes == o.statusNodes
    ensures r.(status := o.status, statusLabel := o.statusLabel, deliveryNo := o.deliveryNo,
               receiveTime := o.receiveTime, receivePhotos := o.receivePhotos) == o
  {
    o.(status := Received, statusLabel := "已收货", deliveryNo := Some(params.deliveryNo),
       receiveTime := Some(now), receivePhotos := Some(params.photos))
  }

  // ---------------------------------------------------------------------------
  // The back-end with its store
  // ---------------------------------------------------------------------------

  class OrderService {
    /** `ordersMap` */
    var ordersMap: map<string, Order>

    constructor ()
      ensures ordersMap == map[]
    {
      ordersMap := map[];
    }

    /**
     * `mockGetOrderDetail`: an unknown id gets a generated order (for purchase
     * `purchase_001` at price 1200) stored under that id, so every later
     * lookup returns the same order. The generated order keeps its own id.
     */
    method GetOrderDetail(orderId: string, draw: OrderDraw, now: int) returns (resp: ApiResponse<Option<Order>>)
      requires draw.statusIndex < 5
      modifies this
      ensures orderId in old(ordersMap) ==> ordersMap == old(ordersMap)
      ensures orderId !in old(ordersMap) ==>
                ordersMap == old(ordersMap)[orderId := GenerateMockOrder("purchase_001", "quote_001", 1200, draw, now)]
      ensures resp == ApiResponse(200, "success", Some(ordersMap[orderId]))
    {
      if orderId !in ordersMap {
        var order := GenerateMockOrder("purchase_001", "quote_001", 1200, draw, now);
        ordersMap := ordersMap[orderId := order];
      }
      resp := ApiResponse(200, "success", Some(ordersMap[orderId]));
    }

    /**
     * `mockGetOrderStatus`: the stored order's status, label and nodes, or 404
     * with PREPARING and no nodes. Unlike the detail lookup it creates nothing.
     */
    function GetOrderStatus(orderId: string): (resp: ApiResponse<OrderStatusInfo>)
      reads this
      ensures orderId !in ordersMap ==> resp == NotFoundStatus
      ensures orderId in ordersMap ==>
                && resp.code == 200
                && resp.data.status == ordersMap[orderId].status
                && resp.data.statusLabel == ordersMap[orderId].statusLabel
                && resp.data.statusNodes == ordersMap[orderId].statusNodes
    {
      if orderId !in ordersMap then NotFoundStatus
      else
        var o := ordersMap[orderId];
        ApiResponse(200, "success", OrderStatusInfo(o.status, o.statusLabel, o.statusNodes))
    }

    /**
     * `mockReceiveOrder`: 404 and no change for an unknown id; otherwise the
     * order becomes received whatever its status was, and nothing else in the
     * store changes.
     */
    method ReceiveOrder(params: ReceiveOrderParams, now: int) returns (resp: ApiResponse<bool>)
      modifies this
      ensures params.orderId !in old(ordersMap) ==>
                resp == ApiResponse(404, "订单不存在", false) && ordersMap == old(ordersMap)
      ensures params.orderId in old(ordersMap) ==>
                && resp == ApiResponse(200, "success", true)
                && ordersMap == old(ordersMap)[params.orderId := MarkReceived(old(ordersMap)[params.orderId], params, now)]
    {
      if params.orderId !in ordersMap {
        return ApiResponse(404, "订单不存在", false);
      }
      ordersMap := ordersMap[params.orderId := MarkReceived(ordersMap[params.orderId], params, now)];
      resp := ApiResponse(200, "success", true);
    }

    /** `mockCreateOrder`: a generated order stored under its own id (replacing any order with that id). */
    method CreateOrder(purchaseId: string, quoteId: string, price: int, draw: OrderDraw, now: int) returns (resp: ApiResponse<Order>)
      requires draw.statusIndex < 5
      modifies this
      ensures resp.code == 200 && resp.data == GenerateMockOrder(purchaseId, quoteId, price, draw, now)
      ensures ordersMap == old(ordersMap)[resp.data.id := resp.data]
    {
      var order := GenerateMockOrder(purchaseId, quoteId, price, draw, now);
      ordersMap := ordersMap[order.id := order];
      resp := ApiResponse(200, "success", order);
    }
  }

  /** Two detail lookups of one id return the same order, whatever the second draw would have generated. */
  method DetailLookupIsStable(orderId: string, first: OrderDraw, second: OrderDraw, now: int, later: int)
    returns (a: Order, b: Order)
    requires first.statusIndex < 5 && second.statusIndex < 5
    ensures a == b
    ensures a == GenerateMockOrder("purchase_001", "quote_001", 1200, first, now)
  {
    var service := new OrderService();
    var r1 := service.GetOrderDetail(orderId, first, now);
    var r2 := service.GetOrderDetail(orderId, second, later);
    a, b := r1.data.value, r2.data.value;
  }

  /**
   * Create an order, confirm its receipt, then ask for its status: the status is
   * RECEIVED, yet the timeline is the one generated at creation, so no node is
   * marked for the received status.
   */
  method ReceiptLeavesTimeline(purchaseId: string, quoteId: string, price: int, draw: OrderDraw, now: int,
                               deliveryNo: string, photos: seq<string>, later: int)
    returns (info: OrderStatusInfo)
    requires draw.statusIndex < 5
    ensures info.status == Received && info.statusLabel == "已收货"
    ensures info.statusNodes == GenerateMockOrder(purchaseId, quoteId, price, draw, now).statusNodes
    ensures forall i :: 0 <= i < |info.statusNodes| ==> info.statusNodes[i].status != Received
  {
    var service := new OrderService();
    var created := service.CreateOrder(purchaseId, quoteId, price, draw, now);
    var _ := service.ReceiveOrder(ReceiveOrderParams(created.data.id, deliveryNo, photos), later);
    var status := service.GetOrderStatus(created.data.id);
    info := status.data;
  }
}
