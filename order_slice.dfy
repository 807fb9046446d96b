/**
 * The buyer app's Redux order slice (src/store/slices/order.ts): the order on
 * the detail page plus a separate copy of its status, label and timeline. Each
 * reducer or thunk case is a method whose postcondition gives the whole new
 * state through `State()`.
 */
module OrderSlice {
  import opened Wrappers
  import opened ApiTypes
  import opened OrderTypes
  import OrderMock

  /** Every field of `OrderState`, as one value. */
  datatype Snapshot = Snapshot(
    currentOrder: Option<Order>,
    orderStatus: Option<OrderStatus>,
    statusLabel: string,
    statusNodes: seq<OrderStatusNode>,
    loading: bool)

  /** `initialState` */
  const Initial := Snapshot(None, None, "", [], false)

  /** The order marked received in place by `confirmReceive.fulfilled`. */
  function MarkedReceived(o: Order): (r: Order)
    ensures r.status == Received && r.statusLabel == OrderStatusLabel(Received)
    ensures r.(status := o.status, statusLabel := o.statusLabel) == o
  {
    o.(status := Received, statusLabel := "已收货")
  }

  class OrderState {
    var currentOrder: Option<Order>
    var orderStatus: Option<OrderStatus>
    var statusLabel: string
    var statusNodes: seq<OrderStatusNode>
    var loading: bool

    function State(): Snapshot
      reads this
    {
      Snapshot(currentOrder, orderStatus, statusLabel, statusNodes, loading)
    }

    /** The separate status fields repeat those of the current order. */
    predicate InSync()
      reads this
    {
      currentOrder.Some? ==>
        && orderStatus == Some(currentOrder.value.status)
        && statusLabel == currentOrder.value.statusLabel
        && statusNodes == currentOrder.value.statusNodes
    }

    constructor ()
      ensures State() == Initial && InSync()
    {
      currentOrder, orderStatus, statusLabel, statusNodes, loading := None, None, "", [], false;
    }

    /** `setCurrentOrder`: only the order changes, not its status copy. */
    method SetCurrentOrder(o: Option<Order>)
      modifies this
      ensures State() == old(State()).(currentOrder := o)
    {
      currentOrder := o;
    }

    /** `clearOrder`: back to the initial order fields; `loading` is kept. */
    method ClearOrder()
      modifies this
      ensures State() == Initial.(loading := old(loading))
      ensures InSync()
    {
      currentOrder, orderStatus, statusLabel, statusNodes := None, None, "", [];
    }

    /** `fetchOrderDetail.pending` */
    method FetchDetailPending()
      modifies this
      ensures State() == old(State()).(loading := true)
    {
      loading := true;
    }

    /**
     * `fetchOrderDetail.fulfilled`: the payload becomes the current order even
     * when it is null; only a non-null payload refreshes the status copy, which
     * then agrees with it.
     */
    method FetchDetailFulfilled(payload: Option<Order>)
      modifies this
      ensures payload.Some? ==>
                State() == Snapshot(payload, Some(payload.value.status), payload.value.statusLabel,
                                    payload.value.statusNodes, false)
      ensures payload.None? ==> State() == old(State()).(currentOrder := None, loading := false)
      ensures InSync()
    {
      loading := false;
      currentOrder := payload;
      if payload.Some? {
        orderStatus := Some(payload.value.status);
        statusLabel := payload.value.statusLabel;
        statusNodes := payload.value.statusNodes;
      }
    }

    /** `fetchOrderDetail.rejected` */
    method FetchDetailRejected()
      modifies this
      ensures State() == old(State()).(loading := false)
    {
      loading := false;
    }

    /** `fetchOrderStatus.fulfilled`: the status copy is overwritten; the order itself is not touched. */
    method FetchStatusFulfilled(info: OrderStatusInfo)
      modifies this
      ensures State() == old(State()).(orderStatus := Some(info.status), statusLabel := info.statusLabel,
                                       statusNodes := info.statusNodes)
    {
      orderStatus := Some(info.status);
      statusLabel := info.statusLabel;
      statusNodes := info.statusNodes;
    }

    /**
     * `confirmReceive.fulfilled`: on success, a present order is marked received;
     * the status copy is left as it was.
     */
    method ConfirmReceiveFulfilled(success: bool)
      modifies this
      ensures success && old(currentOrder).Some? ==>
                State() == old(State()).(currentOrder := Some(MarkedReceived(old(currentOrder).value)))
      ensures !(success && old(currentOrder).Some?) ==> State() == old(State())
    {
      if success && currentOrder.Some? {
        currentOrder := Some(MarkedReceived(currentOrder.value));
      }
    }
  }

  /**
   * The slice's thunks composed against the mock back-end (no page dispatches
   * them in this order; the order pages call the services directly): load an
   * order (generated in one of the five delivery states), confirm its receipt,
   * then reload its status. After the receipt the order shows RECEIVED while the
   * status copy still shows the old state; the status reload brings the copy to
   * RECEIVED but keeps the timeline generated with the order.
   */
  method ReceiptThenStatusReload(orderId: string, draw: OrderMock.OrderDraw, now: int, deliveryNo: string,
                                 photos: seq<string>, later: int)
    returns (shownAfterReceipt: OrderStatus, copyAfterReceipt: Option<OrderStatus>,
             copyAfterReload: Option<OrderStatus>, nodesAfterReload: seq<OrderStatusNode>)
    requires draw.statusIndex < 5
    ensures shownAfterReceipt == Received
    ensures copyAfterReceipt.Some? && copyAfterReceipt.value != Received
    ensures copyAfterReload == Some(Received)
    ensures nodesAfterReload == OrderMock.GenerateMockOrder("purchase_001", "quote_001", 1200, draw, now).statusNodes
  {
    var service := new OrderMock.OrderService();
    var slice := new OrderState();
    slice.FetchDetailPending();
    var detail := service.GetOrderDetail(orderId, draw, now);
    slice.FetchDetailFulfilled(detail.data);
    var receipt := service.ReceiveOrder(ReceiveOrderParams(orderId, deliveryNo, photos), later);
    slice.ConfirmReceiveFulfilled(receipt.data);
    shownAfterReceipt, copyAfterReceipt := slice.currentOrder.value.status, slice.orderStatus;
    var status := service.GetOrderStatus(orderId);
    slice.FetchStatusFulfilled(status.data);
    copyAfterReload, nodesAfterReload := slice.orderStatus, slice.statusNodes;
  }
}
