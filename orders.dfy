/**
  The `Order` entity and its state enums. Order.java is not part of this model:
  its setters `updateRequestOrder`, `updateRequestCancelOrder` and `updatePayment`
  are taken to be plain field assignments, `orderSuccess`, `orderNotified` and
  `reportOrder` to set `success`, `notified` and `reported` to true, and the state
  fields' initial values to be a parameter (`OrderFlags`).
*/
module Orders {
  import opened Common

  /** The purchase-request handshake. */
  datatype RequestOrder = NONE | REQUESTED | APPROVED | REJECTED

  /** The cancellation handshake. */
  datatype OrderCancelRequestStatus = NONE | REQUESTED | APPROVED | REJECTED

  /** The payment-hold bookkeeping. */
  datatype Payment = NONE | DEPOSITED | REFUND

  /** The values the `Order` constructor gives the state fields. */
  datatype OrderFlags = OrderFlags(
    requestOrder: RequestOrder,
    requestCancel: OrderCancelRequestStatus,
    payment: Payment,
    success: bool,
    notified: bool,
    reported: bool)

  /** The state fields all NONE and no flag set; the scenario lemmas start orders here. */
  const UnsetFlags := OrderFlags(RequestOrder.NONE, OrderCancelRequestStatus.NONE, Payment.NONE, false, false, false)

  /** An order row; seller, buyer and product are references by key. */
  datatype Order = Order(
    orderNum: OrderNum,
    seller: UserId,
    buyer: UserId,
    product: PdNum,
    selectedTime: Minutes,
    requestOrder: RequestOrder,
    requestCancel: OrderCancelRequestStatus,
    payment: Payment,
    success: bool,
    notified: bool,
    reported: bool)

  /** `new Order(orderDto, seller, buyer, product)` with the state fields taken from `init`. */
  function NewOrder(orderNum: OrderNum, seller: UserId, buyer: UserId, product: PdNum,
                    selectedTime: Minutes, init: OrderFlags): (o: Order)
    ensures o.orderNum == orderNum && o.seller == seller && o.buyer == buyer
    ensures o.product == product && o.selectedTime == selectedTime
    ensures OrderFlags(o.requestOrder, o.requestCancel, o.payment, o.success, o.notified, o.reported) == init
  {
    Order(orderNum, seller, buyer, product, selectedTime, init.requestOrder, init.requestCancel,
          init.payment, init.success, init.notified, init.reported)
  }
}
