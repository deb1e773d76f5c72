/**
  The order lifecycle of `OrderService`, as pure transitions over the contents
  of the order and product stores.
  (src/main/java/com/cocomo/secondhand_transaction/service/OrderService.java)

  Each handler returns the stores after it, or the exception it throws; a thrown
  exception leaves the stores as they were (`Commit`). E-mails are recorded as
  `Notice`s appended to an outbox, and never fail.
*/
module Lifecycle {
  import opened Common
  import opened Products
  import opened Orders

  /** `now.minusDays(3)` and `now.minusDays(7)`, in minutes. */
  const THREE_DAYS: Minutes := 3 * 24 * 60
  const SEVEN_DAYS: Minutes := 7 * 24 * 60

  /** The exceptions the handlers throw. */
  datatype Error =
    | OrderNotFound        // "해당 주문을 찾을 수 없습니다"
    | ProductNotFound      // "해당 물품의 정보가 없습니다."
    | NotSeller            // "판매자 권한이 없습니다."
    | NotBuyer             // "구매자 권한이 없습니다."
    | ProductReserved
    | ProductSoldOut
    | ProductUnavailable   // the REPORTED product
    | CancelNotRequested   // "취소 요청된 주문이 아닙니다."
    | NotFinalizable       // the confirmation guard
    | NotReportable        // the report guard

  /** One call of an `EmailService` method. */
  datatype MailKind =
    | OrderRequestMail | ApprovalMail | RejectionMail
    | CancelRequestMail | CancelApprovalMail | CancelRejectionMail
    | ConfirmationMail | ReminderMail | AutoConfirmMail

  datatype Notice = Notice(kind: MailKind, order: OrderNum)

  /**
    The service's state: the order repository, the products' fields, the mails
    sent so far, and the next fresh order number.
  */
  datatype Store = Store(
    orders: map<OrderNum, Order>,
    products: map<PdNum, ProductInfo>,
    outbox: seq<Notice>,
    nextOrderNum: nat)

  /**
    What the repositories keep true: order numbers are below the counter and
    stored under their own number, every order's product exists, and every
    product is stored under its own registration number.
  */
  ghost predicate WellFormed(s: Store) {
    && (forall k :: k in s.orders ==>
          k < s.nextOrderNum && s.orders[k].orderNum == k && s.orders[k].product in s.products)
    && (forall k :: k in s.products ==> s.products[k].pdNum == k)
  }

  /** The state after a handler: its result if it returned, unchanged if it threw. */
  function Commit(s: Store, r: Result<Store, Error>): Store {
    if r.Ok? then r.value else s
  }

  /** `product.updateProductStatus(status)` followed by `productRepository.save(product)`. */
  function SetStatus(products: map<PdNum, ProductInfo>, pd: PdNum, status: Status): map<PdNum, ProductInfo> {
    if pd in products then products[pd := products[pd].(status := status)] else products
  }

  /** The stores after saving `o` under `on` and sending `mail`; products untouched. */
  function SaveOrder(s: Store, on: OrderNum, o: Order, mail: seq<Notice>): Store {
    s.(orders := s.orders[on := o], outbox := s.outbox + mail)
  }

  // ---------------------------------------------------------------------------
  // Transition handlers

  /** `requestOrder`: a buyer asks for a product that is neither reserved, sold nor reported. */
  function Request(s: Store, init: OrderFlags, buyer: UserId, pd: PdNum, selectedTime: Minutes): (r: Result<Store, Error>)
    ensures pd !in s.products ==> r == Err(ProductNotFound)
    ensures pd in s.products && s.products[pd].status == RESERVED ==> r == Err(ProductReserved)
    ensures pd in s.products && s.products[pd].status == SOLD_OUT ==> r == Err(ProductSoldOut)
    ensures pd in s.products && s.products[pd].status == REPORTED ==> r == Err(ProductUnavailable)
    ensures r.Ok? <==> pd in s.products && s.products[pd].status == AVAILABLE
    ensures r.Ok? ==>
      var on := s.nextOrderNum;
      && r.value.products == s.products
      && r.value.nextOrderNum == on + 1
      && r.value.outbox == s.outbox + [Notice(OrderRequestMail, on)]
      && r.value.orders.Keys == s.orders.Keys + {on}
      && (forall k :: k in s.orders && k != on ==> r.value.orders[k] == s.orders[k])
      && r.value.orders[on] == NewOrder(on, s.products[pd].user, buyer, pd, selectedTime, init)
  {
    if pd !in s.products then Err(ProductNotFound)
    else
      var product := s.products[pd];
      if product.status == RESERVED then Err(ProductReserved)
      else if product.status == SOLD_OUT then Err(ProductSoldOut)
      else if product.status == REPORTED then Err(ProductUnavailable)
      else
        assert product.status == AVAILABLE;
        var on := s.nextOrderNum;
        var order := NewOrder(on, product.user, buyer, pd, selectedTime, init);
        Ok(SaveOrder(s, on, order, [Notice(OrderRequestMail, on)]).(nextOrderNum := on + 1))
  }

  /**
    `approveOrder`: the seller approves; the payment becomes DEPOSITED only when no
    cancellation was ever started. The product status is not touched.
  */
  function Approve(s: Store, actor: UserId, on: OrderNum): (r: Result<Store, Error>)
    ensures on !in s.orders ==> r == Err(OrderNotFound)
    ensures on in s.orders && actor != s.orders[on].seller ==> r == Err(NotSeller)
    ensures r.Ok? <==> on in s.orders && actor == s.orders[on].seller
    ensures r.Ok? ==>
      var o := s.orders[on];
      var p := if o.requestCancel == OrderCancelRequestStatus.NONE then Payment.DEPOSITED else o.payment;
      r.value == SaveOrder(s, on, o.(requestOrder := RequestOrder.APPROVED, payment := p), [Notice(ApprovalMail, on)])
  {
    if on !in s.orders then Err(OrderNotFound)
    else if actor != s.orders[on].seller then Err(NotSeller)
    else
      var order := s.orders[on].(requestOrder := RequestOrder.APPROVED);
      var order := if order.requestOrder == RequestOrder.APPROVED && order.requestCancel == OrderCancelRequestStatus.NONE
                   then order.(payment := Payment.DEPOSITED) else order;
      Ok(SaveOrder(s, on, order, [Notice(ApprovalMail, on)]))
  }

  /** `rejectOrder`: the seller rejects; the product becomes AVAILABLE again. */
  function Reject(s: Store, actor: UserId, on: OrderNum): (r: Result<Store, Error>)
    ensures on !in s.orders ==> r == Err(OrderNotFound)
    ensures on in s.orders && actor != s.orders[on].seller ==> r == Err(NotSeller)
    ensures r.Ok? <==> on in s.orders && actor == s.orders[on].seller
    ensures r.Ok? ==>
      var o := s.orders[on];
      && r.value.orders == s.orders[on := o.(requestOrder := RequestOrder.REJECTED)]
      && r.value.products == SetStatus(s.products, o.product, AVAILABLE)
      && r.value.outbox == s.outbox + [Notice(RejectionMail, on)]
      && r.value.nextOrderNum == s.nextOrderNum
  {
    if on !in s.orders then Err(OrderNotFound)
    else if actor != s.orders[on].seller then Err(NotSeller)
    else
      var order := s.orders[on].(requestOrder := RequestOrder.REJECTED);
      var t := SaveOrder(s, on, order, []);
      Ok(t.(products := SetStatus(t.products, order.product, AVAILABLE), outbox := t.outbox + [Notice(RejectionMail, on)]))
  }

  /**
    `cancelOrder`: before any payment the buyer's cancellation takes effect at once
    (refund, product AVAILABLE); after it, the buyer only asks the seller.
  */
  function Cancel(s: Store, actor: UserId, on: OrderNum): (r: Result<Store, Error>)
    ensures on !in s.orders ==> r == Err(OrderNotFound)
    ensures on in s.orders && actor != s.orders[on].buyer ==> r == Err(NotBuyer)
    ensures r.Ok? <==> on in s.orders && actor == s.orders[on].buyer
    ensures r.Ok? && s.orders[on].payment == Payment.NONE ==>
      var o := s.orders[on];
      && r.value.orders == s.orders[on := o.(requestOrder := RequestOrder.NONE,
                                             requestCancel := OrderCancelRequestStatus.APPROVED,
                                             payment := Payment.REFUND)]
      && r.value.products == SetStatus(s.products, o.product, AVAILABLE)
      && r.value.outbox == s.outbox + [Notice(CancelApprovalMail, on)]
      && r.value.nextOrderNum == s.nextOrderNum
    ensures r.Ok? && s.orders[on].payment != Payment.NONE ==>
      r.value == SaveOrder(s, on, s.orders[on].(requestCancel := OrderCancelRequestStatus.REQUESTED),
                           [Notice(CancelRequestMail, on)])
  {
    if on !in s.orders then Err(OrderNotFound)
    else
      var order := s.orders[on];
      if actor != order.buyer then Err(NotBuyer)
      else if order.payment == Payment.NONE then
        var order := order.(requestOrder := RequestOrder.NONE,
                            requestCancel := OrderCancelRequestStatus.APPROVED,
                            payment := Payment.REFUND);
        var t := SaveOrder(s, on, order, []);
        Ok(t.(products := SetStatus(t.products, order.product, AVAILABLE),
              outbox := t.outbox + [Notice(CancelApprovalMail, on)]))
      else
        Ok(SaveOrder(s, on, order.(requestCancel := OrderCancelRequestStatus.REQUESTED), [Notice(CancelRequestMail, on)]))
  }

  /** `approveCancel`: the seller grants a pending cancellation request; refund, product AVAILABLE. */
  function ApproveCancel(s: Store, actor: UserId, on: OrderNum): (r: Result<Store, Error>)
    ensures on !in s.orders ==> r == Err(OrderNotFound)
    ensures on in s.orders && actor != s.orders[on].seller ==> r == Err(NotSeller)
    ensures (on in s.orders && actor == s.orders[on].seller
             && s.orders[on].requestCancel != OrderCancelRequestStatus.REQUESTED) ==> r == Err(CancelNotRequested)
    ensures r.Ok? <==> on in s.orders && actor == s.orders[on].seller
                       && s.orders[on].requestCancel == OrderCancelRequestStatus.REQUESTED
    ensures r.Ok? ==>
      var o := s.orders[on];
      && r.value.orders == s.orders[on := o.(requestCancel := OrderCancelRequestStatus.APPROVED,
                                             requestOrder := RequestOrder.NONE,
                                             payment := Payment.REFUND)]
      && r.value.products == SetStatus(s.products, o.product, AVAILABLE)
      && r.value.outbox == s.outbox + [Notice(CancelApprovalMail, on)]
      && r.value.nextOrderNum == s.nextOrderNum
  {
    if on !in s.orders then Err(OrderNotFound)
    else
      var order := s.orders[on];
      if actor != order.seller then Err(NotSeller)
      else if order.requestCancel == OrderCancelRequestStatus.REQUESTED then
        var order := order.(requestCancel := OrderCancelRequestStatus.APPROVED,
                            requestOrder := RequestOrder.NONE,
                            payment := Payment.REFUND);
        var t := SaveOrder(s, on, order, []);
        Ok(t.(products := SetStatus(t.products, order.product, AVAILABLE),
              outbox := t.outbox + [Notice(CancelApprovalMail, on)]))
      else Err(CancelNotRequested)
  }

  /** `rejectCancel`: the seller refuses a pending cancellation request; nothing else moves. */
  function RejectCancel(s: Store, actor: UserId, on: OrderNum): (r: Result<Store, Error>)
    ensures on !in s.orders ==> r == Err(OrderNotFound)
    ensures on in s.orders && actor != s.orders[on].seller ==> r == Err(NotSeller)
    ensures (on in s.orders && actor == s.orders[on].seller
             && s.orders[on].requestCancel != OrderCancelRequestStatus.REQUESTED) ==> r == Err(CancelNotRequested)
    ensures r.Ok? <==> on in s.orders && actor == s.orders[on].seller
                       && s.orders[on].requestCancel == OrderCancelRequestStatus.REQUESTED
    ensures r.Ok? ==>
      r.value == SaveOrder(s, on, s.orders[on].(requestCancel := OrderCancelRequestStatus.REJECTED),
                           [Notice(CancelRejectionMail, on)])
  {
    if on !in s.orders then Err(OrderNotFound)
    else
      var order := s.orders[on];
      if actor != order.seller then Err(NotSeller)
      else if order.requestCancel == OrderCancelRequestStatus.REQUESTED then
        Ok(SaveOrder(s, on, order.(requestCancel := OrderCancelRequestStatus.REJECTED), [Notice(CancelRejectionMail, on)]))
      else Err(CancelNotRequested)
  }

  /** The three conditions `confirmOrder` checks before finalising. */
  predicate Finalizable(o: Order) {
    && o.requestOrder == RequestOrder.APPROVED
    && o.requestCancel != OrderCancelRequestStatus.APPROVED
    && o.payment == Payment.DEPOSITED
  }

  /** `confirmOrder`: the buyer finalises an approved, paid, not-cancelled order; the product is SOLD_OUT. */
  function Confirm(s: Store, actor: UserId, on: OrderNum): (r: Result<Store, Error>)
    ensures on !in s.orders ==> r == Err(OrderNotFound)
    ensures on in s.orders && actor != s.orders[on].buyer ==> r == Err(NotBuyer)
    ensures on in s.orders && actor == s.orders[on].buyer && !Finalizable(s.orders[on]) ==> r == Err(NotFinalizable)
    ensures r.Ok? <==> on in s.orders && actor == s.orders[on].buyer
                       && s.orders[on].requestOrder == RequestOrder.APPROVED
                       && s.orders[on].requestCancel != OrderCancelRequestStatus.APPROVED
                       && s.orders[on].payment == Payment.DEPOSITED
    ensures r.Ok? ==>
      var o := s.orders[on];
      && r.value.orders == s.orders[on := o.(success := true)]
      && r.value.products == SetStatus(s.products, o.product, SOLD_OUT)
      && r.value.outbox == s.outbox + [Notice(ConfirmationMail, on)]
      && r.value.nextOrderNum == s.nextOrderNum
  {
    if on !in s.orders then Err(OrderNotFound)
    else
      var order := s.orders[on];
      if actor != order.buyer then Err(NotBuyer)
      else if !Finalizable(order) then Err(NotFinalizable)
      else
        var order := order.(success := true);
        var t := SaveOrder(s, on, order, [Notice(ConfirmationMail, on)]);
        Ok(t.(products := SetStatus(t.products, order.product, SOLD_OUT)))
  }

  /**
    `reportOrder` as written: it goes through only when the order is ALREADY
    reported and successful and `now` is not before the selected time; it then
    marks the product REPORTED and the order notified. No mail is sent.
  */
  function Report(s: Store, actor: UserId, on: OrderNum, now: Minutes): (r: Result<Store, Error>)
    ensures on !in s.orders ==> r == Err(OrderNotFound)
    ensures on in s.orders && actor != s.orders[on].buyer ==> r == Err(NotBuyer)
    ensures (on in s.orders && actor == s.orders[on].buyer
             && !(s.orders[on].reported && s.orders[on].success && now >= s.orders[on].selectedTime))
            ==> r == Err(NotReportable)
    ensures r.Ok? <==> on in s.orders && actor == s.orders[on].buyer
                       && s.orders[on].reported && s.orders[on].success && now >= s.orders[on].selectedTime
    ensures r.Ok? ==>
      var o := s.orders[on];
      && r.value.orders == s.orders[on := o.(notified := true)]
      && r.value.products == SetStatus(s.products, o.product, REPORTED)
      && r.value.outbox == s.outbox
      && r.value.nextOrderNum == s.nextOrderNum
  {
    if on !in s.orders then Err(OrderNotFound)
    else
      var order := s.orders[on];
      if actor != order.buyer then Err(NotBuyer)
      else if !order.reported || !order.success || now < order.selectedTime then Err(NotReportable)
      else
        var order := order.(reported := true).(notified := true);
        var t := SaveOrder(s, on, order, []);
        Ok(t.(products := SetStatus(t.products, order.product, REPORTED)))
  }

  // ---------------------------------------------------------------------------
  // Repository queries

  /** The derived queries of the order repository. */
  datatype Query =
    | SuccessFalseAndNotifiedFalse
    | ReportedFalseAndSuccessFalseAndNotifiedTrue
    | BySeller(user: UserId)
    | ByBuyer(user: UserId)

  predicate Matches(o: Order, q: Query) {
    match q
    case SuccessFalseAndNotifiedFalse => !o.success && !o.notified
    case ReportedFalseAndSuccessFalseAndNotifiedTrue => !o.reported && !o.success && o.notified
    case BySeller(u) => o.seller == u
    case ByBuyer(u) => o.buyer == u
  }

  /** The numbers below `n` of the orders that match `q`, in ascending order. */
  function FindBy(orders: map<OrderNum, Order>, n: nat, q: Query): (r: seq<OrderNum>)
    ensures forall i :: 0 <= i < |r| ==> r[i] < n && r[i] in orders && Matches(orders[r[i]], q)
    ensures forall i, j :: 0 <= i < j < |r| ==> r[i] < r[j]
    ensures forall k :: k < n && k in orders && Matches(orders[k], q) ==> k in r
  {
    if n == 0 then []
    else
      var found := FindBy(orders, n - 1, q);
      if n - 1 in orders && Matches(orders[n - 1], q) then found + [n - 1] else found
  }

  // ---------------------------------------------------------------------------
  // The daily sweep `processOrderNotifications`

  /** The two passes of the sweep: the 3-day reminder and the 7-day auto-confirmation. */
  datatype Phase = Reminder | AutoConfirmation

  function PhaseQuery(ph: Phase): Query {
    match ph
    case Reminder => SuccessFalseAndNotifiedFalse
    case AutoConfirmation => ReportedFalseAndSuccessFalseAndNotifiedTrue
  }

  function PhaseDeadline(ph: Phase): Minutes {
    match ph
    case Reminder => THREE_DAYS
    case AutoConfirmation => SEVEN_DAYS
  }

  function PhaseMail(ph: Phase): MailKind {
    match ph
    case Reminder => ReminderMail
    case AutoConfirmation => AutoConfirmMail
  }

  /** The order is returned by the pass's query and its selected time is strictly before the deadline. */
  predicate Due(o: Order, now: Minutes, ph: Phase) {
    Matches(o, PhaseQuery(ph)) && o.selectedTime < now - PhaseDeadline(ph)
  }

  /** `orderNotified()` for the reminder pass, `orderSuccess()` for the auto-confirmation pass. */
  function Mark(o: Order, ph: Phase): Order {
    match ph
    case Reminder => o.(notified := true)
    case AutoConfirmation => o.(success := true)
  }

  function Advance(o: Order, now: Minutes, ph: Phase): Order {
    if Due(o, now, ph) then Mark(o, ph) else o
  }

  /** The mails one pass sends while walking the query result `ks` in order. */
  function PhaseNotices(orders: map<OrderNum, Order>, ks: seq<OrderNum>, now: Minutes, ph: Phase): (r: seq<Notice>)
    ensures |r| <= |ks|
    ensures forall i :: 0 <= i < |r| ==>
      r[i].kind == PhaseMail(ph) && r[i].order in ks && r[i].order in orders && Due(orders[r[i].order], now, ph)
  {
    if ks == [] then []
    else
      var k := ks[|ks| - 1];
      PhaseNotices(orders, ks[..|ks| - 1], now, ph)
        + (if k in orders && Due(orders[k], now, ph) then [Notice(PhaseMail(ph), k)] else [])
  }

  /** Walking one more element of `ks` appends at most that element's mail. */
  lemma PhaseNoticesStep(orders: map<OrderNum, Order>, ks: seq<OrderNum>, j: nat, now: Minutes, ph: Phase)
    requires j < |ks|
    ensures PhaseNotices(orders, ks[..j + 1], now, ph) == PhaseNotices(orders, ks[..j], now, ph)
      + (if ks[j] in orders && Due(orders[ks[j]], now, ph) then [Notice(PhaseMail(ph), ks[j])] else [])
  {
    assert ks[..j + 1][..j] == ks[..j];
  }

  /** `after` is `before` with exactly the orders listed in `ks` advanced by the pass. */
  ghost predicate AdvancedOver(before: map<OrderNum, Order>, after: map<OrderNum, Order>, ks: seq<OrderNum>,
                               now: Minutes, ph: Phase) {
    after.Keys == before.Keys
    && forall k :: k in before ==> after[k] == if k in ks then Advance(before[k], now, ph) else before[k]
  }

  /** Advancing the next listed order extends `AdvancedOver` by that order. */
  lemma AdvancedOverStep(before: map<OrderNum, Order>, after: map<OrderNum, Order>, ks: seq<OrderNum>, j: nat,
                         now: Minutes, ph: Phase)
    requires j < |ks| && ks[j] in before
    requires forall i :: 0 <= i < j ==> ks[i] < ks[j]
    requires AdvancedOver(before, after, ks[..j], now, ph)
    ensures after[ks[j]] == before[ks[j]]
    ensures AdvancedOver(before, after[ks[j] := Advance(after[ks[j]], now, ph)], ks[..j + 1], now, ph)
  {
    assert ks[j] !in ks[..j];
    assert forall x :: x in ks[..j + 1] <==> x in ks[..j] || x == ks[j];
  }

  /** Every due order of `ks` gets its mail. */
  lemma {:induction false} PhaseNoticesComplete(orders: map<OrderNum, Order>, ks: seq<OrderNum>, now: Minutes, ph: Phase, k: OrderNum)
    requires k in ks && k in orders && Due(orders[k], now, ph)
    ensures Notice(PhaseMail(ph), k) in PhaseNotices(orders, ks, now, ph)
    decreases |ks|
  {
    var front := ks[..|ks| - 1];
    if k != ks[|ks| - 1] {
      assert k in front by {
        var i :| 0 <= i < |ks| && ks[i] == k;
        assert front[i] == k;
      }
      PhaseNoticesComplete(orders, front, now, ph, k);
    }
  }

  /** The mails one pass sends: one per due order of its query result, in query order. */
  function PassMail(s: Store, now: Minutes, ph: Phase): seq<Notice> {
    PhaseNotices(s.orders, FindBy(s.orders, s.nextOrderNum, PhaseQuery(ph)), now, ph)
  }

  /**
    One pass: every due order is marked, and one mail per marked order is sent in
    query order. Only the orders' pass flag and the outbox can change.
  */
  function RunPhase(s: Store, now: Minutes, ph: Phase): (r: Store)
    ensures r.orders.Keys == s.orders.Keys && r.products == s.products && r.nextOrderNum == s.nextOrderNum
    ensures forall k :: k in s.orders ==> r.orders[k] == s.orders[k] || r.orders[k] == Mark(s.orders[k], ph)
    ensures s.outbox <= r.outbox
  {
    s.(orders := map k | k in s.orders :: Advance(s.orders[k], now, ph),
       outbox := s.outbox + PassMail(s, now, ph))
  }

  /**
    `processOrderNotifications`: the reminder pass, then the auto-confirmation
    pass on its result. Orders keep their identity and are never removed; mail is
    only ever appended.
  */
  function Sweep(s: Store, now: Minutes): (r: Store)
    ensures r.orders.Keys == s.orders.Keys && r.products == s.products && r.nextOrderNum == s.nextOrderNum
    ensures forall k :: k in s.orders ==>
      r.orders[k] == s.orders[k].(notified := r.orders[k].notified, success := r.orders[k].success)
    ensures s.outbox <= r.outbox
  {
    RunPhase(RunPhase(s, now, Reminder), now, AutoConfirmation)
  }

  // ---------------------------------------------------------------------------
  // The projection `getMyOrder`

  /** One row of `OrderDto.responseOrder` (users by id instead of nickname). */
  datatype OrderView = OrderView(
    pdNum: PdNum,
    productName: Option<string>,
    seller: UserId,
    buyer: UserId,
    selectedTime: Minutes,
    status: RequestOrder)

  function View(s: Store, on: OrderNum): OrderView
    requires on in s.orders
  {
    var o := s.orders[on];
    OrderView(o.product, if o.product in s.products then s.products[o.product].pdName else None,
              o.seller, o.buyer, o.selectedTime, o.requestOrder)
  }

  function Views(s: Store, ks: seq<OrderNum>): (r: seq<OrderView>)
    requires forall i :: 0 <= i < |ks| ==> ks[i] in s.orders
    ensures |r| == |ks| && forall i :: 0 <= i < |ks| ==> r[i] == View(s, ks[i])
  {
    seq(|ks|, i requires 0 <= i < |ks| => View(s, ks[i]))
  }

  /** `row` is the projection of some stored order that `q` selects. */
  ghost predicate ViewOfMatch(s: Store, row: OrderView, q: Query) {
    exists k :: k in s.orders && Matches(s.orders[k], q) && row == View(s, k)
  }

  /** Every row of a query result's projection is the view of a stored order matching the query. */
  lemma RowsAreViews(s: Store, ks: seq<OrderNum>, q: Query)
    requires forall i :: 0 <= i < |ks| ==> ks[i] in s.orders && Matches(s.orders[ks[i]], q)
    ensures forall i :: 0 <= i < |ks| ==> ViewOfMatch(s, Views(s, ks)[i], q)
  {
    forall i | 0 <= i < |ks|
      ensures ViewOfMatch(s, Views(s, ks)[i], q)
    {
      var k := ks[i];
      assert Views(s, ks)[i] == View(s, k);
    }
  }

  /**
    `getMyOrder`: the user's orders as seller, then the user's orders as buyer
    (an order the user both sells and buys appears in both parts).
  */
  function MyOrders(s: Store, user: UserId): (r: seq<OrderView>)
    ensures var sold := FindBy(s.orders, s.nextOrderNum, BySeller(user));
            var bought := FindBy(s.orders, s.nextOrderNum, ByBuyer(user));
            && |r| == |sold| + |bought|
            && (forall i :: 0 <= i < |sold| ==> r[i].seller == user)
            && (forall i :: |sold| <= i < |r| ==> r[i].buyer == user)
    ensures forall i :: 0 <= i < |FindBy(s.orders, s.nextOrderNum, BySeller(user))| ==>
      ViewOfMatch(s, r[i], BySeller(user))
    ensures forall i :: |FindBy(s.orders, s.nextOrderNum, BySeller(user))| <= i < |r| ==>
      ViewOfMatch(s, r[i], ByBuyer(user))
  {
    var sold := FindBy(s.orders, s.nextOrderNum, BySeller(user));
    var bought := FindBy(s.orders, s.nextOrderNum, ByBuyer(user));
    RowsAreViews(s, sold, BySeller(user));
    RowsAreViews(s, bought, ByBuyer(user));
    Views(s, sold) + Views(s, bought)
  }
}
