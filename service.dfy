/**
  The `OrderService` component itself: the order repository as a map of order
  rows, the product repository as a map of `Product` objects that the handlers
  update in place, the mails sent so far, and the counter that issues order
  numbers. Every handler is proved to leave exactly the state the matching
  function of `Lifecycle` describes, or to leave everything unchanged and report
  that function's error.
  (src/main/java/com/cocomo/secondhand_transaction/service/OrderService.java)
*/
module Service {
  import opened Common
  import opened Products
  import opened Orders
  import opened Lifecycle
  import opened LifecycleProperties

  /** A handler's effect: `outcome` reports `r`, and the state is `r`'s store, or `before` on an error. */
  predicate Settles(before: Store, r: Result<Store, Error>, after: Store, outcome: Outcome<Error>) {
    match r
    case Ok(t) => after == t && outcome == Pass
    case Err(e) => after == before && outcome == Fail(e)
  }

  class OrderService {
    /** The state fields a freshly constructed `Order` starts with. */
    const init: OrderFlags
    var orders: map<OrderNum, Order>
    var products: map<PdNum, Product>
    var outbox: seq<Notice>
    var nextOrderNum: nat

    /** The service's state as a value. */
    function Abs(): Store
      reads this, products.Values
    {
      Store(orders, Catalogue(products), outbox, nextOrderNum)
    }

    ghost predicate Valid()
      reads this, products.Values
    {
      WellFormed(Abs())
    }

    /** A service over the registered products `catalogue`, with no orders and no mail yet. */
    constructor (init: OrderFlags, catalogue: map<PdNum, Product>)
      requires forall k :: k in catalogue ==> catalogue[k].pdNum == k
      ensures Valid()
      ensures Abs() == Store(map[], Catalogue(catalogue), [], 0) && this.init == init
    {
      this.init := init;
      orders := map[];
      products := catalogue;
      outbox := [];
      nextOrderNum := 0;
    }

    /** `product.updateProductStatus(status)` and `productRepository.save(product)` for the product `pn`. */
    method SetProductStatus(pn: PdNum, status: Status)
      requires forall k :: k in products ==> products[k].pdNum == k
      modifies products.Values
      ensures Catalogue(products) == SetStatus(old(Catalogue(products)), pn, status)
    {
      if pn in products {
        var product := products[pn];
        assert forall k :: k in products && k != pn ==> products[k] != product;
        product.UpdateProductStatus(status);
      }
    }

    /**
      `orderRepository.save(order)`, `product.updateProductStatus(status)` with
      `productRepository.save(product)` for the order's product, and the mails.
    */
    method SaveWithProductStatus(on: OrderNum, order: Order, status: Status, mail: seq<Notice>)
      requires forall k :: k in products ==> products[k].pdNum == k
      modifies this, products.Values
      ensures orders == old(orders)[on := order] && outbox == old(outbox) + mail
      ensures nextOrderNum == old(nextOrderNum) && products == old(products)
      ensures Catalogue(products) == SetStatus(old(Catalogue(products)), order.product, status)
    {
      orders := orders[on := order];
      ghost var saved := Catalogue(products);
      assert saved == old(Catalogue(products));
      SetProductStatus(order.product, status);
      ghost var updated := Catalogue(products);
      outbox := outbox + mail;
      assert Catalogue(products) == updated;
    }

    /** `requestOrder`: a new order for the available product `pd`, and a mail to its seller. */
    method RequestOrder(buyer: UserId, pd: PdNum, selectedTime: Minutes) returns (outcome: Outcome<Error>)
      requires Valid()
      modifies this
      ensures Valid() && products == old(products)
      ensures Settles(old(Abs()), Lifecycle.Request(old(Abs()), init, buyer, pd, selectedTime), Abs(), outcome)
    {
      if pd !in products {
        return Fail(ProductNotFound);
      }
      var product := products[pd];
      if product.status == RESERVED {
        return Fail(ProductReserved);
      } else if product.status == SOLD_OUT {
        return Fail(ProductSoldOut);
      } else if product.status == REPORTED {
        return Fail(ProductUnavailable);
      }
      var seller := product.user;
      var on := nextOrderNum;
      nextOrderNum := nextOrderNum + 1;
      orders := orders[on := NewOrder(on, seller, buyer, pd, selectedTime, init)];
      outbox := outbox + [Notice(OrderRequestMail, on)];
      return Pass;
    }

    /** `approveOrder`: the seller approves; payment is deposited unless a cancellation was started. */
    method ApproveOrder(actor: UserId, on: OrderNum) returns (outcome: Outcome<Error>)
      requires Valid()
      modifies this
      ensures Valid() && products == old(products)
      ensures Settles(old(Abs()), Lifecycle.Approve(old(Abs()), actor, on), Abs(), outcome)
    {
      if on !in orders {
        return Fail(OrderNotFound);
      }
      var order := orders[on];
      if actor != order.seller {
        return Fail(NotSeller);
      }
      order := order.(requestOrder := Orders.RequestOrder.APPROVED);
      if order.requestOrder == Orders.RequestOrder.APPROVED && order.requestCancel == OrderCancelRequestStatus.NONE {
        order := order.(payment := Payment.DEPOSITED);
      }
      orders := orders[on := order];
      outbox := outbox + [Notice(ApprovalMail, on)];
      return Pass;
    }

    /** `rejectOrder`: the seller rejects; the product is AVAILABLE again. */
    method RejectOrder(actor: UserId, on: OrderNum) returns (outcome: Outcome<Error>)
      requires Valid()
      modifies this, products.Values
      ensures Valid() && products == old(products)
      ensures Settles(old(Abs()), Lifecycle.Reject(old(Abs()), actor, on), Abs(), outcome)
    {
      if on !in orders {
        return Fail(OrderNotFound);
      }
      var order := orders[on];
      if actor != order.seller {
        return Fail(NotSeller);
      }
      ghost var before := Abs();
      order := order.(requestOrder := Orders.RequestOrder.REJECTED);
      SaveWithProductStatus(on, order, AVAILABLE, [Notice(RejectionMail, on)]);
      assert Abs() == Lifecycle.Reject(before, actor, on).value;
      StepPreservesWellFormed(before, init, DoReject(actor, on));
      return Pass;
    }

    /**
      `cancelOrder`: before payment the cancellation is granted at once (refund,
      product AVAILABLE, mail to the buyer); after it, the seller is asked.
    */
    method CancelOrder(actor: UserId, on: OrderNum) returns (outcome: Outcome<Error>)
      requires Valid()
      modifies this, products.Values
      ensures Valid() && products == old(products)
      ensures Settles(old(Abs()), Lifecycle.Cancel(old(Abs()), actor, on), Abs(), outcome)
    {
      if on !in orders {
        return Fail(OrderNotFound);
      }
      var order := orders[on];
      if actor != order.buyer {
        return Fail(NotBuyer);
      }
      if order.payment == Payment.NONE {
        ghost var before := Abs();
        order := order.(requestOrder := Orders.RequestOrder.NONE);
        order := order.(requestCancel := OrderCancelRequestStatus.APPROVED);
        order := order.(payment := Payment.REFUND);
        SaveWithProductStatus(on, order, AVAILABLE, [Notice(CancelApprovalMail, on)]);
        assert Abs() == Lifecycle.Cancel(before, actor, on).value;
        StepPreservesWellFormed(before, init, DoCancel(actor, on));
        return Pass;
      }
      order := order.(requestCancel := OrderCancelRequestStatus.REQUESTED);
      outbox := outbox + [Notice(CancelRequestMail, on)];
      orders := orders[on := order];
      return Pass;
    }

    /** `approveCancel`: the seller grants a requested cancellation; refund, product AVAILABLE. */
    method ApproveCancel(actor: UserId, on: OrderNum) returns (outcome: Outcome<Error>)
      requires Valid()
      modifies this, products.Values
      ensures Valid() && products == old(products)
      ensures Settles(old(Abs()), Lifecycle.ApproveCancel(old(Abs()), actor, on), Abs(), outcome)
    {
      if on !in orders {
        return Fail(OrderNotFound);
      }
      var order := orders[on];
      if actor != order.seller {
        return Fail(NotSeller);
      }
      if order.requestCancel == OrderCancelRequestStatus.REQUESTED {
        ghost var before := Abs();
        order := order.(requestCancel := OrderCancelRequestStatus.APPROVED);
        order := order.(requestOrder := Orders.RequestOrder.NONE);
        order := order.(payment := Payment.REFUND);
        SaveWithProductStatus(on, order, AVAILABLE, [Notice(CancelApprovalMail, on)]);
        assert Abs() == Lifecycle.ApproveCancel(before, actor, on).value;
        StepPreservesWellFormed(before, init, DoApproveCancel(actor, on));
        return Pass;
      } else {
        return Fail(CancelNotRequested);
      }
    }

    /** `rejectCancel`: the seller refuses a requested cancellation. */
    method RejectCancel(actor: UserId, on: OrderNum) returns (outcome: Outcome<Error>)
      requires Valid()
      modifies this
      ensures Valid() && products == old(products)
      ensures Settles(old(Abs()), Lifecycle.RejectCancel(old(Abs()), actor, on), Abs(), outcome)
    {
      if on !in orders {
        return Fail(OrderNotFound);
      }
      var order := orders[on];
      if actor != order.seller {
        return Fail(NotSeller);
      }
      if order.requestCancel == OrderCancelRequestStatus.REQUESTED {
        order := order.(requestCancel := OrderCancelRequestStatus.REJECTED);
        orders := orders[on := order];
        outbox := outbox + [Notice(CancelRejectionMail, on)];
        return Pass;
      } else {
        return Fail(CancelNotRequested);
      }
    }

    /** `confirmOrder`: the buyer finalises an approved, paid, not-cancelled order; the product is SOLD_OUT. */
    method ConfirmOrder(actor: UserId, on: OrderNum) returns (outcome: Outcome<Error>)
      requires Valid()
      modifies this, products.Values
      ensures Valid() && products == old(products)
      ensures Settles(old(Abs()), Lifecycle.Confirm(old(Abs()), actor, on), Abs(), outcome)
    {
      if on !in orders {
        return Fail(OrderNotFound);
      }
      var order := orders[on];
      if actor != order.buyer {
        return Fail(NotBuyer);
      }
      if order.requestOrder != Orders.RequestOrder.APPROVED
         || order.requestCancel == OrderCancelRequestStatus.APPROVED
         || order.payment != Payment.DEPOSITED
      {
        return Fail(NotFinalizable);
      }
      ghost var before := Abs();
      order := order.(success := true);
      SaveWithProductStatus(on, order, SOLD_OUT, [Notice(ConfirmationMail, on)]);
      assert Abs() == Lifecycle.Confirm(before, actor, on).value;
      StepPreservesWellFormed(before, init, DoConfirm(actor, on));
      return Pass;
    }

    /** One iteration of that loop: a due order gets its mail and is marked. */
    method MarkIfDue(k: OrderNum, now: Minutes, ph: Phase)
      requires k in orders && Matches(orders[k], PhaseQuery(ph))
      modifies this
      ensures products == old(products) && nextOrderNum == old(nextOrderNum)
      ensures orders == old(orders)[k := Advance(old(orders)[k], now, ph)]
      ensures outbox == old(outbox)
        + (if Due(old(orders)[k], now, ph) then [Notice(PhaseMail(ph), k)] else [])
    {
      var order := orders[k];
      if order.selectedTime < now - PhaseDeadline(ph) {
        outbox := outbox + [Notice(PhaseMail(ph), k)];
        orders := orders[k := Mark(order, ph)];
      } else {
        assert orders[k := order] == orders;
      }
    }

    /**
      One loop of `processOrderNotifications` over the query result `ks`: each
      order whose selected time is before the pass's deadline gets the mail and
      is marked.
    */
    method MarkDue(ks: seq<OrderNum>, now: Minutes, ph: Phase)
      requires forall i :: 0 <= i < |ks| ==> ks[i] in orders && Matches(orders[ks[i]], PhaseQuery(ph))
      requires forall i, j :: 0 <= i < j < |ks| ==> ks[i] < ks[j]
      modifies this
      ensures products == old(products) && nextOrderNum == old(nextOrderNum)
      ensures orders.Keys == old(orders).Keys
      ensures forall k :: k in old(orders) ==>
        orders[k] == if k in ks then Advance(old(orders)[k], now, ph) else old(orders)[k]
      ensures outbox == old(outbox) + PhaseNotices(old(orders), ks, now, ph)
    {
      ghost var before := orders;
      for j := 0 to |ks|
        invariant products == old(products) && nextOrderNum == old(nextOrderNum)
        invariant AdvancedOver(before, orders, ks[..j], now, ph)
        invariant outbox == old(outbox) + PhaseNotices(before, ks[..j], now, ph)
      {
        var k := ks[j];
        AdvancedOverStep(before, orders, ks, j, now, ph);
        PhaseNoticesStep(before, ks, j, now, ph);
        MarkIfDue(k, now, ph);
      }
      assert ks[..|ks|] == ks;
    }

    /** One pass of `processOrderNotifications`: the repository query, then its loop. */
    method RunPhase(now: Minutes, ph: Phase)
      requires Valid()
      modifies this
      ensures Valid() && products == old(products)
      ensures Abs() == Lifecycle.RunPhase(old(Abs()), now, ph)
    {
      ghost var before := Abs();
      var ks := FindBy(orders, nextOrderNum, PhaseQuery(ph));
      MarkDue(ks, now, ph);
      forall k | k in before.orders
        ensures orders[k] == Advance(before.orders[k], now, ph)
      {
        if k !in ks {
          assert !Matches(before.orders[k], PhaseQuery(ph));
        }
      }
      assert orders == Lifecycle.RunPhase(before, now, ph).orders;
      assert Catalogue(products) == before.products;
      RunPhaseKeepsWellFormed(before, now, ph);
    }

    /** `processOrderNotifications`: the 3-day reminder pass, then the 7-day auto-confirmation pass. */
    method ProcessOrderNotifications(now: Minutes)
      requires Valid()
      modifies this
      ensures Valid() && products == old(products)
      ensures Abs() == Sweep(old(Abs()), now)
    {
      RunPhase(now, Reminder);
      RunPhase(now, AutoConfirmation);
    }

    /** `getMyOrder`: the rows of the user's sales followed by the rows of the user's purchases. */
    method GetMyOrder(user: UserId) returns (r: seq<OrderView>)
      requires Valid()
      ensures r == MyOrders(Abs(), user)
    {
      var myOrders := FindBy(orders, nextOrderNum, BySeller(user));
      var myOrders2 := FindBy(orders, nextOrderNum, ByBuyer(user));
      myOrders := myOrders + myOrders2;
      r := Views(Abs(), myOrders);
    }

    /**
      `reportOrder` as written: only an order already reported and successful,
      at or after its selected time, passes the guard; the product becomes
      REPORTED and the order notified.
    */
    method ReportOrder(actor: UserId, on: OrderNum, now: Minutes) returns (outcome: Outcome<Error>)
      requires Valid()
      modifies this, products.Values
      ensures Valid() && products == old(products)
      ensures Settles(old(Abs()), Lifecycle.Report(old(Abs()), actor, on, now), Abs(), outcome)
    {
      if on !in orders {
        return Fail(OrderNotFound);
      }
      var order := orders[on];
      if actor != order.buyer {
        return Fail(NotBuyer);
      }
      if !order.reported || !order.success || now < order.selectedTime {
        return Fail(NotReportable);
      }
      ghost var before := Abs();
      order := order.(reported := true).(notified := true);
      SaveWithProductStatus(on, order, REPORTED, []);
      assert Abs() == Lifecycle.Report(before, actor, on, now).value;
      StepPreservesWellFormed(before, init, DoReport(actor, on, now));
      return Pass;
    }
  }
}
