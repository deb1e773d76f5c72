/**
  Concrete runs of the service on a one-product shop, showing the guards and
  effects as the code has them: approval does not reserve the product, an
  approved product can be requested again, a rejected order can still be
  approved, a rejection keeps a deposited payment, and the sweep can finalise an
  order that was never approved without marking its product sold.
*/
module Scenarios {
  import opened Common
  import opened Products
  import opened Orders
  import opened Lifecycle
  import opened LifecycleProperties

  const SELLER: UserId := 1
  const BUYER: UserId := 2
  const OTHER_BUYER: UserId := 3
  const LAMP: PdNum := "lamp"

  /** A listed product owned by `SELLER`, as constructor 1 leaves it. */
  const Lamp := ProductInfo(None, Some("desk lamp"), SELLER, None, Some(15000), None, None, None, None,
                            Some("station"), None, AVAILABLE, None, None, LAMP)

  const Shop := Store(map[], map[LAMP := Lamp], [], 0)

  /** Request, approve, confirm: deposit on approval, SOLD_OUT on confirmation, and no RESERVED in between. */
  lemma RequestApproveConfirm(t: Minutes)
    ensures var s1 := Step(Shop, UnsetFlags, DoRequest(BUYER, LAMP, t));
            var s2 := Step(s1, UnsetFlags, DoApprove(SELLER, 0));
            var s3 := Step(s2, UnsetFlags, DoConfirm(BUYER, 0));
            && s1.orders == map[0 := NewOrder(0, SELLER, BUYER, LAMP, t, UnsetFlags)]
            && s1.products[LAMP].status == AVAILABLE
            && s2.orders[0].requestOrder == RequestOrder.APPROVED
            && s2.orders[0].payment == Payment.DEPOSITED
            && s2.products[LAMP].status == AVAILABLE
            && s3.orders[0].success
            && s3.products[LAMP].status == SOLD_OUT
            && s3.outbox == [Notice(OrderRequestMail, 0), Notice(ApprovalMail, 0), Notice(ConfirmationMail, 0)]
  {
  }

  /** Approval leaves the product AVAILABLE, so a second buyer's request for it succeeds. */
  lemma ApprovedProductStillRequestable(t: Minutes)
    ensures var s1 := Step(Shop, UnsetFlags, DoRequest(BUYER, LAMP, t));
            var s2 := Step(s1, UnsetFlags, DoApprove(SELLER, 0));
            var r := Request(s2, UnsetFlags, OTHER_BUYER, LAMP, t);
            && r.Ok?
            && r.value.orders[0].requestOrder == RequestOrder.APPROVED
            && r.value.orders[1].product == LAMP
  {
  }

  /** A rejected order can still be approved, and approval then deposits the payment. */
  lemma ApproveAfterReject(t: Minutes)
    ensures var s1 := Step(Shop, UnsetFlags, DoRequest(BUYER, LAMP, t));
            var s2 := Step(s1, UnsetFlags, DoReject(SELLER, 0));
            var r := Approve(s2, SELLER, 0);
            && s2.orders[0].requestOrder == RequestOrder.REJECTED
            && r.Ok?
            && r.value.orders[0].requestOrder == RequestOrder.APPROVED
            && r.value.orders[0].payment == Payment.DEPOSITED
  {
  }

  /** Rejecting an approved, paid order keeps its payment DEPOSITED and makes the product AVAILABLE. */
  lemma RejectKeepsDeposit(t: Minutes)
    ensures var s1 := Step(Shop, UnsetFlags, DoRequest(BUYER, LAMP, t));
            var s2 := Step(s1, UnsetFlags, DoApprove(SELLER, 0));
            var s3 := Step(s2, UnsetFlags, DoReject(SELLER, 0));
            && s3.orders[0].requestOrder == RequestOrder.REJECTED
            && s3.orders[0].payment == Payment.DEPOSITED
            && s3.products[LAMP].status == AVAILABLE
            && s3.outbox == [Notice(OrderRequestMail, 0), Notice(ApprovalMail, 0), Notice(RejectionMail, 0)]
  {
  }

  /** After a rejection the product is AVAILABLE again and another buyer may request it. */
  lemma RejectThenRequestAgain(t: Minutes)
    ensures var s1 := Step(Shop, UnsetFlags, DoRequest(BUYER, LAMP, t));
            var s2 := Step(s1, UnsetFlags, DoReject(SELLER, 0));
            && s2.products[LAMP].status == AVAILABLE
            && Request(s2, UnsetFlags, OTHER_BUYER, LAMP, t).Ok?
  {
  }

  /** A cancellation requested after payment and refused by the seller leaves the order confirmable. */
  lemma RefusedCancellationStillConfirmable(t: Minutes)
    ensures var s1 := Step(Shop, UnsetFlags, DoRequest(BUYER, LAMP, t));
            var s2 := Step(s1, UnsetFlags, DoApprove(SELLER, 0));
            var s3 := Step(s2, UnsetFlags, DoCancel(BUYER, 0));
            var s4 := Step(s3, UnsetFlags, DoRejectCancel(SELLER, 0));
            && s3.orders[0].requestCancel == OrderCancelRequestStatus.REQUESTED
            && s3.orders[0].payment == Payment.DEPOSITED
            && s4.orders[0].requestCancel == OrderCancelRequestStatus.REJECTED
            && s4.orders[0].payment == Payment.DEPOSITED
            && Confirm(s4, BUYER, 0).Ok?
  {
  }

  /** The shop after `BUYER` requests the lamp: one order, numbered 0, and its mail. */
  lemma RequestedShop(t: Minutes)
    ensures Step(Shop, UnsetFlags, DoRequest(BUYER, LAMP, t))
         == Store(map[0 := NewOrder(0, SELLER, BUYER, LAMP, t, UnsetFlags)], Shop.products,
                  [Notice(OrderRequestMail, 0)], 1)
  {
  }

  /** The mail one pass sends over a store holding the single order 0. */
  lemma PassMailOfOneOrder(o: Order, products: map<PdNum, ProductInfo>, outbox: seq<Notice>, now: Minutes, ph: Phase)
    ensures PassMail(Store(map[0 := o], products, outbox, 1), now, ph)
         == if Due(o, now, ph) then [Notice(PhaseMail(ph), 0)] else []
  {
    var orders := map[0 := o];
    var ks := FindBy(orders, 1, PhaseQuery(ph));
    assert FindBy(orders, 0, PhaseQuery(ph)) == [];
    if Matches(o, PhaseQuery(ph)) {
      assert ks == [0];
      assert [0][..0] == [];
    } else {
      assert ks == [];
    }
  }

  /** One pass over a store holding the single order 0. */
  lemma PassOverOneOrder(o: Order, products: map<PdNum, ProductInfo>, outbox: seq<Notice>, now: Minutes, ph: Phase)
    ensures RunPhase(Store(map[0 := o], products, outbox, 1), now, ph)
         == Store(map[0 := Advance(o, now, ph)], products,
                  outbox + (if Due(o, now, ph) then [Notice(PhaseMail(ph), 0)] else []), 1)
  {
    PassMailOfOneOrder(o, products, outbox, now, ph);
    var r := RunPhase(Store(map[0 := o], products, outbox, 1), now, ph);
    assert r.orders.Keys == {0} && r.orders[0] == Advance(o, now, ph);
    assert r.orders == map[0 := Advance(o, now, ph)];
  }

  /** An unapproved order selected 4 days ago is reminded once; a second sweep sends nothing. */
  lemma ReminderSentOnce(now: Minutes)
    ensures var s1 := Step(Shop, UnsetFlags, DoRequest(BUYER, LAMP, now - 4 * 24 * 60));
            var s2 := Sweep(s1, now);
            var s3 := Sweep(s2, now);
            && s2.orders[0].notified && !s2.orders[0].success
            && s2.outbox == s1.outbox + [Notice(ReminderMail, 0)]
            && s3 == s2
  {
    var o := NewOrder(0, SELLER, BUYER, LAMP, now - 4 * 24 * 60, UnsetFlags);
    RequestedShop(now - 4 * 24 * 60);
    var s1 := Step(Shop, UnsetFlags, DoRequest(BUYER, LAMP, now - 4 * 24 * 60));
    PassOverOneOrder(o, Shop.products, s1.outbox, now, Reminder);
    assert Due(o, now, Reminder);
    PassOverOneOrder(o.(notified := true), Shop.products, s1.outbox + [Notice(ReminderMail, 0)], now, AutoConfirmation);
    SweepIdempotent(s1, now);
  }

  /**
    One sweep both reminds and finalises an order selected 8 days ago that was
    never approved; the product stays AVAILABLE.
  */
  lemma StaleOrderFinalisedInOneSweep(now: Minutes)
    ensures var s1 := Step(Shop, UnsetFlags, DoRequest(BUYER, LAMP, now - 8 * 24 * 60));
            var s2 := Sweep(s1, now);
            && s2.orders[0].requestOrder == RequestOrder.NONE
            && s2.orders[0].payment == Payment.NONE
            && s2.orders[0].notified && s2.orders[0].success
            && s2.products[LAMP].status == AVAILABLE
            && s2.outbox == s1.outbox + [Notice(ReminderMail, 0), Notice(AutoConfirmMail, 0)]
  {
    var o := NewOrder(0, SELLER, BUYER, LAMP, now - 8 * 24 * 60, UnsetFlags);
    RequestedShop(now - 8 * 24 * 60);
    var s1 := Step(Shop, UnsetFlags, DoRequest(BUYER, LAMP, now - 8 * 24 * 60));
    PassOverOneOrder(o, Shop.products, s1.outbox, now, Reminder);
    assert Due(o, now, Reminder);
    PassOverOneOrder(o.(notified := true), Shop.products, s1.outbox + [Notice(ReminderMail, 0)], now, AutoConfirmation);
    assert Due(o.(notified := true), now, AutoConfirmation);
  }
}
