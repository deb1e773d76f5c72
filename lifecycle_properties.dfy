/**
  Properties of the order lifecycle across handlers: runs of arbitrary handler
  calls, the sweep's effect and idempotence, the projection's completeness,
  and the mail one sweep sends.
*/
module LifecycleProperties {
  import opened Common
  import opened Orders
  import opened Lifecycle

  /** One call of a service entry point, with its acting user and arguments. */
  datatype Event =
    | DoRequest(actor: UserId, pd: PdNum, selectedTime: Minutes)
    | DoApprove(actor: UserId, on: OrderNum)
    | DoReject(actor: UserId, on: OrderNum)
    | DoCancel(actor: UserId, on: OrderNum)
    | DoApproveCancel(actor: UserId, on: OrderNum)
    | DoRejectCancel(actor: UserId, on: OrderNum)
    | DoConfirm(actor: UserId, on: OrderNum)
    | DoReport(actor: UserId, on: OrderNum, now: Minutes)
    | DoSweep(now: Minutes)

  function Handle(s: Store, init: OrderFlags, e: Event): Result<Store, Error> {
    match e
    case DoRequest(a, pd, t) => Request(s, init, a, pd, t)
    case DoApprove(a, on) => Approve(s, a, on)
    case DoReject(a, on) => Reject(s, a, on)
    case DoCancel(a, on) => Cancel(s, a, on)
    case DoApproveCancel(a, on) => ApproveCancel(s, a, on)
    case DoRejectCancel(a, on) => RejectCancel(s, a, on)
    case DoConfirm(a, on) => Confirm(s, a, on)
    case DoReport(a, on, now) => Report(s, a, on, now)
    case DoSweep(now) => Ok(Sweep(s, now))
  }

  /** The stores after one call; a call that throws changes nothing. */
  function Step(s: Store, init: OrderFlags, e: Event): Store {
    Commit(s, Handle(s, init, e))
  }

  /** The stores after a sequence of calls, one at a time. */
  function Run(s: Store, init: OrderFlags, es: seq<Event>): Store
    decreases |es|
  {
    if es == [] then s else Run(Step(s, init, es[0]), init, es[1..])
  }

  // ---------------------------------------------------------------------------
  // Authorization

  /** The user an order-naming call must come from: the seller or the buyer of that order. */
  predicate ForeignActor(s: Store, e: Event) {
    match e
    case DoApprove(a, on) => on in s.orders && a != s.orders[on].seller
    case DoReject(a, on) => on in s.orders && a != s.orders[on].seller
    case DoApproveCancel(a, on) => on in s.orders && a != s.orders[on].seller
    case DoRejectCancel(a, on) => on in s.orders && a != s.orders[on].seller
    case DoCancel(a, on) => on in s.orders && a != s.orders[on].buyer
    case DoConfirm(a, on) => on in s.orders && a != s.orders[on].buyer
    case DoReport(a, on, _) => on in s.orders && a != s.orders[on].buyer
    case _ => false
  }

  /** A call made by anyone but the order's required party throws and changes nothing. */
  lemma ForeignActorChangesNothing(s: Store, init: OrderFlags, e: Event)
    requires ForeignActor(s, e)
    ensures Handle(s, init, e).Err?
    ensures Handle(s, init, e).error == (if e.DoCancel? || e.DoConfirm? || e.DoReport? then NotBuyer else NotSeller)
    ensures Step(s, init, e) == s
  {
  }

  // ---------------------------------------------------------------------------
  // Store invariants

  lemma SweepKeepsOrderIdentity(s: Store, now: Minutes)
    ensures Sweep(s, now).orders.Keys == s.orders.Keys
    ensures Sweep(s, now).products == s.products && Sweep(s, now).nextOrderNum == s.nextOrderNum
    ensures forall k :: k in s.orders ==>
      var o, o' := s.orders[k], Sweep(s, now).orders[k];
      o' == o.(notified := o'.notified, success := o'.success)
  {
  }

  /** One pass of the sweep keeps the repositories well formed. */
  lemma RunPhaseKeepsWellFormed(s: Store, now: Minutes, ph: Phase)
    requires WellFormed(s)
    ensures WellFormed(RunPhase(s, now, ph))
  {
  }

  /** Every call keeps the repositories well formed. */
  lemma StepPreservesWellFormed(s: Store, init: OrderFlags, e: Event)
    requires WellFormed(s)
    ensures WellFormed(Step(s, init, e))
  {
    match e
    case DoSweep(now) =>
      SweepKeepsOrderIdentity(s, now);
    case _ =>
  }

  lemma {:induction false} RunPreservesWellFormed(s: Store, init: OrderFlags, es: seq<Event>)
    requires WellFormed(s)
    ensures WellFormed(Run(s, init, es))
    decreases |es|
  {
    if es != [] {
      StepPreservesWellFormed(s, init, es[0]);
      RunPreservesWellFormed(Step(s, init, es[0]), init, es[1..]);
    }
  }

  /** A successful `requestOrder` adds exactly one order. */
  lemma RequestAddsOneOrder(s: Store, init: OrderFlags, buyer: UserId, pd: PdNum, selectedTime: Minutes)
    requires WellFormed(s)
    requires Request(s, init, buyer, pd, selectedTime).Ok?
    ensures |Request(s, init, buyer, pd, selectedTime).value.orders| == |s.orders| + 1
  {
    var t := Request(s, init, buyer, pd, selectedTime).value;
    assert s.nextOrderNum !in s.orders;
    assert t.orders.Keys == s.orders.Keys + {s.nextOrderNum};
  }

  // ---------------------------------------------------------------------------
  // `reportOrder` can never go through

  /** No call ever changes whether an existing order is reported. */
  lemma StepKeepsReported(s: Store, init: OrderFlags, e: Event, on: OrderNum)
    requires WellFormed(s) && on in s.orders
    ensures on in Step(s, init, e).orders
    ensures Step(s, init, e).orders[on].reported == s.orders[on].reported
  {
    match e
    case DoSweep(now) =>
      SweepKeepsOrderIdentity(s, now);
    case DoRequest(_, _, _) =>
      assert on < s.nextOrderNum;
    case _ =>
  }

  lemma {:induction false} RunKeepsReported(s: Store, init: OrderFlags, es: seq<Event>, on: OrderNum)
    requires WellFormed(s) && on in s.orders
    ensures on in Run(s, init, es).orders
    ensures Run(s, init, es).orders[on].reported == s.orders[on].reported
    decreases |es|
  {
    if es != [] {
      StepKeepsReported(s, init, es[0], on);
      StepPreservesWellFormed(s, init, es[0]);
      RunKeepsReported(Step(s, init, es[0]), init, es[1..], on);
    }
  }

  predicate NoneReported(s: Store) {
    forall k :: k in s.orders ==> !s.orders[k].reported
  }

  lemma StepKeepsNoneReported(s: Store, init: OrderFlags, e: Event)
    requires NoneReported(s) && !init.reported
    ensures NoneReported(Step(s, init, e))
  {
    match e
    case DoSweep(now) =>
      SweepKeepsOrderIdentity(s, now);
    case _ =>
  }

  lemma {:induction false} RunKeepsNoneReported(s: Store, init: OrderFlags, es: seq<Event>)
    requires NoneReported(s) && !init.reported
    ensures NoneReported(Run(s, init, es))
    decreases |es|
  {
    if es != [] {
      StepKeepsNoneReported(s, init, es[0]);
      RunKeepsNoneReported(Step(s, init, es[0]), init, es[1..]);
    }
  }

  /**
    When orders are created unreported and none is reported yet, no sequence of
    calls (including `reportOrder` itself) ever lets `reportOrder` through.
  */
  lemma ReportNeverEnabled(s: Store, init: OrderFlags, es: seq<Event>, actor: UserId, on: OrderNum, now: Minutes)
    requires NoneReported(s) && !init.reported
    ensures Report(Run(s, init, es), actor, on, now).Err?
  {
    RunKeepsNoneReported(s, init, es);
  }

  /** An order that is not reported stays unreported, so it can never be reported, whatever is called. */
  lemma UnreportedOrderNeverReportable(s: Store, init: OrderFlags, es: seq<Event>, actor: UserId, on: OrderNum, now: Minutes)
    requires WellFormed(s) && on in s.orders && !s.orders[on].reported
    ensures Report(Run(s, init, es), actor, on, now).Err?
  {
    RunKeepsReported(s, init, es, on);
  }

  // ---------------------------------------------------------------------------
  // The sweep

  /**
    Which flags one sweep sets: pass 1 sets `notified` on unsuccessful orders
    selected more than 3 days ago; pass 2, reading pass 1's result, sets
    `success` on unreported, notified orders selected more than 7 days ago. No
    other field, no product and no other state changes.
  */
  lemma SweepFlags(s: Store, now: Minutes, k: OrderNum)
    requires k in s.orders
    ensures k in Sweep(s, now).orders
    ensures var o, o' := s.orders[k], Sweep(s, now).orders[k];
      && o' == o.(notified := o'.notified, success := o'.success)
      && (o'.notified <==> o.notified || (!o.success && o.selectedTime < now - THREE_DAYS))
      && (o'.success <==> o.success || (!o.reported && o'.notified && o.selectedTime < now - SEVEN_DAYS))
  {
  }

  /** Once an order is successful, the sweep never touches it again. */
  lemma SweepLeavesSuccessfulOrders(s: Store, now: Minutes, k: OrderNum)
    requires k in s.orders && s.orders[k].success
    ensures k in Sweep(s, now).orders && Sweep(s, now).orders[k] == s.orders[k]
  {
  }

  /** Mails in strictly increasing order number: in particular no order gets two. */
  ghost predicate Ascending(r: seq<Notice>) {
    forall i, j :: 0 <= i < j < |r| ==> r[i].order < r[j].order
  }

  /** Walking a strictly increasing list, a pass sends its mails in strictly increasing order number. */
  lemma {:induction false} PhaseNoticesOrdered(orders: map<OrderNum, Order>, ks: seq<OrderNum>, now: Minutes, ph: Phase)
    requires forall i, j :: 0 <= i < j < |ks| ==> ks[i] < ks[j]
    ensures Ascending(PhaseNotices(orders, ks, now, ph))
    decreases |ks|
  {
    if ks != [] {
      var front, last := ks[..|ks| - 1], ks[|ks| - 1];
      PhaseNoticesOrdered(orders, front, now, ph);
      var sent := PhaseNotices(orders, front, now, ph);
      forall i | 0 <= i < |sent|
        ensures sent[i].order < last
      {
        var m :| 0 <= m < |front| && front[m] == sent[i].order;
      }
      var r := PhaseNotices(orders, ks, now, ph);
      if last in orders && Due(orders[last], now, ph) {
        assert r == sent + [Notice(PhaseMail(ph), last)];
        forall i, j | 0 <= i < j < |r|
          ensures r[i].order < r[j].order
        {
          if j == |sent| {
            assert r[i] == sent[i];
          }
        }
      } else {
        assert r == sent;
      }
    }
  }

  /**
    The mail of one pass over a well-formed store: one mail of the pass's kind
    for each order that is due, none for any other, in ascending order number
    (so no order gets two).
  */
  lemma PassMailExact(s: Store, now: Minutes, ph: Phase)
    requires WellFormed(s)
    ensures var r := PassMail(s, now, ph);
      && (forall i :: 0 <= i < |r| ==> r[i].kind == PhaseMail(ph))
      && Ascending(r)
      && forall k :: k in s.orders ==> (Notice(PhaseMail(ph), k) in r <==> Due(s.orders[k], now, ph))
  {
    var ks := FindBy(s.orders, s.nextOrderNum, PhaseQuery(ph));
    PhaseNoticesOrdered(s.orders, ks, now, ph);
    var r := PassMail(s, now, ph);
    forall k | k in s.orders
      ensures Notice(PhaseMail(ph), k) in r <==> Due(s.orders[k], now, ph)
    {
      if Due(s.orders[k], now, ph) {
        assert k < s.nextOrderNum;
        PhaseNoticesComplete(s.orders, ks, now, ph, k);
      }
    }
  }

  /**
    The mail of one sweep over a well-formed store: first a 3-day reminder for
    exactly the orders whose `notified` flag the sweep sets, then an
    auto-confirmation mail for exactly the orders whose `success` flag it sets,
    each batch in ascending order number.
  */
  lemma SweepMail(s: Store, now: Minutes)
    requires WellFormed(s)
    ensures var t := Sweep(s, now);
      var rem := PassMail(s, now, Reminder);
      var conf := PassMail(RunPhase(s, now, Reminder), now, AutoConfirmation);
      && t.outbox == s.outbox + rem + conf
      && (forall i :: 0 <= i < |rem| ==> rem[i].kind == ReminderMail)
      && (forall i :: 0 <= i < |conf| ==> conf[i].kind == AutoConfirmMail)
      && Ascending(rem) && Ascending(conf)
      && (forall k :: k in s.orders ==>
            (Notice(ReminderMail, k) in rem <==> !s.orders[k].notified && t.orders[k].notified))
      && (forall k :: k in s.orders ==>
            (Notice(AutoConfirmMail, k) in conf <==> !s.orders[k].success && t.orders[k].success))
  {
    var m := RunPhase(s, now, Reminder);
    RunPhaseKeepsWellFormed(s, now, Reminder);
    PassMailExact(s, now, Reminder);
    PassMailExact(m, now, AutoConfirmation);
  }

  /** A pass over orders none of which is due sends nothing. */
  lemma {:induction false} NothingDueNoNotices(orders: map<OrderNum, Order>, ks: seq<OrderNum>, now: Minutes, ph: Phase)
    requires forall k :: k in orders ==> !Due(orders[k], now, ph)
    ensures PhaseNotices(orders, ks, now, ph) == []
    decreases |ks|
  {
    if ks != [] {
      NothingDueNoNotices(orders, ks[..|ks| - 1], now, ph);
    }
  }

  /** A pass over orders none of which is due changes nothing. */
  lemma NothingDuePhaseIsIdentity(s: Store, now: Minutes, ph: Phase)
    requires forall k :: k in s.orders ==> !Due(s.orders[k], now, ph)
    ensures RunPhase(s, now, ph) == s
  {
    NothingDueNoNotices(s.orders, FindBy(s.orders, s.nextOrderNum, PhaseQuery(ph)), now, ph);
    var t := RunPhase(s, now, ph);
    assert t.orders == s.orders;
  }

  /** After a sweep at `now`, no order is due for either pass at `now`. */
  lemma NothingDueAfterSweep(s: Store, now: Minutes)
    ensures forall k :: k in Sweep(s, now).orders ==> !Due(Sweep(s, now).orders[k], now, Reminder)
    ensures forall k :: k in Sweep(s, now).orders ==> !Due(Sweep(s, now).orders[k], now, AutoConfirmation)
  {
  }

  /** A second sweep at the same time sends no mail and changes no order. */
  lemma {:induction false} SweepIdempotent(s: Store, now: Minutes)
    ensures Sweep(Sweep(s, now), now) == Sweep(s, now)
  {
    var t := Sweep(s, now);
    NothingDueAfterSweep(s, now);
    NothingDuePhaseIsIdentity(t, now, Reminder);
    NothingDuePhaseIsIdentity(t, now, AutoConfirmation);
  }

  // ---------------------------------------------------------------------------
  // The projection

  /**
    `getMyOrder` lists every order the user sells among the seller part and
    every order the user buys among the buyer part.
  */
  lemma MyOrdersComplete(s: Store, user: UserId, k: OrderNum)
    requires WellFormed(s) && k in s.orders
    ensures var sold := FindBy(s.orders, s.nextOrderNum, BySeller(user));
            var r := MyOrders(s, user);
            && (s.orders[k].seller == user ==> View(s, k) in r[..|sold|])
            && (s.orders[k].buyer == user ==> View(s, k) in r[|sold|..])
  {
    var sold := FindBy(s.orders, s.nextOrderNum, BySeller(user));
    var bought := FindBy(s.orders, s.nextOrderNum, ByBuyer(user));
    var r := MyOrders(s, user);
    assert r == Views(s, sold) + Views(s, bought);
    if s.orders[k].seller == user {
      assert Matches(s.orders[k], BySeller(user));
      var i :| 0 <= i < |sold| && sold[i] == k;
      assert r[..|sold|][i] == View(s, k);
    }
    if s.orders[k].buyer == user {
      assert Matches(s.orders[k], ByBuyer(user));
      var i :| 0 <= i < |bought| && bought[i] == k;
      assert r[|sold|..][i] == View(s, k);
    }
  }

  /** `ks` lists every stored order that `q` selects, and nothing else, each once in ascending order. */
  ghost predicate ListsExactly(s: Store, ks: seq<OrderNum>, q: Query) {
    && (forall i, j :: 0 <= i < j < |ks| ==> ks[i] < ks[j])
    && (forall k :: k in ks <==> k in s.orders && Matches(s.orders[k], q))
  }

  /** On a well-formed store, a repository query lists exactly the matching orders. */
  lemma FindByListsExactly(s: Store, q: Query)
    requires WellFormed(s)
    ensures ListsExactly(s, FindBy(s.orders, s.nextOrderNum, q), q)
  {
    var ks := FindBy(s.orders, s.nextOrderNum, q);
    forall k | k in s.orders && Matches(s.orders[k], q)
      ensures k in ks
    {
      assert k < s.nextOrderNum;
    }
  }

  /** `r` is the projections of `sold`, then those of `bought`, row by row. */
  ghost predicate ProjectsInOrder(s: Store, r: seq<OrderView>, sold: seq<OrderNum>, bought: seq<OrderNum>) {
    && |r| == |sold| + |bought|
    && (forall i :: 0 <= i < |sold| ==> sold[i] in s.orders && r[i] == View(s, sold[i]))
    && (forall i :: 0 <= i < |bought| ==> bought[i] in s.orders && r[|sold| + i] == View(s, bought[i]))
  }

  /** Concatenated projections of two lists are those lists' projections, row by row. */
  lemma ViewsConcatProjects(s: Store, sold: seq<OrderNum>, bought: seq<OrderNum>)
    requires forall i :: 0 <= i < |sold| ==> sold[i] in s.orders
    requires forall i :: 0 <= i < |bought| ==> bought[i] in s.orders
    ensures ProjectsInOrder(s, Views(s, sold) + Views(s, bought), sold, bought)
  {
    var rs, rb := Views(s, sold), Views(s, bought);
    var r := rs + rb;
    forall i | 0 <= i < |bought|
      ensures r[|sold| + i] == View(s, bought[i])
    {
      assert r[|rs| + i] == rb[i];
    }
  }

  /**
    `getMyOrder` row by row: one row per order the user sells, in ascending
    order number, then one row per order the user buys, each that order's
    projection, and no other rows.
  */
  lemma MyOrdersExact(s: Store, user: UserId)
    requires WellFormed(s)
    ensures exists sold: seq<OrderNum>, bought: seq<OrderNum> ::
      && ListsExactly(s, sold, BySeller(user))
      && ListsExactly(s, bought, ByBuyer(user))
      && ProjectsInOrder(s, MyOrders(s, user), sold, bought)
  {
    var sold := FindBy(s.orders, s.nextOrderNum, BySeller(user));
    var bought := FindBy(s.orders, s.nextOrderNum, ByBuyer(user));
    FindByListsExactly(s, BySeller(user));
    FindByListsExactly(s, ByBuyer(user));
    assert MyOrders(s, user) == Views(s, sold) + Views(s, bought);
    ViewsConcatProjects(s, sold, bought);
  }
}
