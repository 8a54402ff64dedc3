/** Whole stories of a project, from the first request to the last, in any state the project may be in. */
module CommerceStories {
  import opened Common
  import opened EventOrder
  import opened Sums
  import opened Commerce
  import opened CommerceRuns
  import opened CommerceFrames
  import opened RefundLedger
  import opened RefundReservations
  import opened CommerceConstraints
  import opened CommerceDecisions
  import opened EntitlementProvenance
  import opened RefundExactness

  // ---------------------------------------------------------------- a sale

  datatype Sale = Sale(order: string, session: string, intent: string, total: nat)

  /** The names are new to the project and the total is an amount. */
  ghost predicate Unused(shop: Shop, s: Sale) {
    && s.order !in shop.orders && s.intent !in shop.payments && s.intent !in shop.foreign && 0 < s.total <= I64_MAX
    && forall o :: o in shop.orders ==>
         shop.orders[o].session != Some(s.session) && shop.orders[o].intent != Some(s.intent)
  }

  /** The project with the sale's order in one more state, and its payment once there is one. */
  function With(shop: Shop, s: Sale, status: OrderStatus, fulfillment: Fulfillment, session: Option<string>,
                paid: Option<Stamp>): Shop {
    shop.(orders := shop.orders[s.order := Order.Order(status, fulfillment, s.total, 0, session,
                                                       if paid.Some? then Some(s.intent) else None)],
          payments := if paid.None? then shop.payments
                      else shop.payments[s.intent :=
                        Payment(Some(s.order), None, Captured, s.total, s.total, 0, paid.value)])
  }

  lemma Placed(db: Db, s: Sale)
    requires Unused(db.shop, s)
    ensures Act(db, Service(Request.Order(s.order, s.total)))
         == db.(shop := With(db.shop, s, Pending, Unfulfilled, None, None))
  {
  }

  /** A failed attempt to open the checkout, and placing the order again. */
  lemma PlacedAgain(db: Db, shop: Shop, s: Sale)
    requires Unused(shop, s) && db.shop == With(shop, s, Pending, Unfulfilled, None, None)
    ensures var failed := Act(db, Service(OrderFailed(s.order)));
      && failed == db.(shop := With(shop, s, PaymentFailed, Unfulfilled, None, None))
      && Act(failed, Service(Request.Order(s.order, s.total))) == db
  {
    var failed := Act(db, Service(OrderFailed(s.order)));
    assert failed.shop.orders == shop.orders[s.order :=
      Order.Order(PaymentFailed, Unfulfilled, s.total, 0, None, None)];
    assert Act(failed, Service(Request.Order(s.order, s.total))).shop.orders == db.shop.orders;
  }

  lemma Opened(db: Db, shop: Shop, s: Sale)
    requires Unused(shop, s) && db.shop == With(shop, s, Pending, Unfulfilled, None, None)
    ensures Act(db, Service(OrderSession(s.order, s.session)))
         == db.(shop := With(shop, s, CheckoutCreated, Unfulfilled, Some(s.session), None))
  {
    var row := db.shop.orders[s.order].(status := CheckoutCreated, session := Some(s.session));
    assert OrderUnique(db.shop.orders, s.order, row);
    assert db.shop.orders[s.order := row] == shop.orders[s.order := row];
  }

  /** An unpaid completion of the checkout. */
  lemma Attempted(db: Db, shop: Shop, s: Sale, d: Delivery)
    requires Unused(shop, s) && db.shop == With(shop, s, CheckoutCreated, Unfulfilled, Some(s.session), None)
    requires d.content == OrderCheckout(s.session, s.order, None) && d.at.id !in db.ledger
    ensures Act(db, Webhook(d)).shop == With(shop, s, Processing, Unfulfilled, Some(s.session), None)
  {
    var row := db.shop.orders[s.order].(status := Processing);
    assert OrderUnique(db.shop.orders, s.order, row);
    assert db.shop.orders[s.order := row] == shop.orders[s.order := row];
  }

  lemma Paid(db: Db, shop: Shop, s: Sale, status: OrderStatus, d: Delivery)
    requires Unused(shop, s) && db.shop == With(shop, s, status, Unfulfilled, Some(s.session), None)
    requires d.content == OrderCheckout(s.session, s.order, Some((s.intent, s.total))) && d.at.id !in db.ledger
    ensures Act(db, Webhook(d))
         == Db(With(shop, s, OrderPaid, Unfulfilled, Some(s.session), Some(d.at)),
               db.ledger[d.at.id := Entry(d.payload, true, false)])
  {
    var stored := db.shop.(payments := shop.payments[s.intent :=
      Payment(Some(s.order), None, Captured, s.total, s.total, 0, d.at)]);
    assert UpsertPayment(db.shop, Some(s.order), None, s.intent, Captured, s.total, s.total, d.at) == Stored(stored);
    var row := stored.orders[s.order].(status := OrderPaid, intent := Some(s.intent));
    assert OrderUnique(stored.orders, s.order, row);
    assert stored.orders[s.order := row] == shop.orders[s.order := row];
  }

  /** Once the sale is paid and nothing of it has been paid back, all of it can be spent. */
  lemma AllSpendable(shop: Shop, s: Sale, fulfillment: Fulfillment, at: Stamp)
    requires Unused(shop, s) && RefundsLinked(shop.refunds, shop.payments) && PaymentsLinked(shop.payments, shop.orders)
    ensures Spendable(With(shop, s, OrderPaid, fulfillment, Some(s.session), Some(at)), s.order) == s.total
  {
    var now := With(shop, s, OrderPaid, fulfillment, Some(s.session), Some(at));
    NothingReserved(shop.refunds, shop.payments, s.intent);
    var counted := set id | id in now.payments && now.payments[id].order == Some(s.order)
                            && now.payments[id].status in {Captured, PartlyRefunded};
    assert counted == {s.intent};
    var net := (id: string) =>
      if id in now.payments then now.payments[id].captured - Reserved(now.refunds, id) else 0;
    SumTake(counted, net, s.intent);
    assert counted - {s.intent} == {};
  }

  lemma Fulfilling(db: Db, shop: Shop, s: Sale, from: Fulfillment, to: Fulfillment, at: Stamp)
    requires Unused(shop, s) && RefundsLinked(shop.refunds, shop.payments) && PaymentsLinked(shop.payments, shop.orders)
    requires db.shop == With(shop, s, OrderPaid, from, Some(s.session), Some(at))
    requires (from, to) in {(Unfulfilled, FulfillmentProcessing), (FulfillmentProcessing, Fulfilled)}
    ensures Act(db, Service(Fulfill(s.order, to)))
         == db.(shop := With(shop, s, OrderPaid, to, Some(s.session), Some(at)))
  {
    AllSpendable(shop, s, from, at);
    var row := db.shop.orders[s.order].(fulfillment := to);
    assert db.shop.orders[s.order := row] == shop.orders[s.order := row];
  }

  /** A sale goes through, whatever the project has done before: placed, its first attempt failed, placed again,
      opened, attempted without payment, paid, and fulfilled in two steps, it ends paid and fulfilled with its
      money captured, and nothing else in the project has changed but two entries of the ledger. */
  lemma SaleGoesThrough(db: Db, s: Sale, attempt: Delivery, payment: Delivery)
    requires Unused(db.shop, s) && Balanced(db.shop)
    requires attempt.content == OrderCheckout(s.session, s.order, None)
    requires payment.content == OrderCheckout(s.session, s.order, Some((s.intent, s.total)))
    requires attempt.at.id !in db.ledger && payment.at.id !in db.ledger && attempt.at.id != payment.at.id
    ensures var placed := Act(Act(Act(db, Service(Request.Order(s.order, s.total))), Service(OrderFailed(s.order))),
                              Service(Request.Order(s.order, s.total)));
      var ready := Act(placed, Service(OrderSession(s.order, s.session)));
      var paid := Act(Act(ready, Webhook(attempt)), Webhook(payment));
      var started := Act(paid, Service(Fulfill(s.order, FulfillmentProcessing)));
      var done := Act(started, Service(Fulfill(s.order, Fulfilled)));
      done == Db(db.shop.(
          orders := db.shop.orders[s.order :=
            Order.Order(OrderPaid, Fulfilled, s.total, 0, Some(s.session), Some(s.intent))],
          payments := db.shop.payments[s.intent :=
            Payment(Some(s.order), None, Captured, s.total, s.total, 0, payment.at)]),
        db.ledger[attempt.at.id := Entry(attempt.payload, true, false)][
                  payment.at.id := Entry(payment.payload, true, false)])
  {
    var shop, placed := db.shop, db.(shop := With(db.shop, s, Pending, Unfulfilled, None, None));
    Placed(db, s);
    PlacedAgain(placed, shop, s);
    Opened(placed, shop, s);
    var ready := Act(placed, Service(OrderSession(s.order, s.session)));
    Attempted(ready, shop, s, attempt);
    var tried := Act(ready, Webhook(attempt));
    AttemptRecorded(ready, shop, s, attempt);
    Paid(tried, shop, s, Processing, payment);
    var paid := Act(tried, Webhook(payment));
    Fulfilling(paid, shop, s, Unfulfilled, FulfillmentProcessing, payment.at);
    var started := Act(paid, Service(Fulfill(s.order, FulfillmentProcessing)));
    Fulfilling(started, shop, s, FulfillmentProcessing, Fulfilled, payment.at);
  }

  lemma AttemptRecorded(db: Db, shop: Shop, s: Sale, d: Delivery)
    requires Unused(shop, s) && db.shop == With(shop, s, CheckoutCreated, Unfulfilled, Some(s.session), None)
    requires d.content == OrderCheckout(s.session, s.order, None) && d.at.id !in db.ledger
    ensures Act(db, Webhook(d)).ledger == db.ledger[d.at.id := Entry(d.payload, true, false)]
  {
    var row := db.shop.orders[s.order].(status := Processing);
    assert OrderUnique(db.shop.orders, s.order, row);
  }

  // ---------------------------------------------------------------- a refund

  /** The refund's id and provider id are new, the payment has `amount` left, and the totals can take it. */
  ghost predicate Refundable(shop: Shop, id: string, provider: string, payment: string, amount: nat) {
    && id !in shop.refunds && (forall r :: r in shop.refunds ==> shop.refunds[r].provider != Some(provider))
    && payment in shop.payments && shop.payments[payment].status in {Captured, PartlyRefunded}
    && 0 < amount && Reserved(shop.refunds, payment) + amount <= shop.payments[payment].captured
    && (shop.payments[payment].order.Some? && shop.payments[payment].order.value in shop.orders ==>
          !OrderRefuses(shop.orders[shop.payments[payment].order.value],
                        shop.orders[shop.payments[payment].order.value].refunded + amount))
  }

  function Outstanding(payment: string, amount: nat, reason: Option<string>, provider: Option<string>): Refund {
    Refund(payment, RefundPending, amount, reason, provider, None)
  }

  lemma Requested(db: Db, id: string, provider: string, payment: string, amount: nat, reason: Option<string>)
    requires Refundable(db.shop, id, provider, payment, amount)
    ensures var asked := Act(db, Service(Reserve(id, payment, Some(amount), reason)));
      && asked == db.(shop := db.shop.(refunds := db.shop.refunds[id := Outstanding(payment, amount, reason, None)]))
      && Act(asked, Service(Accepted(id, provider)))
         == db.(shop := db.shop.(
              refunds := db.shop.refunds[id := Outstanding(payment, amount, reason, Some(provider))]))
  {
    ReservedNotNegative(db.shop.refunds, payment);
    ReservationDecides(db.shop, id, payment, Some(amount), reason);
    var asked := Act(db, Service(Reserve(id, payment, Some(amount), reason)));
    assert asked.shop.refunds[id] == Outstanding(payment, amount, reason, None);
    assert RefundUnique(asked.shop.refunds, id, provider);
    assert asked.shop.refunds[id := Outstanding(payment, amount, reason, Some(provider))]
        == db.shop.refunds[id := Outstanding(payment, amount, reason, Some(provider))];
  }

  lemma ReservedNotNegative(refunds: map<string, Refund>, payment: string)
    ensures 0 <= Succeeded(refunds, payment) <= Reserved(refunds, payment)
  {
    var zero: string -> int := _ => 0;
    SumZero(refunds.Keys, zero);
    SumAtMost(refunds.Keys, zero, PendingAmount(refunds, payment));
    SucceededNotNegative(refunds, payment);
    ReservedIs(refunds, payment);
  }

  lemma OutstandingLawful(a: Shop, b: Shop, id: string, row: Refund)
    requires Lawful(a) && id !in a.refunds && row.provider.Some?
    requires forall r :: r in a.refunds ==> a.refunds[r].provider != row.provider
    requires b == a.(refunds := a.refunds[id := row])
    ensures Lawful(b)
  {
    RefundRowDistinct(a.refunds, b.refunds, id, row.provider.value);
  }

  lemma OutstandingBalanced(a: Shop, b: Shop, id: string, row: Refund)
    requires Balanced(a) && id !in a.refunds && row.payment in a.payments && row.status == RefundPending
    requires b == a.(refunds := a.refunds[id := row])
    ensures Balanced(b)
  {
    assert RefundWrite(a, b, id);
    RefundWriteBalanced(a, b, id);
  }

  /** While it is pending, the refund's payout is not refused. */
  lemma PayoutFits(shop: Shop, asked: Shop, id: string, row: Refund)
    requires PaymentsAgree(shop.payments, shop.refunds) && RefundsLinked(asked.refunds, asked.payments)
    requires row.provider.Some? && Refundable(shop, id, row.provider.value, row.payment, row.amount)
    requires row.status == RefundPending && asked == shop.(refunds := shop.refunds[id := row])
    ensures !TotalsRefused(asked, id, RefundSucceeded)
  {
    PayoutRoom(shop, row.payment, row.amount);
    PayoutTotals(asked, id, row.amount);
  }

  /** What is left of the payment is left of what it has not returned yet. */
  lemma PayoutRoom(shop: Shop, payment: string, amount: nat)
    requires PaymentsAgree(shop.payments, shop.refunds) && payment in shop.payments
    requires Reserved(shop.refunds, payment) + amount <= shop.payments[payment].captured
    ensures shop.payments[payment].refunded + amount <= shop.payments[payment].captured
  {
    ReservedNotNegative(shop.refunds, payment);
  }

  lemma PayoutTotals(shop: Shop, id: string, amount: nat)
    requires id in shop.refunds && RefundsLinked(shop.refunds, shop.payments)
    requires shop.refunds[id].status == RefundPending && shop.refunds[id].amount == amount
    requires var payment := shop.payments[shop.refunds[id].payment];
      && payment.refunded + amount <= payment.captured
      && (payment.order.Some? && payment.order.value in shop.orders ==>
            !OrderRefuses(shop.orders[payment.order.value], shop.orders[payment.order.value].refunded + amount))
    ensures !TotalsRefused(shop, id, RefundSucceeded)
  {
  }

  /** A refund event that completes is recorded and leaves what its handler leaves. */
  lemma RefundDelivered(db: Db, d: Delivery, id: string, provider: string)
    requires d.content == RefundEvent(Some(id), provider, Some(RefundSucceeded)) && d.at.id !in db.ledger
    requires ApplyRefund(db.shop, d.at, Some(id), provider, Some(RefundSucceeded)).Completed?
    ensures Act(db, Webhook(d)).shop == ApplyRefund(db.shop, d.at, Some(id), provider, Some(RefundSucceeded)).shop
  {
  }

  lemma PayoutCompletes(asked: Shop, id: string, provider: string, at: Stamp)
    requires Balanced(asked) && Lawful(asked) && id in asked.refunds && asked.refunds[id].marker.None?
    requires asked.refunds[id].provider == Some(provider) && !TotalsRefused(asked, id, RefundSucceeded)
    ensures Lands(asked, at, Some(id), provider)
    ensures ApplyRefund(asked, at, Some(id), provider, Some(RefundSucceeded)).Completed?
  {
    RefundLostExactly(asked, at, Some(id), provider, Some(RefundSucceeded));
    assert RefundUnique(asked.refunds, id, provider);
    RefundShape(asked, at, Some(id), provider, Some(RefundSucceeded));
    var row := Rewritten(asked.refunds[id], at, provider, RefundSucceeded);
    RecomputeFrame(asked.(refunds := asked.refunds[id := row]), row.payment);
  }

  /** A refund goes through, whatever the project has done before: asked for, accepted by the provider and reported
      paid out, it adds its amount to what the payment and its order have returned, and their statuses say whether
      that is all of it. */
  lemma RefundGoesThrough(db: Db, id: string, provider: string, payment: string, amount: nat, reason: Option<string>,
                          d: Delivery)
    requires Balanced(db.shop) && Lawful(db.shop) && Refundable(db.shop, id, provider, payment, amount)
    requires d.content == RefundEvent(Some(id), provider, Some(RefundSucceeded)) && d.at.id !in db.ledger
    ensures var asked := Act(db, Service(Reserve(id, payment, Some(amount), reason)));
      var done := Act(Act(asked, Service(Accepted(id, provider))), Webhook(d)).shop;
      && id in done.refunds
      && done.refunds[id] == Refund(payment, RefundSucceeded, amount, reason, Some(provider), Some(d.at))
      && payment in done.payments
      && done.payments[payment].refunded == db.shop.payments[payment].refunded + amount
      && done.payments[payment].status
         == (if done.payments[payment].refunded == done.payments[payment].captured then Refunded else PartlyRefunded)
      && (db.shop.payments[payment].order.Some? ==>
            var o := db.shop.payments[payment].order.value;
            && o in db.shop.orders && o in done.orders
            && done.orders[o].refunded == db.shop.orders[o].refunded + amount
            && done.orders[o].status
               == (if done.orders[o].refunded == done.orders[o].total then OrderRefunded else OrderPartlyRefunded))
  {
    Requested(db, id, provider, payment, amount, reason);
    var row := Outstanding(payment, amount, reason, Some(provider));
    var asked := db.shop.(refunds := db.shop.refunds[id := row]);
    OutstandingBalanced(db.shop, asked, id, row);
    OutstandingLawful(db.shop, asked, id, row);
    PayoutFits(db.shop, asked, id, row);
    PayoutCompletes(asked, id, provider, d.at);
    PaidOut(asked, id, provider, d.at);
    RefundDelivered(db.(shop := asked), d, id, provider);
  }

  lemma PaidOut(asked: Shop, id: string, provider: string, at: Stamp)
    requires Balanced(asked) && Lawful(asked) && Lands(asked, at, Some(id), provider)
    requires id in asked.refunds && asked.refunds[id].status == RefundPending && 0 < asked.refunds[id].amount
    requires ApplyRefund(asked, at, Some(id), provider, Some(RefundSucceeded)).Completed?
    ensures var done := ApplyRefund(asked, at, Some(id), provider, Some(RefundSucceeded)).shop;
      var p := asked.refunds[id].payment;
      && id in done.refunds && done.refunds[id] == Rewritten(asked.refunds[id], at, provider, RefundSucceeded)
      && p in asked.payments && p in done.payments
      && done.payments[p].refunded == asked.payments[p].refunded + asked.refunds[id].amount
      && done.payments[p].status
         == (if done.payments[p].refunded == done.payments[p].captured then Refunded else PartlyRefunded)
      && (asked.payments[p].order.Some? ==>
            var o := asked.payments[p].order.value;
            && o in asked.orders && o in done.orders
            && done.orders[o].refunded == asked.orders[o].refunded + asked.refunds[id].amount
            && done.orders[o].status
               == (if done.orders[o].refunded == done.orders[o].total then OrderRefunded else OrderPartlyRefunded))
  {
    var done, p := ApplyRefund(asked, at, Some(id), provider, Some(RefundSucceeded)).shop, asked.refunds[id].payment;
    RefundLandsWrites(asked, at, Some(id), provider, Some(RefundSucceeded));
    SettledTotals(asked, done, id);
    RefundDecidesStatuses(asked, at, Some(id), provider, Some(RefundSucceeded));
    RewrittenStays(asked, id, provider, at);
    SettledRows(asked, done, id);
    assert 0 <= asked.payments[p].refunded;
    if asked.payments[p].order.Some? { assert OrderAllowed(asked.orders[asked.payments[p].order.value]); }
  }

  lemma RewrittenStays(asked: Shop, id: string, provider: string, at: Stamp)
    requires Lands(asked, at, Some(id), provider)
    requires ApplyRefund(asked, at, Some(id), provider, Some(RefundSucceeded)).Completed?
    ensures var done := ApplyRefund(asked, at, Some(id), provider, Some(RefundSucceeded)).shop;
      id in done.refunds && done.refunds[id] == Rewritten(asked.refunds[id], at, provider, RefundSucceeded)
  {
    RefundShape(asked, at, Some(id), provider, Some(RefundSucceeded));
    var row := Rewritten(asked.refunds[id], at, provider, RefundSucceeded);
    RecomputeShape(asked.(refunds := asked.refunds[id := row]), row.payment);
  }

  // ---------------------------------------------------------------- a subscription

  datatype Booking = Booking(id: string, subject: string, price: string, session: string, provider: string)

  /** The names are new to the project, which has the price. */
  ghost predicate Bookable(shop: Shop, b: Booking) {
    && b.id !in shop.subscriptions && b.price in shop.prices
    && forall s :: s in shop.subscriptions ==>
         shop.subscriptions[s].session != Some(b.session) && shop.subscriptions[s].provider != Some(b.provider)
  }

  function Row(b: Booking, status: SubscriptionStatus, session: Option<string>, provider: Option<string>,
               start: Option<int>, end: Option<int>, cancel: bool, marker: Option<Stamp>): Subscription {
    Subscription(b.subject, b.price, status, provider, session, start, end, cancel, marker)
  }

  function Having(shop: Shop, b: Booking, row: Subscription): Shop {
    shop.(subscriptions := shop.subscriptions[b.id := row])
  }

  /** Asked for, opened and checked out. */
  lemma Booked(db: Db, b: Booking, d: Delivery)
    requires Bookable(db.shop, b) && d.content == SubscriptionCheckout(b.session, b.id, b.provider)
    requires d.at.id !in db.ledger
    ensures var asked := Act(db, Service(Subscribe(b.id, b.subject, b.price)));
      var ready := Act(asked, Service(SubscriptionSession(b.id, b.session)));
      && asked == db.(shop := Having(db.shop, b, Row(b, CheckoutPending, None, None, None, None, false, None)))
      && ready
         == db.(shop := Having(db.shop, b, Row(b, CheckoutPending, Some(b.session), None, None, None, false, None)))
      && Act(ready, Webhook(d))
         == Db(Having(db.shop, b, Row(b, CheckoutPending, Some(b.session), Some(b.provider), None, None, false, None)),
               db.ledger[d.at.id := Entry(d.payload, true, false)])
  {
    var asked := Act(db, Service(Subscribe(b.id, b.subject, b.price)));
    SubscriptionPlacementDecides(db.shop, b.id, b.subject, b.price, b.session);
    SubscriptionPlacementDecides(asked.shop, b.id, b.subject, b.price, b.session);
    var ready := Act(asked, Service(SubscriptionSession(b.id, b.session)));
    var row := Row(b, CheckoutPending, Some(b.session), None, None, None, false, None);
    assert ready.shop.subscriptions == db.shop.subscriptions[b.id := row];
    CheckoutBindsExactly(ready.shop, b.session, b.id, b.provider);
    var bound := Row(b, CheckoutPending, Some(b.session), Some(b.provider), None, None, false, None);
    assert ready.shop.subscriptions[b.id := bound] == db.shop.subscriptions[b.id := bound];
  }

  /** Every key of the price, for the subject, with this status and for this period; every other slot as before. */
  ghost predicate Holds(a: Shop, b: Shop, k: Booking, status: EntitlementStatus, start: int, end: int)
    requires k.price in a.prices
  {
    && (forall key :: key in a.prices[k.price] ==>
          && Slot(k.subject, key) in b.entitlements
          && b.entitlements[Slot(k.subject, key)] == Entitlement(k.id, a.prices[k.price][key], status, start, end))
    && (forall slot :: slot in a.entitlements && !(slot.subject == k.subject && slot.key in a.prices[k.price]) ==>
          slot in b.entitlements && b.entitlements[slot] == a.entitlements[slot])
  }

  /** The provider reports it active; it is found by its provider id. */
  lemma Activated(shop: Shop, b: Booking, at: Stamp, start: int, end: int)
    requires Bookable(shop, b) && start < end
    ensures var before := Having(shop, b,
                                 Row(b, CheckoutPending, Some(b.session), Some(b.provider), None, None, false, None));
      var effect := ApplySubscription(before, at, None, b.provider, Some(Active), Some(start), Some(end), false);
      && effect.Completed? && Holds(shop, effect.shop, b, Granted, start, end)
      && effect.shop
         == Having(shop, b, Row(b, Active, Some(b.session), Some(b.provider), Some(start), Some(end), false, Some(at)))
            .(entitlements := effect.shop.entitlements)
  {
    var pending := Row(b, CheckoutPending, Some(b.session), Some(b.provider), None, None, false, None);
    var row := Row(b, Active, Some(b.session), Some(b.provider), Some(start), Some(end), false, Some(at));
    var before := Having(shop, b, pending);
    assert before.subscriptions[b.id].provider == Some(b.provider);
    assert SubscriptionNamed(before, None, b.provider) == Some(b.id);
    assert SubscriptionUnique(before.subscriptions, b.id, b.provider);
    assert before.subscriptions[b.id := row] == shop.subscriptions[b.id := row];
    ActivationGrantsThePrice(Having(shop, b, row), b.id);
  }

  /** Its cancellation at period end only marks it. */
  lemma Marked(db: Db, b: Booking, row: Subscription)
    requires b.id in db.shop.subscriptions && db.shop.subscriptions[b.id] == row
    requires row.provider.Some? && row.status == Active
    ensures Act(db, Service(Cancel(b.id, true)))
         == db.(shop := Having(db.shop, b, row.(cancelAtPeriodEnd := true)))
  {
  }

  /** The provider reports the end. */
  lemma Ended(shop: Shop, live: Shop, b: Booking, first: Stamp, last: Stamp, start: int, end: int)
    requires Bookable(shop, b) && Provenance(shop) && start < end && Before(first, last)
    requires Holds(shop, live, b, Granted, start, end) && live.prices == shop.prices
    requires live.entitlements.Keys == shop.entitlements.Keys + SlotsOf(shop, b)
    requires live.subscriptions == Having(shop, b,
      Row(b, Active, Some(b.session), Some(b.provider), Some(start), Some(end), true, Some(first))).subscriptions
    ensures var effect :=
        ApplySubscription(live, last, Some(b.id), b.provider, Some(Canceled), Some(start), Some(end), true);
      && effect.Completed? && Holds(shop, effect.shop, b, Lapsed, start, end)
      && effect.shop == live.(entitlements := effect.shop.entitlements, subscriptions := Having(shop, b,
           Row(b, Canceled, Some(b.session), Some(b.provider), Some(start), Some(end), true, Some(last))).subscriptions)
  {
    var row := Row(b, Canceled, Some(b.session), Some(b.provider), Some(start), Some(end), true, Some(last));
    assert SubscriptionUnique(live.subscriptions, b.id, b.provider);
    assert live.subscriptions[b.id := row] == shop.subscriptions[b.id := row];
    var written := live.(subscriptions := live.subscriptions[b.id := row]);
    SuspensionWithdraws(written, b.id);
    LapsesHeld(shop, live, RefreshEntitlements(written, b.id).shop, b, start, end);
  }

  ghost function SlotsOf(shop: Shop, b: Booking): set<Slot> requires b.price in shop.prices {
    set key | key in shop.prices[b.price] :: Slot(b.subject, key)
  }

  /** Nothing of another subscription is withdrawn. */
  lemma LapsesHeld(shop: Shop, live: Shop, after: Shop, b: Booking, start: int, end: int)
    requires Bookable(shop, b) && Provenance(shop) && Holds(shop, live, b, Granted, start, end)
    requires live.entitlements.Keys == shop.entitlements.Keys + SlotsOf(shop, b)
    requires WithdrawnAs(live.entitlements, after.entitlements, b.id, Lapsed)
    ensures Holds(shop, after, b, Lapsed, start, end)
  {
    forall slot | slot in shop.entitlements && !(slot.subject == b.subject && slot.key in shop.prices[b.price])
      ensures slot in after.entitlements && after.entitlements[slot] == shop.entitlements[slot]
    {
      assert Traceable(shop, slot);
    }
  }

  lemma ActivatedKeys(shop: Shop, b: Booking, at: Stamp, start: int, end: int)
    requires Bookable(shop, b) && start < end
    ensures var before := Having(shop, b,
                                 Row(b, CheckoutPending, Some(b.session), Some(b.provider), None, None, false, None));
      var effect := ApplySubscription(before, at, None, b.provider, Some(Active), Some(start), Some(end), false);
      effect.Completed? ==> effect.shop.entitlements.Keys == shop.entitlements.Keys + SlotsOf(shop, b)
  {
    var pending := Row(b, CheckoutPending, Some(b.session), Some(b.provider), None, None, false, None);
    var row := Row(b, Active, Some(b.session), Some(b.provider), Some(start), Some(end), false, Some(at));
    var before := Having(shop, b, pending);
    assert before.subscriptions[b.id].provider == Some(b.provider);
    assert SubscriptionNamed(before, None, b.provider) == Some(b.id);
    assert before.subscriptions[b.id := row] == shop.subscriptions[b.id := row];
  }

  /** The subscription is live: its row is this and its keys are granted. */
  ghost predicate Live(shop: Shop, live: Shop, b: Booking, row: Subscription, start: int, end: int) {
    && b.price in shop.prices
    && live == Having(shop, b, row).(entitlements := live.entitlements)
    && live.entitlements.Keys == shop.entitlements.Keys + SlotsOf(shop, b)
    && Holds(shop, live, b, Granted, start, end)
  }

  function ActiveRow(b: Booking, start: int, end: int, cancel: bool, at: Stamp): Subscription {
    Row(b, Active, Some(b.session), Some(b.provider), Some(start), Some(end), cancel, Some(at))
  }

  lemma GoesLive(db: Db, shop: Shop, b: Booking, d: Delivery, start: int, end: int)
    requires Bookable(shop, b) && start < end && d.at.id !in db.ledger
    requires db.shop == Having(shop, b,
      Row(b, CheckoutPending, Some(b.session), Some(b.provider), None, None, false, None))
    requires d.content == SubscriptionEvent(None, b.provider, Some(Active), Some(start), Some(end), false)
    ensures var live := Act(db, Webhook(d));
      && Live(shop, live.shop, b, ActiveRow(b, start, end, false, d.at), start, end)
      && live.ledger == db.ledger[d.at.id := Entry(d.payload, true, false)]
  {
    Activated(shop, b, d.at, start, end);
    ActivatedKeys(shop, b, d.at, start, end);
  }

  lemma IsMarked(db: Db, shop: Shop, b: Booking, at: Stamp, start: int, end: int)
    requires Live(shop, db.shop, b, ActiveRow(b, start, end, false, at), start, end)
    ensures var marked := Act(db, Service(Cancel(b.id, true)));
      && Live(shop, marked.shop, b, ActiveRow(b, start, end, true, at), start, end)
      && marked.shop.entitlements == db.shop.entitlements && marked.ledger == db.ledger
  {
    var row := ActiveRow(b, start, end, false, at);
    Marked(db, b, row);
    assert db.shop.subscriptions[b.id := ActiveRow(b, start, end, true, at)]
        == shop.subscriptions[b.id := ActiveRow(b, start, end, true, at)];
  }

  lemma IsOver(db: Db, shop: Shop, b: Booking, first: Stamp, d: Delivery, start: int, end: int)
    requires Bookable(shop, b) && Provenance(shop) && start < end && Before(first, d.at) && d.at.id !in db.ledger
    requires Live(shop, db.shop, b, ActiveRow(b, start, end, true, first), start, end)
    requires d.content == SubscriptionEvent(Some(b.id), b.provider, Some(Canceled), Some(start), Some(end), true)
    ensures var done := Act(db, Webhook(d)).shop;
      && Holds(shop, done, b, Lapsed, start, end)
      && done == Having(shop, b, Row(b, Canceled, Some(b.session), Some(b.provider), Some(start), Some(end), true,
                                     Some(d.at))).(entitlements := done.entitlements)
  {
    Ended(shop, db.shop, b, first, d.at, start, end);
  }

  /** A subscription runs its course, whatever the project has done before: asked for, opened, checked out and
      reported active, it gives its subject every key of the price for the period; canceled for the end of the
      period, it goes on; reported over, it leaves those keys lapsed and everybody else's as they were. */
  lemma SubscriptionRunsItsCourse(db: Db, b: Booking, checkout: Delivery, active: Delivery, over: Delivery,
                                  start: int, end: int)
    requires Bookable(db.shop, b) && Provenance(db.shop) && start < end && Before(active.at, over.at)
    requires checkout.content == SubscriptionCheckout(b.session, b.id, b.provider)
    requires active.content == SubscriptionEvent(None, b.provider, Some(Active), Some(start), Some(end), false)
    requires over.content == SubscriptionEvent(Some(b.id), b.provider, Some(Canceled), Some(start), Some(end), true)
    requires checkout.at.id !in db.ledger && active.at.id !in db.ledger && over.at.id !in db.ledger
    requires checkout.at.id != active.at.id && checkout.at.id != over.at.id && active.at.id != over.at.id
    ensures var asked := Act(db, Service(Subscribe(b.id, b.subject, b.price)));
      var bound := Act(Act(asked, Service(SubscriptionSession(b.id, b.session))), Webhook(checkout));
      var live := Act(bound, Webhook(active));
      var marked := Act(live, Service(Cancel(b.id, true)));
      var done := Act(marked, Webhook(over)).shop;
      && Holds(db.shop, live.shop, b, Granted, start, end)
      && marked.shop.entitlements == live.shop.entitlements
      && Holds(db.shop, done, b, Lapsed, start, end)
      && done == Having(db.shop, b, Subscription(b.subject, b.price, Canceled, Some(b.provider), Some(b.session),
                                                 Some(start), Some(end), true, Some(over.at)))
                 .(entitlements := done.entitlements)
  {
    Booked(db, b, checkout);
    var asked := Act(db, Service(Subscribe(b.id, b.subject, b.price)));
    var bound := Act(Act(asked, Service(SubscriptionSession(b.id, b.session))), Webhook(checkout));
    GoesLive(bound, db.shop, b, active, start, end);
    var live := Act(bound, Webhook(active));
    IsMarked(live, db.shop, b, active.at, start, end);
    IsOver(Act(live, Service(Cancel(b.id, true))), db.shop, b, active.at, over, start, end);
  }
}
