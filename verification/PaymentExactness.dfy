/** Exactly which payment events the database refuses, told from the rows and the event. */
module PaymentExactness {
  import opened Common
  import opened EventOrder
  import opened Commerce
  import opened CommerceRuns
  import opened CommerceFrames
  import opened RefundLedger
  import opened CommerceConstraints

  /** What a payment-intent event says. */
  datatype Notice = Notice(
    intent: string, order: Option<string>, subscription: Option<string>, amount: nat, captured: nat,
    status: Option<PaymentStatus>)

  ghost function Apply(shop: Shop, at: Stamp, n: Notice): Effect {
    ApplyPaymentIntent(shop, at, n.intent, n.order, n.subscription, n.amount, n.captured, n.status)
  }

  /** The handler gets as far as writing the payment of this project, as a new row or a newer version. */
  predicate Reaches(shop: Shop, at: Stamp, n: Notice) {
    && n.order.None? != n.subscription.None? && n.captured <= n.amount <= I64_MAX && n.status.Some?
    && n.intent !in shop.foreign
    && (n.intent in shop.payments ==> Before(shop.payments[n.intent].marker, at))
  }

  /** Another order holds the payment intent. */
  ghost predicate Taken(orders: map<string, Order>, order: string, intent: string) {
    exists other :: other in orders && other != order && orders[other].intent == Some(intent)
  }

  /** The payment row cannot be written: it names a missing order or subscription, or more of it has been
      refunded than the event says was captured. */
  predicate PaymentRefused(shop: Shop, n: Notice) {
    if n.intent in shop.payments then n.captured < shop.payments[n.intent].refunded
    else (n.order.Some? && n.order.value !in shop.orders)
         || (n.subscription.Some? && n.subscription.value !in shop.subscriptions)
  }

  /** The order row cannot follow: it is fulfilled and would no longer count as paid, or another order holds
      the payment intent. A refunded order does not follow at all. */
  ghost predicate OrderCannotFollow(shop: Shop, n: Notice) requires n.status.Some? {
    && n.order.Some? && n.order.value in shop.orders
    && var order := shop.orders[n.order.value];
    && order.status !in {OrderRefunded, OrderPartlyRefunded}
    && ((order.fulfillment == Fulfilled && n.status.value != Captured) || Taken(shop.orders, n.order.value, n.intent))
  }

  ghost predicate Refused(shop: Shop, at: Stamp, n: Notice) {
    Reaches(shop, at, n) && (PaymentRefused(shop, n) || OrderCannotFollow(shop, n))
  }

  lemma UpsertRefusedExactly(shop: Shop, at: Stamp, n: Notice)
    requires PaymentsLawful(shop.payments) && n.status.Some? && n.captured <= n.amount
    ensures var up := UpsertPayment(shop, n.order, n.subscription, n.intent, n.status.value, n.amount, n.captured, at);
      && (up.Stored? ==> up.shop.orders == shop.orders)
      && (up.Stored? || up == Upsert.Refused(Aborted)
          <==> n.amount <= I64_MAX && n.intent !in shop.foreign
               && (n.intent in shop.payments ==> Before(shop.payments[n.intent].marker, at)))
      && (up == Upsert.Refused(Aborted) ==> PaymentRefused(shop, n))
      && (up.Stored? ==> !PaymentRefused(shop, n))
  {
  }

  lemma FollowRefusedExactly(shop: Shop, orders: map<string, Order>, n: Notice)
    requires OrdersLawful(orders) && shop.orders == orders && n.status.Some?
    requires n.order.Some? && n.order.value in orders
    ensures var row := orders[n.order.value].(status := OrderStatusFor(n.status.value), intent := Some(n.intent));
      StoreOrder(shop, n.order.value, row).Aborted? <==>
        (row.fulfillment == Fulfilled && n.status.value != Captured) || Taken(orders, n.order.value, n.intent)
  {
    assert OrderUnique(orders, n.order.value, orders[n.order.value]);
  }

  /** In every lawful state, a payment-intent event is refused by the database, and its whole transaction
      lost, exactly if it would write the payment and either that row or its order cannot be written. */
  lemma PaymentLostExactly(shop: Shop, at: Stamp, n: Notice)
    requires Lawful(shop)
    ensures Apply(shop, at, n).Aborted? <==> Refused(shop, at, n)
  {
    if n.status.Some? && n.captured <= n.amount {
      UpsertRefusedExactly(shop, at, n);
      var up := UpsertPayment(shop, n.order, n.subscription, n.intent, n.status.value, n.amount, n.captured, at);
      if up.Stored? && n.order.Some? && n.order.value in shop.orders {
        FollowRefusedExactly(up.shop, shop.orders, n);
      }
    }
  }

  /** A completed checkout gets as far as writing the payment. */
  predicate CheckoutReaches(shop: Shop, at: Stamp, session: string, order: string, intent: string, amount: nat) {
    && order in shop.orders && shop.orders[order].session == Some(session)
    && shop.orders[order].total == amount <= I64_MAX
    && intent !in shop.foreign && (intent in shop.payments ==> Before(shop.payments[intent].marker, at))
  }

  ghost predicate CheckoutRefused(shop: Shop, at: Stamp, session: string, order: string, intent: string, amount: nat) {
    && CheckoutReaches(shop, at, session, order, intent, amount)
    && ((intent in shop.payments && amount < shop.payments[intent].refunded) || Taken(shop.orders, order, intent))
  }

  lemma PaidOrderRefusedExactly(shop: Shop, orders: map<string, Order>, order: string, intent: string)
    requires OrdersLawful(orders) && shop.orders == orders && order in orders
    ensures StoreOrder(shop, order, orders[order].(status := OrderPaid, intent := Some(intent))).Aborted?
        <==> Taken(orders, order, intent)
  {
    assert OrderUnique(orders, order, orders[order]);
  }

  /** A paid checkout is lost exactly if it would write the payment and more of it has been refunded than
      the order's total, or another order holds the payment intent. */
  lemma PaidCheckoutLostExactly(shop: Shop, at: Stamp, session: string, order: string, intent: string, amount: nat)
    requires Lawful(shop)
    ensures ApplyOrderCheckout(shop, at, session, order, Some((intent, amount))).Aborted?
        <==> CheckoutRefused(shop, at, session, order, intent, amount)
  {
    UpsertRefusedExactly(shop, at, Notice(intent, Some(order), None, amount, amount, Some(Captured)));
    var up := UpsertPayment(shop, Some(order), None, intent, Captured, amount, amount, at);
    if up.Stored? && order in shop.orders { PaidOrderRefusedExactly(up.shop, shop.orders, order, intent); }
  }

  /** An unpaid one is never lost. */
  lemma UnpaidCheckoutNeverLost(shop: Shop, at: Stamp, session: string, order: string)
    requires Lawful(shop)
    ensures !ApplyOrderCheckout(shop, at, session, order, None).Aborted?
  {
    if order in shop.orders {
      assert OrderAllowed(shop.orders[order]) && OrderUnique(shop.orders, order, shop.orders[order]);
    }
  }

  /** An invoice gets as far as writing the payment. */
  ghost predicate InvoiceReaches(shop: Shop, at: Stamp, local: Option<string>, provider: Option<string>, intent: string,
                                 amount: nat, captured: nat) {
    && InvoiceTarget(shop, local, provider).Some? && captured <= amount <= I64_MAX
    && intent !in shop.foreign && (intent in shop.payments ==> Before(shop.payments[intent].marker, at))
  }

  /** An invoice is lost exactly if it would lower the captured amount below what has been refunded. */
  lemma InvoiceLostExactly(shop: Shop, at: Stamp, local: Option<string>, provider: Option<string>, intent: string,
                           amount: nat, captured: nat, status: PaymentStatus)
    requires Lawful(shop)
    ensures ApplyInvoice(shop, at, local, provider, Some(intent), amount, captured, status).Aborted?
        <==> && InvoiceReaches(shop, at, local, provider, intent, amount, captured)
             && intent in shop.payments && captured < shop.payments[intent].refunded
  {
    if InvoiceTarget(shop, local, provider).Some? && captured <= amount {
      UpsertRefusedExactly(
        shop, at, Notice(intent, None, InvoiceTarget(shop, local, provider), amount, captured, Some(status)));
    }
  }

  function Content(n: Notice): Commerce.Content {
    PaymentIntent(n.intent, n.order, n.subscription, n.amount, n.captured, n.status)
  }

  /** After every run, a payment-intent delivery that is not a duplicate is lost without a trace exactly if
      the database refuses it; every redelivery is judged afresh, by the rows of its own moment. */
  lemma PaymentDeliveryLostExactly(db: Db, actions: seq<Action>, delivery: Delivery, n: Notice)
    requires Opening(db) && delivery.content == Content(n)
    requires var ledger := Run(db, actions).ledger;
      delivery.at.id in ledger ==>
        ledger[delivery.at.id].payload == delivery.payload && !ledger[delivery.at.id].processed
    ensures var now := Run(db, actions);
      Receive(now, delivery) == (now, Declined(Unavailable)) <==> Refused(now.shop, delivery.at, n)
  {
    ConstraintsAlwaysHold(db, actions);
    var now := Run(db, actions);
    PaymentLostExactly(now.shop, delivery.at, n);
    LostDelivery(now, delivery, n);
  }

  lemma LostDelivery(db: Db, delivery: Delivery, n: Notice)
    requires delivery.content == Content(n)
    requires delivery.at.id in db.ledger ==>
      db.ledger[delivery.at.id].payload == delivery.payload && !db.ledger[delivery.at.id].processed
    ensures Receive(db, delivery) == (db, Declined(Unavailable)) <==> Apply(db.shop, delivery.at, n).Aborted?
  {
    RejectedPlainly(db.shop, delivery.at, n);
  }

  lemma RejectedPlainly(shop: Shop, at: Stamp, n: Notice)
    ensures Apply(shop, at, n).Rejected? ==> Apply(shop, at, n).error != Unavailable
  {
  }

  // ---------------------------------------------------------------- fulfilled orders

  /** A fulfilled order stays one. */
  ghost predicate FulfilledKept(a: map<string, Order>, b: map<string, Order>) {
    forall o :: o in a && a[o].fulfillment == Fulfilled ==> o in b && b[o].fulfillment == Fulfilled
  }

  lemma StoreKeepsFulfilled(shop: Shop, id: string, order: Order)
    requires id in shop.orders && order.fulfillment == shop.orders[id].fulfillment
    ensures FulfilledKept(shop.orders, After(shop, StoreOrder(shop, id, order)).orders)
  {
  }

  lemma PaymentIntentKeepsFulfilled(shop: Shop, at: Stamp, intent: string, order: Option<string>,
                                    subscription: Option<string>, amount: nat, captured: nat,
                                    status: Option<PaymentStatus>)
    ensures FulfilledKept(shop.orders,
      After(shop, ApplyPaymentIntent(shop, at, intent, order, subscription, amount, captured, status)).orders)
  {
    if status.Some? {
      UpsertKind(shop, order, subscription, intent, status.value, amount, captured, at);
      var up := UpsertPayment(shop, order, subscription, intent, status.value, amount, captured, at);
      if up.Stored? && order.Some? && order.value in up.shop.orders {
        StoreKeepsFulfilled(up.shop, order.value,
          up.shop.orders[order.value].(status := OrderStatusFor(status.value), intent := Some(intent)));
      }
    }
  }

  lemma CheckoutKeepsFulfilled(shop: Shop, at: Stamp, session: string, order: string, paid: Option<(string, nat)>)
    ensures FulfilledKept(shop.orders, After(shop, ApplyOrderCheckout(shop, at, session, order, paid)).orders)
  {
    if order in shop.orders {
      if paid.None? {
        StoreKeepsFulfilled(shop, order, shop.orders[order].(status := Processing));
      } else {
        var (intent, amount) := paid.value;
        UpsertKind(shop, Some(order), None, intent, Captured, amount, amount, at);
        var up := UpsertPayment(shop, Some(order), None, intent, Captured, amount, amount, at);
        if up.Stored? {
          StoreKeepsFulfilled(up.shop, order, up.shop.orders[order].(status := OrderPaid, intent := Some(intent)));
        }
      }
    }
  }

  lemma RecomputeKeepsFulfilled(shop: Shop, intent: string)
    ensures FulfilledKept(shop.orders, After(shop, Recompute(shop, intent)).orders)
  {
    if intent in shop.payments && shop.payments[intent].order.Some?
       && shop.payments[intent].order.value in shop.orders {
      var sum, o := Succeeded(shop.refunds, intent), shop.payments[intent].order.value;
      var payment := shop.payments[intent].(
        refunded := sum, status := PaymentStatusAfter(sum, shop.payments[intent].captured));
      var paid := shop.(payments := shop.payments[intent := payment]);
      var refunded := OrderRefundedTotal(paid.payments, o);
      StoreKeepsFulfilled(paid, o,
        shop.orders[o].(refunded := refunded, status := OrderStatusAfter(refunded, shop.orders[o].total)));
    }
  }

  lemma RefundKeepsFulfilled(shop: Shop, at: Stamp, local: Option<string>, provider: string,
                             status: Option<RefundStatus>)
    ensures FulfilledKept(shop.orders, After(shop, ApplyRefund(shop, at, local, provider, status)).orders)
  {
    RefundShape(shop, at, local, provider, status);
    if Lands(shop, at, local, provider) && status.Some? {
      var id := RefundNamed(shop, local, provider).value;
      var row := Rewritten(shop.refunds[id], at, provider, status.value);
      RecomputeKeepsFulfilled(shop.(refunds := shop.refunds[id := row]), row.payment);
    }
  }

  lemma ExpiryKeepsFulfilled(shop: Shop, session: string)
    ensures FulfilledKept(shop.orders, After(shop, ApplyCheckoutExpired(shop, session)).orders)
  {
    var orders := map id | id in shop.orders :: ExpireOrder(shop.orders[id], session);
    assert FulfilledKept(shop.orders, orders);
  }

  lemma WebhookKeepsFulfilled(shop: Shop, at: Stamp, c: Commerce.Content)
    ensures FulfilledKept(shop.orders, After(shop, Process(shop, at, c)).orders)
  {
    match c
    case OrderCheckout(session, order, paid) => CheckoutKeepsFulfilled(shop, at, session, order, paid);
    case PaymentIntent(intent, order, subscription, amount, captured, status) =>
      PaymentIntentKeepsFulfilled(shop, at, intent, order, subscription, amount, captured, status);
    case RefundEvent(local, provider, status) => RefundKeepsFulfilled(shop, at, local, provider, status);
    case CheckoutExpired(session) => ExpiryKeepsFulfilled(shop, session);
    case InvoiceEvent(local, provider, intent, amount, captured, status) =>
      InvoiceOrders(shop, at, local, provider, intent, amount, captured, status);
    case SubscriptionEvent(local, provider, status, start, end, cancel) =>
      SubscriptionFrame(shop, at, local, provider, status, start, end, cancel);
    case SubscriptionCheckout(session, id, provider) => CheckoutFrame(shop, session, id, provider);
    case _ =>
  }

  lemma SessionKeepsFulfilled(shop: Shop, id: string, session: string)
    ensures var after := OpenOrderCheckout(shop, id, session);
      after.Fine? ==> FulfilledKept(shop.orders, after.shop.orders)
  {
    if id in shop.orders {
      StoreKeepsFulfilled(shop, id, shop.orders[id].(status := CheckoutCreated, session := Some(session)));
    }
  }

  lemma RowKeepsFulfilled(orders: map<string, Order>, id: string, row: Order)
    requires id in orders && orders[id].fulfillment == Fulfilled ==> row.fulfillment == Fulfilled
    ensures FulfilledKept(orders, orders[id := row])
  {
  }

  lemma PlacementKeepsFulfilled(shop: Shop, id: string, total: nat)
    requires PlaceOrder(shop, id, total).Fine?
    ensures FulfilledKept(shop.orders, PlaceOrder(shop, id, total).shop.orders)
  {
    RowKeepsFulfilled(shop.orders, id, PlaceOrder(shop, id, total).shop.orders[id]);
  }

  lemma FailureKeepsFulfilled(shop: Shop, id: string)
    ensures FulfilledKept(shop.orders, OrderCheckoutFailed(shop, id).shop.orders)
  {
    if id in shop.orders { RowKeepsFulfilled(shop.orders, id, shop.orders[id].(status := PaymentFailed)); }
  }

  lemma FulfilmentKeepsFulfilled(shop: Shop, id: string, next: Fulfillment)
    requires UpdateFulfillment(shop, id, next).Fine?
    ensures FulfilledKept(shop.orders, UpdateFulfillment(shop, id, next).shop.orders)
  {
    RowKeepsFulfilled(shop.orders, id, shop.orders[id].(fulfillment := next));
  }

  /** The service operations that write no order. */
  lemma ServiceKeepsOrders(shop: Shop, request: Request)
    requires Serve(shop, request).Fine?
    requires !request.Order? && !request.OrderSession? && !request.OrderFailed? && !request.Fulfill?
    ensures Serve(shop, request).shop.orders == shop.orders
  {
    if request.Reserve? { ReserveKind(shop, request.id, request.payment, request.amount, request.reason); }
  }

  lemma ServiceKeepsFulfilled(shop: Shop, request: Request)
    requires Serve(shop, request).Fine?
    ensures FulfilledKept(shop.orders, Serve(shop, request).shop.orders)
  {
    if request.OrderSession? {
      SessionKeepsFulfilled(shop, request.id, request.session);
    } else if request.Order? {
      PlacementKeepsFulfilled(shop, request.id, request.total);
    } else if request.OrderFailed? {
      FailureKeepsFulfilled(shop, request.id);
    } else if request.Fulfill? {
      FulfilmentKeepsFulfilled(shop, request.id, request.next);
    } else {
      ServiceKeepsOrders(shop, request);
    }
  }

  lemma ActionKeepsFulfilled(db: Db, action: Action)
    ensures FulfilledKept(db.shop.orders, Act(db, action).shop.orders)
  {
    match action
    case Webhook(delivery) =>
      ReceiveEffect(db, delivery);
      WebhookKeepsFulfilled(db.shop, delivery.at, delivery.content);
    case Service(request) =>
      if Serve(db.shop, request).Fine? { ServiceKeepsFulfilled(db.shop, request); }
  }

  lemma {:induction false} RunKeepsFulfilled(db: Db, actions: seq<Action>, i: nat)
    requires i <= |actions|
    ensures FulfilledKept(Run(db, actions[..i]).shop.orders, Run(db, actions).shop.orders)
  {
    if i == |actions| {
      assert actions[..i] == actions;
    } else {
      var n := |actions| - 1;
      RunKeepsFulfilled(db, actions[..n], i);
      assert actions[..n][..i] == actions[..i];
      ActionKeepsFulfilled(Run(db, actions[..n]), actions[n]);
    }
  }

  /** Once an order is fulfilled, it is paid or partly refunded for the rest of every run, whatever the
      provider reports. */
  lemma FulfilledStaysPaid(db: Db, actions: seq<Action>, i: nat, o: string)
    requires Opening(db) && i <= |actions|
    requires o in Run(db, actions[..i]).shop.orders && Run(db, actions[..i]).shop.orders[o].fulfillment == Fulfilled
    ensures var orders := Run(db, actions).shop.orders;
      o in orders && orders[o].fulfillment == Fulfilled && orders[o].status in {OrderPaid, OrderPartlyRefunded}
  {
    RunKeepsFulfilled(db, actions, i);
    ConstraintsAlwaysHold(db, actions);
  }

  /** A fulfilled order over 100, captured in full. */
  function FulfilledSale(order: string, intent: string): Shop {
    Shop(map[order := Order.Order(OrderPaid, Fulfilled, 100, 0, None, Some(intent))],
         map[intent := Payment(Some(order), None, Captured, 100, 100, 0, Stamp(1, "evt_1"))],
         map[], map[], map[], map[], {})
  }

  lemma FulfilledSaleLoses(order: string, intent: string, at: Stamp, status: PaymentStatus)
    requires Before(Stamp(1, "evt_1"), at)
    ensures Apply(FulfilledSale(order, intent), at, Notice(intent, Some(order), None, 100, 0, Some(status))).Aborted?
        <==> status != Captured
  {
    var shop := FulfilledSale(order, intent);
    assert OrdersLawful(shop.orders);
    assert PaymentsLawful(shop.payments);
    PaymentLostExactly(shop, at, Notice(intent, Some(order), None, 100, 0, Some(status)));
  }

  /** Concretely: the newer event that reports this order's payment canceled is refused, and the payment
      stays captured. */
  lemma FulfilledOrderCancellation(ledger: map<string, Entry>)
    requires "evt_2" !in ledger
    ensures var db := Db(FulfilledSale("o", "pi_1"), ledger);
      var canceled := Content(Notice("pi_1", Some("o"), None, 100, 0, Some(PaymentCanceled)));
      Receive(db, Delivery(Stamp(2, "evt_2"), "payload", canceled)) == (db, Declined(Unavailable))
  {
    FulfilledSaleLoses("o", "pi_1", Stamp(2, "evt_2"), PaymentCanceled);
  }
}
