/** The CHECK and UNIQUE constraints of the commerce tables hold after every action. */
module CommerceConstraints {
  import opened Common
  import opened EventOrder
  import opened Commerce
  import opened CommerceRuns
  import opened CommerceFrames
  import opened RefundLedger

  ghost predicate OrdersLawful(orders: map<string, Order>) {
    forall id :: id in orders ==> OrderAllowed(orders[id]) && OrderUnique(orders, id, orders[id])
  }

  ghost predicate PaymentsLawful(payments: map<string, Payment>) {
    forall id :: id in payments ==> PaymentAllowed(payments[id])
  }

  /** UNIQUE provider_subscription_id. */
  ghost predicate SubscriptionsDistinct(rows: map<string, Subscription>) {
    forall a, b :: a in rows && b in rows && a != b ==> rows[a].provider.None? || rows[a].provider != rows[b].provider
  }

  /** UNIQUE provider_refund_id. */
  ghost predicate RefundsDistinct(rows: map<string, Refund>) {
    forall a, b :: a in rows && b in rows && a != b ==> rows[a].provider.None? || rows[a].provider != rows[b].provider
  }

  ghost predicate ProvidersUnique(shop: Shop) {
    SubscriptionsDistinct(shop.subscriptions) && RefundsDistinct(shop.refunds)
  }

  ghost predicate Lawful(shop: Shop) {
    OrdersLawful(shop.orders) && PaymentsLawful(shop.payments) && ProvidersUnique(shop)
  }

  // ---------------------------------------------------------------- orders

  /** One order row written under its constraints. */
  ghost predicate OrderStored(a: map<string, Order>, b: map<string, Order>, id: string) {
    id in b && b == a[id := b[id]] && OrderAllowed(b[id]) && OrderUnique(a, id, b[id])
  }

  lemma OrderStoredLawful(a: map<string, Order>, b: map<string, Order>, id: string)
    requires OrdersLawful(a) && OrderStored(a, b, id)
    ensures OrdersLawful(b)
  {
    forall other | other in b ensures OrderAllowed(b[other]) && OrderUnique(b, other, b[other]) {
      if other != id { assert OrderUnique(a, other, a[other]); }
    }
  }

  lemma StoreOrderStored(shop: Shop, id: string, order: Order)
    ensures StoreOrder(shop, id, order).Completed? ==>
      OrderStored(shop.orders, StoreOrder(shop, id, order).shop.orders, id)
  {
  }

  ghost predicate OrderStep(a: map<string, Order>, b: map<string, Order>) {
    a == b || exists id :: OrderStored(a, b, id)
  }

  lemma OrderStepLawful(a: map<string, Order>, b: map<string, Order>)
    requires OrdersLawful(a) && OrderStep(a, b)
    ensures OrdersLawful(b)
  {
    if id :| OrderStored(a, b, id) { OrderStoredLawful(a, b, id); }
  }

  lemma PaymentIntentOrders(shop: Shop, at: Stamp, intent: string, order: Option<string>, subscription: Option<string>,
                            amount: nat, captured: nat, status: Option<PaymentStatus>)
    ensures OrderStep(shop.orders,
      After(shop, ApplyPaymentIntent(shop, at, intent, order, subscription, amount, captured, status)).orders)
  {
    if status.Some? {
      UpsertKind(shop, order, subscription, intent, status.value, amount, captured, at);
      var up := UpsertPayment(shop, order, subscription, intent, status.value, amount, captured, at);
      if up.Stored? && order.Some? && order.value in up.shop.orders {
        StoreOrderStored(up.shop, order.value,
                         up.shop.orders[order.value].(status := OrderStatusFor(status.value), intent := Some(intent)));
      }
    }
  }

  lemma OrderCheckoutOrders(shop: Shop, at: Stamp, session: string, order: string, paid: Option<(string, nat)>)
    ensures OrderStep(shop.orders, After(shop, ApplyOrderCheckout(shop, at, session, order, paid)).orders)
  {
    if order in shop.orders {
      if paid.None? {
        StoreOrderStored(shop, order, shop.orders[order].(status := Processing));
      } else {
        var (intent, amount) := paid.value;
        UpsertKind(shop, Some(order), None, intent, Captured, amount, amount, at);
        var up := UpsertPayment(shop, Some(order), None, intent, Captured, amount, amount, at);
        if up.Stored? {
          StoreOrderStored(up.shop, order, up.shop.orders[order].(status := OrderPaid, intent := Some(intent)));
        }
      }
    }
  }

  lemma InvoiceOrders(shop: Shop, at: Stamp, local: Option<string>, provider: Option<string>,
                      intent: Option<string>, amount: nat, captured: nat, status: PaymentStatus)
    ensures After(shop, ApplyInvoice(shop, at, local, provider, intent, amount, captured, status)).orders == shop.orders
  {
    if intent.Some? {
      UpsertKind(shop, None, InvoiceTarget(shop, local, provider), intent.value, status, amount, captured, at);
    }
  }

  lemma RecomputeOrders(shop: Shop, intent: string)
    ensures OrderStep(shop.orders, After(shop, Recompute(shop, intent)).orders)
  {
    if intent in shop.payments && shop.payments[intent].order.Some?
       && shop.payments[intent].order.value in shop.orders {
      var sum, o := Succeeded(shop.refunds, intent), shop.payments[intent].order.value;
      var payment := shop.payments[intent].(
        refunded := sum, status := PaymentStatusAfter(sum, shop.payments[intent].captured));
      var paid := shop.(payments := shop.payments[intent := payment]);
      var refunded := OrderRefundedTotal(paid.payments, o);
      StoreOrderStored(paid, o,
                       shop.orders[o].(refunded := refunded,
                                       status := OrderStatusAfter(refunded, shop.orders[o].total)));
    }
  }

  lemma RefundOrders(shop: Shop, at: Stamp, local: Option<string>, provider: string, status: Option<RefundStatus>)
    ensures OrderStep(shop.orders, After(shop, ApplyRefund(shop, at, local, provider, status)).orders)
  {
    var found := RefundNamed(shop, local, provider);
    if found.Some? && status.Some? {
      var row := Rewritten(shop.refunds[found.value], at, provider, status.value);
      RecomputeOrders(shop.(refunds := shop.refunds[found.value := row]), row.payment);
    }
  }

  lemma ExpiryOrders(shop: Shop, session: string)
    requires OrdersLawful(shop.orders)
    ensures OrdersLawful(After(shop, ApplyCheckoutExpired(shop, session)).orders)
  {
    var orders := map id | id in shop.orders :: ExpireOrder(shop.orders[id], session);
    if After(shop, ApplyCheckoutExpired(shop, session)) != shop {
      forall id | id in orders ensures OrderAllowed(orders[id]) && OrderUnique(orders, id, orders[id]) {
        assert OrderUnique(shop.orders, id, shop.orders[id]);
      }
    }
  }

  lemma WebhookOrders(shop: Shop, at: Stamp, c: Content)
    requires OrdersLawful(shop.orders)
    ensures OrdersLawful(After(shop, Process(shop, at, c)).orders)
  {
    var b := After(shop, Process(shop, at, c)).orders;
    match c
    case OrderCheckout(session, order, paid) =>
      OrderCheckoutOrders(shop, at, session, order, paid);
      OrderStepLawful(shop.orders, b);
    case PaymentIntent(intent, order, subscription, amount, captured, status) =>
      PaymentIntentOrders(shop, at, intent, order, subscription, amount, captured, status);
      OrderStepLawful(shop.orders, b);
    case RefundEvent(local, provider, status) =>
      RefundOrders(shop, at, local, provider, status);
      OrderStepLawful(shop.orders, b);
    case CheckoutExpired(session) => ExpiryOrders(shop, session);
    case InvoiceEvent(local, provider, intent, amount, captured, status) =>
      InvoiceOrders(shop, at, local, provider, intent, amount, captured, status);
    case SubscriptionEvent(local, provider, status, start, end, cancel) =>
      SubscriptionFrame(shop, at, local, provider, status, start, end, cancel);
    case SubscriptionCheckout(session, id, provider) => CheckoutFrame(shop, session, id, provider);
    case _ =>
  }

  lemma PlaceOrderStep(shop: Shop, id: string, total: nat)
    requires OrdersLawful(shop.orders)
    ensures var after := PlaceOrder(shop, id, total); after.Fine? ==> OrderStep(shop.orders, after.shop.orders)
  {
    var after := PlaceOrder(shop, id, total);
    if after.Fine? { assert OrderStored(shop.orders, after.shop.orders, id); }
  }

  lemma OrderSessionStep(shop: Shop, id: string, session: string)
    ensures var after := OpenOrderCheckout(shop, id, session); after.Fine? ==> OrderStep(shop.orders, after.shop.orders)
  {
    if id in shop.orders {
      StoreOrderStored(shop, id, shop.orders[id].(status := CheckoutCreated, session := Some(session)));
    }
  }

  lemma OrderFailedStep(shop: Shop, id: string)
    requires OrdersLawful(shop.orders)
    ensures OrderStep(shop.orders, OrderCheckoutFailed(shop, id).shop.orders)
  {
    var after := OrderCheckoutFailed(shop, id).shop;
    if after != shop { assert OrderStored(shop.orders, after.orders, id); }
  }

  lemma FulfillStep(shop: Shop, id: string, next: Fulfillment)
    requires OrdersLawful(shop.orders)
    ensures var after := UpdateFulfillment(shop, id, next); after.Fine? ==> OrderStep(shop.orders, after.shop.orders)
  {
    var after := UpdateFulfillment(shop, id, next);
    if after.Fine? { assert OrderStored(shop.orders, after.shop.orders, id); }
  }

  lemma ServiceOrders(shop: Shop, request: Request)
    requires OrdersLawful(shop.orders) && Serve(shop, request).Fine?
    ensures OrdersLawful(Serve(shop, request).shop.orders)
  {
    var b := Serve(shop, request).shop.orders;
    match request
    case Order(id, total) => PlaceOrderStep(shop, id, total); OrderStepLawful(shop.orders, b);
    case OrderSession(id, session) => OrderSessionStep(shop, id, session); OrderStepLawful(shop.orders, b);
    case OrderFailed(id) => OrderFailedStep(shop, id); OrderStepLawful(shop.orders, b);
    case Fulfill(id, next) => FulfillStep(shop, id, next); OrderStepLawful(shop.orders, b);
    case Reserve(id, payment, amount, reason) => ReserveKind(shop, id, payment, amount, reason);
    case _ =>
  }

  // ---------------------------------------------------------------- payments

  lemma MoneyStepPayments(a: Shop, b: Shop)
    requires PaymentsLawful(a.payments) && MoneyStep(a, b)
    ensures PaymentsLawful(b.payments)
  {
    if id :| PaymentWrite(a, b, id) {
    } else if id :| RefundSettle(a, b, id) {
    }
  }

  // ---------------------------------------------------------------- provider ids

  lemma SubscriptionRowDistinct(a: map<string, Subscription>, b: map<string, Subscription>, id: string,
                                provider: string)
    requires SubscriptionsDistinct(a) && SubscriptionUnique(a, id, provider)
    requires id in b && b[id].provider == Some(provider) && b == a[id := b[id]]
    ensures SubscriptionsDistinct(b)
  {
  }

  lemma RefundRowDistinct(a: map<string, Refund>, b: map<string, Refund>, id: string, provider: string)
    requires RefundsDistinct(a) && RefundUnique(a, id, provider)
    requires id in b && b[id].provider == Some(provider) && b == a[id := b[id]]
    ensures RefundsDistinct(b)
  {
  }

  lemma ExpiryDistinct(shop: Shop, session: string)
    requires SubscriptionsDistinct(shop.subscriptions)
    ensures SubscriptionsDistinct(After(shop, ApplyCheckoutExpired(shop, session)).subscriptions)
  {
    var expired := map id | id in shop.subscriptions :: ExpireSubscription(shop.subscriptions[id], session);
    assert forall id :: id in expired ==> expired[id].provider == shop.subscriptions[id].provider;
  }

  lemma WebhookKeepsUnique(shop: Shop, at: Stamp, c: Content)
    requires ProvidersUnique(shop)
    ensures ProvidersUnique(After(shop, Process(shop, at, c)))
  {
    var b := After(shop, Process(shop, at, c));
    match c
    case RefundEvent(local, provider, status) =>
      RefundFrame(shop, at, local, provider, status);
      if b != shop { RefundRowDistinct(shop.refunds, b.refunds, RefundNamed(shop, local, provider).value, provider); }
    case SubscriptionEvent(local, provider, status, start, end, cancel) =>
      SubscriptionFrame(shop, at, local, provider, status, start, end, cancel);
      if b != shop {
        SubscriptionRowDistinct(shop.subscriptions, b.subscriptions,
                                SubscriptionNamed(shop, local, provider).value, provider);
      }
    case SubscriptionCheckout(session, id, provider) =>
      CheckoutFrame(shop, session, id, provider);
      if b != shop { SubscriptionRowDistinct(shop.subscriptions, b.subscriptions, id, provider); }
    case CheckoutExpired(session) => ExpiryDistinct(shop, session);
    case OrderCheckout(session, order, paid) => OrderCheckoutFrame(shop, at, session, order, paid);
    case PaymentIntent(intent, order, subscription, amount, captured, status) =>
      PaymentIntentFrame(shop, at, intent, order, subscription, amount, captured, status);
    case InvoiceEvent(local, provider, intent, amount, captured, status) =>
      InvoiceFrame(shop, at, local, provider, intent, amount, captured, status);
    case _ =>
  }

  lemma ReserveDistinct(shop: Shop, id: string, payment: string, amount: Option<nat>, reason: Option<string>)
    requires RefundsDistinct(shop.refunds) && ReserveRefund(shop, id, payment, amount, reason).Fine?
    ensures RefundsDistinct(ReserveRefund(shop, id, payment, amount, reason).shop.refunds)
    ensures ReserveRefund(shop, id, payment, amount, reason).shop.subscriptions == shop.subscriptions
  {
  }

  lemma AcceptedDistinct(shop: Shop, id: string, provider: string)
    requires RefundsDistinct(shop.refunds) && RefundAccepted(shop, id, provider).Fine?
    ensures RefundsDistinct(RefundAccepted(shop, id, provider).shop.refunds)
    ensures RefundAccepted(shop, id, provider).shop.subscriptions == shop.subscriptions
  {
    var b := RefundAccepted(shop, id, provider).shop;
    if b != shop { RefundRowDistinct(shop.refunds, b.refunds, id, provider); }
  }

  lemma TurnedDownDistinct(shop: Shop, id: string)
    requires RefundsDistinct(shop.refunds)
    ensures RefundsDistinct(RefundTurnedDown(shop, id).shop.refunds)
    ensures RefundTurnedDown(shop, id).shop.subscriptions == shop.subscriptions
  {
  }

  lemma CancelDistinct(shop: Shop, id: string, atPeriodEnd: bool)
    requires SubscriptionsDistinct(shop.subscriptions) && CancelSubscription(shop, id, atPeriodEnd).Fine?
    ensures SubscriptionsDistinct(CancelSubscription(shop, id, atPeriodEnd).shop.subscriptions)
    ensures CancelSubscription(shop, id, atPeriodEnd).shop.refunds == shop.refunds
  {
  }

  lemma SubscribeDistinct(shop: Shop, id: string, subject: string, price: string)
    requires SubscriptionsDistinct(shop.subscriptions) && PlaceSubscription(shop, id, subject, price).Fine?
    ensures SubscriptionsDistinct(PlaceSubscription(shop, id, subject, price).shop.subscriptions)
    ensures PlaceSubscription(shop, id, subject, price).shop.refunds == shop.refunds
  {
  }

  lemma SessionDistinct(shop: Shop, id: string, session: string)
    requires SubscriptionsDistinct(shop.subscriptions) && OpenSubscriptionCheckout(shop, id, session).Fine?
    ensures SubscriptionsDistinct(OpenSubscriptionCheckout(shop, id, session).shop.subscriptions)
    ensures OpenSubscriptionCheckout(shop, id, session).shop.refunds == shop.refunds
  {
  }

  lemma OrderServiceDistinct(shop: Shop, request: Request)
    requires Serve(shop, request).Fine?
    requires request.Order? || request.OrderSession? || request.OrderFailed? || request.Fulfill?
    ensures Serve(shop, request).shop.subscriptions == shop.subscriptions
    ensures Serve(shop, request).shop.refunds == shop.refunds
  {
    match request
    case Order(id, total) =>
    case OrderSession(id, session) =>
    case OrderFailed(id) =>
    case Fulfill(id, next) =>
  }

  lemma ServiceKeepsUnique(shop: Shop, request: Request)
    requires ProvidersUnique(shop) && Serve(shop, request).Fine?
    ensures ProvidersUnique(Serve(shop, request).shop)
  {
    match request
    case Reserve(id, payment, amount, reason) => ReserveDistinct(shop, id, payment, amount, reason);
    case Accepted(id, provider) => AcceptedDistinct(shop, id, provider);
    case TurnedDown(id) => TurnedDownDistinct(shop, id);
    case Cancel(id, atPeriodEnd) => CancelDistinct(shop, id, atPeriodEnd);
    case Subscribe(id, subject, price) => SubscribeDistinct(shop, id, subject, price);
    case SubscriptionSession(id, session) => SessionDistinct(shop, id, session);
    case AddPrice(_, _) =>
    case _ => OrderServiceDistinct(shop, request);
  }

  lemma ActionKeepsUnique(db: Db, action: Action)
    requires ProvidersUnique(db.shop)
    ensures ProvidersUnique(Act(db, action).shop)
  {
    match action
    case Webhook(delivery) =>
      ReceiveEffect(db, delivery);
      WebhookKeepsUnique(db.shop, delivery.at, delivery.content);
    case Service(request) =>
      if Serve(db.shop, request).Fine? { ServiceKeepsUnique(db.shop, request); }
  }

  /** From any shop with distinct provider ids, whatever happens next. */
  lemma {:induction false} RunKeepsUnique(db: Db, actions: seq<Action>)
    requires ProvidersUnique(db.shop)
    ensures ProvidersUnique(Run(db, actions).shop)
  {
    if actions == [] {
    } else {
      var n := |actions| - 1;
      RunKeepsUnique(db, actions[..n]);
      ActionKeepsUnique(Run(db, actions[..n]), actions[n]);
    }
  }

  // ---------------------------------------------------------------- every action

  lemma WebhookLawful(shop: Shop, at: Stamp, c: Content)
    requires Lawful(shop)
    ensures Lawful(After(shop, Process(shop, at, c)))
  {
    WebhookOrders(shop, at, c);
    WebhookKind(shop, at, c);
    MoneyStepPayments(shop, After(shop, Process(shop, at, c)));
    WebhookKeepsUnique(shop, at, c);
  }

  lemma ServiceLawful(shop: Shop, request: Request)
    requires Lawful(shop) && RefundsLinked(shop.refunds, shop.payments) && Serve(shop, request).Fine?
    ensures Lawful(Serve(shop, request).shop)
  {
    ServiceOrders(shop, request);
    ServiceKind(shop, request);
    MoneyStepPayments(shop, Serve(shop, request).shop);
    ServiceKeepsUnique(shop, request);
  }

  lemma ActionLawful(db: Db, action: Action)
    requires Lawful(db.shop) && RefundsLinked(db.shop.refunds, db.shop.payments)
    ensures Lawful(Act(db, action).shop)
  {
    match action
    case Webhook(delivery) =>
      ReceiveEffect(db, delivery);
      WebhookLawful(db.shop, delivery.at, delivery.content);
    case Service(request) =>
      if Serve(db.shop, request).Fine? { ServiceLawful(db.shop, request); }
  }

  /** In every run all orders and payments satisfy their constraints, and no payment intent, checkout
      session or provider id is held twice. */
  lemma {:induction false} ConstraintsAlwaysHold(db: Db, actions: seq<Action>)
    requires Opening(db)
    ensures Lawful(Run(db, actions).shop)
  {
    if actions == [] {
    } else {
      var n := |actions| - 1;
      ConstraintsAlwaysHold(db, actions[..n]);
      TotalsAlwaysAgree(db, actions[..n]);
      ActionLawful(Run(db, actions[..n]), actions[n]);
    }
  }
}
