/** Refund rows, payment totals and order totals always agree. */
module RefundLedger {
  import opened Common
  import opened EventOrder
  import opened Sums
  import opened Commerce
  import opened CommerceRuns
  import opened CommerceFrames

  ghost predicate PaymentsAgree(payments: map<string, Payment>, refunds: map<string, Refund>) {
    forall p :: p in payments ==> payments[p].refunded == Succeeded(refunds, p)
  }

  ghost predicate OrdersAgree(orders: map<string, Order>, payments: map<string, Payment>) {
    forall o :: o in orders ==> orders[o].refunded == OrderRefundedTotal(payments, o)
  }

  ghost predicate RefundsLinked(refunds: map<string, Refund>, payments: map<string, Payment>) {
    forall r :: r in refunds ==> refunds[r].payment in payments
  }

  ghost predicate PaymentsLinked(payments: map<string, Payment>, orders: map<string, Order>) {
    forall p :: p in payments && payments[p].order.Some? ==> payments[p].order.value in orders
  }

  /** A payment's refunded total is the sum of its succeeded refunds, an order's the sum over its payments. */
  ghost predicate Balanced(shop: Shop) {
    && RefundsLinked(shop.refunds, shop.payments)
    && PaymentsLinked(shop.payments, shop.orders)
    && PaymentsAgree(shop.payments, shop.refunds)
    && OrdersAgree(shop.orders, shop.payments)
  }

  // ---------------------------------------------------------------- one table at a time

  lemma PaymentRowOrders(orders: map<string, Order>, payments: map<string, Payment>, intent: string, row: Payment)
    requires OrdersAgree(orders, payments)
    requires if intent in payments then row.order == payments[intent].order && row.refunded == payments[intent].refunded
             else row.refunded == 0
    ensures OrdersAgree(orders, payments[intent := row])
  {
    var next := payments[intent := row];
    forall o | o in orders ensures orders[o].refunded == OrderRefundedTotal(next, o) {
      if intent in payments {
        assert next.Keys == payments.Keys;
        SumAgrees(payments.Keys, RefundedAmount(payments, o), RefundedAmount(next, o));
      } else {
        assert next.Keys == payments.Keys + {intent};
        SumInsert(payments.Keys, RefundedAmount(payments, o), RefundedAmount(next, o), intent);
      }
    }
  }

  lemma PaymentRowRefunds(payments: map<string, Payment>, refunds: map<string, Refund>, intent: string, row: Payment)
    requires PaymentsAgree(payments, refunds) && RefundsLinked(refunds, payments)
    requires row.refunded == if intent in payments then payments[intent].refunded else 0
    ensures PaymentsAgree(payments[intent := row], refunds)
  {
    if intent !in payments {
      SumZero(refunds.Keys, SucceededAmount(refunds, intent));
    }
  }

  /** A refund row that keeps its payment leaves the other payments' sums alone. */
  lemma RefundRowElsewhere(refunds: map<string, Refund>, id: string, row: Refund, q: string)
    requires row.payment != q && (id in refunds ==> refunds[id].payment == row.payment)
    ensures Succeeded(refunds[id := row], q) == Succeeded(refunds, q)
    ensures Reserved(refunds[id := row], q) == Reserved(refunds, q)
  {
    var next := refunds[id := row];
    if id in refunds {
      assert next.Keys == refunds.Keys;
      SumAgrees(refunds.Keys, SucceededAmount(refunds, q), SucceededAmount(next, q));
      SumAgrees(refunds.Keys, ReservedAmount(refunds, q), ReservedAmount(next, q));
    } else {
      assert next.Keys == refunds.Keys + {id};
      SumInsert(refunds.Keys, SucceededAmount(refunds, q), SucceededAmount(next, q), id);
      SumInsert(refunds.Keys, ReservedAmount(refunds, q), ReservedAmount(next, q), id);
    }
  }

  function CountsIf(counted: bool, amount: nat): int { if counted then amount else 0 }

  /** What one refund row changes in its own payment's sums. */
  lemma RefundRowHere(refunds: map<string, Refund>, id: string, row: Refund)
    requires id in refunds ==> refunds[id].payment == row.payment
    ensures Succeeded(refunds[id := row], row.payment) == Succeeded(refunds, row.payment)
      - (if id in refunds then CountsIf(refunds[id].status == RefundSucceeded, refunds[id].amount) else 0)
      + CountsIf(row.status == RefundSucceeded, row.amount)
    ensures Reserved(refunds[id := row], row.payment) == Reserved(refunds, row.payment)
      - (if id in refunds then CountsIf(Reserving(refunds[id].status), refunds[id].amount) else 0)
      + CountsIf(Reserving(row.status), row.amount)
  {
    var next, q := refunds[id := row], row.payment;
    if id in refunds {
      assert next.Keys == refunds.Keys;
      SumChange(refunds.Keys, SucceededAmount(refunds, q), SucceededAmount(next, q), id);
      SumChange(refunds.Keys, ReservedAmount(refunds, q), ReservedAmount(next, q), id);
    } else {
      assert next.Keys == refunds.Keys + {id};
      SumInsert(refunds.Keys, SucceededAmount(refunds, q), SucceededAmount(next, q), id);
      SumInsert(refunds.Keys, ReservedAmount(refunds, q), ReservedAmount(next, q), id);
    }
  }

  lemma SettledRowOrders(payments: map<string, Payment>, intent: string, row: Payment, o: string)
    requires intent in payments && row.order == payments[intent].order && row.order != Some(o)
    ensures OrderRefundedTotal(payments[intent := row], o) == OrderRefundedTotal(payments, o)
  {
    var next := payments[intent := row];
    assert next.Keys == payments.Keys;
    SumAgrees(payments.Keys, RefundedAmount(payments, o), RefundedAmount(next, o));
  }

  // ---------------------------------------------------------------- kinds of change

  /** Orders changed in columns other than the refunded total. */
  ghost predicate SameTotals(a: map<string, Order>, b: map<string, Order>) {
    a.Keys == b.Keys && forall o :: o in a ==> a[o].refunded == b[o].refunded && a[o].total == b[o].total
  }

  ghost predicate SameMoney(a: Shop, b: Shop) {
    a.payments == b.payments && a.refunds == b.refunds && SameTotals(a.orders, b.orders)
  }

  /** One payment row is inserted unrefunded, or updated in its status, amounts and marker. */
  ghost predicate PaymentWrite(a: Shop, b: Shop, intent: string) {
    && b.refunds == a.refunds && SameTotals(a.orders, b.orders)
    && intent in b.payments && b.payments == a.payments[intent := b.payments[intent]]
    && PaymentAllowed(b.payments[intent])
    && if intent in a.payments then
         b.payments[intent].order == a.payments[intent].order
         && b.payments[intent].refunded == a.payments[intent].refunded
       else
         b.payments[intent].refunded == 0
         && (b.payments[intent].order.Some? ==> b.payments[intent].order.value in a.orders)
  }

  /** One refund row is reserved anew, revived after a failure, or changed without succeeding. */
  ghost predicate RefundWrite(a: Shop, b: Shop, id: string) {
    && b.payments == a.payments && b.orders == a.orders
    && id in b.refunds && b.refunds == a.refunds[id := b.refunds[id]]
    && b.refunds[id].payment in a.payments
    && if id in a.refunds then
         && b.refunds[id].payment == a.refunds[id].payment && b.refunds[id].amount == a.refunds[id].amount
         && (a.refunds[id].status == RefundSucceeded <==> b.refunds[id].status == RefundSucceeded)
       else b.refunds[id].status != RefundSucceeded
  }

  /** A provider event gives a refund a new status and the totals are recomputed. */
  ghost predicate RefundSettle(a: Shop, b: Shop, id: string) {
    && id in a.refunds && id in b.refunds
    && b.refunds[id].payment == a.refunds[id].payment && b.refunds[id].amount == a.refunds[id].amount
    && b.refunds == a.refunds[id := b.refunds[id]]
    && Recomputed(a, b, a.refunds[id].payment)
  }

  /** The payment carries its succeeded sum, its order the sum over payments, nothing else changed. */
  ghost predicate Recomputed(a: Shop, b: Shop, intent: string) {
    && intent in a.payments && intent in b.payments
    && b.payments == a.payments[intent := b.payments[intent]]
    && PaymentAllowed(b.payments[intent])
    && b.payments[intent].refunded == Succeeded(b.refunds, intent)
    && b.payments[intent].order == a.payments[intent].order
    && b.payments[intent].captured == a.payments[intent].captured
    && b.orders.Keys == a.orders.Keys
    && forall o :: o in b.orders ==>
         if a.payments[intent].order == Some(o) then b.orders[o].refunded == OrderRefundedTotal(b.payments, o)
         else b.orders[o] == a.orders[o]
  }

  ghost predicate NewOrder(a: Shop, b: Shop, id: string) {
    && id !in a.orders && id in b.orders && b.orders[id].refunded == 0
    && b == a.(orders := a.orders[id := b.orders[id]])
  }

  /** Every action changes money in one of these ways. */
  ghost predicate MoneyStep(a: Shop, b: Shop) {
    || SameMoney(a, b)
    || (exists id :: PaymentWrite(a, b, id))
    || (exists id :: RefundWrite(a, b, id))
    || (exists id :: RefundSettle(a, b, id))
    || (exists id :: NewOrder(a, b, id))
  }

  // ---------------------------------------------------------------- each kind keeps the balance

  lemma PaymentWriteBalanced(a: Shop, b: Shop, intent: string)
    requires Balanced(a) && PaymentWrite(a, b, intent)
    ensures Balanced(b)
  {
    PaymentRowOrders(a.orders, a.payments, intent, b.payments[intent]);
    PaymentRowRefunds(a.payments, a.refunds, intent, b.payments[intent]);
  }

  lemma RefundWritePayments(a: Shop, b: Shop, id: string)
    requires PaymentsAgree(a.payments, a.refunds) && RefundWrite(a, b, id)
    ensures PaymentsAgree(b.payments, b.refunds)
  {
    var row := b.refunds[id];
    forall q | q in b.payments ensures b.payments[q].refunded == Succeeded(b.refunds, q) {
      if q == row.payment { RefundRowHere(a.refunds, id, row); }
      else { RefundRowElsewhere(a.refunds, id, row, q); }
    }
  }

  lemma RefundWriteBalanced(a: Shop, b: Shop, id: string)
    requires Balanced(a) && RefundWrite(a, b, id)
    ensures Balanced(b)
  {
    RefundWritePayments(a, b, id);
  }

  lemma StoreOrderTotals(shop: Shop, id: string, order: Order)
    requires id in shop.orders
    ensures StoreOrder(shop, id, order).Completed? ==>
      var after := StoreOrder(shop, id, order).shop;
      after == shop.(orders := shop.orders[id := order]) && after.orders.Keys == shop.orders.Keys
  {
  }

  /** What recomputation writes: the payment's succeeded sum, and its order's total if it has one. */
  lemma RecomputeShape(shop: Shop, intent: string)
    ensures !Recompute(shop, intent).Rejected?
    ensures Recompute(shop, intent).Completed? ==>
      Recompute(shop, intent).shop.refunds == shop.refunds && Recomputed(shop, Recompute(shop, intent).shop, intent)
  {
    if intent in shop.payments {
      var sum := Succeeded(shop.refunds, intent);
      var payment := shop.payments[intent].(
        refunded := sum, status := PaymentStatusAfter(sum, shop.payments[intent].captured));
      var paid := shop.(payments := shop.payments[intent := payment]);
      if payment.order.Some? && payment.order.value in shop.orders {
        var refunded, order := OrderRefundedTotal(paid.payments, payment.order.value), shop.orders[payment.order.value];
        StoreOrderTotals(paid, payment.order.value,
                         order.(refunded := refunded, status := OrderStatusAfter(refunded, order.total)));
      }
    }
  }

  lemma RefundSettlePayments(a: Shop, b: Shop, id: string)
    requires PaymentsAgree(a.payments, a.refunds) && RefundSettle(a, b, id)
    ensures PaymentsAgree(b.payments, b.refunds)
  {
    forall q | q in b.payments ensures b.payments[q].refunded == Succeeded(b.refunds, q) {
      if q != a.refunds[id].payment { RefundRowElsewhere(a.refunds, id, b.refunds[id], q); }
    }
  }

  lemma RecomputedOrders(a: Shop, b: Shop, intent: string)
    requires OrdersAgree(a.orders, a.payments) && Recomputed(a, b, intent)
    ensures OrdersAgree(b.orders, b.payments)
  {
    forall o | o in b.orders ensures b.orders[o].refunded == OrderRefundedTotal(b.payments, o) {
      if a.payments[intent].order != Some(o) { SettledRowOrders(a.payments, intent, b.payments[intent], o); }
    }
  }

  lemma RefundSettleLinks(a: Shop, b: Shop, id: string)
    requires RefundsLinked(a.refunds, a.payments) && PaymentsLinked(a.payments, a.orders) && RefundSettle(a, b, id)
    ensures RefundsLinked(b.refunds, b.payments) && PaymentsLinked(b.payments, b.orders)
  {
  }

  lemma RefundSettleBalanced(a: Shop, b: Shop, id: string)
    requires Balanced(a) && RefundSettle(a, b, id)
    ensures Balanced(b)
  {
    RefundSettleLinks(a, b, id);
    RefundSettlePayments(a, b, id);
    RecomputedOrders(a, b, a.refunds[id].payment);
  }

  lemma NewOrderBalanced(a: Shop, b: Shop, id: string)
    requires Balanced(a) && NewOrder(a, b, id)
    ensures Balanced(b)
  {
    SumZero(a.payments.Keys, RefundedAmount(a.payments, id));
  }

  lemma MoneyStepBalanced(a: Shop, b: Shop)
    requires Balanced(a) && MoneyStep(a, b)
    ensures Balanced(b)
  {
    if id :| PaymentWrite(a, b, id) { PaymentWriteBalanced(a, b, id); }
    else if id :| RefundWrite(a, b, id) { RefundWriteBalanced(a, b, id); }
    else if id :| RefundSettle(a, b, id) { RefundSettleBalanced(a, b, id); }
    else if id :| NewOrder(a, b, id) { NewOrderBalanced(a, b, id); }
  }

  // ---------------------------------------------------------------- every action is of some kind

  lemma UpsertKind(shop: Shop, order: Option<string>, subscription: Option<string>, intent: string,
                   status: PaymentStatus, authorized: nat, captured: nat, at: Stamp)
    ensures var up := UpsertPayment(shop, order, subscription, intent, status, authorized, captured, at);
      && (up.Stored? ==> PaymentWrite(shop, up.shop, intent) && up.shop.orders == shop.orders)
      && (up.Refused? ==> After(shop, up.effect) == shop)
  {
    var up := UpsertPayment(shop, order, subscription, intent, status, authorized, captured, at);
    if up.Stored? {
      assert intent in up.shop.payments;
      assert up.shop == shop.(payments := shop.payments[intent := up.shop.payments[intent]]);
    }
  }

  /** A payment write stays one when an order's status is written after it. */
  lemma ThenOrderKind(shop: Shop, mid: Shop, intent: string, id: string, order: Order)
    requires PaymentWrite(shop, mid, intent) && id in mid.orders
    requires order.refunded == mid.orders[id].refunded && order.total == mid.orders[id].total
    ensures StoreOrder(mid, id, order).Completed? ==> PaymentWrite(shop, StoreOrder(mid, id, order).shop, intent)
    ensures !StoreOrder(mid, id, order).Rejected?
  {
  }

  lemma PaymentIntentKind(shop: Shop, at: Stamp, intent: string, order: Option<string>, subscription: Option<string>,
                          amount: nat, captured: nat, status: Option<PaymentStatus>)
    ensures var b := After(shop, ApplyPaymentIntent(shop, at, intent, order, subscription, amount, captured, status));
      b == shop || PaymentWrite(shop, b, intent)
  {
    if status.Some? {
      UpsertKind(shop, order, subscription, intent, status.value, amount, captured, at);
      var up := UpsertPayment(shop, order, subscription, intent, status.value, amount, captured, at);
      if up.Stored? && order.Some? && order.value in up.shop.orders {
        ThenOrderKind(shop, up.shop, intent, order.value,
                      up.shop.orders[order.value].(status := OrderStatusFor(status.value), intent := Some(intent)));
      }
    }
  }

  lemma OrderCheckoutKind(shop: Shop, at: Stamp, session: string, order: string, paid: Option<(string, nat)>)
    ensures var b := After(shop, ApplyOrderCheckout(shop, at, session, order, paid));
      SameMoney(shop, b) || (paid.Some? && PaymentWrite(shop, b, paid.value.0))
  {
    if paid.Some? && order in shop.orders {
      var (intent, amount) := paid.value;
      UpsertKind(shop, Some(order), None, intent, Captured, amount, amount, at);
      var up := UpsertPayment(shop, Some(order), None, intent, Captured, amount, amount, at);
      if up.Stored? {
        ThenOrderKind(shop, up.shop, intent, order,
                      up.shop.orders[order].(status := OrderPaid, intent := Some(intent)));
      }
    }
  }

  lemma InvoiceKind(shop: Shop, at: Stamp, local: Option<string>, provider: Option<string>,
                    intent: Option<string>, amount: nat, captured: nat, status: PaymentStatus)
    ensures var b := After(shop, ApplyInvoice(shop, at, local, provider, intent, amount, captured, status));
      b == shop || (intent.Some? && PaymentWrite(shop, b, intent.value))
  {
    if intent.Some? {
      UpsertKind(shop, None, InvoiceTarget(shop, local, provider), intent.value, status, amount, captured, at);
    }
  }

  lemma RefundEventKind(shop: Shop, at: Stamp, local: Option<string>, provider: string, status: Option<RefundStatus>)
    ensures var b := After(shop, ApplyRefund(shop, at, local, provider, status));
      || b == shop
      || (RefundNamed(shop, local, provider).Some? && status.Some?
          && RefundSettle(shop, b, RefundNamed(shop, local, provider).value)
          && b.refunds[RefundNamed(shop, local, provider).value].status == status.value)
  {
    var found := RefundNamed(shop, local, provider);
    if found.Some? && status.Some? {
      var row := Rewritten(shop.refunds[found.value], at, provider, status.value);
      RecomputeShape(shop.(refunds := shop.refunds[found.value := row]), row.payment);
    }
  }

  lemma SubscriptionEventKind(shop: Shop, at: Stamp, local: Option<string>, provider: string,
                              status: Option<SubscriptionStatus>, start: Option<int>, end: Option<int>, cancel: bool)
    ensures SameMoney(shop, After(shop, ApplySubscription(shop, at, local, provider, status, start, end, cancel)))
  {
    SubscriptionFrame(shop, at, local, provider, status, start, end, cancel);
  }

  lemma ExpiryKind(shop: Shop, session: string)
    ensures SameMoney(shop, After(shop, ApplyCheckoutExpired(shop, session)))
  {
    var orders := map id | id in shop.orders :: ExpireOrder(shop.orders[id], session);
    assert SameTotals(shop.orders, orders);
  }

  lemma WebhookKind(shop: Shop, at: Stamp, c: Content)
    ensures MoneyStep(shop, After(shop, Process(shop, at, c)))
  {
    assert SameMoney(shop, shop);
    match c
    case OrderCheckout(session, order, paid) => OrderCheckoutKind(shop, at, session, order, paid);
    case PaymentIntent(intent, order, subscription, amount, captured, status) =>
      PaymentIntentKind(shop, at, intent, order, subscription, amount, captured, status);
    case InvoiceEvent(local, provider, intent, amount, captured, status) =>
      InvoiceKind(shop, at, local, provider, intent, amount, captured, status);
    case RefundEvent(local, provider, status) => RefundEventKind(shop, at, local, provider, status);
    case SubscriptionEvent(local, provider, status, start, end, cancel) =>
      SubscriptionEventKind(shop, at, local, provider, status, start, end, cancel);
    case SubscriptionCheckout(session, id, provider) => CheckoutFrame(shop, session, id, provider);
    case CheckoutExpired(session) => ExpiryKind(shop, session);
    case Malformed(_) =>
    case Unrelated =>
    case NoObject =>
  }

  lemma ReserveKind(shop: Shop, id: string, payment: string, amount: Option<nat>, reason: Option<string>)
    requires ReserveRefund(shop, id, payment, amount, reason).Fine?
    ensures RefundWrite(shop, ReserveRefund(shop, id, payment, amount, reason).shop, id)
  {
  }

  lemma RefundCallKind(shop: Shop, id: string, provider: string)
    requires RefundsLinked(shop.refunds, shop.payments)
    ensures RefundAccepted(shop, id, provider).Fine? ==>
      var b := RefundAccepted(shop, id, provider).shop; b == shop || RefundWrite(shop, b, id)
    ensures RefundTurnedDown(shop, id).Fine? ==>
      var b := RefundTurnedDown(shop, id).shop; b == shop || RefundWrite(shop, b, id)
  {
  }

  lemma PlaceOrderKind(shop: Shop, id: string, total: nat)
    ensures PlaceOrder(shop, id, total).Fine? ==>
      var b := PlaceOrder(shop, id, total).shop; SameMoney(shop, b) || NewOrder(shop, b, id)
  {
  }

  lemma OrderSessionKind(shop: Shop, id: string, session: string)
    ensures OpenOrderCheckout(shop, id, session).Fine? ==> SameMoney(shop, OpenOrderCheckout(shop, id, session).shop)
  {
  }

  lemma OrderFailedKind(shop: Shop, id: string)
    ensures OrderCheckoutFailed(shop, id).Fine? ==> SameMoney(shop, OrderCheckoutFailed(shop, id).shop)
  {
  }

  lemma FulfillKind(shop: Shop, id: string, next: Fulfillment)
    ensures UpdateFulfillment(shop, id, next).Fine? ==> SameMoney(shop, UpdateFulfillment(shop, id, next).shop)
  {
  }

  lemma CancelKind(shop: Shop, id: string, atPeriodEnd: bool)
    ensures CancelSubscription(shop, id, atPeriodEnd).Fine? ==>
      SameMoney(shop, CancelSubscription(shop, id, atPeriodEnd).shop)
  {
  }

  lemma SubscribeKind(shop: Shop, id: string, subject: string, price: string, session: string)
    ensures PlaceSubscription(shop, id, subject, price).Fine? ==>
      SameMoney(shop, PlaceSubscription(shop, id, subject, price).shop)
    ensures OpenSubscriptionCheckout(shop, id, session).Fine? ==>
      SameMoney(shop, OpenSubscriptionCheckout(shop, id, session).shop)
  {
  }

  lemma ServiceKind(shop: Shop, request: Request)
    requires Serve(shop, request).Fine? && RefundsLinked(shop.refunds, shop.payments)
    ensures MoneyStep(shop, Serve(shop, request).shop)
  {
    assert SameMoney(shop, shop);
    match request
    case Reserve(id, payment, amount, reason) => ReserveKind(shop, id, payment, amount, reason);
    case Accepted(id, provider) => RefundCallKind(shop, id, provider);
    case TurnedDown(id) => RefundCallKind(shop, id, "");
    case Order(id, total) => PlaceOrderKind(shop, id, total);
    case OrderSession(id, session) => OrderSessionKind(shop, id, session);
    case OrderFailed(id) => OrderFailedKind(shop, id);
    case Fulfill(id, next) => FulfillKind(shop, id, next);
    case Cancel(id, atPeriodEnd) => CancelKind(shop, id, atPeriodEnd);
    case Subscribe(id, subject, price) => SubscribeKind(shop, id, subject, price, "");
    case SubscriptionSession(id, session) => SubscribeKind(shop, id, "", "", session);
    case AddPrice(_, _) => assert SameMoney(shop, Serve(shop, request).shop);
  }

  lemma ActionBalanced(db: Db, action: Action)
    requires Balanced(db.shop)
    ensures Balanced(Act(db, action).shop)
  {
    match action
    case Webhook(delivery) =>
      ReceiveEffect(db, delivery);
      WebhookKind(db.shop, delivery.at, delivery.content);
      MoneyStepBalanced(db.shop, After(db.shop, Process(db.shop, delivery.at, delivery.content)));
    case Service(request) =>
      if Serve(db.shop, request).Fine? {
        ServiceKind(db.shop, request);
        MoneyStepBalanced(db.shop, Serve(db.shop, request).shop);
      }
  }

  /** In every run, a payment's refunded total is the sum of its succeeded refunds and an order's is
      the sum over its payments. */
  lemma {:induction false} TotalsAlwaysAgree(db: Db, actions: seq<Action>)
    requires Opening(db)
    ensures Balanced(Run(db, actions).shop)
  {
    if actions == [] {
    } else {
      var n := |actions| - 1;
      TotalsAlwaysAgree(db, actions[..n]);
      ActionBalanced(Run(db, actions[..n]), actions[n]);
    }
  }
}
