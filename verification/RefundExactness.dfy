/** Exactly which events break which property of the refund ledger, told from the rows and the event. */
module RefundExactness {
  import opened Common
  import opened EventOrder
  import opened Sums
  import opened Commerce
  import opened CommerceRuns
  import opened CommerceFrames
  import opened RefundLedger
  import opened RefundReservations
  import opened CommerceConstraints
  import Losses = PaymentExactness

  // ---------------------------------------------------------------- captured amounts and reservations

  /** The event updates a payment this project already holds. */
  predicate Supersedes(shop: Shop, intent: string, at: Stamp) {
    intent !in shop.foreign && intent in shop.payments && Before(shop.payments[intent].marker, at)
  }

  /** An upsert that is not refused writes the announced captured amount, or nothing. */
  lemma UpsertCaptured(shop: Shop, order: Option<string>, subscription: Option<string>, intent: string,
                       status: PaymentStatus, authorized: nat, captured: nat, at: Stamp)
    ensures var up := UpsertPayment(shop, order, subscription, intent, status, authorized, captured, at);
      && (up.Stored? ==> intent in up.shop.payments && up.shop.payments[intent].captured == captured)
      && (up.Stored? && intent in shop.payments ==> Supersedes(shop, intent, at))
      && (up.Ignored? ==> !Supersedes(shop, intent, at))
  {
  }

  /** A payment write keeps reservations covered exactly if the captured amount it leaves covers them. */
  lemma WriteKeepsCovered(a: Shop, b: Shop, intent: string, at: Stamp, captured: nat)
    requires Balanced(a) && Within(a) && PaymentWrite(a, b, intent) && b.payments[intent].captured == captured
    requires intent in a.payments ==> Supersedes(a, intent, at)
    ensures Within(b) <==> !Supersedes(a, intent, at) || Reserved(a.refunds, intent) <= captured
  {
    PaymentEventExact(a, b, intent);
  }

  /** A completed payment event keeps reservations covered exactly if it updates no row of the project or
      its own captured amount covers them. */
  lemma CompletedPaymentCovered(shop: Shop, at: Stamp, intent: string, order: Option<string>,
                                subscription: Option<string>, amount: nat, captured: nat,
                                status: Option<PaymentStatus>)
    requires Balanced(shop) && Within(shop)
    requires ApplyPaymentIntent(shop, at, intent, order, subscription, amount, captured, status).Completed?
    ensures Within(ApplyPaymentIntent(shop, at, intent, order, subscription, amount, captured, status).shop)
        <==> || order.None? == subscription.None? || !Supersedes(shop, intent, at)
             || Reserved(shop.refunds, intent) <= captured
  {
    if order.None? != subscription.None? {
      var b := ApplyPaymentIntent(shop, at, intent, order, subscription, amount, captured, status).shop;
      PaymentIntentWrites(shop, at, intent, order, subscription, amount, captured, status);
      if b != shop { WriteKeepsCovered(shop, b, intent, at, captured); }
    }
  }

  /** What the event leaves in the payment row, if it is about one. */
  ghost predicate Leaves(a: Shop, b: Shop, intent: string, at: Stamp, captured: nat) {
    if b == a then intent in a.payments ==> !Supersedes(a, intent, at) || a.payments[intent].captured == captured
    else PaymentWrite(a, b, intent) && b.payments[intent].captured == captured
         && (intent in a.payments ==> Supersedes(a, intent, at))
  }

  lemma PaymentIntentPayments(shop: Shop, at: Stamp, intent: string, order: Option<string>,
                              subscription: Option<string>, amount: nat, captured: nat, status: Option<PaymentStatus>)
    requires ApplyPaymentIntent(shop, at, intent, order, subscription, amount, captured, status).Completed?
    requires order.None? != subscription.None?
    ensures status.Some?
    ensures var up := UpsertPayment(shop, order, subscription, intent, status.value, amount, captured, at);
      var b := ApplyPaymentIntent(shop, at, intent, order, subscription, amount, captured, status).shop;
      && !up.Refused? && (up.Ignored? ==> b == shop) && (up.Stored? ==> b.payments == up.shop.payments)
  {
  }

  lemma PaymentIntentWrites(shop: Shop, at: Stamp, intent: string, order: Option<string>,
                            subscription: Option<string>, amount: nat, captured: nat, status: Option<PaymentStatus>)
    requires ApplyPaymentIntent(shop, at, intent, order, subscription, amount, captured, status).Completed?
    requires order.None? != subscription.None?
    ensures Leaves(shop, ApplyPaymentIntent(shop, at, intent, order, subscription, amount, captured, status).shop,
                   intent, at, captured)
  {
    PaymentIntentKind(shop, at, intent, order, subscription, amount, captured, status);
    PaymentIntentPayments(shop, at, intent, order, subscription, amount, captured, status);
    UpsertCaptured(shop, order, subscription, intent, status.value, amount, captured, at);
  }

  lemma CheckoutWrites(shop: Shop, at: Stamp, session: string, order: string, intent: string, amount: nat)
    requires ApplyOrderCheckout(shop, at, session, order, Some((intent, amount))).Completed?
    ensures Leaves(shop, ApplyOrderCheckout(shop, at, session, order, Some((intent, amount))).shop, intent, at, amount)
  {
    UpsertKind(shop, Some(order), None, intent, Captured, amount, amount, at);
    UpsertCaptured(shop, Some(order), None, intent, Captured, amount, amount, at);
    var up := UpsertPayment(shop, Some(order), None, intent, Captured, amount, amount, at);
    if up.Stored? {
      var row := up.shop.orders[order].(status := OrderPaid, intent := Some(intent));
      StoreOrderFrame(up.shop, order, row);
      ThenOrderKind(shop, up.shop, intent, order, row);
    }
  }

  /** The same for a paid checkout, which captures its whole amount; an unpaid one never matters. */
  lemma CompletedCheckoutCovered(shop: Shop, at: Stamp, session: string, order: string, paid: Option<(string, nat)>)
    requires Balanced(shop) && Within(shop) && ApplyOrderCheckout(shop, at, session, order, paid).Completed?
    ensures Within(ApplyOrderCheckout(shop, at, session, order, paid).shop)
        <==> || paid.None? || !Supersedes(shop, paid.value.0, at)
             || Reserved(shop.refunds, paid.value.0) <= paid.value.1
  {
    var b := ApplyOrderCheckout(shop, at, session, order, paid).shop;
    if paid.None? {
      OrderCheckoutKind(shop, at, session, order, paid);
    } else {
      CheckoutWrites(shop, at, session, order, paid.value.0, paid.value.1);
      if b != shop { WriteKeepsCovered(shop, b, paid.value.0, at, paid.value.1); }
    }
  }

  lemma InvoiceWrites(shop: Shop, at: Stamp, local: Option<string>, provider: Option<string>,
                      intent: string, amount: nat, captured: nat, status: PaymentStatus)
    requires ApplyInvoice(shop, at, local, provider, Some(intent), amount, captured, status).Completed?
    requires InvoiceTarget(shop, local, provider).Some?
    ensures Leaves(shop, ApplyInvoice(shop, at, local, provider, Some(intent), amount, captured, status).shop,
                   intent, at, captured)
  {
    var target := InvoiceTarget(shop, local, provider);
    UpsertKind(shop, None, target, intent, status, amount, captured, at);
    UpsertCaptured(shop, None, target, intent, status, amount, captured, at);
  }

  /** The same for an invoice of a known subscription. */
  lemma CompletedInvoiceCovered(shop: Shop, at: Stamp, local: Option<string>, provider: Option<string>,
                                intent: Option<string>, amount: nat, captured: nat, status: PaymentStatus)
    requires Balanced(shop) && Within(shop)
    requires ApplyInvoice(shop, at, local, provider, intent, amount, captured, status).Completed?
    ensures Within(ApplyInvoice(shop, at, local, provider, intent, amount, captured, status).shop)
        <==> || InvoiceTarget(shop, local, provider).None? || intent.None? || !Supersedes(shop, intent.value, at)
             || Reserved(shop.refunds, intent.value) <= captured
  {
    if InvoiceTarget(shop, local, provider).Some? && intent.Some? {
      var b := ApplyInvoice(shop, at, local, provider, intent, amount, captured, status).shop;
      InvoiceWrites(shop, at, local, provider, intent.value, amount, captured, status);
      if b != shop { WriteKeepsCovered(shop, b, intent.value, at, captured); }
    }
  }

  /** A completed refund event keeps reservations covered exactly if it does not land, revives nothing, or
      the revived amount still fits. */
  lemma CompletedRefundCovered(shop: Shop, at: Stamp, local: Option<string>, provider: string,
                               status: Option<RefundStatus>)
    requires Balanced(shop) && Within(shop) && ApplyRefund(shop, at, local, provider, status).Completed?
    ensures Within(ApplyRefund(shop, at, local, provider, status).shop)
        <==> || !Lands(shop, at, local, provider)
             || var row := shop.refunds[RefundNamed(shop, local, provider).value];
                || Reserving(row.status) || (status.Some? && !Reserving(status.value))
                || Reserved(shop.refunds, row.payment) + row.amount <= shop.payments[row.payment].captured
  {
    RefundEventKind(shop, at, local, provider, status);
    var b := ApplyRefund(shop, at, local, provider, status).shop;
    if Lands(shop, at, local, provider) {
      var id := RefundNamed(shop, local, provider).value;
      RefundLandsWrites(shop, at, local, provider, status);
      RefundEventExact(shop, b, id);
    }
  }

  lemma RefundLandsWrites(shop: Shop, at: Stamp, local: Option<string>, provider: string, status: Option<RefundStatus>)
    requires Lands(shop, at, local, provider) && ApplyRefund(shop, at, local, provider, status).Completed?
    ensures status.Some?
    ensures var id, b := RefundNamed(shop, local, provider).value, ApplyRefund(shop, at, local, provider, status).shop;
      && RefundSettle(shop, b, id) && b.refunds[id].status == status.value
  {
    var id := RefundNamed(shop, local, provider).value;
    var row := Rewritten(shop.refunds[id], at, provider, status.value);
    RecomputeShape(shop.(refunds := shop.refunds[id := row]), row.payment);
  }

  // ---------------------------------------------------------------- the same, whatever becomes of the event

  /** A payment event, completed, rejected or lost, keeps reservations covered exactly unless it updates the
      payment, is not refused, and captures less than is reserved. */
  lemma PaymentIntentKeepsCovered(shop: Shop, at: Stamp, n: Losses.Notice)
    requires Balanced(shop) && Within(shop) && Lawful(shop)
    ensures Within(After(shop, Losses.Apply(shop, at, n)))
        <==> || !Losses.Reaches(shop, at, n) || n.intent !in shop.payments || Losses.Refused(shop, at, n)
             || Reserved(shop.refunds, n.intent) <= n.captured
  {
    Losses.PaymentLostExactly(shop, at, n);
    PaymentIntentFrame(shop, at, n.intent, n.order, n.subscription, n.amount, n.captured, n.status);
    if Losses.Apply(shop, at, n).Completed? {
      CompletedPaymentCovered(shop, at, n.intent, n.order, n.subscription, n.amount, n.captured, n.status);
    }
    IdlePayment(shop, at, n);
  }

  /** An event that completes and does not reach the payment leaves everything as it is; one that is
      rejected does not reach it. */
  lemma IdlePayment(shop: Shop, at: Stamp, n: Losses.Notice)
    ensures Losses.Apply(shop, at, n).Completed? && !Losses.Reaches(shop, at, n) ==>
      Losses.Apply(shop, at, n).shop == shop
    ensures Losses.Apply(shop, at, n).Rejected? ==> !Losses.Reaches(shop, at, n)
  {
  }

  /** The same for a checkout, which captures its whole amount; an unpaid one never matters. */
  lemma CheckoutKeepsCovered(shop: Shop, at: Stamp, session: string, order: string, paid: Option<(string, nat)>)
    requires Balanced(shop) && Within(shop) && Lawful(shop)
    ensures Within(After(shop, ApplyOrderCheckout(shop, at, session, order, paid)))
        <==> || paid.None?
             || !Losses.CheckoutReaches(shop, at, session, order, paid.value.0, paid.value.1)
             || paid.value.0 !in shop.payments
             || Losses.CheckoutRefused(shop, at, session, order, paid.value.0, paid.value.1)
             || Reserved(shop.refunds, paid.value.0) <= paid.value.1
  {
    OrderCheckoutFrame(shop, at, session, order, paid);
    if ApplyOrderCheckout(shop, at, session, order, paid).Completed? {
      CompletedCheckoutCovered(shop, at, session, order, paid);
    }
    if paid.Some? {
      Losses.PaidCheckoutLostExactly(shop, at, session, order, paid.value.0, paid.value.1);
      IdleCheckout(shop, at, session, order, paid.value.0, paid.value.1);
    } else {
      Losses.UnpaidCheckoutNeverLost(shop, at, session, order);
    }
  }

  lemma IdleCheckout(shop: Shop, at: Stamp, session: string, order: string, intent: string, amount: nat)
    ensures var effect := ApplyOrderCheckout(shop, at, session, order, Some((intent, amount)));
      && (effect.Completed? && !Losses.CheckoutReaches(shop, at, session, order, intent, amount) ==>
            effect.shop == shop)
      && (effect.Rejected? ==> !Losses.CheckoutReaches(shop, at, session, order, intent, amount))
  {
  }

  /** The same for an invoice. */
  lemma InvoiceKeepsCovered(shop: Shop, at: Stamp, local: Option<string>, provider: Option<string>,
                            intent: Option<string>, amount: nat, captured: nat, status: PaymentStatus)
    requires Balanced(shop) && Within(shop) && Lawful(shop)
    ensures Within(After(shop, ApplyInvoice(shop, at, local, provider, intent, amount, captured, status)))
        <==> || intent.None? || !Losses.InvoiceReaches(shop, at, local, provider, intent.value, amount, captured)
             || intent.value !in shop.payments || captured < shop.payments[intent.value].refunded
             || Reserved(shop.refunds, intent.value) <= captured
  {
    InvoiceFrame(shop, at, local, provider, intent, amount, captured, status);
    if ApplyInvoice(shop, at, local, provider, intent, amount, captured, status).Completed? {
      CompletedInvoiceCovered(shop, at, local, provider, intent, amount, captured, status);
    }
    if intent.Some? {
      Losses.InvoiceLostExactly(shop, at, local, provider, intent.value, amount, captured, status);
      IdleInvoice(shop, at, local, provider, intent.value, amount, captured, status);
    }
  }

  lemma IdleInvoice(shop: Shop, at: Stamp, local: Option<string>, provider: Option<string>, intent: string,
                    amount: nat, captured: nat, status: PaymentStatus)
    ensures var effect := ApplyInvoice(shop, at, local, provider, Some(intent), amount, captured, status);
      && (effect.Completed? && !Losses.InvoiceReaches(shop, at, local, provider, intent, amount, captured) ==>
            effect.shop == shop)
      && (effect.Rejected? ==> !Losses.InvoiceReaches(shop, at, local, provider, intent, amount, captured))
  {
  }

  /** A refund event, completed, rejected or lost, keeps reservations covered exactly if it does not land,
      is refused, revives nothing, or the revived amount still fits. */
  lemma RefundKeepsCovered(shop: Shop, at: Stamp, local: Option<string>, provider: string, status: Option<RefundStatus>)
    requires Balanced(shop) && Within(shop) && Lawful(shop)
    ensures Within(After(shop, ApplyRefund(shop, at, local, provider, status)))
        <==> || !Lands(shop, at, local, provider) || status.None? || Refused(shop, at, local, provider, status)
             || var row := shop.refunds[RefundNamed(shop, local, provider).value];
                || Reserving(row.status) || !Reserving(status.value)
                || Reserved(shop.refunds, row.payment) + row.amount <= shop.payments[row.payment].captured
  {
    RefundLostExactly(shop, at, local, provider, status);
    RefundShape(shop, at, local, provider, status);
    RefundFrame(shop, at, local, provider, status);
    if Lands(shop, at, local, provider) && status.Some? {
      var id := RefundNamed(shop, local, provider).value;
      var row := Rewritten(shop.refunds[id], at, provider, status.value);
      RecomputeFrame(shop.(refunds := shop.refunds[id := row]), row.payment);
    }
    if ApplyRefund(shop, at, local, provider, status).Completed? {
      CompletedRefundCovered(shop, at, local, provider, status);
    }
  }

  /** 60 of 100 captured are about to be refunded when an event reports only 50 captured: the event is
      stored and the next refund request runs into the failing subtraction. */
  lemma LoweredCaptureOverdraws(shop: Shop, at: Stamp)
    requires HundredCaptured(shop) && shop.payments["pi_1"].refunded == 0 && Before(shop.payments["pi_1"].marker, at)
    requires "pi_1" !in shop.foreign && shop.refunds == map["r1" := Half(RefundPending)]
    ensures var effect := ApplyPaymentIntent(shop, at, "pi_1", None, Some("s"), 100, 50, Some(Captured));
      && effect.Completed? && effect.shop.payments["pi_1"].captured == 50
      && Reserved(effect.shop.refunds, "pi_1") == 60
      && ReserveRefund(effect.shop, "r2", "pi_1", None, None) == Fault(Unavailable)
  {
    SumTake({"r1"}, ReservedAmount(shop.refunds, "pi_1"), "r1");
    assert {"r1"} - {"r1"} == {};
    assert shop.refunds.Keys == {"r1"};
  }

  // ---------------------------------------------------------------- refund events that the database refuses

  /** What a refund's new status adds to the refunded totals. */
  function Change(row: Refund, status: RefundStatus): int {
    CountsIf(status == RefundSucceeded, row.amount) - CountsIf(row.status == RefundSucceeded, row.amount)
  }

  /** The order cannot carry this refunded total: it exceeds the order, or the order is fulfilled and would
      be refunded entirely. */
  predicate OrderRefuses(order: Order, refunded: int) {
    order.total < refunded || (order.fulfillment == Fulfilled && 0 < refunded && order.total <= refunded)
  }

  /** The changed totals do not fit the payment or its order. */
  predicate Overflows(payment: Payment, orders: map<string, Order>, change: int) {
    || payment.captured < payment.refunded + change
    || (payment.order.Some? && payment.order.value in orders
        && OrderRefuses(orders[payment.order.value], orders[payment.order.value].refunded + change))
  }

  ghost predicate TotalsRefused(shop: Shop, id: string, status: RefundStatus)
    requires id in shop.refunds && RefundsLinked(shop.refunds, shop.payments)
  {
    Overflows(shop.payments[shop.refunds[id].payment], shop.orders, Change(shop.refunds[id], status))
  }

  lemma SucceededNotNegative(refunds: map<string, Refund>, payment: string)
    ensures 0 <= Succeeded(refunds, payment)
  {
    var zero: string -> int := _ => 0;
    SumZero(refunds.Keys, zero);
    SumAtMost(refunds.Keys, zero, SucceededAmount(refunds, payment));
  }

  lemma RefundedNotNegative(payments: map<string, Payment>, order: string)
    requires forall p :: p in payments ==> 0 <= payments[p].refunded
    ensures 0 <= OrderRefundedTotal(payments, order)
  {
    var zero: string -> int := _ => 0;
    SumZero(payments.Keys, zero);
    SumAtMost(payments.Keys, zero, RefundedAmount(payments, order));
  }

  lemma PaymentRowTotal(payments: map<string, Payment>, intent: string, row: Payment, order: string)
    requires intent in payments && row.order == payments[intent].order == Some(order)
    ensures OrderRefundedTotal(payments[intent := row], order)
         == OrderRefundedTotal(payments, order) - payments[intent].refunded + row.refunded
  {
    var next := payments[intent := row];
    assert next.Keys == payments.Keys;
    SumChange(payments.Keys, RefundedAmount(payments, order), RefundedAmount(next, order), intent);
  }

  /** The tables while a refund event is being settled: the refund row is written, the totals are not. */
  ghost predicate Unsettled(shop: Shop, intent: string, change: int) {
    && OrdersLawful(shop.orders) && PaymentsLawful(shop.payments)
    && PaymentsLinked(shop.payments, shop.orders) && OrdersAgree(shop.orders, shop.payments)
    && intent in shop.payments
    && Succeeded(shop.refunds, intent) == shop.payments[intent].refunded + change
  }

  /** The payment row that settling asks for. */
  ghost function SettledPayment(shop: Shop, intent: string): Payment requires intent in shop.payments {
    var sum := Succeeded(shop.refunds, intent);
    shop.payments[intent].(refunded := sum, status := PaymentStatusAfter(sum, shop.payments[intent].captured))
  }

  /** The order row that settling asks for. */
  ghost function SettledOrder(shop: Shop, intent: string, o: string): Order
    requires intent in shop.payments && o in shop.orders
  {
    var refunded := OrderRefundedTotal(shop.payments[intent := SettledPayment(shop, intent)], o);
    shop.orders[o].(refunded := refunded, status := OrderStatusAfter(refunded, shop.orders[o].total))
  }

  lemma RecomputeSteps(shop: Shop, intent: string)
    requires intent in shop.payments && PaymentsLinked(shop.payments, shop.orders)
    ensures var payment := SettledPayment(shop, intent);
      Recompute(shop, intent).Aborted? <==>
        || !PaymentAllowed(payment)
        || (payment.order.Some?
            && StoreOrder(shop.(payments := shop.payments[intent := payment]), payment.order.value,
                          SettledOrder(shop, intent, payment.order.value)).Aborted?)
  {
  }

  lemma SettledPaymentFits(shop: Shop, intent: string, change: int)
    requires Unsettled(shop, intent, change)
    ensures PaymentAllowed(SettledPayment(shop, intent))
        <==> shop.payments[intent].refunded + change <= shop.payments[intent].captured
  {
    assert PaymentAllowed(shop.payments[intent]);
    SucceededNotNegative(shop.refunds, intent);
  }

  lemma SettledNotNegative(payments: map<string, Payment>, intent: string, row: Payment, o: string)
    requires PaymentsLawful(payments) && 0 <= row.refunded
    ensures 0 <= OrderRefundedTotal(payments[intent := row], o)
  {
    var next := payments[intent := row];
    forall p | p in next ensures 0 <= next[p].refunded { assert p == intent || PaymentAllowed(payments[p]); }
    RefundedNotNegative(next, o);
  }

  lemma SettledOrderTotal(shop: Shop, intent: string, change: int)
    requires Unsettled(shop, intent, change) && shop.payments[intent].order.Some?
    ensures var o := shop.payments[intent].order.value;
      o in shop.orders && 0 <= SettledOrder(shop, intent, o).refunded == shop.orders[o].refunded + change
  {
    var o, payment := shop.payments[intent].order.value, SettledPayment(shop, intent);
    SucceededNotNegative(shop.refunds, intent);
    SettledNotNegative(shop.payments, intent, payment, o);
    PaymentRowTotal(shop.payments, intent, payment, o);
    assert shop.orders[o].refunded == OrderRefundedTotal(shop.payments, o);
  }

  /** Settling fails exactly if the new totals do not fit. */
  lemma RecomputeFailsExactly(shop: Shop, intent: string, change: int)
    requires Unsettled(shop, intent, change)
    ensures Recompute(shop, intent).Aborted? <==> Overflows(shop.payments[intent], shop.orders, change)
  {
    RecomputeSteps(shop, intent);
    SettledPaymentFits(shop, intent, change);
    if shop.payments[intent].order.Some? {
      var o := shop.payments[intent].order.value;
      SettledOrderTotal(shop, intent, change);
      SettledOrderFits(shop.(payments := shop.payments[intent := SettledPayment(shop, intent)]), o,
                       SettledOrder(shop, intent, o).refunded);
    }
  }

  lemma SettledOrderFits(shop: Shop, o: string, refunded: int)
    requires OrdersLawful(shop.orders) && o in shop.orders && 0 <= refunded
    ensures var order := shop.orders[o];
      StoreOrder(shop, o, order.(refunded := refunded, status := OrderStatusAfter(refunded, order.total))).Aborted?
      <==> OrderRefuses(order, refunded)
  {
    var order := shop.orders[o];
    assert OrderUnique(shop.orders, o, order);
    assert OrderUnique(shop.orders, o, order.(refunded := refunded, status := OrderStatusAfter(refunded, order.total)));
  }

  lemma RefundRowUnsettles(shop: Shop, id: string, row: Refund)
    requires Balanced(shop) && Lawful(shop) && id in shop.refunds
    requires row.payment == shop.refunds[id].payment && row.amount == shop.refunds[id].amount
    ensures Unsettled(shop.(refunds := shop.refunds[id := row]), row.payment, Change(shop.refunds[id], row.status))
  {
    RefundRowHere(shop.refunds, id, row);
  }

  lemma RewrittenFailsExactly(shop: Shop, id: string, row: Refund)
    requires Balanced(shop) && Lawful(shop) && id in shop.refunds
    requires row.payment == shop.refunds[id].payment && row.amount == shop.refunds[id].amount
    ensures Recompute(shop.(refunds := shop.refunds[id := row]), row.payment).Aborted?
        <==> TotalsRefused(shop, id, row.status)
  {
    var written := shop.(refunds := shop.refunds[id := row]);
    RefundRowUnsettles(shop, id, row);
    RecomputeFailsExactly(written, row.payment, Change(shop.refunds[id], row.status));
    assert written.payments == shop.payments && written.orders == shop.orders;
  }

  /** Why the database refuses a refund event: its provider id belongs to another row, or the totals it
      asks for do not fit. */
  ghost predicate Refused(shop: Shop, at: Stamp, local: Option<string>, provider: string, status: Option<RefundStatus>)
    requires RefundsLinked(shop.refunds, shop.payments)
  {
    && Lands(shop, at, local, provider) && status.Some?
    && var id := RefundNamed(shop, local, provider).value;
    && (!RefundUnique(shop.refunds, id, provider) || TotalsRefused(shop, id, status.value))
  }

  /** In every lawful state with agreeing totals, a refund event is refused by the database, and its whole
      transaction lost, exactly if it lands and its provider id is taken or the totals do not fit. */
  lemma RefundLostExactly(shop: Shop, at: Stamp, local: Option<string>, provider: string, status: Option<RefundStatus>)
    requires Balanced(shop) && Lawful(shop)
    ensures ApplyRefund(shop, at, local, provider, status).Aborted? <==> Refused(shop, at, local, provider, status)
  {
    RefundShape(shop, at, local, provider, status);
    if Lands(shop, at, local, provider) && status.Some? {
      var id := RefundNamed(shop, local, provider).value;
      RewrittenFailsExactly(shop, id, Rewritten(shop.refunds[id], at, provider, status.value));
    }
  }

  /** What a refused statement, and nothing else, does to a refund delivery the ledger lets through. */
  lemma LostDelivery(db: Db, delivery: Delivery)
    requires delivery.content.RefundEvent?
    requires delivery.at.id in db.ledger ==>
      db.ledger[delivery.at.id].payload == delivery.payload && !db.ledger[delivery.at.id].processed
    ensures var c := delivery.content;
      Receive(db, delivery) == (db, Declined(Unavailable))
      <==> ApplyRefund(db.shop, delivery.at, c.refund, c.refundProvider, c.refundStatus).Aborted?
  {
    var c := delivery.content;
    var effect := ApplyRefund(db.shop, delivery.at, c.refund, c.refundProvider, c.refundStatus);
    assert effect.Rejected? ==> effect.error == InvalidRequest by {
      RefundShape(db.shop, delivery.at, c.refund, c.refundProvider, c.refundStatus);
      if Lands(db.shop, delivery.at, c.refund, c.refundProvider) && c.refundStatus.Some? {
        var row := db.shop.refunds[RefundNamed(db.shop, c.refund, c.refundProvider).value];
        RecomputeFrame(db.shop.(refunds := db.shop.refunds[RefundNamed(db.shop, c.refund, c.refundProvider).value :=
          Rewritten(row, delivery.at, c.refundProvider, c.refundStatus.value)]), row.payment);
      }
    }
  }

  /** After every run, a refund delivery that is not a duplicate is lost without a trace exactly if the
      database refuses it; every redelivery is judged afresh, by the totals of its own moment. */
  lemma RefundDeliveryLostExactly(db: Db, actions: seq<Action>, delivery: Delivery)
    requires Opening(db) && delivery.content.RefundEvent?
    requires var ledger := Run(db, actions).ledger;
      delivery.at.id in ledger ==>
        ledger[delivery.at.id].payload == delivery.payload && !ledger[delivery.at.id].processed
    ensures Balanced(Run(db, actions).shop)
    ensures var c, now := delivery.content, Run(db, actions);
      Receive(now, delivery) == (now, Declined(Unavailable))
      <==> Refused(now.shop, delivery.at, c.refund, c.refundProvider, c.refundStatus)
  {
    TotalsAlwaysAgree(db, actions);
    ConstraintsAlwaysHold(db, actions);
    var c, now := delivery.content, Run(db, actions);
    LostDelivery(now, delivery);
    RefundLostExactly(now.shop, delivery.at, c.refund, c.refundProvider, c.refundStatus);
  }

  // ---------------------------------------------------------------- a fulfilled order

  /** What a settled refund event leaves in the totals. */
  lemma SettledTotals(a: Shop, b: Shop, id: string)
    requires Balanced(a) && RefundSettle(a, b, id)
    ensures var p, change := a.refunds[id].payment, Change(a.refunds[id], b.refunds[id].status);
      && p in a.payments && p in b.payments && b.payments[p].refunded == a.payments[p].refunded + change
      && (a.payments[p].order.Some? ==>
            var o := a.payments[p].order.value;
            o in a.orders && o in b.orders && b.orders[o].refunded == a.orders[o].refunded + change)
  {
    var p := a.refunds[id].payment;
    RefundRowHere(a.refunds, id, b.refunds[id]);
    if a.payments[p].order.Some? { PaymentRowTotal(a.payments, p, b.payments[p], a.payments[p].order.value); }
  }

  /** The rows of one fulfilled order, its payment and two refunds of it. */
  datatype Names = Names(order: string, payment: string, first: string, second: string, firstProvider: string,
                         secondProvider: string)

  /** A fulfilled order over 100, captured in full, refunds of 60 and of 40, the second still pending. */
  ghost predicate FulfilledCase(shop: Shop, n: Names, first: RefundStatus) {
    && n.order in shop.orders && shop.orders[n.order].fulfillment == Fulfilled && shop.orders[n.order].total == 100
    && n.payment in shop.payments
    && shop.payments[n.payment].order == Some(n.order) && shop.payments[n.payment].captured == 100
    && shop.orders[n.order].refunded == shop.payments[n.payment].refunded
       == (if first == RefundSucceeded then 60 else 0)
    && n.first != n.second && n.first in shop.refunds && n.second in shop.refunds
    && shop.refunds[n.first].payment == n.payment && shop.refunds[n.first].amount == 60
    && shop.refunds[n.first].status == first
    && shop.refunds[n.second] == Refund(n.payment, RefundPending, 40, None, None, None)
    && RefundUnique(shop.refunds, n.first, n.firstProvider) && RefundUnique(shop.refunds, n.second, n.secondProvider)
    && n.firstProvider != n.secondProvider
  }

  /** While the first refund stands, the event that would complete the second is refused; after the first
      failed it goes through. */
  lemma SecondRefund(shop: Shop, n: Names, at: Stamp, first: RefundStatus)
    requires FulfilledCase(shop, n, first) && Balanced(shop) && Lawful(shop)
    ensures ApplyRefund(shop, at, Some(n.second), n.secondProvider, Some(RefundSucceeded)).Aborted?
        <==> first == RefundSucceeded
  {
    assert Lands(shop, at, Some(n.second), n.secondProvider);
    SecondTotals(shop, n, first);
    RefundLostExactly(shop, at, Some(n.second), n.secondProvider, Some(RefundSucceeded));
  }

  lemma SecondTotals(shop: Shop, n: Names, first: RefundStatus)
    requires FulfilledCase(shop, n, first) && RefundsLinked(shop.refunds, shop.payments)
    ensures TotalsRefused(shop, n.second, RefundSucceeded) <==> first == RefundSucceeded
    ensures first == RefundSucceeded ==> !TotalsRefused(shop, n.first, RefundFailed)
  {
  }

  lemma FirstRefundFails(shop: Shop, n: Names, at: Stamp)
    requires FulfilledCase(shop, n, RefundSucceeded) && Balanced(shop) && Lawful(shop)
    requires Newer(shop.refunds[n.first].marker, at)
    ensures var effect := ApplyRefund(shop, at, Some(n.first), n.firstProvider, Some(RefundFailed));
      && effect.Completed? && RefundSettle(shop, effect.shop, n.first)
      && effect.shop.refunds[n.first] == Rewritten(shop.refunds[n.first], at, n.firstProvider, RefundFailed)
  {
    RefundLostExactly(shop, at, Some(n.first), n.firstProvider, Some(RefundFailed));
    SecondTotals(shop, n, RefundSucceeded);
    RefundShape(shop, at, Some(n.first), n.firstProvider, Some(RefundFailed));
    var row := Rewritten(shop.refunds[n.first], at, n.firstProvider, RefundFailed);
    RecomputeShape(shop.(refunds := shop.refunds[n.first := row]), n.payment);
  }

  /** The rows after the first refund failed and the totals went back to zero. */
  lemma FirstRefundSettled(a: Shop, b: Shop, n: Names, row: Refund)
    requires FulfilledCase(a, n, RefundSucceeded) && b.refunds == a.refunds[n.first := row]
    requires row.payment == n.payment && row.amount == 60 && row.status == RefundFailed
    requires row.provider == Some(n.firstProvider)
    requires n.order in b.orders && b.orders[n.order].fulfillment == Fulfilled && b.orders[n.order].total == 100
    requires n.payment in b.payments
    requires b.payments[n.payment].order == Some(n.order) && b.payments[n.payment].captured == 100
    requires b.orders[n.order].refunded == b.payments[n.payment].refunded == 0
    ensures FulfilledCase(b, n, RefundFailed)
  {
  }

  /** What a refund event that lands makes of the payment and its order: the payment is refunded exactly if its
      succeeded refunds come to what was captured, partly refunded if they come to less, and captured again if
      there are none; the order the same against its total. */
  lemma RefundDecidesStatuses(shop: Shop, at: Stamp, local: Option<string>, provider: string,
                              status: Option<RefundStatus>)
    requires Balanced(shop) && Lands(shop, at, local, provider)
    requires ApplyRefund(shop, at, local, provider, status).Completed?
    ensures var after := ApplyRefund(shop, at, local, provider, status).shop;
      var p := shop.refunds[RefundNamed(shop, local, provider).value].payment;
      && p in after.payments
      && var payment, returned := after.payments[p], Succeeded(after.refunds, p);
      && 0 <= returned <= payment.captured
      && (payment.status == Captured <==> returned == 0)
      && (payment.status == Refunded <==> 0 < returned == payment.captured)
      && (payment.status == PartlyRefunded <==> 0 < returned < payment.captured)
      && (payment.order.Some? ==>
            && payment.order.value in after.orders
            && var order := after.orders[payment.order.value];
            && 0 <= order.refunded <= order.total
            && (order.status == OrderPaid <==> order.refunded == 0)
            && (order.status == OrderRefunded <==> 0 < order.refunded == order.total)
            && (order.status == OrderPartlyRefunded <==> 0 < order.refunded < order.total))
  {
    RefundShape(shop, at, local, provider, status);
    var id := RefundNamed(shop, local, provider).value;
    var row := Rewritten(shop.refunds[id], at, provider, status.value);
    SettledStatuses(shop.(refunds := shop.refunds[id := row]), row.payment);
    RecomputeShape(shop.(refunds := shop.refunds[id := row]), row.payment);
  }

  lemma SettledStatuses(shop: Shop, intent: string)
    requires Recompute(shop, intent).Completed?
    ensures var after := Recompute(shop, intent).shop;
      && intent in after.payments
      && var payment := after.payments[intent];
      && 0 <= payment.refunded <= payment.captured
      && (payment.status == Captured <==> payment.refunded == 0)
      && (payment.status == Refunded <==> 0 < payment.refunded == payment.captured)
      && (payment.status == PartlyRefunded <==> 0 < payment.refunded < payment.captured)
      && (payment.order.Some? ==>
            && payment.order.value in after.orders
            && var order := after.orders[payment.order.value];
            && 0 <= order.refunded <= order.total
            && (order.status == OrderPaid <==> order.refunded == 0)
            && (order.status == OrderRefunded <==> 0 < order.refunded == order.total)
            && (order.status == OrderPartlyRefunded <==> 0 < order.refunded < order.total))
  {
  }

  lemma SettledRows(a: Shop, b: Shop, id: string)
    requires Balanced(a) && RefundSettle(a, b, id)
    ensures var p := a.refunds[id].payment;
      && b.refunds == a.refunds[id := b.refunds[id]] && p in a.payments && p in b.payments
      && b.payments[p].order == a.payments[p].order && b.payments[p].captured == a.payments[p].captured
  {
  }

  lemma MidCase(shop: Shop, n: Names, at: Stamp)
    requires FulfilledCase(shop, n, RefundSucceeded) && Balanced(shop) && Lawful(shop)
    requires Newer(shop.refunds[n.first].marker, at)
    ensures var effect := ApplyRefund(shop, at, Some(n.first), n.firstProvider, Some(RefundFailed));
      effect.Completed? && FulfilledCase(effect.shop, n, RefundFailed)
  {
    FirstRefundFails(shop, n, at);
    MidOrder(shop, n, at);
    var mid := ApplyRefund(shop, at, Some(n.first), n.firstProvider, Some(RefundFailed)).shop;
    SettledRows(shop, mid, n.first);
    SettledTotals(shop, mid, n.first);
    FirstRefundSettled(shop, mid, n, Rewritten(shop.refunds[n.first], at, n.firstProvider, RefundFailed));
  }

  lemma RefundKeepsBalanced(shop: Shop, at: Stamp, local: Option<string>, provider: string,
                            status: Option<RefundStatus>)
    requires Balanced(shop)
    ensures Balanced(After(shop, ApplyRefund(shop, at, local, provider, status)))
  {
    RefundEventKind(shop, at, local, provider, status);
    var b := After(shop, ApplyRefund(shop, at, local, provider, status));
    if b != shop { RefundSettleBalanced(shop, b, RefundNamed(shop, local, provider).value); }
  }

  lemma RefundKeepsLawful(shop: Shop, at: Stamp, local: Option<string>, provider: string, status: Option<RefundStatus>)
    requires Lawful(shop)
    ensures Lawful(After(shop, ApplyRefund(shop, at, local, provider, status)))
  {
    var b := After(shop, ApplyRefund(shop, at, local, provider, status));
    RefundOrders(shop, at, local, provider, status);
    OrderStepLawful(shop.orders, b.orders);
    RefundEventKind(shop, at, local, provider, status);
    RefundFrame(shop, at, local, provider, status);
    if b != shop {
      var id := RefundNamed(shop, local, provider).value;
      RefundRowDistinct(shop.refunds, b.refunds, id, provider);
      SettledPaymentsLawful(shop, b, id);
    }
  }

  lemma SettledPaymentsLawful(a: Shop, b: Shop, id: string)
    requires PaymentsLawful(a.payments) && RefundSettle(a, b, id)
    ensures PaymentsLawful(b.payments)
  {
  }

  lemma SettledKeepsOrder(shop: Shop, intent: string, o: string)
    requires Recompute(shop, intent).Completed? && o in shop.orders
    ensures var b := Recompute(shop, intent).shop;
      o in b.orders && b.orders[o].fulfillment == shop.orders[o].fulfillment
      && b.orders[o].total == shop.orders[o].total
  {
  }

  /** The refused event goes through once the first refund has failed. */
  lemma RefusedThenAccepted(shop: Shop, n: Names, at: Stamp, later: Stamp)
    requires FulfilledCase(shop, n, RefundSucceeded) && Balanced(shop) && Lawful(shop)
    requires Newer(shop.refunds[n.first].marker, later)
    ensures ApplyRefund(shop, at, Some(n.second), n.secondProvider, Some(RefundSucceeded)).Aborted?
    ensures var mid := ApplyRefund(shop, later, Some(n.first), n.firstProvider, Some(RefundFailed));
      mid.Completed? && !ApplyRefund(mid.shop, at, Some(n.second), n.secondProvider, Some(RefundSucceeded)).Aborted?
  {
    SecondRefund(shop, n, at, RefundSucceeded);
    MidCase(shop, n, later);
    RefundKeepsBalanced(shop, later, Some(n.first), n.firstProvider, Some(RefundFailed));
    RefundKeepsLawful(shop, later, Some(n.first), n.firstProvider, Some(RefundFailed));
    SecondRefund(ApplyRefund(shop, later, Some(n.first), n.firstProvider, Some(RefundFailed)).shop,
                 n, at, RefundFailed);
  }

  lemma MidOrder(shop: Shop, n: Names, at: Stamp)
    requires FulfilledCase(shop, n, RefundSucceeded) && Newer(shop.refunds[n.first].marker, at)
    requires ApplyRefund(shop, at, Some(n.first), n.firstProvider, Some(RefundFailed)).Completed?
    ensures var b := ApplyRefund(shop, at, Some(n.first), n.firstProvider, Some(RefundFailed)).shop;
      n.order in b.orders && b.orders[n.order].fulfillment == Fulfilled && b.orders[n.order].total == 100
  {
    RefundShape(shop, at, Some(n.first), n.firstProvider, Some(RefundFailed));
    var row := Rewritten(shop.refunds[n.first], at, n.firstProvider, RefundFailed);
    SettledKeepsOrder(shop.(refunds := shop.refunds[n.first := row]), n.payment, n.order);
  }

  /** The tables with exactly those rows. */
  function FulfilledShop(n: Names): Shop {
    Shop(map[n.order := Order.Order(OrderPartlyRefunded, Fulfilled, 100, 60, None, None)],
         map[n.payment := Payment(Some(n.order), None, PartlyRefunded, 100, 100, 60, Stamp(1, "evt_1"))],
         map[n.first := Refund(n.payment, RefundSucceeded, 60, None, Some(n.firstProvider), None),
             n.second := Refund(n.payment, RefundPending, 40, None, None, None)],
         map[], map[], map[], {})
  }

  lemma FulfilledShopTotals(n: Names)
    requires n.first != n.second
    ensures Succeeded(FulfilledShop(n).refunds, n.payment) == 60
    ensures OrderRefundedTotal(FulfilledShop(n).payments, n.order) == 60
  {
    var refunds, payments := FulfilledShop(n).refunds, FulfilledShop(n).payments;
    PairSum(refunds, n.first, n.second, n.payment);
    assert payments.Keys == {n.payment} && {n.payment} - {n.payment} == {};
    SumTake({n.payment}, RefundedAmount(payments, n.order), n.payment);
  }

  lemma FulfilledShopBalanced(n: Names)
    requires n.first != n.second
    ensures Balanced(FulfilledShop(n))
  {
    FulfilledShopTotals(n);
    var shop := FulfilledShop(n);
    assert PaymentsAgree(shop.payments, shop.refunds);
    assert OrdersAgree(shop.orders, shop.payments);
  }

  lemma FulfilledShopLawful(n: Names)
    requires n.first != n.second
    ensures OrdersLawful(FulfilledShop(n).orders) && PaymentsLawful(FulfilledShop(n).payments)
    ensures ProvidersUnique(FulfilledShop(n))
  {
  }

  lemma FulfilledShopIsCase(n: Names)
    requires n.first != n.second && n.firstProvider != n.secondProvider
    ensures FulfilledCase(FulfilledShop(n), n, RefundSucceeded) && FulfilledShop(n).refunds[n.first].marker.None?
  {
  }

  /** Concretely: the event that would complete the refund of this fulfilled order is refused; once the
      first refund is reported failed, the same event goes through. */
  lemma FulfilledOrderRefund(at: Stamp, later: Stamp)
    ensures var n := Names("o", "pi_1", "r1", "r2", "re_1", "re_2");
      var mid := ApplyRefund(FulfilledShop(n), later, Some(n.first), n.firstProvider, Some(RefundFailed));
      && ApplyRefund(FulfilledShop(n), at, Some(n.second), n.secondProvider, Some(RefundSucceeded)).Aborted?
      && mid.Completed? && !ApplyRefund(mid.shop, at, Some(n.second), n.secondProvider, Some(RefundSucceeded)).Aborted?
  {
    FulfilledShopRefund(Names("o", "pi_1", "r1", "r2", "re_1", "re_2"), at, later);
  }

  lemma FulfilledShopRefund(n: Names, at: Stamp, later: Stamp)
    requires n.first != n.second && n.firstProvider != n.secondProvider
    ensures var mid := ApplyRefund(FulfilledShop(n), later, Some(n.first), n.firstProvider, Some(RefundFailed));
      && ApplyRefund(FulfilledShop(n), at, Some(n.second), n.secondProvider, Some(RefundSucceeded)).Aborted?
      && mid.Completed? && !ApplyRefund(mid.shop, at, Some(n.second), n.secondProvider, Some(RefundSucceeded)).Aborted?
  {
    FulfilledShopBalanced(n);
    FulfilledShopLawful(n);
    FulfilledShopIsCase(n);
    RefusedThenAccepted(FulfilledShop(n), n, at, later);
  }
}
