/** When the commerce operations go through and what they leave, told from the rows they find. */
module CommerceDecisions {
  import opened Common
  import opened EventOrder
  import opened Sums
  import opened Commerce
  import opened CommerceRuns
  import opened CommerceFrames
  import opened CommerceConstraints

  /** Only the one subscription row differs. */
  ghost predicate OnlySubscription(a: Shop, b: Shop, id: string) {
    && id in b.subscriptions && b == a.(subscriptions := a.subscriptions[id := b.subscriptions[id]])
  }

  /** Only the one order row differs. */
  ghost predicate OnlyOrder(a: Shop, b: Shop, id: string) {
    id in b.orders && b == a.(orders := a.orders[id := b.orders[id]])
  }

  // ---------------------------------------------------------------- checkouts

  /** A subscription checkout binds the provider id to the row whose session it is, unless another row has that
      id; for every other session it is a conflict. */
  lemma CheckoutBindsExactly(shop: Shop, session: string, id: string, provider: string)
    ensures var effect := ApplySubscriptionCheckout(shop, session, id, provider);
      var own := id in shop.subscriptions && shop.subscriptions[id].session == Some(session);
      var taken := exists other :: other in shop.subscriptions && other != id
                                   && shop.subscriptions[other].provider == Some(provider);
      && (effect.Completed? <==> own && !taken)
      && (effect.Aborted? <==> own && taken)
      && (!own ==> effect == Rejected(shop, Conflict))
      && (effect.Completed? ==>
            && OnlySubscription(shop, effect.shop, id)
            && effect.shop.subscriptions[id] == shop.subscriptions[id].(provider := Some(provider)))
  {
  }

  /** The session is the order's, and the order has not been paid, refunded or canceled. */
  predicate StillOpen(order: Order, session: string) {
    order.session == Some(session)
    && order.status !in {OrderPaid, OrderCanceled, OrderPartlyRefunded, OrderRefunded}
  }

  /** A session that expires cancels its order if that is still open and ends its subscription if that is still
      pending; no order that was paid, refunded or canceled and no other subscription is touched. */
  lemma ExpiryDecides(shop: Shop, session: string)
    requires Lawful(shop)
    ensures var effect := ApplyCheckoutExpired(shop, session);
      && effect.Completed?
      && effect.shop == shop.(orders := effect.shop.orders, subscriptions := effect.shop.subscriptions)
      && effect.shop.orders.Keys == shop.orders.Keys && effect.shop.subscriptions.Keys == shop.subscriptions.Keys
      && (forall o :: o in shop.orders ==>
            effect.shop.orders[o]
            == if StillOpen(shop.orders[o], session) then shop.orders[o].(status := OrderCanceled) else shop.orders[o])
      && (forall s :: s in shop.subscriptions ==>
            effect.shop.subscriptions[s]
            == if shop.subscriptions[s].session == Some(session) && shop.subscriptions[s].status == CheckoutPending
               then shop.subscriptions[s].(status := Expired) else shop.subscriptions[s])
  {
    var orders := map id | id in shop.orders :: ExpireOrder(shop.orders[id], session);
    forall id | id in orders
      ensures OrderAllowed(orders[id])
      ensures orders[id] == if StillOpen(shop.orders[id], session) then shop.orders[id].(status := OrderCanceled)
                            else shop.orders[id]
    {
      assert OrderAllowed(shop.orders[id]);
      ExpiredOrder(shop.orders[id], session);
    }
  }

  lemma ExpiredOrder(order: Order, session: string)
    ensures ExpireOrder(order, session)
         == if StillOpen(order, session) then order.(status := OrderCanceled) else order
  {
    match order.status
    case Pending =>
    case CheckoutCreated =>
    case Processing =>
    case OrderPaid =>
    case PaymentFailed =>
    case OrderCanceled =>
    case OrderPartlyRefunded =>
    case OrderRefunded =>
  }

  /** An order checkout: a conflict for every session but the order's own; if unpaid, it moves an order that has
      just been opened to processing and leaves every other as it is. */
  lemma UnpaidCheckoutDecides(shop: Shop, at: Stamp, session: string, order: string)
    requires Lawful(shop)
    ensures var effect := ApplyOrderCheckout(shop, at, session, order, None);
      var own := order in shop.orders && shop.orders[order].session == Some(session);
      && (!own ==> effect == Rejected(shop, Conflict))
      && (own ==>
            && effect.Completed? && OnlyOrder(shop, effect.shop, order)
            && effect.shop.orders[order]
               == if shop.orders[order].status == CheckoutCreated then shop.orders[order].(status := Processing)
                  else shop.orders[order])
  {
    if order in shop.orders {
      assert OrderAllowed(shop.orders[order]) && OrderUnique(shop.orders, order, shop.orders[order]);
      assert shop.orders[order := shop.orders[order]] == shop.orders;
    }
  }

  // ---------------------------------------------------------------- subscriptions

  /** What a subscription event answers: it is for nobody or no news, names an unknown status, a period that does
      not last, or a provider id that belongs to another row; otherwise it is written. */
  lemma SubscriptionEventDecides(shop: Shop, at: Stamp, local: Option<string>, provider: string,
                                 status: Option<SubscriptionStatus>, start: Option<int>, end: Option<int>, cancel: bool)
    ensures var effect := ApplySubscription(shop, at, local, provider, status, start, end, cancel);
      var named := SubscriptionNamed(shop, local, provider);
      var news := named.Some? && Newer(shop.subscriptions[named.value].marker, at);
      var empty := start.Some? && end.Some? && end.value <= start.value;
      && (!news ==> effect == Completed(shop))
      && (news && status.None? ==> effect == Rejected(shop, InvalidRequest))
      && (news && status.Some? && empty ==> effect == Rejected(shop, Conflict))
      && (news && status.Some? && !empty && !SubscriptionUnique(shop.subscriptions, named.value, provider) ==>
            effect == Aborted)
      && (news && status.Some? && !empty && SubscriptionUnique(shop.subscriptions, named.value, provider) ==>
            && !effect.Aborted?
            && WritesSubscription(shop, effect.shop, named.value, at, provider, status.value, start, end, cancel))
  {
    var named := SubscriptionNamed(shop, local, provider);
    if named.Some? && status.Some? {
      var row := shop.subscriptions[named.value];
      RefreshWrites(shop, named.value, Written(row, at, provider, status.value, start, end, cancel));
    }
  }

  lemma RefreshWrites(shop: Shop, id: string, row: Subscription)
    requires id in shop.subscriptions
    ensures var written := shop.(subscriptions := shop.subscriptions[id := row]);
      var effect := RefreshEntitlements(written, id);
      && !effect.Aborted? && OnlyEntitlements(written, effect.shop)
  {
    RefreshFrame(shop.(subscriptions := shop.subscriptions[id := row]), id);
  }

  /** The row as the event says, with subject, price and session kept; no other row. */
  ghost predicate WritesSubscription(a: Shop, b: Shop, id: string, at: Stamp, provider: string,
                                     status: SubscriptionStatus, start: Option<int>, end: Option<int>, cancel: bool) {
    && id in a.subscriptions && b.subscriptions.Keys == a.subscriptions.Keys
    && b == a.(subscriptions := b.subscriptions, entitlements := b.entitlements)
    && (forall other :: other in a.subscriptions && other != id ==> b.subscriptions[other] == a.subscriptions[other])
    && b.subscriptions[id]
       == Subscription(a.subscriptions[id].subject, a.subscriptions[id].price, status, Some(provider),
                       a.subscriptions[id].session, start, end, cancel, Some(at))
  }

  /** Which row an event is about: the one it names by its own id, if there is one; only an event without such an
      id is looked up by provider id. */
  lemma EventsNameRows(shop: Shop, local: Option<string>, provider: string)
    ensures var named := SubscriptionNamed(shop, local, provider);
      && (local.Some? ==> named == (if local.value in shop.subscriptions then local else None))
      && (local.None? && named.Some? ==> shop.subscriptions[named.value].provider == Some(provider))
      && (local.None? && named.None? ==>
            forall id :: id in shop.subscriptions ==> shop.subscriptions[id].provider != Some(provider))
    ensures var named := RefundNamed(shop, local, provider);
      && (local.Some? ==> named == (if local.value in shop.refunds then local else None))
      && (local.None? && named.Some? ==> shop.refunds[named.value].provider == Some(provider))
      && (local.None? && named.None? ==>
            forall id :: id in shop.refunds ==> shop.refunds[id].provider != Some(provider))
  {
  }

  /** An invoice is for the subscription it names, provided the provider id it gives is that row's; without a
      name, for the row with its provider id. */
  lemma InvoicesNameRows(shop: Shop, local: Option<string>, provider: Option<string>)
    ensures var target := InvoiceTarget(shop, local, provider);
      && (local.Some? && target.Some? <==>
            && local.Some? && local.value in shop.subscriptions
            && provider in {None, shop.subscriptions[local.value].provider})
      && (local.Some? && target.Some? ==> target == local)
      && (local.None? && provider.None? ==> target.None?)
      && (local.None? && target.Some? ==> provider.Some? && shop.subscriptions[target.value].provider == provider)
      && (local.None? && target.None? && provider.Some? ==>
            forall id :: id in shop.subscriptions ==> shop.subscriptions[id].provider != provider)
  {
  }

  /** A newer invoice leaves the payment with its own status and amounts; a new one belongs to the subscription. */
  lemma InvoicePays(shop: Shop, at: Stamp, local: Option<string>, provider: Option<string>, intent: string,
                    amount: nat, captured: nat, status: PaymentStatus)
    requires InvoiceTarget(shop, local, provider).Some? && captured <= amount <= I64_MAX && intent !in shop.foreign
    requires intent in shop.payments ==>
      Before(shop.payments[intent].marker, at) && 0 <= shop.payments[intent].refunded <= captured
    ensures var effect := ApplyInvoice(shop, at, local, provider, Some(intent), amount, captured, status);
      && effect.Completed?
      && effect.shop == shop.(payments := effect.shop.payments)
      && intent in effect.shop.payments && effect.shop.payments == shop.payments[intent := effect.shop.payments[intent]]
      && var row := effect.shop.payments[intent];
      && row.status == status && row.authorized == amount && row.captured == captured && row.marker == at
      && (intent !in shop.payments ==>
            row.order == None && row.subscription == InvoiceTarget(shop, local, provider) && row.refunded == 0)
      && (intent in shop.payments ==>
            && row.order == shop.payments[intent].order && row.subscription == shop.payments[intent].subscription
            && row.refunded == shop.payments[intent].refunded)
  {
  }

  // ---------------------------------------------------------------- refunds

  function PendingAmount(refunds: map<string, Refund>, payment: string): string -> int {
    id => if id in refunds && refunds[id].payment == payment && refunds[id].status == RefundPending
          then refunds[id].amount else 0
  }

  /** What is reserved of a payment is what is pending and what has succeeded. */
  lemma ReservedIs(refunds: map<string, Refund>, payment: string)
    ensures Reserved(refunds, payment)
         == Sum(refunds.Keys, PendingAmount(refunds, payment)) + Succeeded(refunds, payment)
  {
    SumPlus(refunds.Keys, PendingAmount(refunds, payment), SucceededAmount(refunds, payment),
            ReservedAmount(refunds, payment));
  }

  /** The row fits the request and its provider call had failed, so the request may use it again. */
  predicate Revivable(row: Refund, payment: string, wanted: int, reason: Option<string>) {
    row.payment == payment && row.amount == wanted && row.reason == reason && row.status == RefundFailed
  }

  /** A refund request goes through exactly for a captured or partly refunded payment, an amount between one and
      what is left of it, and an id that is new or whose call failed for the very same request; all that is left
      if no amount is given. It writes one pending row. */
  lemma ReservationDecides(shop: Shop, id: string, payment: string, amount: Option<nat>, reason: Option<string>)
    ensures var out := ReserveRefund(shop, id, payment, amount, reason);
      var known := payment in shop.payments && shop.payments[payment].status in {Captured, PartlyRefunded};
      && (out == Fault(NotFound) <==> !known)
      && (known ==>
            var left := shop.payments[payment].captured - Reserved(shop.refunds, payment);
            var wanted := if amount.Some? then amount.value else left;
            var free := id !in shop.refunds || Revivable(shop.refunds[id], payment, wanted, reason);
            && (out == Fault(Unavailable) <==> shop.payments[payment].captured == 0 || left < 0)
            && (out.Fine? <==> 0 < shop.payments[payment].captured && 0 <= left && 1 <= wanted <= left && free)
            && (out == Fault(Conflict) <==> 0 < shop.payments[payment].captured && 1 <= wanted <= left && !free)
            && (out.Fine? ==>
                  && out.shop == shop.(refunds := out.shop.refunds)
                  && id in out.shop.refunds && out.shop.refunds == shop.refunds[id := out.shop.refunds[id]]
                  && var row := out.shop.refunds[id];
                  && row.payment == payment && row.amount == wanted && row.reason == reason
                  && row.status == RefundPending
                  && (id !in shop.refunds ==> row.provider.None? && row.marker.None?)))
  {
  }

  /** The provider's answer to a refund call: accepted, it stores the provider id and nothing else, unless another
      row has it; turned down, it fails a pending row and leaves every other as it is. */
  lemma RefundAnswersDecide(shop: Shop, id: string, provider: string)
    ensures var out := RefundAccepted(shop, id, provider);
      var taken := exists other :: other in shop.refunds && other != id
                                   && shop.refunds[other].provider == Some(provider);
      && (out == Fault(Unavailable) <==> id in shop.refunds && taken)
      && (id !in shop.refunds ==> out == Fine(shop))
      && (id in shop.refunds && !taken ==>
            out == Fine(shop.(refunds := shop.refunds[id := shop.refunds[id].(provider := Some(provider))])))
    ensures var out := RefundTurnedDown(shop, id);
      && out.Fine? && out.shop == shop.(refunds := out.shop.refunds) && out.shop.refunds.Keys == shop.refunds.Keys
      && forall r :: r in shop.refunds ==>
           out.shop.refunds[r] == if r == id && shop.refunds[r].status == RefundPending
                                  then shop.refunds[r].(status := RefundFailed) else shop.refunds[r]
  {
  }

  // ---------------------------------------------------------------- orders

  /** Money of the order that counts. */
  function CapturedFor(payments: map<string, Payment>, order: string): string -> int {
    id => if id in payments && payments[id].order == Some(order) && payments[id].status in {Captured, PartlyRefunded}
          then payments[id].captured else 0
  }

  /** Money of it that has been or is being paid back. */
  ghost function HeldFor(shop: Shop, order: string): string -> int {
    id => if id in shop.payments && shop.payments[id].order == Some(order)
             && shop.payments[id].status in {Captured, PartlyRefunded}
          then Sum(shop.refunds.Keys, PendingAmount(shop.refunds, id)) + Succeeded(shop.refunds, id) else 0
  }

  lemma SpendableIs(shop: Shop, order: string)
    ensures Spendable(shop, order)
         == Sum(shop.payments.Keys, CapturedFor(shop.payments, order)) - Sum(shop.payments.Keys, HeldFor(shop, order))
  {
    var counted := set id | id in shop.payments && shop.payments[id].order == Some(order)
                            && shop.payments[id].status in {Captured, PartlyRefunded};
    var net := (id: string) =>
      if id in shop.payments then shop.payments[id].captured - Reserved(shop.refunds, id) else 0;
    var held, captured := HeldFor(shop, order), CapturedFor(shop.payments, order);
    forall id | id in counted ensures captured(id) == held(id) + net(id) { ReservedIs(shop.refunds, id); }
    SumPlus(counted, held, net, captured);
    assert counted + shop.payments.Keys == shop.payments.Keys;
    SumExtend(counted, shop.payments.Keys, captured);
    SumExtend(counted, shop.payments.Keys, held);
  }

  /** Fulfilment starts from nothing, is completed from processing, and can be given up until then; starting and
      completing it takes an order that is paid or partly refunded and whose captured payments, less all that has
      been or is being paid back, still cover its total. Nothing but the fulfilment status changes. */
  lemma FulfilmentDecides(shop: Shop, id: string, next: Fulfillment)
    ensures var out := UpdateFulfillment(shop, id, next);
      && (next == Unfulfilled ==> out == Fault(InvalidRequest))
      && (next != Unfulfilled && id !in shop.orders ==> out == Fault(NotFound))
      && (next != Unfulfilled && id in shop.orders ==>
            var row := shop.orders[id];
            var left := Sum(shop.payments.Keys, CapturedFor(shop.payments, id))
                        - Sum(shop.payments.Keys, HeldFor(shop, id));
            var turn := match next
              case Unfulfilled => false
              case FulfillmentProcessing => row.fulfillment == Unfulfilled
              case Fulfilled => row.fulfillment == FulfillmentProcessing
              case FulfillmentCanceled => row.fulfillment in {Unfulfilled, FulfillmentProcessing};
            && (out.Fine? <==>
                  && turn
                  && (next == FulfillmentCanceled
                      || (row.status in {OrderPaid, OrderPartlyRefunded} && 0 < row.total <= left)))
            && (out.Fine? ==> out == Fine(shop.(orders := shop.orders[id := row.(fulfillment := next)])))
            && (!turn ==> out == Fault(Conflict)))
  {
    SpendableIs(shop, id);
  }

  /** Placing an order: a new one is pending; an order whose payment failed is pending again if the total is the
      same; anything else is a conflict. */
  lemma PlacementDecides(shop: Shop, id: string, total: nat)
    ensures var out := PlaceOrder(shop, id, total);
      && (out == Fault(InvalidRequest) <==> I64_MAX < total)
      && (out == Fault(Conflict) <==>
            total <= I64_MAX && id in shop.orders
            && !(shop.orders[id].total == total && shop.orders[id].status == PaymentFailed))
      && (out.Fine? ==>
            && OnlyOrder(shop, out.shop, id) && out.shop.orders[id].status == Pending
            && (id in shop.orders ==> out.shop.orders[id] == shop.orders[id].(status := Pending))
            && (id !in shop.orders ==> out.shop.orders[id] == Order.Order(Pending, Unfulfilled, total, 0, None, None)))
  {
  }

  /** Opening a checkout and its failure: the session goes to an order that is pending or whose payment failed; a
      failure takes a pending order to failed; no other order is touched. */
  lemma OrderSessionsDecide(shop: Shop, id: string, session: string)
    requires Lawful(shop)
    ensures var out := OpenOrderCheckout(shop, id, session);
      var open := id in shop.orders && shop.orders[id].status in {Pending, PaymentFailed};
      var taken := exists other :: other in shop.orders && other != id && shop.orders[other].session == Some(session);
      && (!open ==> out == Fine(shop))
      && (open && taken ==> out == Fault(Unavailable))
      && (open && !taken ==>
            && out.Fine? && OnlyOrder(shop, out.shop, id)
            && out.shop.orders[id] == shop.orders[id].(status := CheckoutCreated, session := Some(session)))
    ensures var out := OrderCheckoutFailed(shop, id);
      && out.Fine? && out.shop == shop.(orders := out.shop.orders) && out.shop.orders.Keys == shop.orders.Keys
      && forall o :: o in shop.orders ==>
           out.shop.orders[o] == if o == id && shop.orders[o].status == Pending
                                 then shop.orders[o].(status := PaymentFailed) else shop.orders[o]
  {
    if id in shop.orders {
      assert OrderAllowed(shop.orders[id]) && OrderUnique(shop.orders, id, shop.orders[id]);
    }
  }

  /** Placing a subscription and opening its checkout: a new row is pending without provider or session; placing it
      again is fine while it is pending for the same subject and price; only a pending row takes a session. */
  lemma SubscriptionPlacementDecides(shop: Shop, id: string, subject: string, price: string, session: string)
    ensures var out := PlaceSubscription(shop, id, subject, price);
      && (out == Fault(NotFound) <==> price !in shop.prices)
      && (price in shop.prices && id !in shop.subscriptions ==>
            && out.Fine? && OnlySubscription(shop, out.shop, id)
            && out.shop.subscriptions[id]
               == Subscription(subject, price, CheckoutPending, None, None, None, None, false, None))
      && (price in shop.prices && id in shop.subscriptions ==>
            var row := shop.subscriptions[id];
            out == if row.price == price && row.subject == subject && row.status == CheckoutPending then Fine(shop)
                   else Fault(Conflict))
    ensures var out := OpenSubscriptionCheckout(shop, id, session);
      var open := id in shop.subscriptions && shop.subscriptions[id].status == CheckoutPending;
      var taken := exists other :: other in shop.subscriptions && other != id
                                   && shop.subscriptions[other].session == Some(session);
      && (!open ==> out == Fine(shop))
      && (open && taken ==> out == Fault(Unavailable))
      && (open && !taken ==>
            && out.Fine? && OnlySubscription(shop, out.shop, id)
            && out.shop.subscriptions[id] == shop.subscriptions[id].(session := Some(session)))
  {
  }

  // ---------------------------------------------------------------- rejections and the ledger

  /** What a payment event is rejected for: more captured than authorized is a conflict, an unknown status or an
      amount beyond 64 bits an invalid request; one that names neither or both of order and subscription is
      passed over. */
  lemma PaymentRejections(shop: Shop, at: Stamp, intent: string, order: Option<string>, subscription: Option<string>,
                          amount: nat, captured: nat, status: Option<PaymentStatus>)
    ensures var effect := ApplyPaymentIntent(shop, at, intent, order, subscription, amount, captured, status);
      var named := order.Some? != subscription.Some?;
      && (!named ==> effect == Completed(shop))
      && (effect == Rejected(shop, Conflict) <==> named && amount < captured)
      && (effect == Rejected(shop, InvalidRequest) <==>
            named && captured <= amount && (status.None? || I64_MAX < amount))
      && (effect.Rejected? ==> effect.shop == shop && effect.error in {Conflict, InvalidRequest})
  {
    PaymentIntentFrame(shop, at, intent, order, subscription, amount, captured, status);
  }

  /** What a paid checkout is rejected for: a session or an amount that is not the order's is a conflict, an amount
      beyond 64 bits an invalid request. */
  lemma CheckoutRejections(shop: Shop, at: Stamp, session: string, order: string, intent: string, amount: nat)
    ensures var effect := ApplyOrderCheckout(shop, at, session, order, Some((intent, amount)));
      var own := order in shop.orders && shop.orders[order].session == Some(session)
                 && shop.orders[order].total == amount;
      && (effect == Rejected(shop, Conflict) <==> !own)
      && (effect == Rejected(shop, InvalidRequest) <==> own && I64_MAX < amount)
      && (effect.Rejected? ==> effect.shop == shop && effect.error in {Conflict, InvalidRequest})
  {
    OrderCheckoutFrame(shop, at, session, order, Some((intent, amount)));
  }

  /** What a delivery leaves in the ledger: its own entry, done after an applied event and failed after a rejected
      one; no entry at all after a refused statement, and none changed by a repeated or forged delivery. */
  lemma LedgerDecides(db: Db, delivery: Delivery)
    ensures var (after, verdict) := Receive(db, delivery);
      var id := delivery.at.id;
      && (verdict == Duplicate <==>
            id in db.ledger && db.ledger[id].payload == delivery.payload && db.ledger[id].processed)
      && (id in db.ledger && db.ledger[id].payload != delivery.payload ==>
            after == db && verdict == Declined(HashConflict))
      && (delivery.content.NoObject? && id !in db.ledger ==> after == db && verdict == Declined(InvalidRequest))
      && (verdict == Applied ==> after.ledger == db.ledger[id := Entry(delivery.payload, true, false)])
      && (after.ledger != db.ledger && verdict.Declined? ==>
            after.ledger == db.ledger[id := Entry(delivery.payload, false, true)])
      && (verdict == Duplicate ==> after == db)
  {
  }
}
