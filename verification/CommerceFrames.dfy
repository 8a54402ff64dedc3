/** Which tables each webhook handler can touch, and how. */
module CommerceFrames {
  import opened Common
  import opened EventOrder
  import opened Commerce
  import opened CommerceRuns

  // ---------------------------------------------------------------- handlers that move money

  ghost predicate OnlyMoney(a: Shop, b: Shop) { b == a.(orders := b.orders, payments := b.payments) }

  lemma UpsertFrame(shop: Shop, order: Option<string>, subscription: Option<string>, intent: string,
                    status: PaymentStatus, authorized: nat, captured: nat, at: Stamp)
    ensures var up := UpsertPayment(shop, order, subscription, intent, status, authorized, captured, at);
      && (up.Stored? ==> OnlyMoney(shop, up.shop))
      && (up.Refused? ==> After(shop, up.effect) == shop && (up.effect.Rejected? ==> up.effect.shop == shop))
  {
  }

  lemma StoreOrderFrame(shop: Shop, id: string, order: Order)
    ensures OnlyMoney(shop, After(shop, StoreOrder(shop, id, order))) && !StoreOrder(shop, id, order).Rejected?
  {
  }

  lemma PaymentIntentFrame(shop: Shop, at: Stamp, intent: string, order: Option<string>, subscription: Option<string>,
                           amount: nat, captured: nat, status: Option<PaymentStatus>)
    ensures var effect := ApplyPaymentIntent(shop, at, intent, order, subscription, amount, captured, status);
      OnlyMoney(shop, After(shop, effect)) && (effect.Rejected? ==> effect.shop == shop)
  {
    if status.Some? {
      UpsertFrame(shop, order, subscription, intent, status.value, amount, captured, at);
      var up := UpsertPayment(shop, order, subscription, intent, status.value, amount, captured, at);
      if up.Stored? && order.Some? && order.value in up.shop.orders {
        StoreOrderFrame(up.shop, order.value,
                        up.shop.orders[order.value].(status := OrderStatusFor(status.value), intent := Some(intent)));
      }
    }
  }

  lemma OrderCheckoutFrame(shop: Shop, at: Stamp, session: string, order: string, paid: Option<(string, nat)>)
    ensures var effect := ApplyOrderCheckout(shop, at, session, order, paid);
      OnlyMoney(shop, After(shop, effect)) && (effect.Rejected? ==> effect.shop == shop)
  {
    if paid.Some? && order in shop.orders {
      var (intent, amount) := paid.value;
      UpsertFrame(shop, Some(order), None, intent, Captured, amount, amount, at);
      var up := UpsertPayment(shop, Some(order), None, intent, Captured, amount, amount, at);
      if up.Stored? {
        StoreOrderFrame(up.shop, order, up.shop.orders[order].(status := OrderPaid, intent := Some(intent)));
      }
    }
  }

  lemma InvoiceFrame(shop: Shop, at: Stamp, local: Option<string>, provider: Option<string>,
                     intent: Option<string>, amount: nat, captured: nat, status: PaymentStatus)
    ensures var effect := ApplyInvoice(shop, at, local, provider, intent, amount, captured, status);
      OnlyMoney(shop, After(shop, effect)) && (effect.Rejected? ==> effect.shop == shop)
  {
  }

  // ---------------------------------------------------------------- refunds

  /** The refund event names a row and is newer than it. */
  ghost predicate Lands(shop: Shop, at: Stamp, local: Option<string>, provider: string) {
    RefundNamed(shop, local, provider).Some? && Newer(shop.refunds[RefundNamed(shop, local, provider).value].marker, at)
  }

  /** A refund event settles its rewritten row unless it stops earlier. */
  lemma RefundShape(shop: Shop, at: Stamp, local: Option<string>, provider: string, status: Option<RefundStatus>)
    ensures var effect := ApplyRefund(shop, at, local, provider, status);
      if Lands(shop, at, local, provider) && status.Some? then
        var id := RefundNamed(shop, local, provider).value;
        var row := Rewritten(shop.refunds[id], at, provider, status.value);
        if !RefundUnique(shop.refunds, id, provider) then effect == Aborted
        else effect == Recompute(shop.(refunds := shop.refunds[id := row]), row.payment)
      else effect == Completed(shop) || effect == Rejected(shop, InvalidRequest)
  {
  }

  lemma RecomputeFrame(shop: Shop, intent: string)
    ensures OnlyMoney(shop, After(shop, Recompute(shop, intent))) && !Recompute(shop, intent).Rejected?
  {
  }

  /** A refund event changes nothing, or writes its own row under a provider id no other row has and
      recomputes totals. */
  ghost predicate RefundRowWrite(a: Shop, b: Shop, id: string, provider: string) {
    && b == a.(orders := b.orders, payments := b.payments, refunds := b.refunds)
    && id in a.refunds && id in b.refunds && b.refunds == a.refunds[id := b.refunds[id]]
    && b.refunds[id].provider == Some(provider) && RefundUnique(a.refunds, id, provider)
  }

  lemma RefundFrame(shop: Shop, at: Stamp, local: Option<string>, provider: string, status: Option<RefundStatus>)
    ensures var effect := ApplyRefund(shop, at, local, provider, status);
      var b := After(shop, effect);
      && (effect.Rejected? ==> effect.shop == shop)
      && (b == shop || (RefundNamed(shop, local, provider).Some?
                        && RefundRowWrite(shop, b, RefundNamed(shop, local, provider).value, provider)))
  {
    var found := RefundNamed(shop, local, provider);
    if found.Some? && status.Some? {
      var row := Rewritten(shop.refunds[found.value], at, provider, status.value);
      RecomputeFrame(shop.(refunds := shop.refunds[found.value := row]), row.payment);
    }
  }

  // ---------------------------------------------------------------- subscriptions

  /** A subscription event changes nothing, or writes its own row as newer than before and refreshes. */
  lemma SubscriptionShape(shop: Shop, at: Stamp, local: Option<string>, provider: string,
                          status: Option<SubscriptionStatus>, start: Option<int>, end: Option<int>, cancel: bool)
    ensures var effect := ApplySubscription(shop, at, local, provider, status, start, end, cancel);
      || After(shop, effect) == shop
      || (&& SubscriptionNamed(shop, local, provider).Some? && status.Some?
          && var id := SubscriptionNamed(shop, local, provider).value;
          && id in shop.subscriptions && Newer(shop.subscriptions[id].marker, at)
          && SubscriptionUnique(shop.subscriptions, id, provider)
          && var row := Written(shop.subscriptions[id], at, provider, status.value, start, end, cancel);
          && effect == RefreshEntitlements(shop.(subscriptions := shop.subscriptions[id := row]), id))
  {
  }

  ghost predicate OnlyEntitlements(a: Shop, b: Shop) { b == a.(entitlements := b.entitlements) }

  lemma RefreshFrame(shop: Shop, id: string)
    requires id in shop.subscriptions
    ensures OnlyEntitlements(shop, After(shop, RefreshEntitlements(shop, id)))
  {
  }

  ghost predicate SubscriptionRowWrite(a: Shop, b: Shop, id: string, at: Stamp, provider: string) {
    && b == a.(subscriptions := b.subscriptions, entitlements := b.entitlements)
    && id in a.subscriptions && id in b.subscriptions && b.subscriptions == a.subscriptions[id := b.subscriptions[id]]
    && Newer(a.subscriptions[id].marker, at) && b.subscriptions[id].marker == Some(at)
    && b.subscriptions[id].provider == Some(provider) && SubscriptionUnique(a.subscriptions, id, provider)
  }

  lemma SubscriptionFrame(shop: Shop, at: Stamp, local: Option<string>, provider: string,
                          status: Option<SubscriptionStatus>, start: Option<int>, end: Option<int>, cancel: bool)
    ensures var b := After(shop, ApplySubscription(shop, at, local, provider, status, start, end, cancel));
      b == shop || (SubscriptionNamed(shop, local, provider).Some?
                    && SubscriptionRowWrite(shop, b, SubscriptionNamed(shop, local, provider).value, at, provider))
  {
    SubscriptionShape(shop, at, local, provider, status, start, end, cancel);
    var b := After(shop, ApplySubscription(shop, at, local, provider, status, start, end, cancel));
    if b != shop {
      var id := SubscriptionNamed(shop, local, provider).value;
      var row := Written(shop.subscriptions[id], at, provider, status.value, start, end, cancel);
      RefreshFrame(shop.(subscriptions := shop.subscriptions[id := row]), id);
    }
  }

  /** A completed subscription checkout writes the provider id of its own row. */
  lemma CheckoutFrame(shop: Shop, session: string, id: string, provider: string)
    ensures var effect := ApplySubscriptionCheckout(shop, session, id, provider);
      var b := After(shop, effect);
      && (effect.Rejected? ==> effect.shop == shop)
      && (b == shop ||
          (&& id in shop.subscriptions && SubscriptionUnique(shop.subscriptions, id, provider)
           && b == shop.(subscriptions :=
                shop.subscriptions[id := shop.subscriptions[id].(provider := Some(provider))])))
  {
  }
}
