/** Every active entitlement can be traced to a live subscription of its subject and to that
    subscription's price. */
module EntitlementProvenance {
  import opened Common
  import opened EventOrder
  import opened Commerce
  import opened CommerceRuns
  import opened CommerceFrames

  ghost predicate Traceable(shop: Shop, slot: Slot) requires slot in shop.entitlements {
    var row := shop.entitlements[slot];
    row.status == Granted ==>
      && row.subscription in shop.subscriptions
      && var owner := shop.subscriptions[row.subscription];
      && Entitling(owner.status) && owner.subject == slot.subject
      && owner.price in shop.prices && slot.key in shop.prices[owner.price]
      && row.value == shop.prices[owner.price][slot.key]
  }

  ghost predicate Provenance(shop: Shop) {
    && (forall slot :: slot in shop.entitlements ==> Traceable(shop, slot))
    && Priced(shop)
  }

  /** Every subscription refers to a price of the project. */
  ghost predicate Priced(shop: Shop) {
    forall id :: id in shop.subscriptions ==> shop.subscriptions[id].price in shop.prices
  }

  // ---------------------------------------------------------------- kinds of change

  ghost predicate SameRights(a: Shop, b: Shop) {
    a.subscriptions == b.subscriptions && a.entitlements == b.entitlements && a.prices == b.prices
  }

  /** Rows are added or change columns that entitlements do not depend on; a pending checkout may expire. */
  ghost predicate RightsKept(a: Shop, b: Shop) {
    && a.entitlements == b.entitlements
    && (forall p :: p in a.prices ==> p in b.prices && b.prices[p] == a.prices[p])
    && (forall id :: id in b.subscriptions ==> b.subscriptions[id].price in b.prices)
    && (forall id :: id in a.subscriptions ==>
          && id in b.subscriptions
          && b.subscriptions[id].subject == a.subscriptions[id].subject
          && b.subscriptions[id].price == a.subscriptions[id].price
          && (b.subscriptions[id].status == a.subscriptions[id].status
              || a.subscriptions[id].status == CheckoutPending))
  }

  lemma RightsKeptProvenance(a: Shop, b: Shop)
    requires Provenance(a) && RightsKept(a, b)
    ensures Provenance(b)
  {
    forall slot | slot in b.entitlements ensures Traceable(b, slot) { assert Traceable(a, slot); }
  }

  lemma SameRightsProvenance(a: Shop, b: Shop)
    requires Provenance(a) && SameRights(a, b)
    ensures Provenance(b)
  {
    forall slot | slot in b.entitlements ensures Traceable(b, slot) { assert Traceable(a, slot); }
  }

  /** One subscription row takes a new status (its subject and price never change). */
  ghost predicate StatusWrite(a: Shop, b: Shop, id: string) {
    && b.prices == a.prices
    && id in a.subscriptions && id in b.subscriptions
    && b.subscriptions == a.subscriptions[id := b.subscriptions[id]]
    && b.subscriptions[id].subject == a.subscriptions[id].subject
    && b.subscriptions[id].price == a.subscriptions[id].price
  }

  lemma GrantProvenance(a: Shop, b: Shop, id: string, start: int, end: int)
    requires Provenance(a) && StatusWrite(a, b, id) && Entitling(b.subscriptions[id].status)
    requires b.entitlements == a.entitlements
          || (b.subscriptions[id].price in b.prices
              && b.entitlements == GrantAll(a.entitlements, id, b.subscriptions[id].subject,
                                            b.prices[b.subscriptions[id].price], start, end))
    ensures Provenance(b)
  {
    forall slot | slot in b.entitlements ensures Traceable(b, slot) {
      if slot in a.entitlements { assert Traceable(a, slot); }
    }
  }

  lemma WithdrawProvenance(a: Shop, b: Shop, id: string, status: EntitlementStatus)
    requires Provenance(a) && StatusWrite(a, b, id) && status != Granted
    requires b.entitlements == Withdraw(a.entitlements, id, status)
    ensures Provenance(b)
  {
    forall slot | slot in b.entitlements ensures Traceable(b, slot) { assert Traceable(a, slot); }
  }

  // ---------------------------------------------------------------- handlers

  lemma RefreshProvenance(shop: Shop, id: string, row: Subscription)
    requires Provenance(shop) && id in shop.subscriptions
    requires row.subject == shop.subscriptions[id].subject && row.price == shop.subscriptions[id].price
    ensures Provenance(After(shop, RefreshEntitlements(shop.(subscriptions := shop.subscriptions[id := row]), id)))
  {
    var b := After(shop, RefreshEntitlements(shop.(subscriptions := shop.subscriptions[id := row]), id));
    if b != shop {
      assert StatusWrite(shop, b, id);
      if !Entitling(row.status) {
        WithdrawProvenance(shop, b, id, if row.status in {Canceled, Expired} then Lapsed else Revoked);
      } else if row.start.Some? && row.end.Some? {
        GrantProvenance(shop, b, id, row.start.value, row.end.value);
      } else {
        GrantProvenance(shop, b, id, 0, 0);
      }
    }
  }

  lemma SubscriptionEventProvenance(shop: Shop, at: Stamp, local: Option<string>, provider: string,
                                    status: Option<SubscriptionStatus>, start: Option<int>, end: Option<int>,
                                    cancel: bool)
    requires Provenance(shop)
    ensures Provenance(After(shop, ApplySubscription(shop, at, local, provider, status, start, end, cancel)))
  {
    SubscriptionShape(shop, at, local, provider, status, start, end, cancel);
    var b := After(shop, ApplySubscription(shop, at, local, provider, status, start, end, cancel));
    if b != shop {
      var id := SubscriptionNamed(shop, local, provider).value;
      RefreshProvenance(shop, id, Written(shop.subscriptions[id], at, provider, status.value, start, end, cancel));
    }
  }

  lemma CheckoutRights(shop: Shop, session: string, id: string, provider: string)
    requires Priced(shop)
    ensures RightsKept(shop, After(shop, ApplySubscriptionCheckout(shop, session, id, provider)))
  {
    var b := After(shop, ApplySubscriptionCheckout(shop, session, id, provider));
    if b != shop {
      assert b.subscriptions == shop.subscriptions[id := shop.subscriptions[id].(provider := Some(provider))];
    }
  }

  lemma ExpiryRights(shop: Shop, session: string)
    requires Priced(shop)
    ensures RightsKept(shop, After(shop, ApplyCheckoutExpired(shop, session)))
  {
    var b := After(shop, ApplyCheckoutExpired(shop, session));
    if b != shop {
      assert b.subscriptions
        == map id | id in shop.subscriptions :: ExpireSubscription(shop.subscriptions[id], session);
    }
  }

  lemma WebhookProvenance(shop: Shop, at: Stamp, c: Content)
    requires Provenance(shop)
    ensures Provenance(After(shop, Process(shop, at, c)))
  {
    var b := After(shop, Process(shop, at, c));
    match c
    case SubscriptionEvent(local, provider, status, start, end, cancel) =>
      SubscriptionEventProvenance(shop, at, local, provider, status, start, end, cancel);
    case SubscriptionCheckout(session, id, provider) =>
      CheckoutRights(shop, session, id, provider);
      RightsKeptProvenance(shop, b);
    case CheckoutExpired(session) =>
      ExpiryRights(shop, session);
      RightsKeptProvenance(shop, b);
    case RefundEvent(local, provider, status) =>
      RefundFrame(shop, at, local, provider, status);
      SameRightsProvenance(shop, b);
    case OrderCheckout(session, order, paid) =>
      OrderCheckoutFrame(shop, at, session, order, paid);
      SameRightsProvenance(shop, b);
    case PaymentIntent(intent, order, subscription, amount, captured, status) =>
      PaymentIntentFrame(shop, at, intent, order, subscription, amount, captured, status);
      SameRightsProvenance(shop, b);
    case InvoiceEvent(local, provider, intent, amount, captured, status) =>
      InvoiceFrame(shop, at, local, provider, intent, amount, captured, status);
      SameRightsProvenance(shop, b);
    case _ =>
  }

  lemma CancelProvenance(shop: Shop, id: string, atPeriodEnd: bool)
    requires Provenance(shop) && CancelSubscription(shop, id, atPeriodEnd).Fine?
    ensures Provenance(CancelSubscription(shop, id, atPeriodEnd).shop)
  {
    var b := CancelSubscription(shop, id, atPeriodEnd).shop;
    if b.entitlements == shop.entitlements && b.subscriptions[id].status == shop.subscriptions[id].status {
      RightsKeptProvenance(shop, b);
    } else {
      WithdrawProvenance(shop, b, id, Revoked);
    }
  }

  lemma RefundServiceRights(shop: Shop, request: Request)
    requires request.Reserve? || request.Accepted? || request.TurnedDown?
    ensures Serve(shop, request).Fine? ==> SameRights(shop, Serve(shop, request).shop)
  {
  }

  lemma OrderPlacingRights(shop: Shop, request: Request)
    requires request.Order? || request.OrderFailed?
    ensures Serve(shop, request).Fine? ==> SameRights(shop, Serve(shop, request).shop)
  {
    match request
    case Order(id, total) =>
    case OrderFailed(id) =>
  }

  lemma OrderSessionRights(shop: Shop, id: string, session: string)
    ensures var after := OpenOrderCheckout(shop, id, session); after.Fine? ==> SameRights(shop, after.shop)
  {
    if id in shop.orders {
      StoreOrderFrame(shop, id, shop.orders[id].(status := CheckoutCreated, session := Some(session)));
    }
  }

  lemma FulfillRights(shop: Shop, id: string, next: Fulfillment)
    ensures var after := UpdateFulfillment(shop, id, next); after.Fine? ==> SameRights(shop, after.shop)
  {
  }

  lemma SubscribeRights(shop: Shop, id: string, subject: string, price: string)
    requires Priced(shop)
    ensures var after := PlaceSubscription(shop, id, subject, price); after.Fine? ==> RightsKept(shop, after.shop)
  {
  }

  lemma SessionRights(shop: Shop, id: string, session: string)
    requires Priced(shop)
    ensures var after := OpenSubscriptionCheckout(shop, id, session); after.Fine? ==> RightsKept(shop, after.shop)
  {
  }

  lemma ServiceRights(shop: Shop, request: Request)
    requires Priced(shop) && !request.Cancel?
    ensures Serve(shop, request).Fine? ==> RightsKept(shop, Serve(shop, request).shop)
  {
    if request.Subscribe? {
      SubscribeRights(shop, request.id, request.subject, request.price);
    } else if request.SubscriptionSession? {
      SessionRights(shop, request.id, request.session);
    } else if request.Reserve? || request.Accepted? || request.TurnedDown? {
      RefundServiceRights(shop, request);
    } else if request.OrderSession? {
      OrderSessionRights(shop, request.id, request.session);
    } else if request.Fulfill? {
      FulfillRights(shop, request.id, request.next);
    } else if !request.AddPrice? {
      OrderPlacingRights(shop, request);
    }
  }

  lemma ActionProvenance(db: Db, action: Action)
    requires Provenance(db.shop)
    ensures Provenance(Act(db, action).shop)
  {
    match action
    case Webhook(delivery) =>
      ReceiveEffect(db, delivery);
      WebhookProvenance(db.shop, delivery.at, delivery.content);
    case Service(request) =>
      if Serve(db.shop, request).Fine? {
        if request.Cancel? { CancelProvenance(db.shop, request.id, request.atPeriodEnd); }
        else {
          ServiceRights(db.shop, request);
          RightsKeptProvenance(db.shop, Serve(db.shop, request).shop);
        }
      }
  }

  /** In every run, every active entitlement belongs to an active or trialing subscription of the same
      subject and carries the value that subscription's price assigns to its key. */
  lemma {:induction false} EntitlementsAreTraceable(db: Db, actions: seq<Action>)
    requires Opening(db)
    ensures Provenance(Run(db, actions).shop)
  {
    if actions == [] {
    } else {
      var n := |actions| - 1;
      EntitlementsAreTraceable(db, actions[..n]);
      ActionProvenance(Run(db, actions[..n]), actions[n]);
    }
  }

  /** A completed activation grants every key of the price to the subject for the reported period,
      taking keys over from other subscriptions, and touches no other slot. */
  lemma ActivationGrantsThePrice(shop: Shop, id: string)
    requires id in shop.subscriptions && Entitling(shop.subscriptions[id].status)
    requires RefreshEntitlements(shop, id).Completed?
    ensures var row := shop.subscriptions[id];
      var after := RefreshEntitlements(shop, id).shop.entitlements;
      && row.price in shop.prices && row.start.Some? && row.end.Some?
      && (forall key :: key in shop.prices[row.price] ==>
            && Slot(row.subject, key) in after
            && after[Slot(row.subject, key)]
               == Entitlement(id, shop.prices[row.price][key], Granted, row.start.value, row.end.value))
      && (forall slot ::
            slot in shop.entitlements && !(slot.subject == row.subject && slot.key in shop.prices[row.price]) ==>
            slot in after && after[slot] == shop.entitlements[slot])
  {
  }

  /** What is active of one subscription. */
  ghost predicate GrantsNothing(entitlements: map<Slot, Entitlement>, id: string) {
    forall slot :: slot in entitlements && entitlements[slot].subscription == id ==>
      entitlements[slot].status != Granted
  }

  /** Slots of other subscriptions, and slots that were not active, are as before. */
  ghost predicate OthersUntouched(a: map<Slot, Entitlement>, b: map<Slot, Entitlement>, id: string) {
    && a.Keys == b.Keys
    && forall slot :: slot in a && !(a[slot].subscription == id && a[slot].status == Granted) ==> b[slot] == a[slot]
  }

  /** What was active of the subscription keeps its value and period under the new status. */
  ghost predicate WithdrawnAs(a: map<Slot, Entitlement>, b: map<Slot, Entitlement>, id: string,
                              status: EntitlementStatus) {
    && OthersUntouched(a, b, id) && GrantsNothing(b, id)
    && forall slot :: slot in a && a[slot].subscription == id && a[slot].status == Granted ==>
         b[slot] == Entitlement(id, a[slot].value, status, a[slot].start, a[slot].end)
  }

  /** Cancelling: an unknown subscription is not found, one without a provider id is a conflict, an ended one
      stays as it is. Any other ends at once and grants nothing any more, or, at period end, goes on with its
      status and entitlements and is marked. No other row changes. */
  lemma CancellationDecides(shop: Shop, id: string, atPeriodEnd: bool)
    ensures var out := CancelSubscription(shop, id, atPeriodEnd);
      && (out == Fault(NotFound) <==> id !in shop.subscriptions)
      && (out == Fault(Conflict) <==> id in shop.subscriptions && shop.subscriptions[id].provider.None?)
      && (out.Fine? <==> id in shop.subscriptions && shop.subscriptions[id].provider.Some?)
      && (out.Fine? && shop.subscriptions[id].status in {Canceled, Expired} ==> out.shop == shop)
      && (out.Fine? && shop.subscriptions[id].status !in {Canceled, Expired} ==>
            && out.shop == shop.(subscriptions := out.shop.subscriptions, entitlements := out.shop.entitlements)
            && out.shop.subscriptions.Keys == shop.subscriptions.Keys
            && (forall other :: other in shop.subscriptions && other != id ==>
                  out.shop.subscriptions[other] == shop.subscriptions[other])
            && var row := out.shop.subscriptions[id];
            && row.cancelAtPeriodEnd == atPeriodEnd
            && row.status == (if atPeriodEnd then shop.subscriptions[id].status else Canceled)
            && row == shop.subscriptions[id].(status := row.status, cancelAtPeriodEnd := atPeriodEnd)
            && (if atPeriodEnd then out.shop.entitlements == shop.entitlements
                else WithdrawnAs(shop.entitlements, out.shop.entitlements, id, Revoked)))
  {
  }

  /** A subscription event that no longer entitles withdraws what the subscription granted: as lapsed if the
      subscription is over, as revoked if it is only suspended. */
  lemma SuspensionWithdraws(shop: Shop, id: string)
    requires id in shop.subscriptions && shop.subscriptions[id].status !in {Active, Trialing}
    ensures var effect := RefreshEntitlements(shop, id);
      && effect.Completed? && effect.shop == shop.(entitlements := effect.shop.entitlements)
      && WithdrawnAs(shop.entitlements, effect.shop.entitlements, id,
                     if shop.subscriptions[id].status in {Canceled, Expired} then Lapsed else Revoked)
  {
  }

  /** Once a subscription stops entitling, nothing it granted is active. */
  lemma EndedSubscriptionGrantsNothing(db: Db, actions: seq<Action>, id: string, slot: Slot)
    requires Opening(db)
    requires id in Run(db, actions).shop.subscriptions && !Entitling(Run(db, actions).shop.subscriptions[id].status)
    requires slot in Run(db, actions).shop.entitlements && Run(db, actions).shop.entitlements[slot].subscription == id
    ensures Run(db, actions).shop.entitlements[slot].status != Granted
  {
    EntitlementsAreTraceable(db, actions);
    assert Traceable(Run(db, actions).shop, slot);
  }
}
