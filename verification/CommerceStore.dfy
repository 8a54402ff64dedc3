/** The handlers as the service runs them: statement by statement on the tables, inside a transaction
    that is committed, committed with an error, or rolled back. */
module CommerceStore {
  import opened Common
  import opened EventOrder
  import opened Sums
  import opened Commerce
  import opened CommerceRuns
  import opened RefundLedger
  import opened EntitlementProvenance
  import opened CommerceConstraints

  /** What a handler reports: done, an error of its own, or a statement the database refused. */
  datatype Report = Done | Erred(error: Error) | Lost

  /** The report and the tables are those of the effect; after a refused statement the tables do not matter. */
  ghost predicate Carries(effect: Effect, report: Report, shop: Shop) {
    match effect
    case Completed(after) => report == Done && shop == after
    case Rejected(after, error) => report == Erred(error) && shop == after
    case Aborted => report == Lost
  }

  /** Every constraint holds, refund totals agree, and every active entitlement is traceable. */
  ghost predicate Sound(shop: Shop) { Lawful(shop) && Balanced(shop) && Provenance(shop) }

  lemma ActionKeepsSound(db: Db, action: Action)
    requires Sound(db.shop)
    ensures Sound(Act(db, action).shop)
  {
    ActionLawful(db, action);
    ActionBalanced(db, action);
    ActionProvenance(db, action);
  }

  lemma ServiceKeepsSound(shop: Shop, request: Request)
    requires Sound(shop)
    ensures Serve(shop, request).Fine? ==> Sound(Serve(shop, request).shop)
  {
    ActionKeepsSound(Db(shop, map[]), Service(request));
  }

  class Store {
    var shop: Shop
    var ledger: map<string, Entry>

    ghost predicate Valid() reads this { Sound(shop) }

    constructor (prices: map<string, map<string, string>>, foreign: set<string>)
      ensures Valid()
      ensures shop == Shop(map[], map[], map[], map[], map[], prices, foreign) && ledger == map[]
    {
      shop := Shop(map[], map[], map[], map[], map[], prices, foreign);
      ledger := map[];
    }

    // -------------------------------------------------------------- payments

    method WriteOrder(id: string, order: Order) returns (report: Report)
      modifies this`shop
      ensures Carries(StoreOrder(old(shop), id, order), report, shop)
    {
      if !OrderAllowed(order) || !OrderUnique(shop.orders, id, order) {
        return Lost;
      }
      shop := shop.(orders := shop.orders[id := order]);
      return Done;
    }

    /** `applied` is whether a row was inserted or updated. */
    method WritePayment(order: Option<string>, subscription: Option<string>, intent: string, status: PaymentStatus,
                        authorized: nat, captured: nat, at: Stamp) returns (report: Report, applied: bool)
      modifies this`shop
      ensures match UpsertPayment(old(shop), order, subscription, intent, status, authorized, captured, at)
        case Stored(after) => report == Done && applied && shop == after
        case Ignored => report == Done && !applied && shop == old(shop)
        case Refused(effect) => !applied && Carries(effect, report, shop)
    {
      if I64_MAX < authorized || I64_MAX < captured {
        return Erred(InvalidRequest), false;
      }
      if intent in shop.foreign {
        return Done, false;
      }
      var row: Payment;
      if intent in shop.payments {
        row := shop.payments[intent];
        if !Before(row.marker, at) {
          return Done, false;
        }
        row := row.(status := status, authorized := authorized, captured := captured, marker := at);
      } else {
        if (order.Some? && order.value !in shop.orders)
           || (subscription.Some? && subscription.value !in shop.subscriptions) {
          return Lost, false;
        }
        row := NewPayment(order, subscription, status, authorized, captured, at);
      }
      if !PaymentAllowed(row) {
        return Lost, false;
      }
      shop := shop.(payments := shop.payments[intent := row]);
      return Done, true;
    }

    method OnPaymentIntent(at: Stamp, intent: string, order: Option<string>, subscription: Option<string>,
                           amount: nat, captured: nat, status: Option<PaymentStatus>) returns (report: Report)
      modifies this`shop
      ensures Carries(ApplyPaymentIntent(old(shop), at, intent, order, subscription, amount, captured, status),
                      report, shop)
    {
      if order.None? == subscription.None? {
        return Done;
      }
      if amount < captured {
        return Erred(Conflict);
      }
      if status.None? {
        return Erred(InvalidRequest);
      }
      var applied;
      report, applied := WritePayment(order, subscription, intent, status.value, amount, captured, at);
      if report != Done || !applied {
        return;
      }
      if order.Some? && order.value in shop.orders {
        var row := shop.orders[order.value];
        if row.status !in {OrderRefunded, OrderPartlyRefunded} {
          report := WriteOrder(order.value, row.(status := OrderStatusFor(status.value), intent := Some(intent)));
        }
      }
    }

    method OnOrderCheckout(at: Stamp, session: string, order: string, paid: Option<(string, nat)>)
        returns (report: Report)
      modifies this`shop
      ensures Carries(ApplyOrderCheckout(old(shop), at, session, order, paid), report, shop)
    {
      if order !in shop.orders || shop.orders[order].session != Some(session) {
        return Erred(Conflict);
      }
      var row := shop.orders[order];
      if paid.None? {
        if row.status == CheckoutCreated {
          report := WriteOrder(order, row.(status := Processing));
          return;
        }
        return Done;
      }
      var (intent, amount) := paid.value;
      if row.total != amount {
        return Erred(Conflict);
      }
      var applied;
      report, applied := WritePayment(Some(order), None, intent, Captured, amount, amount, at);
      if report == Done && applied {
        report := WriteOrder(order, shop.orders[order].(status := OrderPaid, intent := Some(intent)));
      }
    }

    method OnInvoice(at: Stamp, local: Option<string>, provider: Option<string>, intent: Option<string>,
                     amount: nat, captured: nat, status: PaymentStatus) returns (report: Report)
      requires ProvidersUnique(shop)
      modifies this`shop
      ensures Carries(ApplyInvoice(old(shop), at, local, provider, intent, amount, captured, status), report, shop)
    {
      var found: Option<string> := None;
      if local.Some? {
        if local.value in shop.subscriptions
           && (provider.None? || shop.subscriptions[local.value].provider == provider) {
          found := local;
        }
      } else if provider.Some? {
        found := SubscriptionBy(provider.value);
      }
      if found.None? || intent.None? {
        return Done;
      }
      if amount < captured {
        return Erred(Conflict);
      }
      var applied;
      report, applied := WritePayment(None, found, intent.value, status, amount, captured, at);
    }

    // -------------------------------------------------------------- subscriptions

    method SubscriptionBy(provider: string) returns (found: Option<string>)
      requires ProvidersUnique(shop)
      ensures found == FindSubscription(shop.subscriptions, provider)
    {
      if id :| id in shop.subscriptions && shop.subscriptions[id].provider == Some(provider) {
        return Some(id);
      }
      return None;
    }

    /** Upserts the price's entitlements one key at a time, or withdraws what the subscription granted. */
    method Refresh(id: string) returns (report: Report)
      requires id in shop.subscriptions
      modifies this`shop
      ensures Carries(RefreshEntitlements(old(shop), id), report, shop)
    {
      var row := shop.subscriptions[id];
      if !Entitling(row.status) {
        WithdrawFrom(id, if row.status in {Canceled, Expired} then Lapsed else Revoked);
        return Done;
      }
      if row.start.None? || row.end.None? {
        return Erred(Conflict);
      }
      if row.price !in shop.prices {
        return Erred(Unavailable);
      }
      GrantTo(id, row.subject, shop.prices[row.price], row.start.value, row.end.value);
      return Done;
    }

    method GrantTo(id: string, subject: string, values: map<string, string>, start: int, end: int)
      modifies this`shop
      ensures shop == old(shop).(entitlements := GrantAll(old(shop).entitlements, id, subject, values, start, end))
    {
      var before, rest := shop.entitlements, values.Keys;
      while rest != {}
        invariant rest <= values.Keys
        invariant shop == old(shop).(entitlements := GrantAll(before, id, subject, values - rest, start, end))
      {
        var key :| key in rest;
        GrantOneMore(before, id, subject, values, rest, key, start, end);
        rest := rest - {key};
        shop := shop.(entitlements := shop.entitlements[
          Slot(subject, key) := Entitlement(id, values[key], Granted, start, end)]);
      }
      assert values - rest == values;
    }

    method WithdrawFrom(id: string, status: EntitlementStatus)
      requires status != Granted
      modifies this`shop
      ensures shop == old(shop).(entitlements := Withdraw(old(shop).entitlements, id, status))
    {
      var before := shop.entitlements;
      var rest := before.Keys;
      while rest != {}
        invariant rest <= before.Keys == shop.entitlements.Keys
        invariant shop == old(shop).(entitlements := shop.entitlements)
        invariant forall slot :: slot in before ==>
          shop.entitlements[slot] == if slot in rest then before[slot] else Withdraw(before, id, status)[slot]
      {
        var slot :| slot in rest;
        rest := rest - {slot};
        if before[slot].subscription == id && before[slot].status == Granted {
          shop := shop.(entitlements := shop.entitlements[slot := before[slot].(status := status)]);
        }
      }
    }

    method OnSubscription(at: Stamp, local: Option<string>, provider: string, status: Option<SubscriptionStatus>,
                          start: Option<int>, end: Option<int>, cancelAtPeriodEnd: bool) returns (report: Report)
      requires ProvidersUnique(shop)
      modifies this`shop
      ensures Carries(ApplySubscription(old(shop), at, local, provider, status, start, end, cancelAtPeriodEnd),
                      report, shop)
    {
      var found: Option<string> := None;
      if local.Some? {
        if local.value in shop.subscriptions { found := local; }
      } else {
        found := SubscriptionBy(provider);
      }
      if found.None? {
        return Done;
      }
      var id, row := found.value, shop.subscriptions[found.value];
      if !Newer(row.marker, at) {
        return Done;
      }
      if status.None? {
        return Erred(InvalidRequest);
      }
      if start.Some? && end.Some? && end.value <= start.value {
        return Erred(Conflict);
      }
      if !SubscriptionUnique(shop.subscriptions, id, provider) {
        return Lost;
      }
      shop := shop.(subscriptions := shop.subscriptions[id :=
        Written(row, at, provider, status.value, start, end, cancelAtPeriodEnd)]);
      report := Refresh(id);
    }

    method OnSubscriptionCheckout(session: string, id: string, provider: string) returns (report: Report)
      modifies this`shop
      ensures Carries(ApplySubscriptionCheckout(old(shop), session, id, provider), report, shop)
    {
      if id !in shop.subscriptions || shop.subscriptions[id].session != Some(session) {
        return Erred(Conflict);
      }
      if !SubscriptionUnique(shop.subscriptions, id, provider) {
        return Lost;
      }
      shop := shop.(subscriptions := shop.subscriptions[id := shop.subscriptions[id].(provider := Some(provider))]);
      return Done;
    }

    method OnCheckoutExpired(session: string) returns (report: Report)
      modifies this`shop
      ensures Carries(ApplyCheckoutExpired(old(shop), session), report, shop)
    {
      var orders := map id | id in shop.orders :: ExpireOrder(shop.orders[id], session);
      if exists id | id in orders :: !OrderAllowed(orders[id]) {
        return Lost;
      }
      shop := shop.(orders := orders);
      shop := shop.(subscriptions :=
        map id | id in shop.subscriptions :: ExpireSubscription(shop.subscriptions[id], session));
      return Done;
    }

    /** Cancels now or at the end of the period, once the provider has agreed. */
    method Cancel(id: string, atPeriodEnd: bool) returns (error: Option<Error>)
      requires Valid()
      modifies this`shop
      ensures Valid()
      ensures match CancelSubscription(old(shop), id, atPeriodEnd)
        case Fine(after) => error == None && shop == after
        case Fault(e) => error == Some(e) && shop == old(shop)
    {
      ServiceKeepsSound(shop, Request.Cancel(id, atPeriodEnd));
      if id !in shop.subscriptions {
        return Some(NotFound);
      }
      var row := shop.subscriptions[id];
      if row.provider.None? {
        return Some(Conflict);
      }
      if row.status in {Canceled, Expired} {
        return None;
      }
      if atPeriodEnd {
        shop := shop.(subscriptions := shop.subscriptions[id := row.(cancelAtPeriodEnd := true)]);
      } else {
        shop := shop.(subscriptions := shop.subscriptions[id := row.(status := Canceled, cancelAtPeriodEnd := false)]);
        WithdrawFrom(id, Revoked);
      }
      return None;
    }

    // -------------------------------------------------------------- refunds

    method RefundBy(provider: string) returns (found: Option<string>)
      requires ProvidersUnique(shop)
      ensures found == FindRefund(shop.refunds, provider)
    {
      if id :| id in shop.refunds && shop.refunds[id].provider == Some(provider) {
        return Some(id);
      }
      return None;
    }

    method Total(keys: set<string>, amount: string -> int) returns (total: int)
      ensures total == Sum(keys, amount)
    {
      total := 0;
      var rest := keys;
      while rest != {}
        invariant rest <= keys && total + Sum(rest, amount) == Sum(keys, amount)
      {
        var id :| id in rest;
        SumTake(rest, amount, id);
        total := total + amount(id);
        rest := rest - {id};
      }
    }

    method Settle(intent: string) returns (report: Report)
      modifies this`shop
      ensures Carries(Recompute(old(shop), intent), report, shop)
    {
      if intent !in shop.payments {
        return Lost;
      }
      var succeeded := Total(shop.refunds.Keys, SucceededAmount(shop.refunds, intent));
      var payment := shop.payments[intent].(
        refunded := succeeded, status := PaymentStatusAfter(succeeded, shop.payments[intent].captured));
      if !PaymentAllowed(payment) {
        return Lost;
      }
      shop := shop.(payments := shop.payments[intent := payment]);
      if payment.order.None? {
        return Done;
      }
      if payment.order.value !in shop.orders {
        return Lost;
      }
      var order := shop.orders[payment.order.value];
      var refunded := Total(shop.payments.Keys, RefundedAmount(shop.payments, payment.order.value));
      report := WriteOrder(payment.order.value,
                           order.(refunded := refunded, status := OrderStatusAfter(refunded, order.total)));
    }

    method OnRefund(at: Stamp, local: Option<string>, provider: string, status: Option<RefundStatus>)
        returns (report: Report)
      requires ProvidersUnique(shop)
      modifies this`shop
      ensures Carries(ApplyRefund(old(shop), at, local, provider, status), report, shop)
    {
      var found: Option<string> := None;
      if local.Some? {
        if local.value in shop.refunds { found := local; }
      } else {
        found := RefundBy(provider);
      }
      if found.None? {
        return Done;
      }
      var id, row := found.value, shop.refunds[found.value];
      if !Newer(row.marker, at) {
        return Done;
      }
      if status.None? {
        return Erred(InvalidRequest);
      }
      if !RefundUnique(shop.refunds, id, provider) {
        return Lost;
      }
      shop := shop.(refunds := shop.refunds[id := Rewritten(row, at, provider, status.value)]);
      report := Settle(row.payment);
    }

    /** The reservation of create_refund; the row lock on the payment makes it one step. */
    method Reserve(id: string, payment: string, amount: Option<nat>, reason: Option<string>)
        returns (error: Option<Error>)
      requires Valid()
      modifies this`shop
      ensures Valid()
      ensures match ReserveRefund(old(shop), id, payment, amount, reason)
        case Fine(after) => error == None && shop == after
        case Fault(e) => error == Some(e) && shop == old(shop)
    {
      ServiceKeepsSound(shop, Request.Reserve(id, payment, amount, reason));
      error := WriteReservation(id, payment, amount, reason);
    }

    method WriteReservation(id: string, payment: string, amount: Option<nat>, reason: Option<string>)
        returns (error: Option<Error>)
      modifies this`shop
      ensures match ReserveRefund(old(shop), id, payment, amount, reason)
        case Fine(after) => error == None && shop == after
        case Fault(e) => error == Some(e) && shop == old(shop)
    {
      if payment !in shop.payments || shop.payments[payment].status !in {Captured, PartlyRefunded} {
        return Some(NotFound);
      }
      var captured := shop.payments[payment].captured;
      if captured == 0 {
        return Some(Unavailable);
      }
      var reserved := Total(shop.refunds.Keys, ReservedAmount(shop.refunds, payment));
      var available := captured - reserved;
      if available < 0 {
        return Some(Unavailable);
      }
      var wanted := if amount.Some? then amount.value else available;
      if wanted == 0 || available < wanted {
        return Some(InvalidRequest);
      }
      if id in shop.refunds {
        var row := shop.refunds[id];
        if !(row.payment == payment && row.amount == wanted && row.reason == reason && row.status == RefundFailed) {
          return Some(Conflict);
        }
        shop := shop.(refunds := shop.refunds[id := row.(status := RefundPending)]);
      } else {
        shop := shop.(refunds := shop.refunds[id := Refund(payment, RefundPending, wanted, reason, None, None)]);
      }
      return None;
    }

    // -------------------------------------------------------------- webhooks

    method ProcessEvent(at: Stamp, content: Content) returns (report: Report)
      requires ProvidersUnique(shop)
      modifies this`shop
      ensures Carries(Process(old(shop), at, content), report, shop)
    {
      match content
      case OrderCheckout(session, order, paid) => report := OnOrderCheckout(at, session, order, paid);
      case SubscriptionCheckout(session, id, provider) => report := OnSubscriptionCheckout(session, id, provider);
      case CheckoutExpired(session) => report := OnCheckoutExpired(session);
      case PaymentIntent(intent, order, subscription, amount, captured, status) =>
        report := OnPaymentIntent(at, intent, order, subscription, amount, captured, status);
      case SubscriptionEvent(local, provider, status, start, end, cancel) =>
        report := OnSubscription(at, local, provider, status, start, end, cancel);
      case InvoiceEvent(local, provider, intent, amount, captured, status) =>
        report := OnInvoice(at, local, provider, intent, amount, captured, status);
      case RefundEvent(local, provider, status) => report := OnRefund(at, local, provider, status);
      case Malformed(error) => report := Erred(error);
      case Unrelated => report := Done;
      case NoObject => report := Lost;
    }

    /** Records, deduplicates and processes one verified event; a refused statement undoes everything. */
    method Deliver(delivery: Delivery) returns (verdict: Verdict)
      requires Valid()
      modifies this
      ensures Valid()
      ensures (Db(shop, ledger), verdict) == Receive(Db(old(shop), old(ledger)), delivery)
    {
      var id, savedShop, savedLedger := delivery.at.id, shop, ledger;
      ActionKeepsSound(Db(shop, ledger), Webhook(delivery));
      if id in ledger {
        if ledger[id].payload != delivery.payload {
          return Declined(HashConflict);
        }
        if ledger[id].processed {
          return Duplicate;
        }
      } else {
        ledger := ledger[id := Entry(delivery.payload, false, false)];
      }
      if delivery.content.NoObject? {
        ledger := savedLedger;
        return Declined(InvalidRequest);
      }
      var report := ProcessEvent(delivery.at, delivery.content);
      match report
      case Done =>
        assert ledger[id := Entry(delivery.payload, true, false)]
          == savedLedger[id := Entry(delivery.payload, true, false)];
        ledger := ledger[id := Entry(delivery.payload, true, false)];
        return Applied;
      case Erred(error) =>
        assert ledger[id := Entry(delivery.payload, false, true)]
          == savedLedger[id := Entry(delivery.payload, false, true)];
        ledger := ledger[id := Entry(delivery.payload, false, true)];
        return Declined(error);
      case Lost =>
        shop, ledger := savedShop, savedLedger;
        return Declined(Unavailable);
    }
  }

  lemma GrantOneMore(entitlements: map<Slot, Entitlement>, id: string, subject: string, values: map<string, string>,
                     rest: set<string>, key: string, start: int, end: int)
    requires key in rest && rest <= values.Keys
    ensures GrantAll(entitlements, id, subject, values - (rest - {key}), start, end)
         == GrantAll(entitlements, id, subject, values - rest, start, end)[
              Slot(subject, key) := Entitlement(id, values[key], Granted, start, end)]
  {
    var more, fewer := values - (rest - {key}), values - rest;
    assert more == fewer[key := values[key]];
    GrantOneMoreKey(entitlements, id, subject, fewer, key, values[key], start, end);
  }

  lemma GrantOneMoreKey(entitlements: map<Slot, Entitlement>, id: string, subject: string, values: map<string, string>,
                        key: string, value: string, start: int, end: int)
    ensures GrantAll(entitlements, id, subject, values[key := value], start, end)
         == GrantAll(entitlements, id, subject, values, start, end)[
              Slot(subject, key) := Entitlement(id, value, Granted, start, end)]
  {
    var more, slot := values[key := value], Slot(subject, key);
    SlotsOneMore(subject, values, key, value);
    var a, b := GrantAll(entitlements, id, subject, more, start, end),
                GrantAll(entitlements, id, subject, values, start, end);
    assert a.Keys == b.Keys + {slot};
    forall other | other in a && other != slot ensures a[other] == b[other] {
      assert other.subject == subject ==> (other.key in more <==> other.key in values);
    }
  }

  lemma SlotsOneMore(subject: string, values: map<string, string>, key: string, value: string)
    ensures (set k | k in values[key := value] :: Slot(subject, k))
        == (set k | k in values :: Slot(subject, k)) + {Slot(subject, key)}
  {
  }
}
