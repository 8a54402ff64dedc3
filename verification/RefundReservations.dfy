/** When pending and succeeded refunds stay within what was captured, so that the checked subtraction
    of create_refund cannot fail. */
module RefundReservations {
  import opened Common
  import opened EventOrder
  import opened Sums
  import opened Commerce
  import opened CommerceRuns
  import opened CommerceFrames
  import opened RefundLedger

  ghost predicate Within(shop: Shop) {
    forall p :: p in shop.payments ==> Reserved(shop.refunds, p) <= shop.payments[p].captured
  }

  /** No payment's captured amount goes down and no failed or canceled refund comes back to life. */
  ghost predicate Gentle(a: Shop, b: Shop) {
    && (forall p :: p in a.payments && p in b.payments ==> a.payments[p].captured <= b.payments[p].captured)
    && (forall r :: r in a.refunds && r in b.refunds && Reserving(b.refunds[r].status) ==>
          Reserving(a.refunds[r].status))
  }

  lemma NothingReserved(refunds: map<string, Refund>, payments: map<string, Payment>, intent: string)
    requires RefundsLinked(refunds, payments) && intent !in payments
    ensures Reserved(refunds, intent) == 0
  {
    SumZero(refunds.Keys, ReservedAmount(refunds, intent));
  }

  /** A payment event keeps the reservations covered exactly when the new captured amount covers them. */
  lemma PaymentEventExact(a: Shop, b: Shop, intent: string)
    requires Balanced(a) && Within(a) && PaymentWrite(a, b, intent)
    ensures Within(b) <==> Reserved(a.refunds, intent) <= b.payments[intent].captured
    ensures intent !in a.payments ==> Within(b)
  {
    if intent !in a.payments { NothingReserved(a.refunds, a.payments, intent); }
  }

  lemma RefundEventElsewhere(a: Shop, b: Shop, id: string, q: string)
    requires RefundSettle(a, b, id) && q in b.payments && q != a.refunds[id].payment
    ensures q in a.payments && Reserved(b.refunds, q) == Reserved(a.refunds, q) && b.payments[q] == a.payments[q]
  {
    RefundRowElsewhere(a.refunds, id, b.refunds[id], q);
  }

  lemma RefundEventHere(a: Shop, b: Shop, id: string)
    requires RefundSettle(a, b, id)
    ensures var p := a.refunds[id].payment;
      && p in a.payments && p in b.payments && b.payments[p].captured == a.payments[p].captured
      && Reserved(b.refunds, p) == Reserved(a.refunds, p)
           - CountsIf(Reserving(a.refunds[id].status), a.refunds[id].amount)
           + CountsIf(Reserving(b.refunds[id].status), a.refunds[id].amount)
  {
    RefundRowHere(a.refunds, id, b.refunds[id]);
  }

  /** A refund event keeps them covered exactly when it does not revive the refund, or the revived
      amount still fits. */
  lemma RefundEventExact(a: Shop, b: Shop, id: string)
    requires Within(a) && RefundSettle(a, b, id)
    ensures Within(b) <==>
      || Reserving(a.refunds[id].status)
      || !Reserving(b.refunds[id].status)
      || Reserved(a.refunds, a.refunds[id].payment) + a.refunds[id].amount
           <= a.payments[a.refunds[id].payment].captured
  {
    var p := a.refunds[id].payment;
    RefundEventHere(a, b, id);
    forall q | q in b.payments && q != p ensures Reserved(b.refunds, q) <= b.payments[q].captured {
      RefundEventElsewhere(a, b, id, q);
    }
    assert Within(b) <==> Reserved(b.refunds, p) <= b.payments[p].captured;
  }

  lemma RefundRowWithin(a: Shop, b: Shop, id: string)
    requires Within(a) && RefundWrite(a, b, id)
    requires Reserved(b.refunds, b.refunds[id].payment) <= b.payments[b.refunds[id].payment].captured
    ensures Within(b)
  {
    forall q | q in b.payments ensures Reserved(b.refunds, q) <= b.payments[q].captured {
      if q != b.refunds[id].payment { RefundRowElsewhere(a.refunds, id, b.refunds[id], q); }
    }
  }

  lemma ReserveWithin(shop: Shop, id: string, payment: string, amount: Option<nat>, reason: Option<string>)
    requires Within(shop) && ReserveRefund(shop, id, payment, amount, reason).Fine?
    ensures Within(ReserveRefund(shop, id, payment, amount, reason).shop)
  {
    var b := ReserveRefund(shop, id, payment, amount, reason).shop;
    ReserveKind(shop, id, payment, amount, reason);
    RefundRowHere(shop.refunds, id, b.refunds[id]);
    RefundRowWithin(shop, b, id);
  }

  lemma RefundCallWithin(a: Shop, b: Shop, id: string)
    requires Within(a) && RefundWrite(a, b, id) && id in a.refunds
    requires Reserving(b.refunds[id].status) ==> Reserving(a.refunds[id].status)
    ensures Within(b)
  {
    RefundRowHere(a.refunds, id, b.refunds[id]);
    RefundRowWithin(a, b, id);
  }

  lemma AcceptedWithin(shop: Shop, id: string, provider: string)
    requires RefundsLinked(shop.refunds, shop.payments) && Within(shop) && RefundAccepted(shop, id, provider).Fine?
    ensures Within(RefundAccepted(shop, id, provider).shop)
  {
    RefundCallKind(shop, id, provider);
    var b := RefundAccepted(shop, id, provider).shop;
    if b != shop { RefundCallWithin(shop, b, id); }
  }

  lemma TurnedDownWithin(shop: Shop, id: string)
    requires RefundsLinked(shop.refunds, shop.payments) && Within(shop)
    ensures Within(RefundTurnedDown(shop, id).shop)
  {
    RefundCallKind(shop, id, "");
    var b := RefundTurnedDown(shop, id).shop;
    if b != shop { RefundCallWithin(shop, b, id); }
  }

  /** Every other service operation leaves payments and refunds alone. */
  lemma ServiceElsewhere(shop: Shop, request: Request)
    requires Serve(shop, request).Fine? && !request.Reserve? && !request.Accepted? && !request.TurnedDown?
    ensures Serve(shop, request).shop.payments == shop.payments && Serve(shop, request).shop.refunds == shop.refunds
  {
    match request
    case Order(id, total) => PlaceOrderKind(shop, id, total);
    case OrderSession(id, session) => OrderSessionKind(shop, id, session);
    case OrderFailed(id) => OrderFailedKind(shop, id);
    case Fulfill(id, next) => FulfillKind(shop, id, next);
    case Cancel(id, atPeriodEnd) => CancelKind(shop, id, atPeriodEnd);
    case Subscribe(id, subject, price) => SubscribeKind(shop, id, subject, price, "");
    case SubscriptionSession(id, session) => SubscribeKind(shop, id, "", "", session);
    case AddPrice(_, _) =>
  }

  lemma ServiceWithin(shop: Shop, request: Request)
    requires Balanced(shop) && Within(shop) && Serve(shop, request).Fine?
    ensures Within(Serve(shop, request).shop)
  {
    match request
    case Reserve(id, payment, amount, reason) => ReserveWithin(shop, id, payment, amount, reason);
    case Accepted(id, provider) => AcceptedWithin(shop, id, provider);
    case TurnedDown(id) => TurnedDownWithin(shop, id);
    case _ => ServiceElsewhere(shop, request);
  }

  /** A webhook's change of money, without the kinds only service operations make. */
  ghost predicate ProviderStep(a: Shop, b: Shop) {
    SameMoney(a, b) || (exists id :: PaymentWrite(a, b, id)) || (exists id :: RefundSettle(a, b, id))
  }

  lemma WebhookProviderStep(shop: Shop, at: Stamp, c: Content)
    ensures ProviderStep(shop, After(shop, Process(shop, at, c)))
  {
    assert SameMoney(shop, shop);
    match c
    case OrderCheckout(session, order, paid) => OrderCheckoutKind(shop, at, session, order, paid);
    case PaymentIntent(intent, order, subscription, amount, captured, status) =>
      PaymentIntentKind(shop, at, intent, order, subscription, amount, captured, status);
    case InvoiceEvent(local, provider, intent, amount, captured, status) =>
      InvoiceKind(shop, at, local, provider, intent, amount, captured, status);
    case RefundEvent(local, provider, status) => RefundEventKind(shop, at, local, provider, status);
    case SubscriptionEvent(local, provider, status, start, end, cancel) =>
      SubscriptionEventKind(shop, at, local, provider, status, start, end, cancel);
    case SubscriptionCheckout(session, id, provider) => CheckoutFrame(shop, session, id, provider);
    case CheckoutExpired(session) => ExpiryKind(shop, session);
    case Malformed(_) =>
    case Unrelated =>
    case NoObject =>
  }

  lemma GentleWithin(a: Shop, b: Shop)
    requires Balanced(a) && Within(a) && ProviderStep(a, b) && Gentle(a, b)
    ensures Within(b)
  {
    if id :| PaymentWrite(a, b, id) { PaymentEventExact(a, b, id); }
    else if id :| RefundSettle(a, b, id) { RefundEventExact(a, b, id); }
  }

  /** Every webhook of the run is gentle where it lands. */
  ghost predicate GentleRun(db: Db, actions: seq<Action>) {
    forall i :: 0 <= i < |actions| && actions[i].Webhook? ==>
      Gentle(Run(db, actions[..i]).shop, Act(Run(db, actions[..i]), actions[i]).shop)
  }

  /** As long as no event lowers a captured amount or revives a refund, reservations stay within the captured
      amount of every payment. */
  lemma {:induction false} ReservationsStayWithin(db: Db, actions: seq<Action>)
    requires Opening(db) && GentleRun(db, actions)
    ensures Within(Run(db, actions).shop)
  {
    if actions == [] {
    } else {
      var n := |actions| - 1;
      var before := Run(db, actions[..n]);
      assert forall i :: 0 <= i < n ==> actions[..n][..i] == actions[..i];
      ReservationsStayWithin(db, actions[..n]);
      TotalsAlwaysAgree(db, actions[..n]);
      match actions[n]
      case Webhook(delivery) =>
        ReceiveEffect(before, delivery);
        WebhookProviderStep(before.shop, delivery.at, delivery.content);
        if Act(before, actions[n]).shop != before.shop { GentleWithin(before.shop, Act(before, actions[n]).shop); }
      case Service(request) =>
        if Serve(before.shop, request).Fine? { ServiceWithin(before.shop, request); }
    }
  }

  /** After any gentle run the checked subtraction of create_refund succeeds on every payment. */
  lemma SubtractionNeverFails(db: Db, actions: seq<Action>, id: string, payment: string, amount: Option<nat>,
                              reason: Option<string>)
    requires Opening(db) && GentleRun(db, actions)
    requires payment in Run(db, actions).shop.payments && 0 < Run(db, actions).shop.payments[payment].captured
    ensures ReserveRefund(Run(db, actions).shop, id, payment, amount, reason) != Fault(Unavailable)
  {
    ReservationsStayWithin(db, actions);
  }

  // ---------------------------------------------------------------- what goes wrong otherwise

  lemma PairSum(refunds: map<string, Refund>, a: string, b: string, payment: string)
    requires refunds.Keys == {a, b} && a != b
    ensures Reserved(refunds, payment) == ReservedAmount(refunds, payment)(a) + ReservedAmount(refunds, payment)(b)
    ensures Succeeded(refunds, payment) == SucceededAmount(refunds, payment)(a) + SucceededAmount(refunds, payment)(b)
  {
    assert {a, b} - {a} == {b} && {b} - {b} == {};
    SumTake({a, b}, ReservedAmount(refunds, payment), a);
    SumTake({b}, ReservedAmount(refunds, payment), b);
    SumTake({a, b}, SucceededAmount(refunds, payment), a);
    SumTake({b}, SucceededAmount(refunds, payment), b);
  }

  function Half(status: RefundStatus): Refund { Refund("pi_1", status, 60, None, None, None) }

  /** 100 captured on one subscription payment. */
  ghost predicate HundredCaptured(shop: Shop) {
    "pi_1" in shop.payments && shop.payments["pi_1"].order.None? && shop.payments["pi_1"].status == Captured
    && shop.payments["pi_1"].captured == shop.payments["pi_1"].authorized == 100
  }

  /** A refund of 60 whose provider call fails is turned down, and its 60 are reserved again. */
  lemma FailedCallFreesItsAmount(shop: Shop)
    requires HundredCaptured(shop) && shop.refunds == map[]
    ensures ReserveRefund(shop, "r1", "pi_1", Some(60), None)
         == Fine(shop.(refunds := map["r1" := Half(RefundPending)]))
    ensures RefundTurnedDown(shop.(refunds := map["r1" := Half(RefundPending)]), "r1")
         == Fine(shop.(refunds := map["r1" := Half(RefundFailed)]))
    ensures ReserveRefund(shop.(refunds := map["r1" := Half(RefundFailed)]), "r2", "pi_1", Some(60), None)
         == Fine(shop.(refunds := map["r1" := Half(RefundFailed), "r2" := Half(RefundPending)]))
  {
    SumZero(shop.refunds.Keys, ReservedAmount(shop.refunds, "pi_1"));
    var failed := map["r1" := Half(RefundFailed)];
    SumZero(failed.Keys, ReservedAmount(failed, "pi_1"));
  }

  /** If the provider then reports the first refund succeeded after all, 120 of 100 captured are
      reserved, and the next refund request runs into the failing subtraction. */
  lemma RevivedRefundOverdraws(shop: Shop, at: Stamp)
    requires HundredCaptured(shop) && shop.refunds == map["r1" := Half(RefundFailed), "r2" := Half(RefundPending)]
    ensures ApplyRefund(shop, at, Some("r1"), "re_1", Some(RefundSucceeded)).Completed?
    ensures var after := ApplyRefund(shop, at, Some("r1"), "re_1", Some(RefundSucceeded)).shop;
      Reserved(after.refunds, "pi_1") == 120 && ReserveRefund(after, "r3", "pi_1", None, None) == Fault(Unavailable)
  {
    var back := shop.refunds["r1" := Half(RefundSucceeded).(provider := Some("re_1"), marker := Some(at))];
    PairSum(back, "r1", "r2", "pi_1");
    assert Succeeded(back, "pi_1") == 60 && Reserved(back, "pi_1") == 120;
    assert RefundUnique(shop.refunds, "r1", "re_1");
  }
}
