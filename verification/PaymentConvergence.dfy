/** One order's payment settles on the greatest event whatever the delivery order and whatever else the
    project does meanwhile. */
module PaymentConvergence {
  import opened Common
  import opened EventOrder
  import opened Commerce
  import opened CommerceRuns
  import opened CommerceFrames

  /** The order, its checkout session, its payment intent and its total: fixed for the whole story. */
  datatype Sale = Sale(order: string, session: string, intent: string, total: nat)

  /** What an acceptable event says about the payment. */
  datatype Claim = Claim(status: PaymentStatus, authorized: nat, captured: nat)

  /** Payment-intent events and checkout completions of this sale, of any validity. */
  predicate Concerns(c: Content, sale: Sale) {
    || (c.PaymentIntent? && c.intent == sale.intent && c.order == Some(sale.order) && c.subscription.None?)
    || (c.OrderCheckout? && c.placed == sale.order && (c.paid.Some? ==> c.paid.value.0 == sale.intent))
  }

  /** Events that name neither this order, nor its session, nor its payment intent. */
  predicate ContentElsewhere(c: Content, sale: Sale) {
    match c
    case OrderCheckout(_, placed, paid) => placed != sale.order && (paid.Some? ==> paid.value.0 != sale.intent)
    case PaymentIntent(intent, order, _, _, _, _) => intent != sale.intent && order != Some(sale.order)
    case InvoiceEvent(_, _, intent, _, _, _) => intent != Some(sale.intent)
    case CheckoutExpired(session) => session != sale.session
    case _ => true
  }

  /** Service operations that touch neither this order nor its payment, except that the order's fulfilment
      may start or be canceled. */
  predicate RequestElsewhere(request: Request, sale: Sale) {
    match request
    case Reserve(_, payment, _, _) => payment != sale.intent
    case Order(id, _) => id != sale.order
    case OrderSession(id, session) => id != sale.order && session != sale.session
    case OrderFailed(id) => id != sale.order
    case Fulfill(id, next) => id != sale.order || next != Fulfilled
    case _ => true
  }

  /** The claim an event makes, if it is about this sale and the handlers accept it; nothing here depends
      on the rows. */
  function ClaimOf(c: Content, sale: Sale): Option<Claim> {
    if !Concerns(c, sale) then None
    else if c.PaymentIntent? then
      if c.captured <= c.amount <= I64_MAX && c.status.Some? then Some(Claim(c.status.value, c.amount, c.captured))
      else None
    else
      if c.session == sale.session && c.paid.Some? && c.paid.value.1 == sale.total <= I64_MAX
      then Some(Claim(Captured, sale.total, sale.total)) else None
  }

  /** The payment row that one event alone calls for. */
  function Announced(event: Stamped<Claim>, sale: Sale): Payment {
    Payment(Some(sale.order), None, event.what.status, event.what.authorized, event.what.captured, 0, event.at)
  }

  /** All deliveries of a run, in order. */
  function Deliveries(actions: seq<Action>): seq<Delivery> {
    if actions == [] then []
    else
      var n := |actions| - 1;
      Deliveries(actions[..n]) + if actions[n].Webhook? then [actions[n].delivery] else []
  }

  /** The accepted claims in delivery order, redeliveries included. */
  function History(deliveries: seq<Delivery>, sale: Sale): seq<Stamped<Claim>> {
    if deliveries == [] then []
    else
      var n := |deliveries| - 1;
      var claim := ClaimOf(deliveries[n].content, sale);
      History(deliveries[..n], sale) + if claim.Some? then [Stamped(deliveries[n].at, claim.value)] else []
  }

  ghost predicate OneBodyPerId(deliveries: seq<Delivery>) {
    forall d, e :: d in deliveries && e in deliveries && d.at.id == e.at.id ==> d == e
  }

  /** An action of the run is an event of this sale or leaves the sale alone. */
  predicate Admissible(action: Action, sale: Sale) {
    match action
    case Webhook(d) => Concerns(d.content, sale) || ContentElsewhere(d.content, sale)
    case Service(request) => RequestElsewhere(request, sale)
  }

  /** The order is open, unrefunded and not yet fulfilled; no other order claims its intent or session, no
      other payment belongs to it, and its payment is not being refunded. */
  ghost predicate OnSale(shop: Shop, sale: Sale) {
    && sale.intent !in shop.foreign
    && sale.order in shop.orders
    && var order := shop.orders[sale.order];
    && order.session == Some(sale.session) && order.total == sale.total && order.refunded == 0
    && order.intent in {None, Some(sale.intent)}
    && order.fulfillment != Fulfilled && order.status !in {OrderRefunded, OrderPartlyRefunded}
    && Alone(shop, sale)
  }

  ghost predicate Alone(shop: Shop, sale: Sale) {
    && (forall o :: o in shop.orders && o != sale.order ==>
          shop.orders[o].intent != Some(sale.intent) && shop.orders[o].session != Some(sale.session))
    && (forall p :: p in shop.payments && p != sale.intent ==> shop.payments[p].order != Some(sale.order))
    && (forall r :: r in shop.refunds ==> shop.refunds[r].payment != sale.intent)
  }

  /** A run of sale events and other business, from a sale without payment. */
  ghost predicate Story(start: Db, actions: seq<Action>, sale: Sale) {
    && OnSale(start.shop, sale) && sale.intent !in start.shop.payments
    && (forall a :: a in actions ==> Admissible(a, sale))
    && OneBodyPerId(Deliveries(actions))
    && (forall d :: d in Deliveries(actions) && Concerns(d.content, sale) ==> d.at.id !in start.ledger)
  }

  ghost predicate Tracks(shop: Shop, history: seq<Stamped<Claim>>, sale: Sale) {
    && OnSale(shop, sale)
    && (sale.intent in shop.payments <==> history != [])
    && (history != [] ==>
          && Latest(history).Some?
          && shop.payments[sale.intent] == Announced(Latest(history).value, sale)
          && shop.orders[sale.order].status == OrderStatusFor(Latest(history).value.what.status)
          && shop.orders[sale.order].intent == Some(sale.intent))
  }

  // ---------------------------------------------------------------- other business

  /** The sale's own rows are the same, up to a fulfilment that is not complete, and nothing else has come
      near them. */
  ghost predicate SaleKept(a: Shop, b: Shop, sale: Sale) {
    && b.foreign == a.foreign && Alone(b, sale)
    && sale.order in a.orders && sale.order in b.orders && SameSale(a.orders[sale.order], b.orders[sale.order])
    && (sale.intent in b.payments <==> sale.intent in a.payments)
    && (sale.intent in a.payments ==> b.payments[sale.intent] == a.payments[sale.intent])
  }

  predicate SameSale(a: Order, b: Order) {
    b == a.(fulfillment := b.fulfillment) && (b.fulfillment == a.fulfillment || b.fulfillment != Fulfilled)
  }

  lemma SaleKeptTracks(a: Shop, b: Shop, history: seq<Stamped<Claim>>, sale: Sale)
    requires Tracks(a, history, sale) && SaleKept(a, b, sale)
    ensures Tracks(b, history, sale)
  {
  }

  lemma SaleKeptTransitive(a: Shop, b: Shop, c: Shop, sale: Sale)
    requires SaleKept(a, b, sale) && SaleKept(b, c, sale)
    ensures SaleKept(a, c, sale)
  {
  }

  lemma StoreElsewhere(shop: Shop, id: string, order: Order, sale: Sale)
    requires sale.order in shop.orders && Alone(shop, sale) && id != sale.order
    requires order.intent != Some(sale.intent) && order.session != Some(sale.session)
    ensures SaleKept(shop, After(shop, StoreOrder(shop, id, order)), sale)
  {
  }

  lemma UpsertElsewhere(shop: Shop, order: Option<string>, subscription: Option<string>, intent: string,
                        status: PaymentStatus, authorized: nat, captured: nat, at: Stamp, sale: Sale)
    requires sale.order in shop.orders && Alone(shop, sale) && intent != sale.intent && order != Some(sale.order)
    ensures var up := UpsertPayment(shop, order, subscription, intent, status, authorized, captured, at);
      && (up.Stored? ==> SaleKept(shop, up.shop, sale) && up.shop.orders == shop.orders)
      && (up.Refused? ==> After(shop, up.effect) == shop)
  {
    var up := UpsertPayment(shop, order, subscription, intent, status, authorized, captured, at);
    if up.Stored? { assert up.shop == shop.(payments := shop.payments[intent := up.shop.payments[intent]]); }
  }

  lemma PaymentIntentElsewhere(shop: Shop, at: Stamp, intent: string, order: Option<string>,
                               subscription: Option<string>, amount: nat, captured: nat,
                               status: Option<PaymentStatus>, sale: Sale)
    requires sale.order in shop.orders && Alone(shop, sale) && intent != sale.intent && order != Some(sale.order)
    ensures var effect := ApplyPaymentIntent(shop, at, intent, order, subscription, amount, captured, status);
      SaleKept(shop, After(shop, effect), sale)
  {
    if status.Some? {
      UpsertElsewhere(shop, order, subscription, intent, status.value, amount, captured, at, sale);
      var up := UpsertPayment(shop, order, subscription, intent, status.value, amount, captured, at);
      if up.Stored? && order.Some? && order.value in up.shop.orders {
        var row := up.shop.orders[order.value].(status := OrderStatusFor(status.value), intent := Some(intent));
        StoreElsewhere(up.shop, order.value, row, sale);
        SaleKeptTransitive(shop, up.shop, After(up.shop, StoreOrder(up.shop, order.value, row)), sale);
      }
    }
  }

  lemma OrderCheckoutElsewhere(shop: Shop, at: Stamp, session: string, order: string, paid: Option<(string, nat)>,
                               sale: Sale)
    requires sale.order in shop.orders && Alone(shop, sale)
    requires order != sale.order && (paid.Some? ==> paid.value.0 != sale.intent)
    ensures SaleKept(shop, After(shop, ApplyOrderCheckout(shop, at, session, order, paid)), sale)
  {
    if order in shop.orders {
      if paid.None? {
        StoreElsewhere(shop, order, shop.orders[order].(status := Processing), sale);
      } else {
        var (intent, amount) := paid.value;
        UpsertElsewhere(shop, Some(order), None, intent, Captured, amount, amount, at, sale);
        var up := UpsertPayment(shop, Some(order), None, intent, Captured, amount, amount, at);
        if up.Stored? {
          var row := up.shop.orders[order].(status := OrderPaid, intent := Some(intent));
          StoreElsewhere(up.shop, order, row, sale);
          SaleKeptTransitive(shop, up.shop, After(up.shop, StoreOrder(up.shop, order, row)), sale);
        }
      }
    }
  }

  lemma InvoiceElsewhere(shop: Shop, at: Stamp, local: Option<string>, provider: Option<string>,
                         intent: Option<string>, amount: nat, captured: nat, status: PaymentStatus, sale: Sale)
    requires sale.order in shop.orders && Alone(shop, sale) && intent != Some(sale.intent)
    ensures SaleKept(shop, After(shop, ApplyInvoice(shop, at, local, provider, intent, amount, captured, status)), sale)
  {
    if intent.Some? {
      forall found: Option<string>
        ensures var up := UpsertPayment(shop, None, found, intent.value, status, amount, captured, at);
          && (up.Stored? ==> SaleKept(shop, up.shop, sale)) && (up.Refused? ==> After(shop, up.effect) == shop)
      {
        UpsertElsewhere(shop, None, found, intent.value, status, amount, captured, at, sale);
      }
    }
  }

  /** Totals of another payment are settled on rows that are not the sale's. */
  lemma SettledPaymentElsewhere(shop: Shop, intent: string, row: Payment, sale: Sale)
    requires sale.order in shop.orders && Alone(shop, sale) && intent != sale.intent && intent in shop.payments
    requires row.order == shop.payments[intent].order
    ensures SaleKept(shop, shop.(payments := shop.payments[intent := row]), sale)
  {
  }

  /** Recomputing leaves the tables, or writes the payment, or writes the payment and then its order. */
  lemma RecomputeCases(shop: Shop, intent: string, row: Payment)
    requires intent in shop.payments
    requires row == shop.payments[intent].(
      refunded := Succeeded(shop.refunds, intent),
      status := PaymentStatusAfter(Succeeded(shop.refunds, intent), shop.payments[intent].captured))
    ensures var paid, after := shop.(payments := shop.payments[intent := row]), After(shop, Recompute(shop, intent));
      || after == shop || after == paid
      || (row.order.Some? && row.order.value in shop.orders
          && var refunded := OrderRefundedTotal(paid.payments, row.order.value);
          && var order := shop.orders[row.order.value].(
               refunded := refunded, status := OrderStatusAfter(refunded, shop.orders[row.order.value].total));
          && after == After(paid, StoreOrder(paid, row.order.value, order)))
  {
  }

  lemma SaleKeptReflexive(shop: Shop, sale: Sale)
    requires sale.order in shop.orders && Alone(shop, sale)
    ensures SaleKept(shop, shop, sale)
  {
  }

  lemma RecomputeElsewhere(shop: Shop, intent: string, sale: Sale)
    requires sale.order in shop.orders && Alone(shop, sale) && intent != sale.intent
    ensures SaleKept(shop, After(shop, Recompute(shop, intent)), sale)
  {
    SaleKeptReflexive(shop, sale);
    if intent in shop.payments {
      var row := shop.payments[intent].(
        refunded := Succeeded(shop.refunds, intent),
        status := PaymentStatusAfter(Succeeded(shop.refunds, intent), shop.payments[intent].captured));
      RecomputeCases(shop, intent, row);
      SettledPaymentElsewhere(shop, intent, row, sale);
      if row.order.Some? && row.order.value in shop.orders {
        SettledOrderElsewhere(shop, shop.(payments := shop.payments[intent := row]), row.order.value, sale);
      }
    }
  }

  lemma SettledOrderElsewhere(shop: Shop, paid: Shop, o: string, sale: Sale)
    requires SaleKept(shop, paid, sale) && paid.orders == shop.orders && o in shop.orders && o != sale.order
    ensures var refunded := OrderRefundedTotal(paid.payments, o);
      var order := shop.orders[o].(refunded := refunded, status := OrderStatusAfter(refunded, shop.orders[o].total));
      SaleKept(shop, After(paid, StoreOrder(paid, o, order)), sale)
  {
    var refunded := OrderRefundedTotal(paid.payments, o);
    var order := shop.orders[o].(refunded := refunded, status := OrderStatusAfter(refunded, shop.orders[o].total));
    StoreElsewhere(paid, o, order, sale);
    SaleKeptTransitive(shop, paid, After(paid, StoreOrder(paid, o, order)), sale);
  }

  lemma RefundElsewhere(shop: Shop, at: Stamp, local: Option<string>, provider: string, status: Option<RefundStatus>,
                        sale: Sale)
    requires sale.order in shop.orders && Alone(shop, sale)
    ensures SaleKept(shop, After(shop, ApplyRefund(shop, at, local, provider, status)), sale)
  {
    RefundShape(shop, at, local, provider, status);
    var b := After(shop, ApplyRefund(shop, at, local, provider, status));
    if b != shop {
      var id := RefundNamed(shop, local, provider).value;
      var row := Rewritten(shop.refunds[id], at, provider, status.value);
      var written := shop.(refunds := shop.refunds[id := row]);
      RefundWriteElsewhere(shop, id, row, sale);
      RecomputeElsewhere(written, row.payment, sale);
      SaleKeptTransitive(shop, written, b, sale);
    }
  }

  lemma RefundWriteElsewhere(shop: Shop, id: string, row: Refund, sale: Sale)
    requires sale.order in shop.orders && Alone(shop, sale) && row.payment != sale.intent
    ensures SaleKept(shop, shop.(refunds := shop.refunds[id := row]), sale)
  {
  }

  lemma OrdersElsewhere(shop: Shop, orders: map<string, Order>, sale: Sale)
    requires Alone(shop, sale) && sale.order in shop.orders && sale.order in orders
    requires orders[sale.order] == shop.orders[sale.order] && orders.Keys == shop.orders.Keys
    requires forall o :: o in orders ==>
      orders[o].intent == shop.orders[o].intent && orders[o].session == shop.orders[o].session
    ensures SaleKept(shop, shop.(orders := orders), sale)
  {
  }

  lemma ExpiryElsewhere(shop: Shop, session: string, sale: Sale)
    requires OnSale(shop, sale) && session != sale.session
    ensures SaleKept(shop, After(shop, ApplyCheckoutExpired(shop, session)), sale)
  {
    var orders := map id | id in shop.orders :: ExpireOrder(shop.orders[id], session);
    OrdersElsewhere(shop, orders, sale);
  }

  lemma ContentElsewhereKeeps(shop: Shop, at: Stamp, c: Content, sale: Sale)
    requires OnSale(shop, sale) && ContentElsewhere(c, sale)
    ensures SaleKept(shop, After(shop, Process(shop, at, c)), sale)
  {
    match c
    case OrderCheckout(session, order, paid) => OrderCheckoutElsewhere(shop, at, session, order, paid, sale);
    case PaymentIntent(intent, order, subscription, amount, captured, status) =>
      PaymentIntentElsewhere(shop, at, intent, order, subscription, amount, captured, status, sale);
    case InvoiceEvent(local, provider, intent, amount, captured, status) =>
      InvoiceElsewhere(shop, at, local, provider, intent, amount, captured, status, sale);
    case RefundEvent(local, provider, status) => RefundElsewhere(shop, at, local, provider, status, sale);
    case CheckoutExpired(session) => ExpiryElsewhere(shop, session, sale);
    case SubscriptionEvent(local, provider, status, start, end, cancel) =>
      SubscriptionFrame(shop, at, local, provider, status, start, end, cancel);
    case SubscriptionCheckout(session, id, provider) => CheckoutFrame(shop, session, id, provider);
    case _ =>
  }

  /** Writing another order that stays away from the intent and the session. */
  lemma OrderWriteElsewhere(shop: Shop, id: string, row: Order, sale: Sale)
    requires sale.order in shop.orders && Alone(shop, sale) && id != sale.order
    requires row.intent != Some(sale.intent) && row.session != Some(sale.session)
    ensures SaleKept(shop, shop.(orders := shop.orders[id := row]), sale)
  {
  }

  lemma PlaceElsewhere(shop: Shop, id: string, total: nat, sale: Sale)
    requires OnSale(shop, sale) && id != sale.order && PlaceOrder(shop, id, total).Fine?
    ensures SaleKept(shop, PlaceOrder(shop, id, total).shop, sale)
  {
    OrderWriteElsewhere(shop, id, PlaceOrder(shop, id, total).shop.orders[id], sale);
  }

  lemma SessionElsewhere(shop: Shop, id: string, session: string, sale: Sale)
    requires OnSale(shop, sale) && id != sale.order && session != sale.session
    requires OpenOrderCheckout(shop, id, session).Fine?
    ensures SaleKept(shop, OpenOrderCheckout(shop, id, session).shop, sale)
  {
    if id in shop.orders {
      StoreElsewhere(shop, id, shop.orders[id].(status := CheckoutCreated, session := Some(session)), sale);
    }
  }

  lemma FailedElsewhere(shop: Shop, id: string, sale: Sale)
    requires OnSale(shop, sale) && id != sale.order
    ensures SaleKept(shop, OrderCheckoutFailed(shop, id).shop, sale)
  {
    if id in shop.orders { OrderWriteElsewhere(shop, id, shop.orders[id].(status := PaymentFailed), sale); }
  }

  lemma FulfillElsewhere(shop: Shop, id: string, next: Fulfillment, sale: Sale)
    requires OnSale(shop, sale) && (id != sale.order || next != Fulfilled) && UpdateFulfillment(shop, id, next).Fine?
    ensures SaleKept(shop, UpdateFulfillment(shop, id, next).shop, sale)
  {
    if id == sale.order {
      FulfillmentOnly(shop, next, sale);
    } else {
      OrderWriteElsewhere(shop, id, shop.orders[id].(fulfillment := next), sale);
    }
  }

  lemma FulfillmentOnly(shop: Shop, next: Fulfillment, sale: Sale)
    requires sale.order in shop.orders && Alone(shop, sale) && next != Fulfilled
    ensures SaleKept(shop,
                     shop.(orders := shop.orders[sale.order := shop.orders[sale.order].(fulfillment := next)]), sale)
  {
  }

  lemma RefundServiceElsewhere(shop: Shop, request: Request, sale: Sale)
    requires OnSale(shop, sale) && RequestElsewhere(request, sale) && Serve(shop, request).Fine?
    requires request.Reserve? || request.Accepted? || request.TurnedDown?
    ensures SaleKept(shop, Serve(shop, request).shop, sale)
  {
    var b := Serve(shop, request).shop;
    if b != shop {
      var id := request.id;
      assert b == shop.(refunds := shop.refunds[id := b.refunds[id]]);
      RefundWriteElsewhere(shop, id, b.refunds[id], sale);
    }
  }

  lemma SubscriptionServiceElsewhere(shop: Shop, request: Request, sale: Sale)
    requires OnSale(shop, sale) && Serve(shop, request).Fine?
    requires request.Cancel? || request.Subscribe? || request.SubscriptionSession? || request.AddPrice?
    ensures SaleKept(shop, Serve(shop, request).shop, sale)
  {
    var b := Serve(shop, request).shop;
    assert b.orders == shop.orders && b.payments == shop.payments
      && b.refunds == shop.refunds && b.foreign == shop.foreign;
  }

  lemma RequestElsewhereKeeps(shop: Shop, request: Request, sale: Sale)
    requires OnSale(shop, sale) && RequestElsewhere(request, sale) && Serve(shop, request).Fine?
    ensures SaleKept(shop, Serve(shop, request).shop, sale)
  {
    match request
    case Order(id, total) => PlaceElsewhere(shop, id, total, sale);
    case OrderSession(id, session) => SessionElsewhere(shop, id, session, sale);
    case OrderFailed(id) => FailedElsewhere(shop, id, sale);
    case Fulfill(id, next) => FulfillElsewhere(shop, id, next, sale);
    case Reserve(_, _, _, _) => RefundServiceElsewhere(shop, request, sale);
    case Accepted(_, _) => RefundServiceElsewhere(shop, request, sale);
    case TurnedDown(_) => RefundServiceElsewhere(shop, request, sale);
    case _ => SubscriptionServiceElsewhere(shop, request, sale);
  }

  // ---------------------------------------------------------------- one delivery of the sale

  /** What the handlers write for an acceptable claim that is newer than the row. */
  ghost function Recorded(shop: Shop, event: Stamped<Claim>, sale: Sale): Shop
    requires sale.order in shop.orders
  {
    shop.(payments := shop.payments[sale.intent := Announced(event, sale)],
          orders := shop.orders[sale.order :=
            shop.orders[sale.order].(status := OrderStatusFor(event.what.status), intent := Some(sale.intent))])
  }

  /** A claim that is not newer than the row changes nothing. */
  ghost function Heard(shop: Shop, event: Stamped<Claim>, sale: Sale): Shop
    requires sale.order in shop.orders
  {
    if sale.intent in shop.payments && !Before(shop.payments[sale.intent].marker, event.at) then shop
    else Recorded(shop, event, sale)
  }

  lemma SettledOrderFits(shop: Shop, sale: Sale, status: OrderStatus)
    requires OnSale(shop, sale)
    ensures var row := shop.orders[sale.order].(status := status, intent := Some(sale.intent));
      OrderAllowed(row) && OrderUnique(shop.orders, sale.order, row)
  {
  }

  lemma ClaimStep(shop: Shop, at: Stamp, c: Content, sale: Sale)
    requires OnSale(shop, sale) && ClaimOf(c, sale).Some?
    requires sale.intent in shop.payments ==>
      var row := shop.payments[sale.intent];
      row.order == Some(sale.order) && row.subscription.None? && row.refunded == 0
    ensures Process(shop, at, c) == Completed(Heard(shop, Stamped(at, ClaimOf(c, sale).value), sale))
  {
    SettledOrderFits(shop, sale, OrderStatusFor(ClaimOf(c, sale).value.status));
  }

  lemma RefusedStep(shop: Shop, at: Stamp, c: Content, sale: Sale, history: seq<Stamped<Claim>>)
    requires Tracks(shop, history, sale) && Concerns(c, sale) && ClaimOf(c, sale).None?
    ensures !Process(shop, at, c).Aborted? ==> Tracks(Process(shop, at, c).shop, history, sale)
  {
    if Process(shop, at, c).Completed? && Process(shop, at, c).shop != shop {
      assert c.OrderCheckout? && c.paid.None? && history == [];
      assert Process(shop, at, c).shop
          == shop.(orders := shop.orders[sale.order := shop.orders[sale.order].(status := Processing)]);
    }
  }

  lemma RecordedOnSale(shop: Shop, event: Stamped<Claim>, sale: Sale)
    requires OnSale(shop, sale)
    ensures OnSale(Recorded(shop, event, sale), sale)
  {
  }

  lemma ClaimTracks(shop: Shop, event: Stamped<Claim>, sale: Sale, history: seq<Stamped<Claim>>)
    requires Tracks(shop, history, sale) && forall x :: x in history ==> x.at != event.at
    ensures Tracks(Heard(shop, event, sale), history + [event], sale)
  {
    RecordedOnSale(shop, event, sale);
    assert (history + [event])[..|history|] == history;
    if history != [] {
      LatestDominates(history);
      BeforeTotal(event.at, Latest(history).value.at);
    }
  }

  // ---------------------------------------------------------------- histories

  /** The delivery makes this claim. */
  predicate Makes(d: Delivery, x: Stamped<Claim>, sale: Sale) {
    ClaimOf(d.content, sale) == Some(x.what) && d.at == x.at
  }

  lemma LastClaim(deliveries: seq<Delivery>, x: Stamped<Claim>, sale: Sale)
    requires deliveries != []
    ensures var n := |deliveries| - 1;
      x in History(deliveries, sale) <==> x in History(deliveries[..n], sale) || Makes(deliveries[n], x, sale)
  {
  }

  /** A claim is in the history exactly if some delivery makes it. */
  lemma {:induction false} HistoryMember(deliveries: seq<Delivery>, x: Stamped<Claim>, sale: Sale)
    ensures x in History(deliveries, sale) <==> exists d :: d in deliveries && Makes(d, x, sale)
  {
    if deliveries == [] {
    } else {
      var n := |deliveries| - 1;
      HistoryMember(deliveries[..n], x, sale);
      LastClaim(deliveries, x, sale);
      assert deliveries[n] in deliveries && forall d :: d in deliveries[..n] ==> d in deliveries;
      assert forall d :: d in deliveries ==> d in deliveries[..n] || d == deliveries[n];
    }
  }

  lemma HistoryMembers(deliveries: seq<Delivery>, sale: Sale)
    ensures forall x :: x in History(deliveries, sale) <==> exists d :: d in deliveries && Makes(d, x, sale)
  {
    forall x ensures x in History(deliveries, sale) <==> exists d :: d in deliveries && Makes(d, x, sale) {
      HistoryMember(deliveries, x, sale);
    }
  }

  lemma {:induction false} HistoryEmpty(deliveries: seq<Delivery>, sale: Sale)
    ensures History(deliveries, sale) == [] <==> forall d :: d in deliveries ==> ClaimOf(d.content, sale).None?
  {
    if deliveries == [] {
    } else {
      var n := |deliveries| - 1;
      HistoryEmpty(deliveries[..n], sale);
      assert deliveries[n] in deliveries && forall d :: d in deliveries[..n] ==> d in deliveries;
      assert forall d :: d in deliveries ==> d in deliveries[..n] || d == deliveries[n];
    }
  }

  lemma HistoryOneBody(deliveries: seq<Delivery>, sale: Sale)
    requires OneBodyPerId(deliveries)
    ensures OneBodyPerStamp(History(deliveries, sale))
  {
    HistoryMembers(deliveries, sale);
  }

  lemma HistoryStep(before: seq<Delivery>, last: Delivery, sale: Sale)
    ensures var claim := ClaimOf(last.content, sale);
      History(before + [last], sale)
      == History(before, sale) + if claim.Some? then [Stamped(last.at, claim.value)] else []
  {
    assert (before + [last])[..|before|] == before;
  }

  // ---------------------------------------------------------------- the ledger

  /** Nothing is recorded that was not there or delivered. */
  ghost predicate OnlyHeard(start: map<string, Entry>, ledger: map<string, Entry>, heard: seq<Delivery>) {
    forall id :: id in ledger ==> id in start || exists d :: d in heard && d.at.id == id
  }

  /** Every acceptable delivery of the sale is recorded as processed, under the payload it came with. */
  ghost predicate AllProcessed(ledger: map<string, Entry>, heard: seq<Delivery>, sale: Sale) {
    forall d :: d in heard && ClaimOf(d.content, sale).Some? ==>
      d.at.id in ledger && ledger[d.at.id] == Entry(d.payload, true, false)
  }

  /** The ledger after a delivery: unchanged, or with an entry of its own. */
  ghost predicate Noted(a: map<string, Entry>, b: map<string, Entry>, d: Delivery) {
    b == a || (d.at.id in b && b == a[d.at.id := b[d.at.id]])
  }

  lemma ReceiveNotes(db: Db, d: Delivery)
    ensures Noted(db.ledger, Receive(db, d).0.ledger, d)
  {
  }

  lemma OnlyHeardStep(start: map<string, Entry>, a: map<string, Entry>, b: map<string, Entry>, heard: seq<Delivery>,
                      d: Delivery)
    requires OnlyHeard(start, a, heard) && Noted(a, b, d)
    ensures OnlyHeard(start, b, heard + [d])
  {
    forall id | id in b ensures id in start || exists e :: e in heard + [d] && e.at.id == id {
      if id == d.at.id {
        assert d in heard + [d];
      } else if id !in start {
        var e :| e in heard && e.at.id == id;
        assert e in heard + [d];
      }
    }
  }

  lemma AllProcessedStep(a: map<string, Entry>, b: map<string, Entry>, heard: seq<Delivery>, d: Delivery, sale: Sale)
    requires AllProcessed(a, heard, sale) && Noted(a, b, d) && OneBodyPerId(heard + [d])
    requires ClaimOf(d.content, sale).Some? ==> d.at.id in b && b[d.at.id] == Entry(d.payload, true, false)
    ensures AllProcessed(b, heard + [d], sale)
  {
    forall e | e in heard + [d] && ClaimOf(e.content, sale).Some?
      ensures e.at.id in b && b[e.at.id] == Entry(e.payload, true, false)
    {
      assert d in heard + [d];
      if e.at.id != d.at.id { assert e in heard; }
    }
  }

  // ---------------------------------------------------------------- one action

  /** The database reflects exactly these deliveries. */
  ghost predicate Reflects(start: Db, db: Db, heard: seq<Delivery>, sale: Sale) {
    && OnlyHeard(start.ledger, db.ledger, heard) && AllProcessed(db.ledger, heard, sale)
    && Tracks(db.shop, History(heard, sale), sale)
  }

  lemma ReflectsShop(start: Db, db: Db, after: Db, heard: seq<Delivery>, d: Delivery, sale: Sale)
    requires Reflects(start, db, heard, sale) && Noted(db.ledger, after.ledger, d) && OneBodyPerId(heard + [d])
    requires ClaimOf(d.content, sale).Some? ==>
      d.at.id in after.ledger && after.ledger[d.at.id] == Entry(d.payload, true, false)
    requires Tracks(after.shop, History(heard + [d], sale), sale)
    ensures Reflects(start, after, heard + [d], sale)
  {
    OnlyHeardStep(start.ledger, db.ledger, after.ledger, heard, d);
    AllProcessedStep(db.ledger, after.ledger, heard, d, sale);
  }

  /** Other business and refused events leave the sale as it is. */
  lemma UnclaimedTracks(db: Db, d: Delivery, history: seq<Stamped<Claim>>, sale: Sale)
    requires Tracks(db.shop, history, sale) && ClaimOf(d.content, sale).None?
    requires Concerns(d.content, sale) || ContentElsewhere(d.content, sale)
    ensures Tracks(Receive(db, d).0.shop, history, sale)
  {
    ReceiveEffect(db, d);
    if Concerns(d.content, sale) {
      RefusedStep(db.shop, d.at, d.content, sale, history);
    } else {
      ContentElsewhereKeeps(db.shop, d.at, d.content, sale);
      SaleKeptTracks(db.shop, After(db.shop, Process(db.shop, d.at, d.content)), history, sale);
    }
  }

  lemma UnclaimedDelivery(start: Db, db: Db, heard: seq<Delivery>, d: Delivery, sale: Sale)
    requires Reflects(start, db, heard, sale) && ClaimOf(d.content, sale).None? && OneBodyPerId(heard + [d])
    requires Concerns(d.content, sale) || ContentElsewhere(d.content, sale)
    ensures Reflects(start, Receive(db, d).0, heard + [d], sale)
  {
    UnclaimedTracks(db, d, History(heard, sale), sale);
    HistoryStep(heard, d, sale);
    assert History(heard + [d], sale) == History(heard, sale);
    ReceiveNotes(db, d);
    ReflectsShop(start, db, Receive(db, d).0, heard, d, sale);
  }

  lemma RepeatedDelivery(start: Db, db: Db, heard: seq<Delivery>, d: Delivery, sale: Sale)
    requires Reflects(start, db, heard, sale) && OneBodyPerId(heard + [d]) && d in heard
    requires ClaimOf(d.content, sale).Some?
    ensures Reflects(start, Receive(db, d).0, heard + [d], sale)
  {
    assert Receive(db, d).0 == db;
    assert forall e :: e in heard ==> e in heard + [d];
    var again := Stamped(d.at, ClaimOf(d.content, sale).value);
    assert Makes(d, again, sale);
    HistoryMember(heard, again, sale);
    HistoryOneBody(heard, sale);
    RepeatTracks(db.shop, History(heard, sale), again, sale);
    HistoryStep(heard, d, sale);
    ReflectsShop(start, db, db, heard, d, sale);
  }

  lemma RepeatTracks(shop: Shop, history: seq<Stamped<Claim>>, again: Stamped<Claim>, sale: Sale)
    requires Tracks(shop, history, sale) && again in history && OneBodyPerStamp(history)
    ensures Tracks(shop, history + [again], sale)
  {
    LatestRepeat(history, again);
  }

  lemma FirstReceived(db: Db, d: Delivery, sale: Sale, history: seq<Stamped<Claim>>)
    requires Tracks(db.shop, history, sale) && ClaimOf(d.content, sale).Some?
    requires d.at.id !in db.ledger && forall x :: x in history ==> x.at != d.at
    ensures Tracks(Receive(db, d).0.shop, history + [Stamped(d.at, ClaimOf(d.content, sale).value)], sale)
    ensures Receive(db, d).0.ledger == db.ledger[d.at.id := Entry(d.payload, true, false)]
  {
    ClaimStep(db.shop, d.at, d.content, sale);
    ClaimTracks(db.shop, Stamped(d.at, ClaimOf(d.content, sale).value), sale, history);
  }

  lemma FirstDelivery(start: Db, db: Db, heard: seq<Delivery>, d: Delivery, sale: Sale)
    requires Reflects(start, db, heard, sale) && OneBodyPerId(heard + [d]) && ClaimOf(d.content, sale).Some?
    requires d !in heard && d.at.id !in start.ledger
    ensures Reflects(start, Receive(db, d).0, heard + [d], sale)
  {
    assert d in heard + [d] && forall e :: e in heard ==> e in heard + [d];
    HistoryMembers(heard, sale);
    assert d.at.id !in db.ledger;
    FirstReceived(db, d, sale, History(heard, sale));
    HistoryStep(heard, d, sale);
    ReflectsShop(start, db, Receive(db, d).0, heard, d, sale);
  }

  lemma ServiceStep(start: Db, db: Db, heard: seq<Delivery>, request: Request, sale: Sale)
    requires Reflects(start, db, heard, sale) && RequestElsewhere(request, sale)
    ensures Reflects(start, Act(db, Service(request)), heard, sale)
  {
    if Serve(db.shop, request).Fine? {
      RequestElsewhereKeeps(db.shop, request, sale);
      SaleKeptTracks(db.shop, Serve(db.shop, request).shop, History(heard, sale), sale);
    }
  }

  lemma DeliveryStep(start: Db, db: Db, heard: seq<Delivery>, d: Delivery, sale: Sale)
    requires Reflects(start, db, heard, sale) && OneBodyPerId(heard + [d])
    requires Concerns(d.content, sale) || ContentElsewhere(d.content, sale)
    requires Concerns(d.content, sale) ==> d.at.id !in start.ledger
    ensures Reflects(start, Receive(db, d).0, heard + [d], sale)
  {
    if ClaimOf(d.content, sale).None? {
      UnclaimedDelivery(start, db, heard, d, sale);
    } else if d in heard {
      RepeatedDelivery(start, db, heard, d, sale);
    } else {
      FirstDelivery(start, db, heard, d, sale);
    }
  }

  // ---------------------------------------------------------------- all actions

  lemma StoryPrefix(start: Db, actions: seq<Action>, sale: Sale)
    requires actions != [] && Story(start, actions, sale)
    ensures Story(start, actions[..|actions| - 1], sale) && Admissible(actions[|actions| - 1], sale)
  {
    var n := |actions| - 1;
    assert actions[n] in actions && forall a :: a in actions[..n] ==> a in actions;
    assert forall d :: d in Deliveries(actions[..n]) ==> d in Deliveries(actions);
  }

  /** The deliveries an action adds. */
  function Adds(action: Action): seq<Delivery> { if action.Webhook? then [action.delivery] else [] }

  lemma ActionStep(start: Db, db: Db, heard: seq<Delivery>, action: Action, sale: Sale)
    requires Reflects(start, db, heard, sale) && Admissible(action, sale) && OneBodyPerId(heard + Adds(action))
    requires action.Webhook? && Concerns(action.delivery.content, sale) ==> action.delivery.at.id !in start.ledger
    ensures Reflects(start, Act(db, action), heard + Adds(action), sale)
  {
    match action
    case Webhook(d) => DeliveryStep(start, db, heard, d, sale);
    case Service(request) =>
      ServiceStep(start, db, heard, request, sale);
      assert heard + [] == heard;
  }

  lemma RunLast(start: Db, actions: seq<Action>)
    requires actions != []
    ensures Run(start, actions) == Act(Run(start, actions[..|actions| - 1]), actions[|actions| - 1])
    ensures Deliveries(actions) == Deliveries(actions[..|actions| - 1]) + Adds(actions[|actions| - 1])
  {
  }

  lemma {:induction false} StoryReflected(start: Db, actions: seq<Action>, sale: Sale)
    requires Story(start, actions, sale)
    ensures Reflects(start, Run(start, actions), Deliveries(actions), sale)
  {
    if actions == [] {
    } else {
      var n := |actions| - 1;
      StoryPrefix(start, actions, sale);
      StoryReflected(start, actions[..n], sale);
      assert actions[n].Webhook? ==> actions[n].delivery in Deliveries(actions);
      ActionStep(start, Run(start, actions[..n]), Deliveries(actions[..n]), actions[n], sale);
      RunLast(start, actions);
    }
  }

  /** What the order says after a payment event: paid for a captured payment, failed for a failed one, canceled
      for a canceled one, in progress for every other. */
  predicate Shows(order: OrderStatus, payment: PaymentStatus) {
    && (order == OrderPaid <==> payment == Captured)
    && (order == PaymentFailed <==> payment == Failed)
    && (order == OrderCanceled <==> payment == PaymentCanceled)
    && (order == Processing <==> payment !in {Captured, Failed, PaymentCanceled})
  }

  lemma StatusShows(status: PaymentStatus)
    ensures Shows(OrderStatusFor(status), status)
  {
  }

  /** The event decides the sale: it is acceptable, later than every other acceptable one, and payment row and
      order status are what it says. */
  ghost predicate Decides(d: Delivery, heard: seq<Delivery>, shop: Shop, sale: Sale) {
    && d in heard && ClaimOf(d.content, sale).Some?
    && (forall e :: e in heard && ClaimOf(e.content, sale).Some? ==> e == d || Before(e.at, d.at))
    && sale.intent in shop.payments && sale.order in shop.orders
    && var claim := ClaimOf(d.content, sale).value;
    && shop.payments[sale.intent]
       == Payment(Some(sale.order), None, claim.status, claim.authorized, claim.captured, 0, d.at)
    && Shows(shop.orders[sale.order].status, claim.status)
  }

  /** One of the deliveries decides the sale, or there is no payment and none was acceptable. */
  ghost predicate Settled(shop: Shop, heard: seq<Delivery>, sale: Sale) {
    if sale.intent in shop.payments then exists d :: Decides(d, heard, shop, sale)
    else forall e :: e in heard ==> ClaimOf(e.content, sale).None?
  }

  /** Whatever the order and number of deliveries and whatever else the project does meanwhile, the payment
      row is the one the greatest acceptable (created, event id) announces and the order's status follows it. */
  lemma PaymentEndsAtGreatest(start: Db, actions: seq<Action>, sale: Sale)
    requires Story(start, actions, sale)
    ensures Settled(Run(start, actions).shop, Deliveries(actions), sale)
  {
    StoryReflected(start, actions, sale);
    TrackedSettled(Run(start, actions).shop, Deliveries(actions), sale);
  }

  lemma TrackedSettled(shop: Shop, heard: seq<Delivery>, sale: Sale)
    requires Tracks(shop, History(heard, sale), sale) && OneBodyPerId(heard)
    ensures Settled(shop, heard, sale)
  {
    HistoryEmpty(heard, sale);
    if History(heard, sale) != [] { TrackedDecides(shop, heard, sale); }
  }

  lemma TrackedDecides(shop: Shop, heard: seq<Delivery>, sale: Sale)
    requires Tracks(shop, History(heard, sale), sale) && OneBodyPerId(heard) && History(heard, sale) != []
    ensures exists d :: Decides(d, heard, shop, sale)
  {
    var history := History(heard, sale);
    LatestDominates(history);
    var winner := Latest(history).value;
    GreatestDelivery(heard, winner, sale);
    StatusShows(winner.what.status);
    var d :| && d in heard && Makes(d, winner, sale)
             && forall e :: e in heard && ClaimOf(e.content, sale).Some? ==> e == d || Before(e.at, d.at);
    assert Decides(d, heard, shop, sale);
  }

  /** So a run whose greatest claim is a failure leaves an order that can be placed again, with its total and
      its rows as they are; one whose greatest claim is a cancellation, a capture or anything else does not. */
  lemma FailedSaleCanBePlacedAgain(start: Db, actions: seq<Action>, sale: Sale)
    requires Story(start, actions, sale) && sale.intent in Run(start, actions).shop.payments
    ensures var after := Run(start, actions).shop;
      && sale.order in after.orders
      && PlaceOrder(after, sale.order, sale.total)
         == if I64_MAX < sale.total then Fault(InvalidRequest)
            else if after.payments[sale.intent].status == Failed
            then Fine(after.(orders := after.orders[sale.order := after.orders[sale.order].(status := Pending)]))
            else Fault(Conflict)
  {
    StoryReflected(start, actions, sale);
    TrackedPlacement(Run(start, actions).shop, History(Deliveries(actions), sale), sale);
  }

  lemma TrackedPlacement(shop: Shop, history: seq<Stamped<Claim>>, sale: Sale)
    requires Tracks(shop, history, sale) && history != []
    ensures PlaceOrder(shop, sale.order, sale.total)
         == if I64_MAX < sale.total then Fault(InvalidRequest)
            else if shop.payments[sale.intent].status == Failed
            then Fine(shop.(orders := shop.orders[sale.order := shop.orders[sale.order].(status := Pending)]))
            else Fault(Conflict)
  {
  }

  lemma GreatestDelivery(heard: seq<Delivery>, winner: Stamped<Claim>, sale: Sale)
    requires OneBodyPerId(heard) && winner in History(heard, sale)
    requires forall x :: x in History(heard, sale) ==> x.at == winner.at || Before(x.at, winner.at)
    ensures exists d ::
      && d in heard && Makes(d, winner, sale)
      && forall e :: e in heard && ClaimOf(e.content, sale).Some? ==> e == d || Before(e.at, d.at)
  {
    HistoryMember(heard, winner, sale);
    var d :| d in heard && Makes(d, winner, sale);
    forall e | e in heard && ClaimOf(e.content, sale).Some? ensures e == d || Before(e.at, d.at) {
      var claimed := Stamped(e.at, ClaimOf(e.content, sale).value);
      assert Makes(e, claimed, sale);
      HistoryMember(heard, claimed, sale);
    }
  }

  /** Two runs with the same sale events, in any order and among any other business, end with the same
      payment row, and the same order status once there is a payment. */
  lemma DeliveryOrderIsIrrelevant(start: Db, one: seq<Action>, two: seq<Action>, sale: Sale)
    requires Story(start, one, sale) && Story(start, two, sale)
    requires forall d: Delivery :: Concerns(d.content, sale) ==> (d in Deliveries(one) <==> d in Deliveries(two))
    ensures var a, b := Run(start, one).shop, Run(start, two).shop;
      && (sale.intent in a.payments <==> sale.intent in b.payments)
      && sale.order in a.orders && sale.order in b.orders
      && (sale.intent in a.payments ==>
            && a.payments[sale.intent] == b.payments[sale.intent]
            && a.orders[sale.order].status == b.orders[sale.order].status)
  {
    StoryReflected(start, one, sale);
    StoryReflected(start, two, sale);
    SameHistoryMembers(Deliveries(one), Deliveries(two), sale);
    HistoryOneBody(Deliveries(one), sale);
    var a, b := History(Deliveries(one), sale), History(Deliveries(two), sale);
    LatestIgnoresOrder(a, b);
    assert a != [] ==> a[0] in b;
    assert b != [] ==> b[0] in a;
  }

  lemma SameHistoryMembers(one: seq<Delivery>, two: seq<Delivery>, sale: Sale)
    requires forall d: Delivery :: Concerns(d.content, sale) ==> (d in one <==> d in two)
    ensures SameMembers(History(one, sale), History(two, sale))
  {
    HistoryMembers(one, sale);
    HistoryMembers(two, sale);
  }
}
