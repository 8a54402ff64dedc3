/** Project commerce (apps/api/src/commerce.rs): the tables of one project and what each webhook
    handler and each service operation does to them. A payment row is named by its payment intent,
    which is unique and never changes. */
module Commerce {
  import opened Common
  import opened EventOrder
  import opened Sums

  datatype OrderStatus =
    Pending | CheckoutCreated | Processing | OrderPaid | PaymentFailed | OrderCanceled
    | OrderPartlyRefunded | OrderRefunded
  datatype Fulfillment = Unfulfilled | FulfillmentProcessing | Fulfilled | FulfillmentCanceled
  datatype PaymentStatus =
    RequiresPaymentMethod | RequiresAction | PaymentProcessing | Authorized | Captured | PartlyRefunded | Refunded
    | Failed
    | PaymentCanceled
  datatype RefundStatus = RefundPending | RefundSucceeded | RefundFailed | RefundCanceled
  datatype SubscriptionStatus =
    CheckoutPending | Trialing | Active | PastDue | Unpaid | Paused | Canceled | Incomplete | Expired
  datatype EntitlementStatus = Granted | Revoked | Lapsed

  datatype Order = Order(
    status: OrderStatus, fulfillment: Fulfillment, total: nat, refunded: int,
    session: Option<string>, intent: Option<string>)
  datatype Payment = Payment(
    order: Option<string>, subscription: Option<string>, status: PaymentStatus,
    authorized: nat, captured: nat, refunded: int, marker: Stamp)
  datatype Refund = Refund(
    payment: string, status: RefundStatus, amount: nat, reason: Option<string>,
    provider: Option<string>, marker: Option<Stamp>)
  datatype Subscription = Subscription(
    subject: string, price: string, status: SubscriptionStatus, provider: Option<string>, session: Option<string>,
    start: Option<int>, end: Option<int>, cancelAtPeriodEnd: bool, marker: Option<Stamp>)
  datatype Entitlement = Entitlement(subscription: string, value: string, status: EntitlementStatus, start: int,
                                     end: int)

  /** Which entitlement: a subject and an entitlement key; at most one row each. */
  datatype Slot = Slot(subject: string, key: string)

  /** The tables of one project. `foreign` are payment intents recorded by other projects. */
  datatype Shop = Shop(
    orders: map<string, Order>, payments: map<string, Payment>, refunds: map<string, Refund>,
    subscriptions: map<string, Subscription>, entitlements: map<Slot, Entitlement>,
    prices: map<string, map<string, string>>, foreign: set<string>)

  datatype Error = Conflict | InvalidRequest | NotFound | Unavailable | HashConflict

  /** A handler finishes, returns an error (its writes so far are committed with the event), or
      violates a constraint (the whole transaction is lost). */
  datatype Effect = Completed(shop: Shop) | Rejected(shop: Shop, error: Error) | Aborted

  // ---------------------------------------------------------------- table constraints

  /** CHECKs of commerce_orders. */
  predicate OrderAllowed(order: Order) {
    && 0 <= order.refunded <= order.total
    && (order.fulfillment == Fulfilled ==> order.status in {OrderPaid, OrderPartlyRefunded})
  }

  /** UNIQUE provider_payment_intent_id and provider_checkout_session_id among the other orders. */
  predicate OrderUnique(orders: map<string, Order>, id: string, order: Order) {
    forall other :: other in orders && other != id ==>
      && (order.intent.Some? ==> orders[other].intent != order.intent)
      && (order.session.Some? ==> orders[other].session != order.session)
  }

  /** CHECKs of commerce_payments. */
  predicate PaymentAllowed(payment: Payment) {
    && 0 <= payment.refunded <= payment.captured
    && (payment.captured <= payment.authorized || payment.authorized == 0)
  }

  predicate RefundUnique(refunds: map<string, Refund>, id: string, provider: string) {
    forall other :: other in refunds && other != id ==> refunds[other].provider != Some(provider)
  }

  predicate SubscriptionUnique(subscriptions: map<string, Subscription>, id: string, provider: string) {
    forall other :: other in subscriptions && other != id ==> subscriptions[other].provider != Some(provider)
  }

  /** UPDATE of one order row, with its constraints. */
  ghost function StoreOrder(shop: Shop, id: string, order: Order): Effect {
    if OrderAllowed(order) && OrderUnique(shop.orders, id, order)
    then Completed(shop.(orders := shop.orders[id := order])) else Aborted
  }

  /** provider_event_is_newer: only a strictly greater stamp supersedes. */
  predicate Newer(marker: Option<Stamp>, at: Stamp) {
    marker.None? || Before(marker.value, at)
  }

  // ---------------------------------------------------------------- payments

  datatype Upsert = Stored(shop: Shop) | Ignored | Refused(effect: Effect)

  function NewPayment(order: Option<string>, subscription: Option<string>, status: PaymentStatus,
                      authorized: nat, captured: nat, at: Stamp): Payment {
    Payment(order, subscription, status, authorized, captured, 0, at)
  }

  function UpsertPayment(shop: Shop, order: Option<string>, subscription: Option<string>, intent: string,
                         status: PaymentStatus, authorized: nat, captured: nat, at: Stamp): Upsert {
    if I64_MAX < authorized || I64_MAX < captured then Refused(Rejected(shop, InvalidRequest))
    else if intent in shop.foreign then Ignored
    else if intent !in shop.payments then
      if (order.Some? && order.value !in shop.orders)
         || (subscription.Some? && subscription.value !in shop.subscriptions) then Refused(Aborted)
      else
        var row := NewPayment(order, subscription, status, authorized, captured, at);
        if PaymentAllowed(row) then Stored(shop.(payments := shop.payments[intent := row])) else Refused(Aborted)
    else
      var row := shop.payments[intent].(status := status, authorized := authorized, captured := captured, marker := at);
      if !Before(shop.payments[intent].marker, at) then Ignored
      else if PaymentAllowed(row) then Stored(shop.(payments := shop.payments[intent := row])) else Refused(Aborted)
  }

  function OrderStatusFor(status: PaymentStatus): OrderStatus {
    match status
    case Captured => OrderPaid
    case Failed => PaymentFailed
    case PaymentCanceled => OrderCanceled
    case _ => Processing
  }

  ghost function ApplyPaymentIntent(shop: Shop, at: Stamp, intent: string, order: Option<string>,
                                    subscription: Option<string>, amount: nat, captured: nat,
                                    status: Option<PaymentStatus>): Effect {
    if order.None? == subscription.None? then Completed(shop)
    else if amount < captured then Rejected(shop, Conflict)
    else if status.None? then Rejected(shop, InvalidRequest)
    else
      match UpsertPayment(shop, order, subscription, intent, status.value, amount, captured, at)
      case Refused(effect) => effect
      case Ignored => Completed(shop)
      case Stored(stored) =>
        if order.None? || order.value !in stored.orders
           || stored.orders[order.value].status in {OrderRefunded, OrderPartlyRefunded} then Completed(stored)
        else StoreOrder(stored, order.value,
                        stored.orders[order.value].(status := OrderStatusFor(status.value), intent := Some(intent)))
  }

  ghost function ApplyOrderCheckout(shop: Shop, at: Stamp, session: string, order: string,
                                    paid: Option<(string, nat)>): Effect {
    if order !in shop.orders || shop.orders[order].session != Some(session) then Rejected(shop, Conflict)
    else if paid.None? then
      if shop.orders[order].status != CheckoutCreated then Completed(shop)
      else StoreOrder(shop, order, shop.orders[order].(status := Processing))
    else
      var (intent, amount) := paid.value;
      if shop.orders[order].total != amount then Rejected(shop, Conflict)
      else
        match UpsertPayment(shop, Some(order), None, intent, Captured, amount, amount, at)
        case Refused(effect) => effect
        case Ignored => Completed(shop)
        case Stored(stored) =>
          StoreOrder(stored, order, stored.orders[order].(status := OrderPaid, intent := Some(intent)))
  }

  // ---------------------------------------------------------------- checkout of subscriptions, expiry

  ghost function ApplySubscriptionCheckout(shop: Shop, session: string, id: string, provider: string): Effect {
    if id !in shop.subscriptions || shop.subscriptions[id].session != Some(session) then Rejected(shop, Conflict)
    else if !SubscriptionUnique(shop.subscriptions, id, provider) then Aborted
    else Completed(shop.(subscriptions :=
                         shop.subscriptions[id := shop.subscriptions[id].(provider := Some(provider))]))
  }

  function ExpireOrder(order: Order, session: string): Order {
    if order.session == Some(session) && order.status in {Pending, CheckoutCreated, Processing, PaymentFailed}
    then order.(status := OrderCanceled) else order
  }

  function ExpireSubscription(row: Subscription, session: string): Subscription {
    if row.session == Some(session) && row.status == CheckoutPending then row.(status := Expired) else row
  }

  ghost function ApplyCheckoutExpired(shop: Shop, session: string): Effect {
    var orders := map id | id in shop.orders :: ExpireOrder(shop.orders[id], session);
    if exists id :: id in orders && !OrderAllowed(orders[id]) then Aborted
    else Completed(shop.(
      orders := orders,
      subscriptions := map id | id in shop.subscriptions :: ExpireSubscription(shop.subscriptions[id], session)))
  }

  // ---------------------------------------------------------------- subscriptions and entitlements

  ghost function FindSubscription(subscriptions: map<string, Subscription>, provider: string): Option<string> {
    if exists id :: id in subscriptions && subscriptions[id].provider == Some(provider) then
      var id :| id in subscriptions && subscriptions[id].provider == Some(provider);
      Some(id)
    else None
  }

  /** The row a subscription event is about: by local id if it names one, else by provider id. */
  ghost function SubscriptionNamed(shop: Shop, local: Option<string>, provider: string): (found: Option<string>)
    ensures found.Some? ==> found.value in shop.subscriptions
  {
    if local.Some? then (if local.value in shop.subscriptions then local else None)
    else FindSubscription(shop.subscriptions, provider)
  }

  predicate Entitling(status: SubscriptionStatus) { status in {Active, Trialing} }

  /** Every key of the price becomes an active entitlement of the subscription's subject. */
  function GrantAll(entitlements: map<Slot, Entitlement>, id: string, subject: string, values: map<string, string>,
                    start: int, end: int): map<Slot, Entitlement> {
    map slot | slot in entitlements.Keys + set key | key in values :: Slot(subject, key) ::
      if slot.subject == subject && slot.key in values
      then Entitlement(id, values[slot.key], Granted, start, end) else entitlements[slot]
  }

  /** Every active entitlement of the subscription gets the given status. */
  function Withdraw(entitlements: map<Slot, Entitlement>, id: string,
                    status: EntitlementStatus): map<Slot, Entitlement> {
    map slot | slot in entitlements ::
      if entitlements[slot].subscription == id && entitlements[slot].status == Granted
      then entitlements[slot].(status := status) else entitlements[slot]
  }

  function RefreshEntitlements(shop: Shop, id: string): Effect
    requires id in shop.subscriptions
  {
    var row := shop.subscriptions[id];
    if !Entitling(row.status) then
      Completed(shop.(entitlements :=
                      Withdraw(shop.entitlements, id, if row.status in {Canceled, Expired} then Lapsed else Revoked)))
    else if row.start.None? || row.end.None? then Rejected(shop, Conflict)
    else if row.price !in shop.prices then Rejected(shop, Unavailable)
    else Completed(shop.(entitlements :=
                         GrantAll(shop.entitlements, id, row.subject, shop.prices[row.price],
                                  row.start.value, row.end.value)))
  }

  /** The row a subscription event writes. */
  function Written(row: Subscription, at: Stamp, provider: string, status: SubscriptionStatus,
                   start: Option<int>, end: Option<int>, cancel: bool): Subscription {
    row.(provider := Some(provider), status := status, start := start, end := end,
         cancelAtPeriodEnd := cancel, marker := Some(at))
  }

  ghost function ApplySubscription(shop: Shop, at: Stamp, local: Option<string>, provider: string,
                                   status: Option<SubscriptionStatus>, start: Option<int>, end: Option<int>,
                                   cancelAtPeriodEnd: bool): Effect {
    var found := SubscriptionNamed(shop, local, provider);
    if found.None? then Completed(shop)
    else
      var id, row := found.value, shop.subscriptions[found.value];
      if !Newer(row.marker, at) then Completed(shop)
      else if status.None? then Rejected(shop, InvalidRequest)
      else if start.Some? && end.Some? && end.value <= start.value then Rejected(shop, Conflict)
      else if !SubscriptionUnique(shop.subscriptions, id, provider) then Aborted
      else
        var updated := Written(row, at, provider, status.value, start, end, cancelAtPeriodEnd);
        RefreshEntitlements(shop.(subscriptions := shop.subscriptions[id := updated]), id)
  }

  /** The subscription an invoice is about: by local id, which the provider id must match, else by provider id. */
  ghost function InvoiceTarget(shop: Shop, local: Option<string>, provider: Option<string>): (found: Option<string>)
    ensures found.Some? ==> found.value in shop.subscriptions
  {
    if local.Some? then
      if local.value in shop.subscriptions
         && (provider.None? || shop.subscriptions[local.value].provider == provider) then local else None
    else if provider.Some? then FindSubscription(shop.subscriptions, provider.value) else None
  }

  ghost function ApplyInvoice(shop: Shop, at: Stamp, local: Option<string>, provider: Option<string>,
                              intent: Option<string>, amount: nat, captured: nat, status: PaymentStatus): Effect {
    var found := InvoiceTarget(shop, local, provider);
    if found.None? || intent.None? then Completed(shop)
    else if amount < captured then Rejected(shop, Conflict)
    else
      match UpsertPayment(shop, None, found, intent.value, status, amount, captured, at)
      case Refused(effect) => effect
      case Ignored => Completed(shop)
      case Stored(stored) => Completed(stored)
  }

  // ---------------------------------------------------------------- refunds

  ghost function FindRefund(refunds: map<string, Refund>, provider: string): Option<string> {
    if exists id :: id in refunds && refunds[id].provider == Some(provider) then
      var id :| id in refunds && refunds[id].provider == Some(provider);
      Some(id)
    else None
  }

  predicate Reserving(status: RefundStatus) { status in {RefundPending, RefundSucceeded} }

  function SucceededAmount(refunds: map<string, Refund>, payment: string): string -> int {
    id => if id in refunds && refunds[id].payment == payment && refunds[id].status == RefundSucceeded
          then refunds[id].amount else 0
  }

  function ReservedAmount(refunds: map<string, Refund>, payment: string): string -> int {
    id => if id in refunds && refunds[id].payment == payment && Reserving(refunds[id].status)
          then refunds[id].amount else 0
  }

  function RefundedAmount(payments: map<string, Payment>, order: string): string -> int {
    id => if id in payments && payments[id].order == Some(order) then payments[id].refunded else 0
  }

  ghost function Succeeded(refunds: map<string, Refund>, payment: string): int {
    Sum(refunds.Keys, SucceededAmount(refunds, payment))
  }

  ghost function Reserved(refunds: map<string, Refund>, payment: string): int {
    Sum(refunds.Keys, ReservedAmount(refunds, payment))
  }

  ghost function OrderRefundedTotal(payments: map<string, Payment>, order: string): int {
    Sum(payments.Keys, RefundedAmount(payments, order))
  }

  function PaymentStatusAfter(refunded: int, captured: int): PaymentStatus {
    if refunded == 0 then Captured else if refunded == captured then Refunded else PartlyRefunded
  }

  function OrderStatusAfter(refunded: int, total: int): OrderStatus {
    if refunded == 0 then OrderPaid else if total <= refunded then OrderRefunded else OrderPartlyRefunded
  }

  /** Recomputes the payment and its order from the refund rows. Foreign keys keep the payment of a refund
      and the order of a payment in place, so neither is ever missing. */
  ghost function Recompute(shop: Shop, intent: string): Effect {
    if intent !in shop.payments then Aborted
    else
      var sum := Succeeded(shop.refunds, intent);
      var payment := shop.payments[intent].(
        refunded := sum, status := PaymentStatusAfter(sum, shop.payments[intent].captured));
      if !PaymentAllowed(payment) then Aborted
      else
        var paid := shop.(payments := shop.payments[intent := payment]);
        if payment.order.None? then Completed(paid)
        else if payment.order.value !in shop.orders then Aborted
        else
          var order := shop.orders[payment.order.value];
          var refunded := OrderRefundedTotal(paid.payments, payment.order.value);
          StoreOrder(paid, payment.order.value,
                     order.(refunded := refunded, status := OrderStatusAfter(refunded, order.total)))
  }

  /** The refund row an event is about. */
  ghost function RefundNamed(shop: Shop, local: Option<string>, provider: string): (found: Option<string>)
    ensures found.Some? ==> found.value in shop.refunds
  {
    if local.Some? then (if local.value in shop.refunds then local else None)
    else FindRefund(shop.refunds, provider)
  }

  /** The row a refund event writes. */
  function Rewritten(row: Refund, at: Stamp, provider: string, status: RefundStatus): Refund {
    row.(provider := Some(provider), status := status, marker := Some(at))
  }

  ghost function ApplyRefund(shop: Shop, at: Stamp, local: Option<string>, provider: string,
                             status: Option<RefundStatus>): Effect {
    var found := RefundNamed(shop, local, provider);
    if found.None? then Completed(shop)
    else
      var id, row := found.value, shop.refunds[found.value];
      if !Newer(row.marker, at) then Completed(shop)
      else if status.None? then Rejected(shop, InvalidRequest)
      else if !RefundUnique(shop.refunds, id, provider) then Aborted
      else
        var updated := Rewritten(row, at, provider, status.value);
        Recompute(shop.(refunds := shop.refunds[id := updated]), row.payment)
  }

  datatype Outcome = Fine(shop: Shop) | Fault(error: Error)

  /** The reservation transaction of create_refund; `amount` absent means all that is left. */
  ghost function ReserveRefund(shop: Shop, id: string, payment: string, amount: Option<nat>,
                               reason: Option<string>): Outcome {
    if payment !in shop.payments || shop.payments[payment].status !in {Captured, PartlyRefunded} then Fault(NotFound)
    else
      var captured := shop.payments[payment].captured;
      var available := captured - Reserved(shop.refunds, payment);
      if captured == 0 || available < 0 then Fault(Unavailable)
      else
        var wanted := if amount.Some? then amount.value else available;
        if wanted == 0 || available < wanted then Fault(InvalidRequest)
        else if id !in shop.refunds then
          Fine(shop.(refunds := shop.refunds[id := Refund(payment, RefundPending, wanted, reason, None, None)]))
        else
          var row := shop.refunds[id];
          if row.payment == payment && row.amount == wanted && row.reason == reason && row.status == RefundFailed
          then Fine(shop.(refunds := shop.refunds[id := row.(status := RefundPending)]))
          else Fault(Conflict)
  }

  ghost function RefundAccepted(shop: Shop, id: string, provider: string): Outcome {
    if id !in shop.refunds then Fine(shop)
    else if !RefundUnique(shop.refunds, id, provider) then Fault(Unavailable)
    else Fine(shop.(refunds := shop.refunds[id := shop.refunds[id].(provider := Some(provider))]))
  }

  function RefundTurnedDown(shop: Shop, id: string): Outcome {
    if id in shop.refunds && shop.refunds[id].status == RefundPending
    then Fine(shop.(refunds := shop.refunds[id := shop.refunds[id].(status := RefundFailed)])) else Fine(shop)
  }

  // ---------------------------------------------------------------- service operations

  function CancelSubscription(shop: Shop, id: string, atPeriodEnd: bool): Outcome {
    if id !in shop.subscriptions then Fault(NotFound)
    else
      var row := shop.subscriptions[id];
      if row.provider.None? then Fault(Conflict)
      else if row.status in {Canceled, Expired} then Fine(shop)
      else if atPeriodEnd then Fine(shop.(subscriptions := shop.subscriptions[id := row.(cancelAtPeriodEnd := true)]))
      else Fine(shop.(
        subscriptions := shop.subscriptions[id := row.(status := Canceled, cancelAtPeriodEnd := false)],
        entitlements := Withdraw(shop.entitlements, id, Revoked)))
  }

  function PlaceSubscription(shop: Shop, id: string, subject: string, price: string): Outcome {
    if price !in shop.prices then Fault(NotFound)
    else if id !in shop.subscriptions then
      Fine(shop.(subscriptions := shop.subscriptions[id :=
        Subscription(subject, price, CheckoutPending, None, None, None, None, false, None)]))
    else
      var row := shop.subscriptions[id];
      if row.price == price && row.subject == subject && row.status == CheckoutPending then Fine(shop)
      else Fault(Conflict)
  }

  ghost function OpenSubscriptionCheckout(shop: Shop, id: string, session: string): Outcome {
    if id !in shop.subscriptions || shop.subscriptions[id].status != CheckoutPending then Fine(shop)
    else if exists other ::
              other in shop.subscriptions && other != id && shop.subscriptions[other].session == Some(session)
    then Fault(Unavailable)
    else Fine(shop.(subscriptions := shop.subscriptions[id := shop.subscriptions[id].(session := Some(session))]))
  }

  function PlaceOrder(shop: Shop, id: string, total: nat): Outcome {
    if I64_MAX < total then Fault(InvalidRequest)
    else if id !in shop.orders then
      Fine(shop.(orders := shop.orders[id := Order(Pending, Unfulfilled, total, 0, None, None)]))
    else
      var row := shop.orders[id];
      if row.total == total && row.status == PaymentFailed
      then Fine(shop.(orders := shop.orders[id := row.(status := Pending)])) else Fault(Conflict)
  }

  ghost function OpenOrderCheckout(shop: Shop, id: string, session: string): Outcome {
    if id !in shop.orders || shop.orders[id].status !in {Pending, PaymentFailed} then Fine(shop)
    else
      var stored := StoreOrder(shop, id, shop.orders[id].(status := CheckoutCreated, session := Some(session)));
      if stored.Completed? then Fine(stored.shop) else Fault(Unavailable)
  }

  function OrderCheckoutFailed(shop: Shop, id: string): Outcome {
    if id in shop.orders && shop.orders[id].status == Pending
    then Fine(shop.(orders := shop.orders[id := shop.orders[id].(status := PaymentFailed)])) else Fine(shop)
  }

  /** Money of the order that is captured and neither refunded nor about to be. */
  ghost function Spendable(shop: Shop, order: string): int {
    var counted := set id | id in shop.payments && shop.payments[id].order == Some(order)
                            && shop.payments[id].status in {Captured, PartlyRefunded};
    Sum(counted, (id: string) =>
        if id in shop.payments then shop.payments[id].captured - Reserved(shop.refunds, id) else 0)
  }

  ghost function UpdateFulfillment(shop: Shop, id: string, next: Fulfillment): Outcome {
    if next == Unfulfilled then Fault(InvalidRequest)
    else if id !in shop.orders then Fault(NotFound)
    else
      var row := shop.orders[id];
      if (row.fulfillment, next) !in {
           (Unfulfilled, FulfillmentProcessing), (FulfillmentProcessing, Fulfilled),
           (Unfulfilled, FulfillmentCanceled), (FulfillmentProcessing, FulfillmentCanceled)} then Fault(Conflict)
      else if next != FulfillmentCanceled && row.status !in {OrderPaid, OrderPartlyRefunded} then Fault(Conflict)
      else if next != FulfillmentCanceled && (row.total == 0 || Spendable(shop, id) < 0) then Fault(Unavailable)
      else if next != FulfillmentCanceled && Spendable(shop, id) < row.total then Fault(Conflict)
      else Fine(shop.(orders := shop.orders[id := row.(fulfillment := next)]))
  }

  // ---------------------------------------------------------------- webhooks

  /** The object of an event, after parsing. A field that does not parse is None, or the whole object
      is Malformed when parsing fails before the handler looks at any row. */
  datatype Content =
    | OrderCheckout(session: string, placed: string, paid: Option<(string, nat)>)
    | SubscriptionCheckout(session: string, started: string, provider: string)
    | CheckoutExpired(session: string)
    | PaymentIntent(intent: string, order: Option<string>, subscription: Option<string>, amount: nat, captured: nat,
                    status: Option<PaymentStatus>)
    | SubscriptionEvent(local: Option<string>, provider: string, newStatus: Option<SubscriptionStatus>,
                        start: Option<int>, end: Option<int>, cancelAtPeriodEnd: bool)
    | InvoiceEvent(invoiceSubscription: Option<string>, invoiceProvider: Option<string>, invoiceIntent: Option<string>,
                   due: nat, received: nat, invoiceStatus: PaymentStatus)
    | RefundEvent(refund: Option<string>, refundProvider: string, refundStatus: Option<RefundStatus>)
    | Malformed(error: Error)
    | Unrelated
    | NoObject

  ghost function Process(shop: Shop, at: Stamp, content: Content): Effect {
    match content
    case OrderCheckout(session, order, paid) => ApplyOrderCheckout(shop, at, session, order, paid)
    case SubscriptionCheckout(session, id, provider) => ApplySubscriptionCheckout(shop, session, id, provider)
    case CheckoutExpired(session) => ApplyCheckoutExpired(shop, session)
    case PaymentIntent(intent, order, subscription, amount, captured, status) =>
      ApplyPaymentIntent(shop, at, intent, order, subscription, amount, captured, status)
    case SubscriptionEvent(local, provider, status, start, end, cancel) =>
      ApplySubscription(shop, at, local, provider, status, start, end, cancel)
    case InvoiceEvent(local, provider, intent, amount, captured, status) =>
      ApplyInvoice(shop, at, local, provider, intent, amount, captured, status)
    case RefundEvent(local, provider, status) => ApplyRefund(shop, at, local, provider, status)
    case Malformed(error) => Rejected(shop, error)
    case Unrelated => Completed(shop)
    case NoObject => Aborted
  }

  datatype Delivery = Delivery(at: Stamp, payload: string, content: Content)

  /** One row of commerce_webhook_events. */
  datatype Entry = Entry(payload: string, processed: bool, failed: bool)

  datatype Db = Db(shop: Shop, ledger: map<string, Entry>)

  datatype Verdict = Applied | Duplicate | Declined(error: Error)

  /** apply_verified_webhook: recording, deduplication, processing, and commit or rollback. */
  ghost function Receive(db: Db, delivery: Delivery): (Db, Verdict) {
    var id := delivery.at.id;
    if id in db.ledger && db.ledger[id].payload != delivery.payload then (db, Declined(HashConflict))
    else if id in db.ledger && db.ledger[id].processed then (db, Duplicate)
    else if delivery.content.NoObject? then (db, Declined(InvalidRequest))
    else
      match Process(db.shop, delivery.at, delivery.content)
      case Completed(shop) => (Db(shop, db.ledger[id := Entry(delivery.payload, true, false)]), Applied)
      case Rejected(shop, error) => (Db(shop, db.ledger[id := Entry(delivery.payload, false, true)]), Declined(error))
      case Aborted => (db, Declined(Unavailable))
  }
}
