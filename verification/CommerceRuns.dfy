/** Runs of one project's commerce: webhook deliveries and service operations in any order. */
module CommerceRuns {
  import opened Common
  import opened Commerce

  datatype Request =
    | Reserve(id: string, payment: string, amount: Option<nat>, reason: Option<string>)
    | Accepted(id: string, provider: string)
    | TurnedDown(id: string)
    | Cancel(id: string, atPeriodEnd: bool)
    | Subscribe(id: string, subject: string, price: string)
    | SubscriptionSession(id: string, session: string)
    | Order(id: string, total: nat)
    | OrderSession(id: string, session: string)
    | OrderFailed(id: string)
    | Fulfill(id: string, next: Fulfillment)
    | AddPrice(id: string, values: map<string, string>)

  ghost function Serve(shop: Shop, request: Request): Outcome {
    match request
    case Reserve(id, payment, amount, reason) => ReserveRefund(shop, id, payment, amount, reason)
    case Accepted(id, provider) => RefundAccepted(shop, id, provider)
    case TurnedDown(id) => RefundTurnedDown(shop, id)
    case Cancel(id, atPeriodEnd) => CancelSubscription(shop, id, atPeriodEnd)
    case Subscribe(id, subject, price) => PlaceSubscription(shop, id, subject, price)
    case SubscriptionSession(id, session) => OpenSubscriptionCheckout(shop, id, session)
    case Order(id, total) => PlaceOrder(shop, id, total)
    case OrderSession(id, session) => OpenOrderCheckout(shop, id, session)
    case OrderFailed(id) => OrderCheckoutFailed(shop, id)
    case Fulfill(id, next) => UpdateFulfillment(shop, id, next)
    case AddPrice(id, values) =>
      if id in shop.prices then Fault(Conflict) else Fine(shop.(prices := shop.prices[id := values]))
  }

  datatype Action = Webhook(delivery: Delivery) | Service(request: Request)

  ghost function Act(db: Db, action: Action): Db {
    match action
    case Webhook(delivery) => Receive(db, delivery).0
    case Service(request) =>
      var outcome := Serve(db.shop, request);
      if outcome.Fine? then db.(shop := outcome.shop) else db
  }

  ghost function Run(db: Db, actions: seq<Action>): Db {
    if actions == [] then db else Act(Run(db, actions[..|actions| - 1]), actions[|actions| - 1])
  }

  /** A project that has not traded yet. */
  ghost predicate Opening(db: Db) {
    db.ledger == map[] && db.shop.orders == map[] && db.shop.payments == map[] && db.shop.refunds == map[]
    && db.shop.subscriptions == map[] && db.shop.entitlements == map[] && db.shop.prices == map[]
  }

  /** The shop an effect leaves, the old one if the transaction was lost. */
  function After(shop: Shop, effect: Effect): Shop {
    if effect.Aborted? then shop else effect.shop
  }

  lemma ReceiveEffect(db: Db, delivery: Delivery)
    ensures Receive(db, delivery).0.shop == db.shop
         || Receive(db, delivery).0.shop == After(db.shop, Process(db.shop, delivery.at, delivery.content))
  {
  }
}
