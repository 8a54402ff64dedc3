/** The webhook ledger: what an event id may do over its whole history of deliveries, and what a
    declined event leaves behind. */
module WebhookLedger {
  import opened Common
  import opened EventOrder
  import opened Commerce
  import opened CommerceRuns
  import opened CommerceFrames
  import opened CommerceConstraints
  import opened EntitlementProvenance

  /** What the run answered to the delivery at position `i`. */
  ghost function VerdictAt(db: Db, actions: seq<Action>, i: nat): Verdict
    requires i < |actions| && actions[i].Webhook?
  {
    Receive(Run(db, actions[..i]), actions[i].delivery).1
  }

  // ---------------------------------------------------------------- at most once

  /** Entries are never deleted, keep their payload, and stay processed. */
  ghost predicate LedgerKept(a: map<string, Entry>, b: map<string, Entry>) {
    forall id :: id in a ==> id in b && b[id].payload == a[id].payload && (a[id].processed ==> b[id] == a[id])
  }

  lemma StepKeepsLedger(db: Db, action: Action)
    ensures LedgerKept(db.ledger, Act(db, action).ledger)
  {
  }

  lemma LedgerTransitive(a: map<string, Entry>, b: map<string, Entry>, c: map<string, Entry>)
    requires LedgerKept(a, b) && LedgerKept(b, c)
    ensures LedgerKept(a, c)
  {
  }

  lemma NextKeepsLedger(db: Db, actions: seq<Action>, i: nat)
    requires i < |actions|
    ensures LedgerKept(Run(db, actions[..i]).ledger, Run(db, actions[..i + 1]).ledger)
  {
    RunStep(db, actions, i);
    StepKeepsLedger(Run(db, actions[..i]), actions[i]);
  }

  lemma {:induction false} ChainKept(ledgers: seq<map<string, Entry>>, i: nat, j: nat)
    requires i <= j < |ledgers| && forall k :: 0 <= k < |ledgers| - 1 ==> LedgerKept(ledgers[k], ledgers[k + 1])
    ensures LedgerKept(ledgers[i], ledgers[j])
  {
    if i == j {
    } else {
      ChainKept(ledgers, i, j - 1);
      LedgerTransitive(ledgers[i], ledgers[j - 1], ledgers[j]);
    }
  }

  lemma RunKeepsLedger(db: Db, actions: seq<Action>, i: nat, j: nat)
    requires i <= j <= |actions|
    ensures LedgerKept(Run(db, actions[..i]).ledger, Run(db, actions[..j]).ledger)
  {
    var ledgers := seq(|actions| + 1, k requires 0 <= k <= |actions| => Run(db, actions[..k]).ledger);
    forall k | 0 <= k < |actions| ensures LedgerKept(ledgers[k], ledgers[k + 1]) { NextKeepsLedger(db, actions, k); }
    ChainKept(ledgers, i, j);
  }

  lemma RunStep(db: Db, actions: seq<Action>, i: nat)
    requires i < |actions|
    ensures Run(db, actions[..i + 1]) == Act(Run(db, actions[..i]), actions[i])
  {
    assert actions[..i + 1][..i] == actions[..i];
  }

  /** Once an event id has been applied, every later delivery under that id leaves the whole database
      as it is: a duplicate if it repeats the payload, a hash conflict if it does not. */
  lemma AppliedAtMostOnce(db: Db, actions: seq<Action>, i: nat, j: nat)
    requires i < j < |actions| && actions[i].Webhook? && actions[j].Webhook?
    requires actions[i].delivery.at.id == actions[j].delivery.at.id
    requires VerdictAt(db, actions, i) == Applied
    ensures VerdictAt(db, actions, j)
         == if actions[i].delivery.payload == actions[j].delivery.payload then Duplicate else Declined(HashConflict)
    ensures Run(db, actions[..j + 1]) == Run(db, actions[..j])
  {
    RunStep(db, actions, i);
    RunStep(db, actions, j);
    RunKeepsLedger(db, actions, i + 1, j);
  }

  /** An event is applied only with the payload under which its id was first recorded. */
  lemma AppliedWithFirstPayload(db: Db, actions: seq<Action>, i: nat, j: nat)
    requires i <= j < |actions| && actions[j].Webhook?
    requires actions[j].delivery.at.id in Run(db, actions[..i]).ledger
    requires VerdictAt(db, actions, j) == Applied
    ensures actions[j].delivery.payload == Run(db, actions[..i]).ledger[actions[j].delivery.at.id].payload
    ensures !Run(db, actions[..i]).ledger[actions[j].delivery.at.id].processed
  {
    RunKeepsLedger(db, actions, i, j);
  }

  // ---------------------------------------------------------------- declined events

  /** The event activates a row that accepts it as new. */
  ghost predicate Activates(db: Db, delivery: Delivery) {
    var id := delivery.at.id;
    && (id in db.ledger ==> db.ledger[id].payload == delivery.payload && !db.ledger[id].processed)
    && delivery.content.SubscriptionEvent?
    && var c := delivery.content;
    && var found := SubscriptionNamed(db.shop, c.local, c.provider);
    && found.Some?
    && Newer(db.shop.subscriptions[found.value].marker, delivery.at)
    && c.newStatus.Some? && Entitling(c.newStatus.value)
    && SubscriptionUnique(db.shop.subscriptions, found.value, c.provider)
  }

  /** The one family of declined events that writes: an activation the row accepts as new, without
      both period bounds. */
  ghost predicate ActivatesWithoutPeriod(db: Db, delivery: Delivery) {
    Activates(db, delivery) && (delivery.content.start.None? || delivery.content.end.None?)
  }

  /** The same for a subscription without its price, which the foreign key of the row rules out. */
  ghost predicate ActivatesWithoutPrice(db: Db, delivery: Delivery) {
    && Activates(db, delivery)
    && var c := delivery.content;
    && c.start.Some? && c.end.Some? && c.start.value < c.end.value
    && db.shop.subscriptions[SubscriptionNamed(db.shop, c.local, c.provider).value].price !in db.shop.prices
  }

  /** The row such an event writes before it is declined. */
  ghost function ActivatedRow(db: Db, delivery: Delivery): Subscription
    requires ActivatesWithoutPeriod(db, delivery)
  {
    var c := delivery.content;
    Written(db.shop.subscriptions[SubscriptionNamed(db.shop, c.local, c.provider).value], delivery.at, c.provider,
            c.newStatus.value, c.start, c.end, c.cancelAtPeriodEnd)
  }

  lemma OnlySubscriptionsRejectAfterWriting(shop: Shop, at: Stamp, c: Content)
    requires Process(shop, at, c).Rejected? && !c.SubscriptionEvent?
    ensures Process(shop, at, c).shop == shop
  {
    match c
    case OrderCheckout(session, order, paid) => OrderCheckoutFrame(shop, at, session, order, paid);
    case PaymentIntent(intent, order, subscription, amount, captured, status) =>
      PaymentIntentFrame(shop, at, intent, order, subscription, amount, captured, status);
    case InvoiceEvent(local, provider, intent, amount, captured, status) =>
      InvoiceFrame(shop, at, local, provider, intent, amount, captured, status);
    case RefundEvent(local, provider, status) => RefundFrame(shop, at, local, provider, status);
    case SubscriptionCheckout(session, id, provider) => CheckoutFrame(shop, session, id, provider);
    case CheckoutExpired(session) =>
    case Malformed(_) =>
  }

  lemma ActivationWrites(db: Db, delivery: Delivery)
    requires ActivatesWithoutPeriod(db, delivery) || ActivatesWithoutPrice(db, delivery)
    ensures Receive(db, delivery).0.shop != db.shop
  {
    var c := delivery.content;
    var id := SubscriptionNamed(db.shop, c.local, c.provider).value;
    BeforeTotal(delivery.at, delivery.at);
    assert db.shop.subscriptions[id].marker != Some(delivery.at);
    assert Receive(db, delivery).0.shop.subscriptions[id].marker == Some(delivery.at);
  }

  lemma ActivationIsDeclined(db: Db, delivery: Delivery)
    requires ActivatesWithoutPeriod(db, delivery)
    ensures var c := delivery.content;
      var id := SubscriptionNamed(db.shop, c.local, c.provider).value;
      && Receive(db, delivery).1 == Declined(Conflict)
      && Receive(db, delivery).0.shop
         == db.shop.(subscriptions := db.shop.subscriptions[id := ActivatedRow(db, delivery)])
      && Receive(db, delivery).0.ledger == db.ledger[delivery.at.id := Entry(delivery.payload, false, true)]
      && ActivatedRow(db, delivery) != db.shop.subscriptions[id]
  {
    var c := delivery.content;
    var id := SubscriptionNamed(db.shop, c.local, c.provider).value;
    BeforeTotal(delivery.at, delivery.at);
    assert db.shop.subscriptions[id].marker != Some(delivery.at);
  }

  /** A declined delivery leaves every domain row alone exactly when it is not an activation without
      both period bounds, or without its price, which no run leads to. */
  lemma DeclinedLeavesRowsAlone(db: Db, delivery: Delivery)
    requires Receive(db, delivery).1.Declined?
    ensures Receive(db, delivery).0.shop == db.shop
        <==> !ActivatesWithoutPeriod(db, delivery) && !ActivatesWithoutPrice(db, delivery)
    ensures Priced(db.shop) ==> !ActivatesWithoutPrice(db, delivery)
  {
    if ActivatesWithoutPeriod(db, delivery) || ActivatesWithoutPrice(db, delivery) {
      ActivationWrites(db, delivery);
    } else if !delivery.content.SubscriptionEvent? {
      if Process(db.shop, delivery.at, delivery.content).Rejected? {
        OnlySubscriptionsRejectAfterWriting(db.shop, delivery.at, delivery.content);
      }
    }
  }

  // ---------------------------------------------------------------- a declined activation is final

  /** A marker is set once and then only grows. */
  ghost predicate Advances(a: Option<Stamp>, b: Option<Stamp>) {
    a == b || (b.Some? && (a.None? || Before(a.value, b.value)))
  }

  ghost predicate RowsAdvance(a: map<string, Subscription>, b: map<string, Subscription>) {
    forall id :: id in a ==> id in b && Advances(a[id].marker, b[id].marker)
  }

  lemma RowsAdvanceTransitive(a: map<string, Subscription>, b: map<string, Subscription>, c: map<string, Subscription>)
    requires RowsAdvance(a, b) && RowsAdvance(b, c)
    ensures RowsAdvance(a, c)
  {
    forall id | id in a ensures Advances(a[id].marker, c[id].marker) {
      if a[id].marker.Some? && b[id].marker.Some? && c[id].marker.Some?
         && a[id].marker != b[id].marker && b[id].marker != c[id].marker {
        BeforeTransitive(a[id].marker.value, b[id].marker.value, c[id].marker.value);
      }
    }
  }

  lemma RowWriteAdvances(a: Shop, b: Shop, id: string, at: Stamp, provider: string)
    requires SubscriptionRowWrite(a, b, id, at, provider)
    ensures RowsAdvance(a.subscriptions, b.subscriptions)
  {
  }

  lemma SubscriptionEventAdvances(shop: Shop, at: Stamp, local: Option<string>, provider: string,
                                  status: Option<SubscriptionStatus>, start: Option<int>, end: Option<int>,
                                  cancel: bool)
    ensures var effect := ApplySubscription(shop, at, local, provider, status, start, end, cancel);
      RowsAdvance(shop.subscriptions, After(shop, effect).subscriptions)
  {
    SubscriptionFrame(shop, at, local, provider, status, start, end, cancel);
    var b := After(shop, ApplySubscription(shop, at, local, provider, status, start, end, cancel));
    if b != shop { RowWriteAdvances(shop, b, SubscriptionNamed(shop, local, provider).value, at, provider); }
  }

  lemma ExpiryAdvances(shop: Shop, session: string)
    ensures RowsAdvance(shop.subscriptions, After(shop, ApplyCheckoutExpired(shop, session)).subscriptions)
  {
    var expired := map id | id in shop.subscriptions :: ExpireSubscription(shop.subscriptions[id], session);
    assert RowsAdvance(shop.subscriptions, expired);
  }

  lemma WebhookAdvances(shop: Shop, at: Stamp, c: Content)
    ensures RowsAdvance(shop.subscriptions, After(shop, Process(shop, at, c)).subscriptions)
  {
    match c
    case SubscriptionEvent(local, provider, status, start, end, cancel) =>
      SubscriptionEventAdvances(shop, at, local, provider, status, start, end, cancel);
    case SubscriptionCheckout(session, id, provider) => CheckoutFrame(shop, session, id, provider);
    case CheckoutExpired(session) => ExpiryAdvances(shop, session);
    case OrderCheckout(session, order, paid) => OrderCheckoutFrame(shop, at, session, order, paid);
    case PaymentIntent(intent, order, subscription, amount, captured, status) =>
      PaymentIntentFrame(shop, at, intent, order, subscription, amount, captured, status);
    case InvoiceEvent(local, provider, intent, amount, captured, status) =>
      InvoiceFrame(shop, at, local, provider, intent, amount, captured, status);
    case RefundEvent(local, provider, status) => RefundFrame(shop, at, local, provider, status);
    case _ =>
  }

  lemma CancelAdvances(shop: Shop, id: string, atPeriodEnd: bool)
    ensures var after := CancelSubscription(shop, id, atPeriodEnd);
      after.Fine? ==> RowsAdvance(shop.subscriptions, after.shop.subscriptions)
  {
  }

  lemma SubscribeAdvances(shop: Shop, id: string, subject: string, price: string)
    ensures var after := PlaceSubscription(shop, id, subject, price);
      after.Fine? ==> RowsAdvance(shop.subscriptions, after.shop.subscriptions)
  {
  }

  lemma SessionAdvances(shop: Shop, id: string, session: string)
    ensures var after := OpenSubscriptionCheckout(shop, id, session);
      after.Fine? ==> RowsAdvance(shop.subscriptions, after.shop.subscriptions)
  {
  }

  lemma RefundServiceAdvances(shop: Shop, request: Request)
    requires request.Reserve? || request.Accepted? || request.TurnedDown?
    ensures Serve(shop, request).Fine? ==> Serve(shop, request).shop.subscriptions == shop.subscriptions
  {
    match request
    case Reserve(id, payment, amount, reason) =>
    case Accepted(id, provider) =>
    case TurnedDown(id) =>
  }

  lemma OrderServiceAdvances(shop: Shop, request: Request)
    requires request.Order? || request.OrderSession? || request.OrderFailed? || request.Fulfill?
    ensures Serve(shop, request).Fine? ==> Serve(shop, request).shop.subscriptions == shop.subscriptions
  {
    match request
    case Order(id, total) =>
    case OrderSession(id, session) =>
    case OrderFailed(id) =>
    case Fulfill(id, next) =>
  }

  lemma ServiceAdvances(shop: Shop, request: Request)
    ensures Serve(shop, request).Fine? ==> RowsAdvance(shop.subscriptions, Serve(shop, request).shop.subscriptions)
  {
    if request.Cancel? {
      CancelAdvances(shop, request.id, request.atPeriodEnd);
    } else if request.Subscribe? {
      SubscribeAdvances(shop, request.id, request.subject, request.price);
    } else if request.SubscriptionSession? {
      SessionAdvances(shop, request.id, request.session);
    } else if request.Reserve? || request.Accepted? || request.TurnedDown? {
      RefundServiceAdvances(shop, request);
    } else if !request.AddPrice? {
      OrderServiceAdvances(shop, request);
    }
  }

  /** Over a whole run no subscription row disappears and no marker moves back. */
  lemma {:induction false} MarkersOnlyAdvance(db: Db, actions: seq<Action>)
    ensures RowsAdvance(db.shop.subscriptions, Run(db, actions).shop.subscriptions)
    ensures LedgerKept(db.ledger, Run(db, actions).ledger)
  {
    if actions == [] {
    } else {
      var n := |actions| - 1;
      MarkersOnlyAdvance(db, actions[..n]);
      var before := Run(db, actions[..n]);
      StepKeepsLedger(before, actions[n]);
      match actions[n] {
        case Webhook(delivery) =>
          ReceiveEffect(before, delivery);
          WebhookAdvances(before.shop, delivery.at, delivery.content);
        case Service(request) =>
          ServiceAdvances(before.shop, request);
      }
      RowsAdvanceTransitive(db.shop.subscriptions, before.shop.subscriptions, Run(db, actions).shop.subscriptions);
    }
  }

  /** An event that reports a subscription active or trialing without both period bounds. */
  predicate IncompleteActivation(c: Content) {
    c.SubscriptionEvent? && c.newStatus.Some? && Entitling(c.newStatus.value) && (c.start.None? || c.end.None?)
  }

  /** Such an event grants nothing and withdraws nothing, whenever and however often it is delivered. */
  lemma IncompleteActivationGrantsNothing(db: Db, delivery: Delivery)
    requires IncompleteActivation(delivery.content)
    ensures Receive(db, delivery).0.shop.entitlements == db.shop.entitlements
  {
    var c := delivery.content;
    SubscriptionShape(db.shop, delivery.at, c.local, c.provider, c.newStatus, c.start, c.end, c.cancelAtPeriodEnd);
  }

  /** It leaves every row alone exactly when it is not accepted as new; it is declined exactly then, or
      refused for its payload or by the database. */
  lemma IncompleteActivationWrites(db: Db, delivery: Delivery)
    requires IncompleteActivation(delivery.content)
    ensures Receive(db, delivery).0.shop == db.shop <==> !ActivatesWithoutPeriod(db, delivery)
  {
    if Receive(db, delivery).1.Declined? {
      DeclinedLeavesRowsAlone(db, delivery);
    } else {
      IncompleteAcknowledged(db, delivery);
    }
  }

  lemma IncompleteAcknowledged(db: Db, delivery: Delivery)
    requires IncompleteActivation(delivery.content) && !Receive(db, delivery).1.Declined?
    ensures Receive(db, delivery).0.shop == db.shop && !ActivatesWithoutPeriod(db, delivery)
  {
    if ActivatesWithoutPeriod(db, delivery) {
      ActivationIsDeclined(db, delivery);
      assert false;
    }
    var c := delivery.content;
    SubscriptionShape(db.shop, delivery.at, c.local, c.provider, c.newStatus, c.start, c.end, c.cancelAtPeriodEnd);
  }

  /** The row the event names at a later moment, and that the event is still news to it. */
  ghost predicate NewsToNamedRow(shop: Shop, delivery: Delivery) requires delivery.content.SubscriptionEvent? {
    var named := SubscriptionNamed(shop, delivery.content.local, delivery.content.provider);
    named.Some? && Newer(shop.subscriptions[named.value].marker, delivery.at)
  }

  lemma FoundByProvider(shop: Shop, provider: string)
    requires SubscriptionsDistinct(shop.subscriptions)
    ensures var found := FindSubscription(shop.subscriptions, provider);
      found.Some? ==> found.value in shop.subscriptions && SubscriptionUnique(shop.subscriptions, found.value, provider)
  {
  }

  /** The recorded entry of the declined activation keeps its payload over any run. */
  lemma DeclinedEntryStays(db: Db, delivery: Delivery, actions: seq<Action>)
    requires ActivatesWithoutPeriod(db, delivery)
    ensures var later := Run(Receive(db, delivery).0, actions);
      && delivery.at.id in later.ledger && later.ledger[delivery.at.id].payload == delivery.payload
      && (delivery.content.local.Some? ==> !NewsToNamedRow(later.shop, delivery))
  {
    ActivationIsDeclined(db, delivery);
    var after := Receive(db, delivery).0;
    MarkersOnlyAdvance(after, actions);
    if delivery.content.local.Some? {
      var id, later := delivery.content.local.value, Run(after, actions);
      assert after.shop.subscriptions[id].marker == Some(delivery.at);
      BeforeTotal(delivery.at, later.shop.subscriptions[id].marker.value);
    }
  }

  /** What a retry of a declined activation does after any further run: it never grants anything, and it
      changes a row exactly if it has not been acknowledged meanwhile and its provider id now names a row to
      which it is news. An event that carries the local id is never news again. */
  lemma DeclinedActivationIsFinal(db: Db, delivery: Delivery, actions: seq<Action>)
    requires ActivatesWithoutPeriod(db, delivery) && ProvidersUnique(db.shop)
    ensures var later := Run(Receive(db, delivery).0, actions);
      && Receive(later, delivery).0.shop.entitlements == later.shop.entitlements
      && delivery.at.id in later.ledger
      && (Receive(later, delivery).0.shop == later.shop
          <==> later.ledger[delivery.at.id].processed || !NewsToNamedRow(later.shop, delivery))
      && (Receive(later, delivery).0.shop == later.shop ==> Receive(later, delivery).1 in {Applied, Duplicate})
      && (delivery.content.local.Some? ==> !NewsToNamedRow(later.shop, delivery))
  {
    var after := Receive(db, delivery).0;
    var later := Run(after, actions);
    ReceiveEffect(db, delivery);
    WebhookKeepsUnique(db.shop, delivery.at, delivery.content);
    RunKeepsUnique(after, actions);
    DeclinedEntryStays(db, delivery, actions);
    IncompleteActivationGrantsNothing(later, delivery);
    IncompleteActivationWrites(later, delivery);
    FoundByProvider(later.shop, delivery.content.provider);
    if !NewsToNamedRow(later.shop, delivery) || later.ledger[delivery.at.id].processed {
      OldNewsIsAcknowledged(later, delivery);
    }
  }

  lemma OldNewsIsAcknowledged(db: Db, delivery: Delivery)
    requires delivery.content.SubscriptionEvent? && delivery.at.id in db.ledger
    requires db.ledger[delivery.at.id].payload == delivery.payload
    requires !NewsToNamedRow(db.shop, delivery) || db.ledger[delivery.at.id].processed
    ensures Receive(db, delivery).1 in {Applied, Duplicate}
  {
  }

  // ---------------------------------------------------------------- a provider id that moves

  /** Two pending subscriptions of one price, one of them known to the provider. */
  datatype Story = Story(one: string, two: string, provider: string, otherProvider: string, session: string,
                         price: string)

  function Pending(st: Story, provider: Option<string>, session: Option<string>): Subscription {
    Subscription("user", st.price, CheckoutPending, provider, session, None, None, false, None)
  }

  function StoryDb(st: Story, subscriptions: map<string, Subscription>, ledger: map<string, Entry>): Db {
    Db(Shop(map[], map[], map[], subscriptions, map[], map[st.price := map["seats" := "5"]], {}), ledger)
  }

  function StoryStart(st: Story): map<string, Subscription> {
    map[st.one := Pending(st, Some(st.provider), None), st.two := Pending(st, None, Some(st.session))]
  }

  /** The activation names the provider id only. */
  function Activation(st: Story, at: Stamp): Delivery {
    Delivery(at, "activation", SubscriptionEvent(None, st.provider, Some(Active), None, None, false))
  }

  function Activated(st: Story, at: Stamp): Subscription {
    Pending(st, Some(st.provider), None).(status := Active, marker := Some(at))
  }

  lemma StoryDeclined(st: Story, at: Stamp)
    requires st.one != st.two
    ensures var db := StoryDb(st, StoryStart(st), map[]);
      && Receive(db, Activation(st, at)).1 == Declined(Conflict)
      && Receive(db, Activation(st, at)).0
         == StoryDb(st, StoryStart(st)[st.one := Activated(st, at)], map[at.id := Entry("activation", false, true)])
  {
    var db, d := StoryDb(st, StoryStart(st), map[]), Activation(st, at);
    assert st.one in db.shop.subscriptions && db.shop.subscriptions[st.one].provider == Some(st.provider);
    assert FindSubscription(db.shop.subscriptions, st.provider) == Some(st.one);
    assert ActivatesWithoutPeriod(db, d);
    ActivationIsDeclined(db, d);
  }

  /** Later the provider id belongs to the second row. */
  ghost predicate Moved(db: Db, st: Story, at: Stamp) {
    && st.two in db.shop.subscriptions
    && db.shop.subscriptions[st.two] == Pending(st, Some(st.provider), Some(st.session))
    && SubscriptionsDistinct(db.shop.subscriptions)
    && at.id in db.ledger && db.ledger[at.id] == Entry("activation", false, true)
  }

  lemma MovedIsNews(db: Db, st: Story, at: Stamp)
    requires Moved(db, st, at)
    ensures Receive(db, Activation(st, at)).0.shop != db.shop && Receive(db, Activation(st, at)).1 == Declined(Conflict)
    ensures st.two in Receive(db, Activation(st, at)).0.shop.subscriptions
    ensures Receive(db, Activation(st, at)).0.shop.subscriptions[st.two].status == Active
  {
    FoundByProvider(db.shop, st.provider);
    assert FindSubscription(db.shop.subscriptions, st.provider) == Some(st.two);
    assert ActivatesWithoutPeriod(db, Activation(st, at));
    ActivationIsDeclined(db, Activation(st, at));
    assert db.shop.subscriptions[st.two].status != Active;
  }

  /** The first row goes over to another provider id, then the second checkout completes with the old one. */
  function MovingEvents(st: Story, second: Stamp, third: Stamp): (Delivery, Delivery) {
    (Delivery(second, "moved", SubscriptionEvent(Some(st.one), st.otherProvider, Some(PastDue), None, None, false)),
     Delivery(third, "completed", SubscriptionCheckout(st.session, st.two, st.provider)))
  }

  /** The first row after it has gone over. */
  function GoneOver(st: Story, second: Stamp): Subscription {
    Pending(st, Some(st.otherProvider), None).(status := PastDue, marker := Some(second))
  }

  lemma FirstMoveShop(st: Story, shop: Shop, at: Stamp, second: Stamp)
    requires st.one != st.two && st.provider != st.otherProvider && Before(at, second)
    requires shop == StoryDb(st, StoryStart(st)[st.one := Activated(st, at)], map[]).shop
    ensures ApplySubscription(shop, second, Some(st.one), st.otherProvider, Some(PastDue), None, None, false)
         == Completed(StoryDb(st, StoryStart(st)[st.one := GoneOver(st, second)], map[]).shop)
  {
    var subs := shop.subscriptions;
    assert SubscriptionUnique(subs, st.one, st.otherProvider);
    assert subs[st.one := GoneOver(st, second)] == StoryStart(st)[st.one := GoneOver(st, second)];
    assert Withdraw(map[], st.one, Revoked) == map[];
  }

  lemma FirstMove(st: Story, at: Stamp, second: Stamp, third: Stamp)
    requires st.one != st.two && st.provider != st.otherProvider && at.id != second.id && Before(at, second)
    ensures var db := StoryDb(st, StoryStart(st)[st.one := Activated(st, at)],
                            map[at.id := Entry("activation", false, true)]);
      var after := Receive(db, MovingEvents(st, second, third).0).0;
      && after.shop == StoryDb(st, StoryStart(st)[st.one := GoneOver(st, second)], map[]).shop
      && at.id in after.ledger && after.ledger[at.id] == Entry("activation", false, true)
      && (third.id !in {at.id, second.id} ==> third.id !in after.ledger)
  {
    var db := StoryDb(st, StoryStart(st)[st.one := Activated(st, at)], map[at.id := Entry("activation", false, true)]);
    FirstMoveShop(st, db.shop, at, second);
  }

  lemma SecondMove(st: Story, db: Db, at: Stamp, second: Stamp, third: Stamp)
    requires st.one != st.two && st.provider != st.otherProvider
    requires db.shop == StoryDb(st, StoryStart(st)[st.one := GoneOver(st, second)], map[]).shop
    requires at.id in db.ledger && db.ledger[at.id] == Entry("activation", false, true)
    requires third.id !in db.ledger
    ensures Moved(Receive(db, MovingEvents(st, second, third).1).0, st, at)
  {
    var subs := db.shop.subscriptions;
    assert SubscriptionUnique(subs, st.two, st.provider);
  }

  /** A declined activation that names a provider id only is not final for other rows: once the id has moved,
      retrying it marks the second subscription active, and is declined again. */
  lemma MovedProviderExample()
    ensures var st := Story("s", "t", "sub_1", "sub_2", "cs_2", "gold");
      var activation := Activation(st, Stamp(1, "evt_1"));
      var (moved, completed) := MovingEvents(st, Stamp(2, "evt_2"), Stamp(3, "evt_3"));
      var declined := Receive(StoryDb(st, StoryStart(st), map[]), activation);
      var later := Run(declined.0, [Webhook(moved), Webhook(completed)]);
      && declined.1 == Declined(Conflict)
      && Receive(later, activation).0.shop != later.shop && Receive(later, activation).1 == Declined(Conflict)
  {
    var st := Story("s", "t", "sub_1", "sub_2", "cs_2", "gold");
    var one, two, three := Stamp(1, "evt_1"), Stamp(2, "evt_2"), Stamp(3, "evt_3");
    assert one.id[4] != two.id[4] && two.id[4] != three.id[4] && one.id[4] != three.id[4];
    assert st.provider[4] != st.otherProvider[4];
    MovedProviderStory(st, one, two, three);
  }

  lemma MovedProviderStory(st: Story, at: Stamp, second: Stamp, third: Stamp)
    requires st.one != st.two && st.provider != st.otherProvider && Before(at, second)
    requires at.id != second.id && third.id != at.id && third.id != second.id
    ensures var declined := Receive(StoryDb(st, StoryStart(st), map[]), Activation(st, at));
      var (moved, completed) := MovingEvents(st, second, third);
      var later := Run(declined.0, [Webhook(moved), Webhook(completed)]);
      && declined.1 == Declined(Conflict)
      && Receive(later, Activation(st, at)).0.shop != later.shop
      && Receive(later, Activation(st, at)).1 == Declined(Conflict)
  {
    StoryDeclined(st, at);
    FirstMove(st, at, second, third);
    var start := Receive(StoryDb(st, StoryStart(st), map[]), Activation(st, at)).0;
    var (moved, completed) := MovingEvents(st, second, third);
    var mid := Receive(start, moved).0;
    SecondMove(st, mid, at, second, third);
    RunOfTwo(start, Webhook(moved), Webhook(completed));
    MovedIsNews(Receive(mid, completed).0, st, at);
  }

  lemma RunOfTwo(db: Db, a: Action, b: Action)
    ensures Run(db, [a, b]) == Act(Act(db, a), b)
  {
    assert [a, b][..1] == [a] && [a][..0] == [];
    assert Run(db, [a]) == Act(db, a);
  }

  /** Such an event exists: the customer's subscription reads as active and nothing is granted. */
  lemma DeclinedActivationExample()
    ensures var row := Subscription("user", "gold", CheckoutPending, Some("sub_1"), Some("cs_1"),
                                None, None, false, None);
      var db := Db(Shop(map[], map[], map[], map["s" := row], map[], map["gold" := map["seats" := "5"]], {}), map[]);
      var delivery := Delivery(Stamp(1, "evt_1"), "body",
                               SubscriptionEvent(Some("s"), "sub_1", Some(Active), None, None, false));
      && Receive(db, delivery).1 == Declined(Conflict)
      && Receive(db, delivery).0.shop != db.shop
      && Receive(db, delivery).0.shop.subscriptions == map["s" := row.(status := Active, marker := Some(delivery.at))]
      && Receive(db, delivery).0.shop.entitlements == map[]
  {
    var row := Subscription("user", "gold", CheckoutPending, Some("sub_1"), Some("cs_1"), None, None, false, None);
    var db := Db(Shop(map[], map[], map[], map["s" := row], map[], map["gold" := map["seats" := "5"]], {}), map[]);
    var delivery := Delivery(Stamp(1, "evt_1"), "body",
                             SubscriptionEvent(Some("s"), "sub_1", Some(Active), None, None, false));
    assert ActivatesWithoutPeriod(db, delivery);
    ActivationIsDeclined(db, delivery);
    DeclinedLeavesRowsAlone(db, delivery);
  }
}
