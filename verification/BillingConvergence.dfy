/** Platform billing settles on the greatest event whatever the delivery order. */
module BillingConvergence {
  import opened Common
  import opened EventOrder
  import opened BillingEvents

  /** The part of an account that the latest event decides alone. */
  datatype Settled = Settled(
    customer: string, tier: Tier, status: Status, billingUnit: BillingUnit, seats: int,
    period: Period, cancelAtPeriodEnd: bool, marker: Stamp)

  function Settle(account: Account): Settled {
    Settled(account.customer, account.tier, account.status, account.billingUnit, account.seats,
            account.period, account.cancelAtPeriodEnd, account.marker)
  }

  /** What one event alone says the account should be. */
  function Announced(event: Event, proUnit: BillingUnit): Settled requires event.update.Some? {
    var update := event.update.value;
    Settled(update.customer, update.tier, update.status,
            UnitFor(update.tier, proUnit), update.quantity, update.period, update.cancelAtPeriodEnd, event.stamp)
  }

  predicate Concerns(event: Event, org: string) {
    event.update.Some? && event.update.value.organization == org
  }

  /** An update the account table can store: paid tier, 1 to 2^31-1 seats. */
  predicate Storable(update: Update) {
    update.tier != Free && 0 < update.quantity <= I32_MAX
  }

  predicate Counts(event: Event, org: string) { Concerns(event, org) && Storable(event.update.value) }

  /** What the account says before the first delivery, under the marker it carries. */
  function First(start: Db, org: string): seq<Stamped<Settled>> {
    if org in start.accounts then [Stamped(start.accounts[org].marker, Settle(start.accounts[org]))] else []
  }

  /** What the account and then the storable updates for one organization say, in delivery order,
      redeliveries included. */
  function History(start: Db, events: seq<Event>, org: string, proUnit: BillingUnit): seq<Stamped<Settled>> {
    if events == [] then First(start, org)
    else
      var n := |events| - 1;
      History(start, events[..n], org, proUnit)
      + if Counts(events[n], org) then [Stamped(events[n].stamp, Announced(events[n], proUnit))] else []
  }

  /** Every update for `org` names the customer and at most the one subscription, nobody else's
      update names either, events carry one kind of update, and an id has one body. */
  ghost predicate Scoped(events: seq<Event>, org: string, customer: string, subscription: string) {
    && (forall e :: e in events && Concerns(e, org) ==>
          && e.update.value.customer == customer
          && e.update.value.subscription in {None, Some(subscription)})
    && (forall e :: e in events && e.update.Some? && !Concerns(e, org) ==>
          && e.update.value.customer != customer
          && e.update.value.subscription != Some(subscription))
    && (forall e :: e in events && e.update.Some? ==> e.invoice.None?)
    && (forall e, f :: e in events && f in events && e.stamp.id == f.stamp.id ==> e == f)
  }

  ghost predicate Unclaimed(db: Db, org: string, customer: string, subscription: string) {
    forall other :: other in db.accounts && other != org ==>
      db.accounts[other].customer != customer && db.accounts[other].subscription != Some(subscription)
  }

  /** A tenant without an account or with an account of this customer, to which these events are news. */
  ghost predicate Fresh(db: Db, events: seq<Event>, org: string, customer: string, subscription: string) {
    && org in db.organizations && OwnAccount(db, org, customer, subscription)
    && (forall e :: e in events ==> e.stamp.id !in db.ledger)
    && (forall e :: e in events && org in db.accounts ==> e.stamp.id != db.accounts[org].marker.id)
    && Unclaimed(db, org, customer, subscription)
  }

  /** The ledger holds only what was there or has been delivered, and has every storable update. */
  ghost predicate LedgerAgrees(start: Db, db: Db, events: seq<Event>, org: string) {
    && (forall id :: id in db.ledger ==> id in start.ledger || exists e :: e in events && e.stamp.id == id)
    && (forall e :: e in events && Counts(e, org) ==> e.stamp.id in db.ledger)
  }

  ghost predicate Tracks(db: Db, history: seq<Stamped<Settled>>, org: string, customer: string, subscription: string) {
    && org in db.organizations
    && Unclaimed(db, org, customer, subscription)
    && (org in db.accounts <==> history != [])
    && (org in db.accounts ==>
          && Latest(history).Some? && Latest(history).value.at == db.accounts[org].marker
          && Settle(db.accounts[org]) == Latest(history).value.what)
    && OwnAccount(db, org, customer, subscription)
  }

  lemma {:induction false} HistoryMembers(start: Db, events: seq<Event>, org: string, proUnit: BillingUnit)
    ensures forall x :: x in History(start, events, org, proUnit) <==>
      x in First(start, org)
      || exists e :: e in events && Counts(e, org) && x == Stamped(e.stamp, Announced(e, proUnit))
  {
    if events == [] {
    } else {
      var n := |events| - 1;
      HistoryMembers(start, events[..n], org, proUnit);
      assert forall e :: e in events <==> e in events[..n] || e == events[n];
    }
  }

  lemma {:induction false} HistoryEmpty(start: Db, events: seq<Event>, org: string, proUnit: BillingUnit)
    ensures History(start, events, org, proUnit) == []
        <==> org !in start.accounts && forall f :: f in events ==> !Counts(f, org)
  {
    if events == [] {
    } else {
      var n := |events| - 1;
      HistoryEmpty(start, events[..n], org, proUnit);
      assert forall f :: f in events <==> f in events[..n] || f == events[n];
    }
  }

  lemma HistoryOneBody(start: Db, events: seq<Event>, org: string, customer: string, subscription: string,
                       proUnit: BillingUnit)
    requires Scoped(events, org, customer, subscription) && Fresh(start, events, org, customer, subscription)
    ensures OneBodyPerStamp(History(start, events, org, proUnit))
  {
    HistoryMembers(start, events, org, proUnit);
  }

  /** The account is this customer's, with at most the one subscription. */
  ghost predicate OwnAccount(db: Db, org: string, customer: string, subscription: string) {
    org in db.accounts ==>
      db.accounts[org].customer == customer && db.accounts[org].subscription in {None, Some(subscription)}
  }

  /** An event for another organization, or one the table cannot store, leaves this account alone. */
  lemma OtherEventElsewhere(db: Db, event: Event, org: string, customer: string, subscription: string,
                            proUnit: BillingUnit)
    requires Scoped([event], org, customer, subscription) && Unclaimed(db, org, customer, subscription)
    requires OwnAccount(db, org, customer, subscription)
    requires !Counts(event, org)
    ensures var after := Persist(db, event, proUnit).0;
      && after.organizations == db.organizations && Unclaimed(after, org, customer, subscription)
      && (org in after.accounts <==> org in db.accounts)
      && (org in db.accounts ==> Settle(after.accounts[org]) == Settle(db.accounts[org])
                                 && OwnAccount(after, org, customer, subscription))
  {
    assert event in [event];
    PersistAccounts(db, event, proUnit);
  }

  lemma OtherEventKeepsTrack(db: Db, history: seq<Stamped<Settled>>, event: Event, org: string,
                             customer: string, subscription: string, proUnit: BillingUnit)
    requires Tracks(db, history, org, customer, subscription)
    requires Scoped([event], org, customer, subscription)
    requires !Counts(event, org)
    ensures Tracks(Persist(db, event, proUnit).0, history, org, customer, subscription)
  {
    OtherEventElsewhere(db, event, org, customer, subscription, proUnit);
  }

  /** What a storable event does to the tables the first time it is heard. */
  function Heard(db: Db, event: Event, org: string, proUnit: BillingUnit): Db
    requires Concerns(event, org)
  {
    var previous := if org in db.accounts then Some(db.accounts[org]) else None;
    db.(ledger := db.ledger[event.stamp.id := event.payload],
        accounts := if previous.Some? && Before(event.stamp, previous.value.marker) then db.accounts
                    else db.accounts[org := AccountFrom(event.update.value, event.stamp, proUnit, previous)])
  }

  lemma FirstHearing(db: Db, event: Event, org: string, customer: string, subscription: string, proUnit: BillingUnit)
    requires Scoped([event], org, customer, subscription) && Unclaimed(db, org, customer, subscription)
    requires OwnAccount(db, org, customer, subscription) && org in db.organizations
    requires Counts(event, org) && event.stamp.id !in db.ledger
    ensures Persist(db, event, proUnit) == (Heard(db, event, org, proUnit), Processed)
  {
    assert event in [event];
    var previous := if org in db.accounts then Some(db.accounts[org]) else None;
    assert NoOtherTenant(db.accounts, org, AccountFrom(event.update.value, event.stamp, proUnit, previous));
  }

  lemma HeardTracks(db: Db, history: seq<Stamped<Settled>>, event: Event, org: string,
                    customer: string, subscription: string, proUnit: BillingUnit)
    requires Tracks(db, history, org, customer, subscription) && Concerns(event, org)
    requires event.update.value.customer == customer && event.update.value.subscription in {None, Some(subscription)}
    ensures Tracks(Heard(db, event, org, proUnit), history + [Stamped(event.stamp, Announced(event, proUnit))],
                   org, customer, subscription)
  {
    var extended := history + [Stamped(event.stamp, Announced(event, proUnit))];
    assert extended[..|history|] == history;
  }

  lemma FirstHearingKeepsTrack(db: Db, history: seq<Stamped<Settled>>, event: Event, org: string,
                               customer: string, subscription: string, proUnit: BillingUnit)
    requires Tracks(db, history, org, customer, subscription)
    requires Scoped([event], org, customer, subscription)
    requires Counts(event, org) && event.stamp.id !in db.ledger
    ensures Persist(db, event, proUnit).1 == Processed
    ensures Tracks(Persist(db, event, proUnit).0, history + [Stamped(event.stamp, Announced(event, proUnit))],
                   org, customer, subscription)
  {
    assert event in [event];
    FirstHearing(db, event, org, customer, subscription, proUnit);
    HeardTracks(db, history, event, org, customer, subscription, proUnit);
  }

  /** The database reflects exactly these deliveries. */
  ghost predicate Reflects(start: Db, db: Db, events: seq<Event>, org: string, customer: string,
                           subscription: string, proUnit: BillingUnit) {
    && LedgerAgrees(start, db, events, org)
    && Tracks(db, History(start, events, org, proUnit), org, customer, subscription)
  }

  lemma HistoryStep(start: Db, before: seq<Event>, last: Event, org: string, proUnit: BillingUnit)
    ensures History(start, before + [last], org, proUnit) == History(start, before, org, proUnit)
      + if Counts(last, org) then [Stamped(last.stamp, Announced(last, proUnit))] else []
  {
    assert (before + [last])[..|before|] == before;
  }

  /** Recording at most the last event keeps the ledger in agreement. */
  lemma LedgerStep(start: Db, db: Db, after: Db, before: seq<Event>, last: Event, org: string)
    requires LedgerAgrees(start, db, before, org)
    requires after.ledger == db.ledger || after.ledger == db.ledger[last.stamp.id := last.payload]
    requires Counts(last, org) ==> last.stamp.id in after.ledger
    ensures LedgerAgrees(start, after, before + [last], org)
  {
    assert forall e :: e in before + [last] <==> e in before || e == last;
  }

  lemma ReflectsOther(start: Db, db: Db, before: seq<Event>, last: Event, org: string, customer: string,
                      subscription: string, proUnit: BillingUnit)
    requires Reflects(start, db, before, org, customer, subscription, proUnit)
    requires Scoped([last], org, customer, subscription) && !Counts(last, org)
    ensures Reflects(start, Persist(db, last, proUnit).0, before + [last], org, customer, subscription, proUnit)
  {
    HistoryStep(start, before, last, org, proUnit);
    RejectionLeavesNoTrace(db, last, proUnit);
    OtherEventKeepsTrack(db, History(start, before, org, proUnit), last, org, customer, subscription, proUnit);
    LedgerStep(start, db, Persist(db, last, proUnit).0, before, last, org);
    assert History(start, before + [last], org, proUnit) == History(start, before, org, proUnit);
  }

  lemma RepeatTracks(db: Db, history: seq<Stamped<Settled>>, again: Stamped<Settled>, org: string,
                     customer: string, subscription: string)
    requires Tracks(db, history, org, customer, subscription) && again in history && OneBodyPerStamp(history)
    ensures Tracks(db, history + [again], org, customer, subscription)
  {
    LatestRepeat(history, again);
  }

  lemma ReflectsRepeat(start: Db, db: Db, before: seq<Event>, last: Event, org: string, customer: string,
                       subscription: string, proUnit: BillingUnit)
    requires Reflects(start, db, before, org, customer, subscription, proUnit)
    requires Scoped(before, org, customer, subscription) && Fresh(start, before, org, customer, subscription)
    requires last in before && Counts(last, org)
    ensures Reflects(start, Persist(db, last, proUnit).0, before + [last], org, customer, subscription, proUnit)
  {
    var history, again := History(start, before, org, proUnit), Stamped(last.stamp, Announced(last, proUnit));
    HistoryStep(start, before, last, org, proUnit);
    HistoryMembers(start, before, org, proUnit);
    assert again in history;
    HistoryOneBody(start, before, org, customer, subscription, proUnit);
    RepeatTracks(db, history, again, org, customer, subscription);
    LedgerStep(start, db, db, before, last, org);
  }

  lemma ReflectsFirst(start: Db, db: Db, before: seq<Event>, last: Event, org: string, customer: string,
                      subscription: string, proUnit: BillingUnit)
    requires Reflects(start, db, before, org, customer, subscription, proUnit)
    requires Scoped([last], org, customer, subscription)
    requires last.stamp.id !in db.ledger && Counts(last, org)
    ensures Reflects(start, Persist(db, last, proUnit).0, before + [last], org, customer, subscription, proUnit)
  {
    HistoryStep(start, before, last, org, proUnit);
    RejectionLeavesNoTrace(db, last, proUnit);
    FirstHearingKeepsTrack(db, History(start, before, org, proUnit), last, org, customer, subscription, proUnit);
    LedgerStep(start, db, Persist(db, last, proUnit).0, before, last, org);
  }

  lemma HeardBefore(start: Db, db: Db, before: seq<Event>, last: Event, org: string, customer: string,
                    subscription: string)
    requires Scoped(before + [last], org, customer, subscription) && LedgerAgrees(start, db, before, org)
    requires last.stamp.id in db.ledger && last.stamp.id !in start.ledger
    ensures last in before
  {
    assert last in before + [last] && forall e :: e in before ==> e in before + [last];
  }

  lemma {:induction false} DeliveryTracks(start: Db, events: seq<Event>, org: string, customer: string,
                                          subscription: string, proUnit: BillingUnit)
    requires Scoped(events, org, customer, subscription) && Fresh(start, events, org, customer, subscription)
    ensures Reflects(start, Run(start, events, proUnit), events, org, customer, subscription, proUnit)
  {
    if events == [] {
    } else {
      var n := |events| - 1;
      var before, last := events[..n], events[n];
      assert events == before + [last] && forall e :: e in before ==> e in events;
      DeliveryTracks(start, before, org, customer, subscription, proUnit);
      var db := Run(start, before, proUnit);
      assert Scoped([last], org, customer, subscription);
      RunAppend(start, before, last, proUnit);
      if !Counts(last, org) {
        ReflectsOther(start, db, before, last, org, customer, subscription, proUnit);
      } else if last.stamp.id in db.ledger {
        HeardBefore(start, db, before, last, org, customer, subscription);
        ReflectsRepeat(start, db, before, last, org, customer, subscription, proUnit);
      } else {
        ReflectsFirst(start, db, before, last, org, customer, subscription, proUnit);
      }
    }
  }

  /** The account left at the end, by one event or by none. */
  ghost predicate EndsAt(start: Db, after: Settled, events: seq<Event>, org: string, proUnit: BillingUnit) {
    || (&& org in start.accounts && after == Settle(start.accounts[org])
        && forall f :: f in events && Counts(f, org) ==> Before(f.stamp, start.accounts[org].marker))
    || exists e ::
         && e in events && Counts(e, org) && after == Announced(e, proUnit)
         && (org in start.accounts ==> Before(start.accounts[org].marker, e.stamp))
         && forall f :: f in events && Counts(f, org) ==> f == e || Before(f.stamp, e.stamp)
  }

  /** The winner of the history is the account at the start or a greatest event. */
  lemma WinnerEnds(start: Db, events: seq<Event>, org: string, customer: string, subscription: string,
                   proUnit: BillingUnit)
    requires Scoped(events, org, customer, subscription) && Fresh(start, events, org, customer, subscription)
    requires Latest(History(start, events, org, proUnit)).Some?
    ensures EndsAt(start, Latest(History(start, events, org, proUnit)).value.what, events, org, proUnit)
  {
    var history := History(start, events, org, proUnit);
    var winner := Latest(history).value;
    LatestDominates(history);
    HistoryMembers(start, events, org, proUnit);
    forall f | f in events && Counts(f, org) ensures f.stamp == winner.at || Before(f.stamp, winner.at) {
      assert Stamped(f.stamp, Announced(f, proUnit)) in history;
    }
    assert org in start.accounts ==> First(start, org)[0] in history;
    if winner !in First(start, org) {
      var e :| e in events && Counts(e, org) && winner == Stamped(e.stamp, Announced(e, proUnit));
      assert forall f :: f in events && Counts(f, org) ==> f == e || Before(f.stamp, e.stamp);
    }
  }

  /** Whatever the order and number of deliveries, and whatever this customer's account was before, it ends as
      the greatest (created, event id) announces it, its own marker taking part as one more event; with no
      account and no storable update there is none. */
  lemma AccountEndsAtGreatest(start: Db, events: seq<Event>, org: string, customer: string,
                              subscription: string, proUnit: BillingUnit)
    requires Scoped(events, org, customer, subscription) && Fresh(start, events, org, customer, subscription)
    ensures var after := Run(start, events, proUnit);
      if org in after.accounts then EndsAt(start, Settle(after.accounts[org]), events, org, proUnit)
      else org !in start.accounts && forall f :: f in events ==> !Counts(f, org)
  {
    DeliveryTracks(start, events, org, customer, subscription, proUnit);
    if org in Run(start, events, proUnit).accounts {
      WinnerEnds(start, events, org, customer, subscription, proUnit);
    } else {
      HistoryEmpty(start, events, org, proUnit);
    }
  }

  /** Two deliveries of the same set of events end with the same settled account. */
  lemma DeliveryOrderIsIrrelevant(start: Db, one: seq<Event>, two: seq<Event>, org: string, customer: string,
                                  subscription: string, proUnit: BillingUnit)
    requires Scoped(one, org, customer, subscription) && Fresh(start, one, org, customer, subscription)
    requires forall e :: e in one <==> e in two
    ensures org in Run(start, one, proUnit).accounts <==> org in Run(start, two, proUnit).accounts
    ensures org in Run(start, one, proUnit).accounts ==>
      Settle(Run(start, one, proUnit).accounts[org]) == Settle(Run(start, two, proUnit).accounts[org])
  {
    DeliveryTracks(start, one, org, customer, subscription, proUnit);
    DeliveryTracks(start, two, org, customer, subscription, proUnit);
    HistoryMembers(start, one, org, proUnit);
    HistoryMembers(start, two, org, proUnit);
    HistoryOneBody(start, one, org, customer, subscription, proUnit);
    var a, b := History(start, one, org, proUnit), History(start, two, org, proUnit);
    assert SameMembers(a, b);
    LatestIgnoresOrder(a, b);
    if a != [] { assert a[0] in b; }
    if b != [] { assert b[0] in a; }
  }
}
