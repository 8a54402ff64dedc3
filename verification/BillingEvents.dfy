/** Platform billing webhooks (apps/api/src/billing.rs): each verified provider
    event is one database transaction over the event ledger, the organization
    billing accounts and the invoices. */
module BillingEvents {
  import opened Common
  import opened EventOrder

  datatype Tier = Free | PayAsYouGo | Pro
  datatype Status = CheckoutPending | Trialing | Active | PastDue | Unpaid | Canceled | Paused | Incomplete
  datatype BillingUnit = PerOrganization | PerSeat
  datatype InvoiceStatus = Draft | Open | Paid | Uncollectible | Void | PaymentFailed

  datatype Period = Period(start: Option<int>, end: Option<int>)

  datatype Account = Account(
    customer: string, subscription: Option<string>, tier: Tier, status: Status, billingUnit: BillingUnit,
    seats: int, period: Period, cancelAtPeriodEnd: bool, marker: Stamp)

  datatype Invoice = Invoice(
    organization: string, subscription: Option<string>, status: InvoiceStatus, currency: string,
    due: nat, paid: nat, period: Period, hostedUrl: Option<string>, pdfUrl: Option<string>, marker: Stamp)

  datatype Update = Update(
    organization: string, customer: string, subscription: Option<string>, tier: Tier, status: Status,
    quantity: nat, period: Period, cancelAtPeriodEnd: bool)

  datatype InvoiceUpdate = InvoiceUpdate(
    organization: string, invoiceId: string, customer: string, subscription: Option<string>,
    status: InvoiceStatus, currency: string, due: nat, paid: nat, period: Period,
    hostedUrl: Option<string>, pdfUrl: Option<string>)

  /** A signature-checked event; `payload` stands for the SHA-256 of its bytes. */
  datatype Event = Event(
    stamp: Stamp, payload: string, update: Option<Update>, invoice: Option<InvoiceUpdate>)

  datatype Db = Db(
    organizations: set<string>, ledger: map<string, string>,
    accounts: map<string, Account>, invoices: map<string, Invoice>)

  datatype Outcome = Processed | Duplicate | ReplayConflict | InvalidEvent | Unavailable

  /** What one statement sequence inside the transaction leaves behind. */
  datatype Applied = Wrote(db: Db) | Failed(outcome: Outcome)

  // ---------------------------------------------------------------- rows

  function UnitFor(tier: Tier, proUnit: BillingUnit): BillingUnit {
    if tier == Pro then proUnit else PerOrganization
  }

  /** The account row an update asks for, given the row it replaces. */
  function AccountFrom(update: Update, at: Stamp, proUnit: BillingUnit, previous: Option<Account>): Account {
    Account(
      update.customer,
      OrElse(update.subscription, if previous.Some? then previous.value.subscription else None),
      update.tier, update.status, UnitFor(update.tier, proUnit), update.quantity,
      update.period, update.cancelAtPeriodEnd, at)
  }

  /** CHECK constraints of organization_billing_accounts. */
  predicate RowAllowed(update: Update) {
    update.tier != Free && 0 < update.quantity
  }

  /** UNIQUE (provider, provider_customer_id) and UNIQUE (provider, provider_subscription_id). */
  ghost predicate NoOtherTenant(accounts: map<string, Account>, organization: string, row: Account) {
    forall other :: other in accounts && other != organization ==>
      && accounts[other].customer != row.customer
      && (row.subscription.Some? ==> accounts[other].subscription != row.subscription)
  }

  /** Signed but mis-scoped metadata: the customer, or a live subscription, belongs to someone else. */
  predicate MisScoped(account: Account, update: Update) {
    || account.customer != update.customer
    || (account.subscription.Some? && update.subscription.Some?
        && update.subscription != account.subscription && account.status != Canceled)
  }

  ghost function ApplyUpdate(db: Db, at: Stamp, update: Update, proUnit: BillingUnit): Applied {
    var previous := if update.organization in db.accounts then Some(db.accounts[update.organization]) else None;
    if previous.Some? && MisScoped(previous.value, update) then Failed(InvalidEvent)
    else if previous.Some? && Before(at, previous.value.marker) then Wrote(db)
    else if I32_MAX < update.quantity then Failed(InvalidEvent)
    else
      var row := AccountFrom(update, at, proUnit, previous);
      if RowAllowed(update) && NoOtherTenant(db.accounts, update.organization, row) then
        Wrote(db.(accounts := db.accounts[update.organization := row]))
      else Failed(Unavailable)
  }

  predicate Https(url: Option<string>) {
    url.Some? ==> "https://" <= url.value
  }

  /** CHECK constraints of organization_billing_invoices. */
  predicate InvoiceAllowed(update: InvoiceUpdate) {
    (update.paid <= update.due || update.status == Paid) && Https(update.hostedUrl) && Https(update.pdfUrl)
  }

  function InvoiceFrom(update: InvoiceUpdate, at: Stamp, previous: Option<Invoice>): Invoice {
    var kept := if previous.Some? then previous.value else
      Invoice(update.organization, None, update.status, update.currency, 0, 0, update.period, None, None, at);
    Invoice(
      update.organization, OrElse(update.subscription, kept.subscription), update.status, update.currency,
      update.due, update.paid, update.period,
      OrElse(update.hostedUrl, kept.hostedUrl), OrElse(update.pdfUrl, kept.pdfUrl), at)
  }

  function ApplyInvoice(db: Db, at: Stamp, update: InvoiceUpdate): Applied {
    if update.organization !in db.accounts then Failed(InvalidEvent)
    else
      var account := db.accounts[update.organization];
      if account.customer != update.customer
         || (account.subscription.Some? && update.subscription != account.subscription) then Failed(InvalidEvent)
      else if I64_MAX < update.due || I64_MAX < update.paid then Failed(InvalidEvent)
      else if !InvoiceAllowed(update) then Failed(Unavailable)
      else if update.invoiceId !in db.invoices then
        Wrote(db.(invoices := db.invoices[update.invoiceId := InvoiceFrom(update, at, None)]))
      else
        var stored := db.invoices[update.invoiceId];
        if stored.organization != update.organization then Failed(InvalidEvent)
        else if Before(at, stored.marker) then Wrote(db)
        else Wrote(db.(invoices := db.invoices[update.invoiceId := InvoiceFrom(update, at, Some(stored))]))
  }

  function OrganizationOf(event: Event): Option<string> {
    if event.update.Some? then Some(event.update.value.organization)
    else if event.invoice.Some? then Some(event.invoice.value.organization)
    else None
  }

  /** The whole transaction before commit or rollback is decided. */
  ghost function ApplyAll(db: Db, event: Event, proUnit: BillingUnit): Applied {
    var first := if event.update.Some? then ApplyUpdate(db, event.stamp, event.update.value, proUnit) else Wrote(db);
    if first.Failed? || event.invoice.None? then first
    else ApplyInvoice(first.db, event.stamp, event.invoice.value)
  }

  ghost function Persist(db: Db, event: Event, proUnit: BillingUnit): (Db, Outcome) {
    if event.stamp.id in db.ledger then
      (db, if db.ledger[event.stamp.id] == event.payload then Duplicate else ReplayConflict)
    else if OrganizationOf(event).Some? && OrganizationOf(event).value !in db.organizations then (db, Unavailable)
    else
      var recorded := db.(ledger := db.ledger[event.stamp.id := event.payload]);
      var applied := ApplyAll(recorded, event, proUnit);
      if applied.Wrote? then (applied.db, Processed) else (db, applied.outcome)
  }

  /** The service object: one transaction per call, rolled back on every error. */
  class BillingStore {
    var db: Db

    constructor (initial: Db)
      ensures db == initial
    {
      db := initial;
    }

    method PersistEvent(event: Event, proUnit: BillingUnit) returns (outcome: Outcome)
      modifies this
      ensures (db, outcome) == Persist(old(db), event, proUnit)
    {
      var savepoint := db;
      var organization := OrganizationOf(event);
      if event.stamp.id in db.ledger {
        return if db.ledger[event.stamp.id] == event.payload then Duplicate else ReplayConflict;
      }
      if organization.Some? && organization.value !in db.organizations {
        return Unavailable;
      }
      db := db.(ledger := db.ledger[event.stamp.id := event.payload]);
      outcome := Processed;
      if event.update.Some? {
        outcome := WriteAccount(event.stamp, event.update.value, proUnit);
      }
      if outcome == Processed && event.invoice.Some? {
        outcome := WriteInvoice(event.stamp, event.invoice.value);
      }
      if outcome != Processed {
        db := savepoint;
      }
    }

    method WriteAccount(at: Stamp, update: Update, proUnit: BillingUnit) returns (outcome: Outcome)
      modifies this
      ensures ApplyUpdate(old(db), at, update, proUnit)
           == if outcome == Processed then Wrote(db) else Failed(outcome)
    {
      var previous: Option<Account> := None;
      if update.organization in db.accounts {
        previous := Some(db.accounts[update.organization]);
        if MisScoped(previous.value, update) {
          return InvalidEvent;
        }
        if Before(at, previous.value.marker) {
          return Processed;
        }
      }
      if I32_MAX < update.quantity {
        return InvalidEvent;
      }
      var row := AccountFrom(update, at, proUnit, previous);
      var clash := TenantClash(update.organization, row);
      if !RowAllowed(update) || clash {
        return Unavailable;
      }
      db := db.(accounts := db.accounts[update.organization := row]);
      return Processed;
    }

    /** The two unique indexes, checked by scanning the other tenants' rows. */
    method TenantClash(organization: string, row: Account) returns (clash: bool)
      ensures clash <==> !NoOtherTenant(db.accounts, organization, row)
    {
      var rest := db.accounts.Keys;
      while rest != {}
        invariant rest <= db.accounts.Keys
        invariant forall other :: other in db.accounts && other !in rest && other != organization ==>
          && db.accounts[other].customer != row.customer
          && (row.subscription.Some? ==> db.accounts[other].subscription != row.subscription)
      {
        var other :| other in rest;
        if other != organization
           && (db.accounts[other].customer == row.customer
               || (row.subscription.Some? && db.accounts[other].subscription == row.subscription)) {
          return true;
        }
        rest := rest - {other};
      }
      return false;
    }

    method WriteInvoice(at: Stamp, update: InvoiceUpdate) returns (outcome: Outcome)
      modifies this
      ensures ApplyInvoice(old(db), at, update)
           == if outcome == Processed then Wrote(db) else Failed(outcome)
    {
      if update.organization !in db.accounts {
        return InvalidEvent;
      }
      var account := db.accounts[update.organization];
      if account.customer != update.customer
         || (account.subscription.Some? && update.subscription != account.subscription)
         || I64_MAX < update.due || I64_MAX < update.paid {
        return InvalidEvent;
      }
      if !InvoiceAllowed(update) {
        return Unavailable;
      }
      var previous: Option<Invoice> := None;
      if update.invoiceId in db.invoices {
        previous := Some(db.invoices[update.invoiceId]);
        if previous.value.organization != update.organization {
          return InvalidEvent;
        }
        if Before(at, previous.value.marker) {
          return Processed;
        }
      }
      db := db.(invoices := db.invoices[update.invoiceId := InvoiceFrom(update, at, previous)]);
      return Processed;
    }
  }

  // ---------------------------------------------------------------- runs

  /** The database after a sequence of deliveries, in order. */
  ghost function Run(db: Db, events: seq<Event>, proUnit: BillingUnit): Db {
    if events == [] then db
    else Persist(Run(db, events[..|events| - 1], proUnit), events[|events| - 1], proUnit).0
  }

  /** Customers and subscriptions are each held by at most one organization. */
  ghost predicate TenantsDisjoint(db: Db) {
    forall a, b :: a in db.accounts && b in db.accounts && a != b ==>
      && db.accounts[a].customer != db.accounts[b].customer
      && (db.accounts[a].subscription.Some? ==> db.accounts[a].subscription != db.accounts[b].subscription)
  }

  /** What stays bound between an earlier and a later database. */
  ghost predicate Bound(before: Db, after: Db) {
    && before.organizations == after.organizations
    && (forall id :: id in before.ledger ==> id in after.ledger && after.ledger[id] == before.ledger[id])
    && (forall org :: org in before.accounts ==>
          && org in after.accounts
          && after.accounts[org].customer == before.accounts[org].customer
          && (before.accounts[org].subscription.Some? ==> after.accounts[org].subscription.Some?)
          && !Before(after.accounts[org].marker, before.accounts[org].marker))
    && (forall id :: id in before.invoices ==>
          && id in after.invoices
          && after.invoices[id].organization == before.invoices[id].organization
          && !Before(after.invoices[id].marker, before.invoices[id].marker))
  }

  lemma BoundReflexive(db: Db)
    ensures Bound(db, db)
  {
    forall org | org in db.accounts { BeforeTotal(db.accounts[org].marker, db.accounts[org].marker); }
    forall id | id in db.invoices { BeforeTotal(db.invoices[id].marker, db.invoices[id].marker); }
  }

  lemma NotBeforeTransitive(a: Stamp, b: Stamp, c: Stamp)
    requires !Before(b, a) && !Before(c, b)
    ensures !Before(c, a)
  {
    BeforeTotal(a, b);
    BeforeTotal(b, c);
    if Before(c, a) && b != c && a != b {
      BeforeTransitive(b, c, a);
    }
  }

  lemma BoundTransitive(a: Db, b: Db, c: Db)
    requires Bound(a, b) && Bound(b, c)
    ensures Bound(a, c)
  {
    forall org | org in a.accounts
      ensures !Before(c.accounts[org].marker, a.accounts[org].marker)
    {
      NotBeforeTransitive(a.accounts[org].marker, b.accounts[org].marker, c.accounts[org].marker);
    }
    forall id | id in a.invoices
      ensures !Before(c.invoices[id].marker, a.invoices[id].marker)
    {
      NotBeforeTransitive(a.invoices[id].marker, b.invoices[id].marker, c.invoices[id].marker);
    }
  }

  lemma AccountStepBound(db: Db, at: Stamp, update: Update, proUnit: BillingUnit)
    requires ApplyUpdate(db, at, update, proUnit).Wrote?
    ensures Bound(db, ApplyUpdate(db, at, update, proUnit).db)
    ensures TenantsDisjoint(db) ==> TenantsDisjoint(ApplyUpdate(db, at, update, proUnit).db)
  {
    BoundReflexive(db);
  }

  lemma InvoiceStepBound(db: Db, at: Stamp, update: InvoiceUpdate)
    requires ApplyInvoice(db, at, update).Wrote?
    ensures Bound(db, ApplyInvoice(db, at, update).db)
    ensures ApplyInvoice(db, at, update).db.accounts == db.accounts
  {
    BoundReflexive(db);
  }

  lemma PersistBound(db: Db, event: Event, proUnit: BillingUnit)
    ensures Bound(db, Persist(db, event, proUnit).0)
    ensures TenantsDisjoint(db) ==> TenantsDisjoint(Persist(db, event, proUnit).0)
  {
    BoundReflexive(db);
    if Persist(db, event, proUnit).1 == Processed {
      var recorded := db.(ledger := db.ledger[event.stamp.id := event.payload]);
      BoundReflexive(recorded);
      assert Bound(db, recorded);
      var first := if event.update.Some? then ApplyUpdate(recorded, event.stamp, event.update.value, proUnit)
                   else Wrote(recorded);
      if event.update.Some? { AccountStepBound(recorded, event.stamp, event.update.value, proUnit); }
      if event.invoice.Some? {
        InvoiceStepBound(first.db, event.stamp, event.invoice.value);
        BoundTransitive(recorded, first.db, Persist(db, event, proUnit).0);
      }
      BoundTransitive(db, recorded, Persist(db, event, proUnit).0);
    }
  }

  lemma {:induction false} RunDisjoint(db: Db, events: seq<Event>, proUnit: BillingUnit)
    requires TenantsDisjoint(db)
    ensures TenantsDisjoint(Run(db, events, proUnit))
  {
    if events == [] {
    } else {
      var n := |events| - 1;
      RunDisjoint(db, events[..n], proUnit);
      PersistBound(Run(db, events[..n], proUnit), events[n], proUnit);
    }
  }

  lemma RunAppend(db: Db, events: seq<Event>, last: Event, proUnit: BillingUnit)
    ensures Run(db, events + [last], proUnit) == Persist(Run(db, events, proUnit), last, proUnit).0
  {
    assert (events + [last])[..|events|] == events;
  }

  /** Over every run: customers never change, subscriptions are never dropped, invoices never change
      organization, order markers never go back, recorded payloads stay, and no two organizations
      ever share a provider customer or subscription. */
  lemma {:induction false} TenantBinding(db: Db, events: seq<Event>, later: seq<Event>, proUnit: BillingUnit)
    requires TenantsDisjoint(db)
    ensures TenantsDisjoint(Run(db, events + later, proUnit))
    ensures Bound(Run(db, events, proUnit), Run(db, events + later, proUnit))
  {
    RunDisjoint(db, events + later, proUnit);
    if later == [] {
      assert events + later == events;
      BoundReflexive(Run(db, events, proUnit));
    } else {
      var n := |later| - 1;
      TenantBinding(db, events, later[..n], proUnit);
      assert events + later == (events + later[..n]) + [later[n]];
      RunAppend(db, events + later[..n], later[n], proUnit);
      PersistBound(Run(db, events + later[..n], proUnit), later[n], proUnit);
      BoundTransitive(Run(db, events, proUnit), Run(db, events + later[..n], proUnit),
                      Run(db, events + later, proUnit));
    }
  }

  function Previous(accounts: map<string, Account>, organization: string): Option<Account> {
    if organization in accounts then Some(accounts[organization]) else None
  }

  /** The account table after one accepted update. */
  ghost predicate AccountWrite(before: map<string, Account>, after: map<string, Account>, at: Stamp, update: Update,
                               proUnit: BillingUnit) {
    var previous := Previous(before, update.organization);
    var row := AccountFrom(update, at, proUnit, previous);
    && after == before[update.organization := row]
    && (previous.Some? ==> !MisScoped(previous.value, update))
    && RowAllowed(update) && update.quantity <= I32_MAX && NoOtherTenant(before, update.organization, row)
  }

  lemma UpdateAccounts(db: Db, at: Stamp, update: Update, proUnit: BillingUnit)
    requires ApplyUpdate(db, at, update, proUnit).Wrote?
    ensures var after := ApplyUpdate(db, at, update, proUnit).db;
      && after.organizations == db.organizations
      && (after.accounts == db.accounts || AccountWrite(db.accounts, after.accounts, at, update, proUnit))
  {
  }

  lemma InvoiceAccounts(db: Db, at: Stamp, update: InvoiceUpdate)
    requires ApplyInvoice(db, at, update).Wrote?
    ensures var after := ApplyInvoice(db, at, update).db;
      after.organizations == db.organizations && after.accounts == db.accounts
  {
  }

  /** An event leaves the accounts alone or writes the one row its update names. */
  lemma PersistAccounts(db: Db, event: Event, proUnit: BillingUnit)
    ensures var after := Persist(db, event, proUnit).0;
      && after.organizations == db.organizations
      && (|| after.accounts == db.accounts
          || (event.update.Some?
              && AccountWrite(db.accounts, after.accounts, event.stamp, event.update.value, proUnit)))
  {
    if Persist(db, event, proUnit).1 == Processed {
      var recorded := db.(ledger := db.ledger[event.stamp.id := event.payload]);
      var first := if event.update.Some? then ApplyUpdate(recorded, event.stamp, event.update.value, proUnit)
                   else Wrote(recorded);
      if event.update.Some? { UpdateAccounts(recorded, event.stamp, event.update.value, proUnit); }
      if event.invoice.Some? { InvoiceAccounts(first.db, event.stamp, event.invoice.value); }
    }
  }

  lemma SubscriptionStep(db: Db, event: Event, proUnit: BillingUnit, org: string)
    requires org in db.accounts && db.accounts[org].subscription.Some?
    ensures org in Persist(db, event, proUnit).0.accounts
    ensures Persist(db, event, proUnit).0.accounts[org].subscription != db.accounts[org].subscription
        ==> db.accounts[org].status == Canceled
  {
    PersistAccounts(db, event, proUnit);
    var after := Persist(db, event, proUnit).0.accounts;
    if after != db.accounts {
      WriteKeepsSubscription(db.accounts, after, event.stamp, event.update.value, proUnit, org);
    }
  }

  lemma WriteKeepsSubscription(before: map<string, Account>, after: map<string, Account>, at: Stamp, update: Update,
                               proUnit: BillingUnit, org: string)
    requires AccountWrite(before, after, at, update, proUnit) && org in before && before[org].subscription.Some?
    ensures org in after
    ensures after[org].subscription != before[org].subscription ==> before[org].status == Canceled
  {
  }

  ghost predicate CanceledAt(db: Db, org: string) {
    org in db.accounts && db.accounts[org].status == Canceled
  }

  lemma RunAlong(db: Db, events: seq<Event>, later: seq<Event>, k: nat, proUnit: BillingUnit)
    requires k < |later|
    ensures Run(db, events + later[..k + 1], proUnit)
        == Persist(Run(db, events + later[..k], proUnit), later[k], proUnit).0
  {
    RunAppend(db, events + later[..k], later[k], proUnit);
    assert events + later[..k + 1] == (events + later[..k]) + [later[k]];
  }

  /** Every delivery that changes a bound subscription id starts from a canceled account. */
  lemma ChangeStartsCanceled(db: Db, events: seq<Event>, later: seq<Event>, k: nat, proUnit: BillingUnit, org: string)
    requires k < |later|
    requires var before := Run(db, events + later[..k], proUnit);
      org in before.accounts && before.accounts[org].subscription.Some?
    ensures var before, after := Run(db, events + later[..k], proUnit), Run(db, events + later[..k + 1], proUnit);
      && org in after.accounts
      && (after.accounts[org].subscription != before.accounts[org].subscription ==> CanceledAt(before, org))
  {
    RunAlong(db, events, later, k, proUnit);
    SubscriptionStep(Run(db, events + later[..k], proUnit), later[k], proUnit, org);
  }

  lemma StillBound(db: Db, events: seq<Event>, later: seq<Event>, proUnit: BillingUnit, org: string)
    requires TenantsDisjoint(db) && org in Run(db, events, proUnit).accounts
    requires Run(db, events, proUnit).accounts[org].subscription.Some?
    ensures org in Run(db, events + later, proUnit).accounts
    ensures Run(db, events + later, proUnit).accounts[org].subscription.Some?
  {
    TenantBinding(db, events, later, proUnit);
  }

  /** The delivery at position `k` replaces the subscription id of an account that is canceled right before it. */
  ghost predicate ReplacedAt(db: Db, events: seq<Event>, later: seq<Event>, k: nat, proUnit: BillingUnit, org: string)
    requires k < |later|
  {
    var before, after := Run(db, events + later[..k], proUnit), Run(db, events + later[..k + 1], proUnit);
    && CanceledAt(before, org) && org in after.accounts
    && after.accounts[org].subscription != before.accounts[org].subscription
  }

  function SubscriptionOf(accounts: map<string, Account>, org: string): Option<string> {
    if org in accounts then accounts[org].subscription else None
  }

  /** A value that differs in the end changed at some step. */
  lemma {:induction false} ChangesSomewhere(values: seq<Option<string>>, m: nat)
    requires m < |values| && values[0] != values[m]
    ensures exists k :: 0 <= k < m && values[k] != values[k + 1]
  {
    if m == 0 {
    } else if values[m - 1] != values[m] {
    } else {
      ChangesSomewhere(values, m - 1);
    }
  }

  /** A delivery after which a bound subscription id differs replaced it. */
  lemma ChangeIsReplacement(db: Db, events: seq<Event>, later: seq<Event>, k: nat, proUnit: BillingUnit, org: string)
    requires TenantsDisjoint(db) && k < |later|
    requires org in Run(db, events, proUnit).accounts && Run(db, events, proUnit).accounts[org].subscription.Some?
    requires SubscriptionOf(Run(db, events + later[..k], proUnit).accounts, org)
          != SubscriptionOf(Run(db, events + later[..k + 1], proUnit).accounts, org)
    ensures ReplacedAt(db, events, later, k, proUnit, org)
  {
    StillBound(db, events, later[..k], proUnit, org);
    ChangeStartsCanceled(db, events, later, k, proUnit, org);
  }

  lemma SubscriptionsAlong(db: Db, events: seq<Event>, later: seq<Event>, proUnit: BillingUnit, org: string)
      returns (values: seq<Option<string>>)
    ensures |values| == |later| + 1
    ensures forall k :: 0 <= k <= |later| ==>
      values[k] == SubscriptionOf(Run(db, events + later[..k], proUnit).accounts, org)
  {
    values := seq(|later| + 1,
                  k requires 0 <= k <= |later| => SubscriptionOf(Run(db, events + later[..k], proUnit).accounts, org));
  }

  /** If the subscription id differs later, some delivery in between replaced it, from a canceled account. */
  lemma {:induction false} ReplacedOnlyWhileCanceled(db: Db, events: seq<Event>, later: seq<Event>,
                                                     proUnit: BillingUnit, org: string)
    requires TenantsDisjoint(db)
    requires org in Run(db, events, proUnit).accounts
    requires Run(db, events, proUnit).accounts[org].subscription.Some?
    requires org in Run(db, events + later, proUnit).accounts
    requires Run(db, events + later, proUnit).accounts[org].subscription
          != Run(db, events, proUnit).accounts[org].subscription
    ensures exists k :: 0 <= k < |later| && ReplacedAt(db, events, later, k, proUnit, org)
  {
    var values := SubscriptionsAlong(db, events, later, proUnit, org);
    assert events + later[..0] == events && later[..|later|] == later;
    ChangesSomewhere(values, |later|);
    var k :| 0 <= k < |later| && values[k] != values[k + 1];
    ChangeIsReplacement(db, events, later, k, proUnit, org);
  }

  /** A rejected or duplicate event leaves ledger, accounts and invoices untouched; a processed one
      was not recorded before and is recorded with its own payload. */
  lemma RejectionLeavesNoTrace(db: Db, event: Event, proUnit: BillingUnit)
    ensures Persist(db, event, proUnit).1 != Processed ==> Persist(db, event, proUnit).0 == db
    ensures Persist(db, event, proUnit).1 == Processed ==>
      && event.stamp.id !in db.ledger
      && Persist(db, event, proUnit).0.ledger == db.ledger[event.stamp.id := event.payload]
  {
  }

  lemma RunStep(db: Db, events: seq<Event>, i: nat, proUnit: BillingUnit)
    requires i < |events|
    ensures Run(db, events[..i + 1], proUnit) == Persist(Run(db, events[..i], proUnit), events[i], proUnit).0
  {
    assert events[..i + 1][..i] == events[..i];
  }

  /** Each event identifier is processed at most once in any run, whatever else is delivered: ever after it is a
      duplicate with the payload it was processed with, and a conflict with any other. */
  lemma ProcessedAtMostOnce(db: Db, events: seq<Event>, i: nat, j: nat, proUnit: BillingUnit)
    requires TenantsDisjoint(db)
    requires i < j < |events| && events[i].stamp.id == events[j].stamp.id
    requires Persist(Run(db, events[..i], proUnit), events[i], proUnit).1 == Processed
    ensures Persist(Run(db, events[..j], proUnit), events[j], proUnit).1
         == if events[i].payload == events[j].payload then Duplicate else ReplayConflict
    ensures Run(db, events[..j + 1], proUnit) == Run(db, events[..j], proUnit)
  {
    RunStep(db, events, i, proUnit);
    RejectionLeavesNoTrace(Run(db, events[..i], proUnit), events[i], proUnit);
    TenantBinding(db, events[..i + 1], events[i + 1..j], proUnit);
    assert events[..i + 1] + events[i + 1..j] == events[..j];
    RunStep(db, events, j, proUnit);
  }

  // ---------------------------------------------------------------- what the tables may hold

  predicate AccountKept(account: Account, proUnit: BillingUnit) {
    && account.tier in {PayAsYouGo, Pro} && 0 < account.seats <= 2_147_483_647
    && (account.tier == Pro ==> account.billingUnit == proUnit)
    && (account.tier != Pro ==> account.billingUnit == PerOrganization)
  }

  predicate InvoiceKept(invoice: Invoice) {
    && invoice.due <= 9_223_372_036_854_775_807 && invoice.paid <= 9_223_372_036_854_775_807
    && (invoice.paid <= invoice.due || invoice.status == Paid)
    && (invoice.hostedUrl.Some? ==> "https://" <= invoice.hostedUrl.value)
    && (invoice.pdfUrl.Some? ==> "https://" <= invoice.pdfUrl.value)
  }

  ghost predicate TablesKept(db: Db, proUnit: BillingUnit) {
    && (forall org :: org in db.accounts ==> AccountKept(db.accounts[org], proUnit))
    && (forall id :: id in db.invoices ==> InvoiceKept(db.invoices[id]))
  }

  lemma UpdateKeepsTables(db: Db, at: Stamp, update: Update, proUnit: BillingUnit)
    requires TablesKept(db, proUnit) && ApplyUpdate(db, at, update, proUnit).Wrote?
    ensures TablesKept(ApplyUpdate(db, at, update, proUnit).db, proUnit)
  {
    match update.tier
    case Free =>
    case PayAsYouGo =>
    case Pro =>
  }

  lemma InvoiceKeepsTables(db: Db, at: Stamp, update: InvoiceUpdate, proUnit: BillingUnit)
    requires TablesKept(db, proUnit) && ApplyInvoice(db, at, update).Wrote?
    ensures TablesKept(ApplyInvoice(db, at, update).db, proUnit)
  {
  }

  /** Over every run: accounts have a paid tier, one to 2^31 - 1 seats and the billing unit of their tier; invoices
      have amounts of 64 bits, no more paid than due unless they are paid, and secure links. */
  lemma {:induction false} TablesAlwaysKept(db: Db, events: seq<Event>, proUnit: BillingUnit)
    requires TablesKept(db, proUnit)
    ensures TablesKept(Run(db, events, proUnit), proUnit)
  {
    if events == [] {
    } else {
      var n := |events| - 1;
      TablesAlwaysKept(db, events[..n], proUnit);
      PersistKeepsTables(Run(db, events[..n], proUnit), events[n], proUnit);
    }
  }

  lemma PersistKeepsTables(db: Db, event: Event, proUnit: BillingUnit)
    requires TablesKept(db, proUnit)
    ensures TablesKept(Persist(db, event, proUnit).0, proUnit)
  {
    if Persist(db, event, proUnit).1 == Processed {
      var recorded := db.(ledger := db.ledger[event.stamp.id := event.payload]);
      var first := if event.update.Some? then ApplyUpdate(recorded, event.stamp, event.update.value, proUnit)
                   else Wrote(recorded);
      if event.update.Some? { UpdateKeepsTables(recorded, event.stamp, event.update.value, proUnit); }
      if event.invoice.Some? { InvoiceKeepsTables(first.db, event.stamp, event.invoice.value, proUnit); }
    }
  }

  // ---------------------------------------------------------------- what is refused

  /** Why an account update fails: it is invalid if it names another customer, another subscription than the live
      one, or, when it would be written, too many seats; the database refuses a free tier, no seats, and what
      belongs to another tenant. A stale one is passed over. */
  lemma UpdateDecides(db: Db, at: Stamp, update: Update, proUnit: BillingUnit)
    ensures var out := ApplyUpdate(db, at, update, proUnit);
      var org := update.organization;
      var known := org in db.accounts;
      var foreign := known
        && (|| db.accounts[org].customer != update.customer
            || (db.accounts[org].subscription.Some? && update.subscription.Some?
                && update.subscription != db.accounts[org].subscription && db.accounts[org].status != Canceled));
      var stale := known && Before(at, db.accounts[org].marker);
      && (out == Failed(InvalidEvent) <==> foreign || (!stale && 2_147_483_647 < update.quantity))
      && (out == Failed(Unavailable) <==>
            && !foreign && !stale && update.quantity <= 2_147_483_647
            && (|| update.tier == Free || update.quantity == 0
                || Held(db.accounts, org, update.customer,
                        OrElse(update.subscription, if known then db.accounts[org].subscription else None))))
      && (out.Failed? ==> out.outcome in {InvalidEvent, Unavailable})
      && (!foreign && stale ==> out == Wrote(db))
  {
  }

  /** Another tenant holds the customer or the subscription. */
  ghost predicate Held(accounts: map<string, Account>, org: string, customer: string, subscription: Option<string>) {
    exists other :: other in accounts && other != org
      && (accounts[other].customer == customer
          || (subscription.Some? && accounts[other].subscription == subscription))
  }

  /** Why an invoice update fails: it is invalid without an account of that customer and live subscription, beyond 64
      bits, or if the invoice belongs to another organization; the database refuses more paid than due on an
      invoice that is not paid, and links that are not secure. */
  lemma InvoiceDecides(db: Db, at: Stamp, update: InvoiceUpdate)
    ensures var out := ApplyInvoice(db, at, update);
      var bound := update.organization in db.accounts
        && db.accounts[update.organization].customer == update.customer
        && db.accounts[update.organization].subscription in {None, update.subscription};
      var fits := update.due <= 9_223_372_036_854_775_807 && update.paid <= 9_223_372_036_854_775_807;
      var allowed := (update.paid <= update.due || update.status == Paid)
        && (update.hostedUrl.Some? ==> "https://" <= update.hostedUrl.value)
        && (update.pdfUrl.Some? ==> "https://" <= update.pdfUrl.value);
      var own := update.invoiceId in db.invoices ==> db.invoices[update.invoiceId].organization == update.organization;
      && (out.Wrote? <==> bound && fits && allowed && own)
      && (out == Failed(Unavailable) <==> bound && fits && !allowed)
      && (out.Failed? ==> out.outcome in {InvalidEvent, Unavailable})
  {
  }
}
