/** One platform invoice settles on the greatest event whatever the delivery order and whatever other events
    arrive meanwhile. An event is about a subscription or about an invoice, never both
    (crates/billing/src/stripe.rs). */
module InvoiceConvergence {
  import opened Common
  import opened EventOrder
  import opened BillingEvents

  /** An invoice of one tenant: fixed for the whole story. */
  datatype Bill = Bill(id: string, organization: string, customer: string, subscription: string)

  /** What one event says about an invoice. */
  datatype Said = Said(status: InvoiceStatus, currency: string, due: nat, paid: nat, period: Period,
                       hosted: Option<string>, pdf: Option<string>)

  function SaidBy(update: InvoiceUpdate): Said {
    Said(update.status, update.currency, update.due, update.paid, update.period, update.hostedUrl, update.pdfUrl)
  }

  predicate Bills(event: Event, bill: Bill) { event.invoice.Some? && event.invoice.value.invoiceId == bill.id }

  /** The update is the tenant's own and the invoice table can store it; nothing here depends on the rows. */
  predicate Storable(update: InvoiceUpdate, bill: Bill) {
    && update.customer == bill.customer && update.subscription == Some(bill.subscription)
    && update.due <= I64_MAX && update.paid <= I64_MAX && (update.paid <= update.due || update.status == Paid)
    && Https(update.hostedUrl) && Https(update.pdfUrl)
  }

  predicate Counts(event: Event, bill: Bill) { Bills(event, bill) && Storable(event.invoice.value, bill) }

  /** The tenant's account is bound to this customer and subscription. */
  ghost predicate BoundAccount(db: Db, bill: Bill) {
    && bill.organization in db.organizations && bill.organization in db.accounts
    && db.accounts[bill.organization].customer == bill.customer
    && db.accounts[bill.organization].subscription == Some(bill.subscription)
  }

  /** Events about this invoice name its organization, updates of the tenant name no other subscription, an
      event is about one thing, and an id has one body. */
  ghost predicate Scoped(events: seq<Event>, bill: Bill) {
    && (forall e :: e in events && Bills(e, bill) ==> e.invoice.value.organization == bill.organization)
    && (forall e :: e in events && e.update.Some? && e.update.value.organization == bill.organization ==>
          e.update.value.subscription in {None, Some(bill.subscription)})
    && (forall e :: e in events ==> e.update.None? || e.invoice.None?)
    && (forall e, f :: e in events && f in events && e.stamp.id == f.stamp.id ==> e == f)
  }

  /** These events are news to the ledger and to the invoice, which is the tenant's if there is one already. */
  ghost predicate Fresh(db: Db, events: seq<Event>, bill: Bill) {
    && BoundAccount(db, bill)
    && (forall e :: e in events ==> e.stamp.id !in db.ledger)
    && (bill.id in db.invoices ==>
          && db.invoices[bill.id].organization == bill.organization
          && forall e :: e in events ==> e.stamp.id != db.invoices[bill.id].marker.id)
  }

  function Content(row: Invoice): Said {
    Said(row.status, row.currency, row.due, row.paid, row.period, row.hostedUrl, row.pdfUrl)
  }

  /** The row says this, with the links if there are any. */
  predicate Shows(row: Invoice, said: Said) {
    && row.status == said.status && row.currency == said.currency && row.due == said.due && row.paid == said.paid
    && row.period == said.period
    && (said.hosted.Some? ==> row.hostedUrl == said.hosted) && (said.pdf.Some? ==> row.pdfUrl == said.pdf)
  }

  /** What the invoice says before the first delivery, under the marker it carries. */
  function First(start: Db, bill: Bill): seq<Stamped<Said>> {
    if bill.id !in start.invoices then []
    else [Stamped(start.invoices[bill.id].marker, Content(start.invoices[bill.id]))]
  }

  /** What the invoice and then the storable updates say, in delivery order, redeliveries included. */
  function History(start: Db, events: seq<Event>, bill: Bill): seq<Stamped<Said>> {
    if events == [] then First(start, bill)
    else
      var n := |events| - 1;
      History(start, events[..n], bill)
      + if Counts(events[n], bill) then [Stamped(events[n].stamp, SaidBy(events[n].invoice.value))] else []
  }

  ghost predicate Tracks(db: Db, history: seq<Stamped<Said>>, bill: Bill) {
    && BoundAccount(db, bill)
    && (bill.id in db.invoices <==> history != [])
    && (bill.id in db.invoices ==>
          && db.invoices[bill.id].organization == bill.organization
          && Latest(history).Some? && Latest(history).value.at == db.invoices[bill.id].marker
          && Shows(db.invoices[bill.id], Latest(history).value.what))
  }

  /** The ledger holds only what was there or has been delivered, and has every storable update. */
  ghost predicate LedgerAgrees(start: Db, db: Db, events: seq<Event>, bill: Bill) {
    && (forall id :: id in db.ledger ==> id in start.ledger || exists e :: e in events && e.stamp.id == id)
    && (forall e :: e in events && Counts(e, bill) ==> e.stamp.id in db.ledger)
  }

  // ---------------------------------------------------------------- histories

  lemma {:induction false} HistoryMembers(start: Db, events: seq<Event>, bill: Bill)
    ensures forall x :: x in History(start, events, bill) <==>
      x in First(start, bill)
      || exists e :: e in events && Counts(e, bill) && x == Stamped(e.stamp, SaidBy(e.invoice.value))
  {
    if events == [] {
    } else {
      var n := |events| - 1;
      HistoryMembers(start, events[..n], bill);
      assert forall e :: e in events <==> e in events[..n] || e == events[n];
    }
  }

  lemma {:induction false} HistoryEmpty(start: Db, events: seq<Event>, bill: Bill)
    ensures History(start, events, bill) == []
        <==> bill.id !in start.invoices && forall e :: e in events ==> !Counts(e, bill)
  {
    if events == [] {
    } else {
      var n := |events| - 1;
      HistoryEmpty(start, events[..n], bill);
      assert forall e :: e in events <==> e in events[..n] || e == events[n];
    }
  }

  lemma HistoryOneBody(start: Db, events: seq<Event>, bill: Bill)
    requires Scoped(events, bill) && Fresh(start, events, bill)
    ensures OneBodyPerStamp(History(start, events, bill))
  {
    HistoryMembers(start, events, bill);
  }

  lemma HistoryStep(start: Db, before: seq<Event>, last: Event, bill: Bill)
    ensures History(start, before + [last], bill) == History(start, before, bill)
      + if Counts(last, bill) then [Stamped(last.stamp, SaidBy(last.invoice.value))] else []
  {
    assert (before + [last])[..|before|] == before;
  }

  // ---------------------------------------------------------------- one delivery

  /** Every event keeps the account's binding. */
  lemma AccountStaysBound(db: Db, event: Event, bill: Bill, proUnit: BillingUnit)
    requires BoundAccount(db, bill) && Scoped([event], bill)
    ensures BoundAccount(Persist(db, event, proUnit).0, bill)
  {
    assert event in [event];
    PersistAccounts(db, event, proUnit);
  }

  /** An event about something else, or one the tenant's invoice cannot store, leaves the invoice alone. */
  lemma OtherEventElsewhere(db: Db, event: Event, bill: Bill, proUnit: BillingUnit)
    requires BoundAccount(db, bill) && Scoped([event], bill) && !Counts(event, bill)
    ensures var after := Persist(db, event, proUnit).0;
      && (bill.id in after.invoices <==> bill.id in db.invoices)
      && (bill.id in db.invoices ==> after.invoices[bill.id] == db.invoices[bill.id])
  {
    assert event in [event];
  }

  /** The invoice an acceptable event leaves, whatever there was. */
  ghost predicate Hears(before: Option<Invoice>, after: Invoice, event: Event, bill: Bill) requires Bills(event, bill) {
    if before.Some? && Before(event.stamp, before.value.marker) then after == before.value
    else after.organization == bill.organization && after.marker == event.stamp
         && Shows(after, SaidBy(event.invoice.value))
  }

  function InvoiceAt(db: Db, id: string): Option<Invoice> {
    if id in db.invoices then Some(db.invoices[id]) else None
  }

  lemma FirstHearing(db: Db, event: Event, bill: Bill, proUnit: BillingUnit)
    requires BoundAccount(db, bill) && Scoped([event], bill) && Counts(event, bill) && event.stamp.id !in db.ledger
    requires bill.id in db.invoices ==> db.invoices[bill.id].organization == bill.organization
    ensures var after := Persist(db, event, proUnit).0;
      && bill.id in after.invoices && Hears(InvoiceAt(db, bill.id), after.invoices[bill.id], event, bill)
      && after.ledger == db.ledger[event.stamp.id := event.payload]
  {
    assert event in [event];
  }

  lemma HearsTracks(db: Db, after: Db, history: seq<Stamped<Said>>, event: Event, bill: Bill)
    requires Tracks(db, history, bill) && BoundAccount(after, bill) && Bills(event, bill)
    requires bill.id in after.invoices && Hears(InvoiceAt(db, bill.id), after.invoices[bill.id], event, bill)
    ensures Tracks(after, history + [Stamped(event.stamp, SaidBy(event.invoice.value))], bill)
  {
    var more := history + [Stamped(event.stamp, SaidBy(event.invoice.value))];
    assert more[..|history|] == history;
  }

  lemma RepeatTracks(db: Db, history: seq<Stamped<Said>>, again: Stamped<Said>, bill: Bill)
    requires Tracks(db, history, bill) && again in history && OneBodyPerStamp(history)
    ensures Tracks(db, history + [again], bill)
  {
    LatestRepeat(history, again);
  }

  // ---------------------------------------------------------------- all deliveries

  ghost predicate Reflects(start: Db, db: Db, events: seq<Event>, bill: Bill) {
    LedgerAgrees(start, db, events, bill) && Tracks(db, History(start, events, bill), bill)
  }

  lemma LedgerStep(start: Db, db: Db, after: Db, before: seq<Event>, last: Event, bill: Bill)
    requires LedgerAgrees(start, db, before, bill)
    requires after.ledger == db.ledger || after.ledger == db.ledger[last.stamp.id := last.payload]
    requires Counts(last, bill) ==> last.stamp.id in after.ledger
    ensures LedgerAgrees(start, after, before + [last], bill)
  {
    assert forall e :: e in before + [last] <==> e in before || e == last;
  }

  lemma ReflectsOther(start: Db, db: Db, before: seq<Event>, last: Event, bill: Bill, proUnit: BillingUnit)
    requires Reflects(start, db, before, bill) && Scoped([last], bill) && !Counts(last, bill)
    ensures Reflects(start, Persist(db, last, proUnit).0, before + [last], bill)
  {
    HistoryStep(start, before, last, bill);
    assert History(start, before + [last], bill) == History(start, before, bill);
    RejectionLeavesNoTrace(db, last, proUnit);
    AccountStaysBound(db, last, bill, proUnit);
    OtherEventElsewhere(db, last, bill, proUnit);
    LedgerStep(start, db, Persist(db, last, proUnit).0, before, last, bill);
  }

  lemma ReflectsRepeat(start: Db, db: Db, before: seq<Event>, last: Event, bill: Bill, proUnit: BillingUnit)
    requires Reflects(start, db, before, bill) && Scoped(before, bill) && Fresh(start, before, bill)
    requires last in before && Counts(last, bill)
    ensures Reflects(start, Persist(db, last, proUnit).0, before + [last], bill)
  {
    var history, again := History(start, before, bill), Stamped(last.stamp, SaidBy(last.invoice.value));
    HistoryStep(start, before, last, bill);
    HistoryMembers(start, before, bill);
    assert again in history;
    HistoryOneBody(start, before, bill);
    RepeatTracks(db, history, again, bill);
    LedgerStep(start, db, db, before, last, bill);
  }

  lemma ReflectsFirst(start: Db, db: Db, before: seq<Event>, last: Event, bill: Bill, proUnit: BillingUnit)
    requires Reflects(start, db, before, bill) && Scoped([last], bill)
    requires Counts(last, bill) && last.stamp.id !in db.ledger
    ensures Reflects(start, Persist(db, last, proUnit).0, before + [last], bill)
  {
    HistoryStep(start, before, last, bill);
    FirstTracks(db, History(start, before, bill), last, bill, proUnit);
    LedgerStep(start, db, Persist(db, last, proUnit).0, before, last, bill);
  }

  lemma FirstTracks(db: Db, history: seq<Stamped<Said>>, event: Event, bill: Bill, proUnit: BillingUnit)
    requires Tracks(db, history, bill) && Scoped([event], bill) && Counts(event, bill) && event.stamp.id !in db.ledger
    ensures Tracks(Persist(db, event, proUnit).0, history + [Stamped(event.stamp, SaidBy(event.invoice.value))], bill)
    ensures Persist(db, event, proUnit).0.ledger == db.ledger[event.stamp.id := event.payload]
  {
    FirstHearing(db, event, bill, proUnit);
    AccountStaysBound(db, event, bill, proUnit);
    HearsTracks(db, Persist(db, event, proUnit).0, history, event, bill);
  }

  lemma HeardBefore(start: Db, db: Db, before: seq<Event>, last: Event, bill: Bill)
    requires Scoped(before + [last], bill) && LedgerAgrees(start, db, before, bill)
    requires last.stamp.id in db.ledger && last.stamp.id !in start.ledger
    ensures last in before
  {
    assert last in before + [last] && forall e :: e in before ==> e in before + [last];
  }

  lemma {:induction false} DeliveryTracks(start: Db, events: seq<Event>, bill: Bill, proUnit: BillingUnit)
    requires Scoped(events, bill) && Fresh(start, events, bill)
    ensures Reflects(start, Run(start, events, proUnit), events, bill)
  {
    if events == [] {
    } else {
      var n := |events| - 1;
      var before, last := events[..n], events[n];
      assert events == before + [last] && forall e :: e in before ==> e in events;
      DeliveryTracks(start, before, bill, proUnit);
      var db := Run(start, before, proUnit);
      assert Scoped([last], bill);
      RunAppend(start, before, last, proUnit);
      if !Counts(last, bill) {
        ReflectsOther(start, db, before, last, bill, proUnit);
      } else if last.stamp.id in db.ledger {
        HeardBefore(start, db, before, last, bill);
        ReflectsRepeat(start, db, before, last, bill, proUnit);
      } else {
        ReflectsFirst(start, db, before, last, bill, proUnit);
      }
    }
  }

  // ---------------------------------------------------------------- the settled invoice

  /** The event decides the invoice, and is later than every other that counts and than the first row. */
  ghost predicate Decides(start: Db, e: Event, events: seq<Event>, bill: Bill) {
    && e in events && Counts(e, bill)
    && (bill.id in start.invoices ==> Before(start.invoices[bill.id].marker, e.stamp))
    && forall f :: f in events && Counts(f, bill) ==> f == e || Before(f.stamp, e.stamp)
  }

  /** The winner of the history is the first row or the deciding event. */
  lemma WinnerDecides(start: Db, events: seq<Event>, bill: Bill)
    requires Scoped(events, bill) && Fresh(start, events, bill) && History(start, events, bill) != []
    ensures var winner := Latest(History(start, events, bill));
      && winner.Some?
      && (|| (bill.id in start.invoices && winner.value == First(start, bill)[0]
              && forall f :: f in events && Counts(f, bill) ==> Before(f.stamp, start.invoices[bill.id].marker))
          || exists e :: Decides(start, e, events, bill) && winner.value == Stamped(e.stamp, SaidBy(e.invoice.value)))
  {
    var history := History(start, events, bill);
    LatestDominates(history);
    var winner := Latest(history).value;
    HistoryMembers(start, events, bill);
    forall f | f in events && Counts(f, bill) ensures f.stamp == winner.at || Before(f.stamp, winner.at) {
      assert Stamped(f.stamp, SaidBy(f.invoice.value)) in history;
    }
    assert bill.id in start.invoices ==> First(start, bill)[0] in history;
    if winner !in First(start, bill) {
      var e :| e in events && Counts(e, bill) && winner == Stamped(e.stamp, SaidBy(e.invoice.value));
      assert Decides(start, e, events, bill);
    }
  }

  /** Whatever the order and number of deliveries, and whatever else arrives meanwhile, the invoice ends with the
      status, currency, amount due, amount paid, period and any links of the greatest (created, event id) that
      counts; the row's own marker takes part as one more event, and with the greatest marker the row stays. */
  lemma InvoiceEndsAtGreatest(start: Db, events: seq<Event>, bill: Bill, proUnit: BillingUnit)
    requires Scoped(events, bill) && Fresh(start, events, bill)
    ensures var after := Run(start, events, proUnit);
      if bill.id !in after.invoices then
        bill.id !in start.invoices && forall e :: e in events ==> !Counts(e, bill)
      else
        var row := after.invoices[bill.id];
        && row.organization == bill.organization
        && (|| (&& bill.id in start.invoices
                && var first := start.invoices[bill.id];
                && row.status == first.status && row.currency == first.currency && row.due == first.due
                && row.paid == first.paid && row.period == first.period && row.marker == first.marker
                && forall f :: f in events && Counts(f, bill) ==> Before(f.stamp, first.marker))
            || exists e ::
                 && Decides(start, e, events, bill)
                 && row.status == e.invoice.value.status && row.currency == e.invoice.value.currency
                 && row.due == e.invoice.value.due && row.paid == e.invoice.value.paid
                 && row.period == e.invoice.value.period && row.marker == e.stamp
                 && (e.invoice.value.hostedUrl.Some? ==> row.hostedUrl == e.invoice.value.hostedUrl)
                 && (e.invoice.value.pdfUrl.Some? ==> row.pdfUrl == e.invoice.value.pdfUrl))
  {
    DeliveryTracks(start, events, bill, proUnit);
    HistoryEmpty(start, events, bill);
    if bill.id in Run(start, events, proUnit).invoices {
      WinnerDecides(start, events, bill);
    }
  }

  /** Two deliveries of the same set of events end with the same invoice, up to the coalesced links. */
  lemma DeliveryOrderIsIrrelevant(start: Db, one: seq<Event>, two: seq<Event>, bill: Bill, proUnit: BillingUnit)
    requires Scoped(one, bill) && Fresh(start, one, bill) && forall e :: e in one <==> e in two
    ensures var a, b := Run(start, one, proUnit).invoices, Run(start, two, proUnit).invoices;
      && (bill.id in a <==> bill.id in b)
      && (bill.id in a ==>
            && a[bill.id].status == b[bill.id].status && a[bill.id].currency == b[bill.id].currency
            && a[bill.id].due == b[bill.id].due && a[bill.id].paid == b[bill.id].paid
            && a[bill.id].period == b[bill.id].period && a[bill.id].marker == b[bill.id].marker)
  {
    DeliveryTracks(start, one, bill, proUnit);
    DeliveryTracks(start, two, bill, proUnit);
    HistoryMembers(start, one, bill);
    HistoryMembers(start, two, bill);
    HistoryOneBody(start, one, bill);
    var a, b := History(start, one, bill), History(start, two, bill);
    assert SameMembers(a, b);
    LatestIgnoresOrder(a, b);
    if a != [] { assert a[0] in b; }
    if b != [] { assert b[0] in a; }
  }
}
