# Control-plane protocols of the API service, verified

A Dafny model of the parts of `apps/api/src` whose correctness depends on order, concurrency or
arithmetic, with proofs over every run, every delivery order or every input:

- **Idempotency keys** (`Idempotency`, `IdempotencyProtocol`, `IdempotentRequests`): the lease and
  fencing protocol on the `idempotency_keys` table, and whole requests on top of it with a heartbeat
  whose health flag may be stale and database calls whose answers may be lost.
- **Platform billing events** (`BillingEvents`, `BillingConvergence`, `InvoiceConvergence`): deduplication,
  ordering by (created, event id), tenant binding and rollback.
- **Project commerce** (`Commerce`, `CommerceRuns`, `CommerceFrames`, `CommerceConstraints`,
  `CommerceStore`, `CommerceDecisions`, `CommerceStories`, `RefundLedger`, `RefundReservations`,
  `RefundExactness`, `EntitlementProvenance`, `WebhookLedger`, `PaymentConvergence`, `PaymentExactness`): the
  webhook handlers and the service operations over orders, payments, refunds, subscriptions and entitlements.
- **Webhook signatures** (`Hexadecimal`, `Signature`, `SignedHeaders`), **telemetry** (`Latency`, `Percentile`,
  `Recorder`, `RecorderConservation`, `TimeSeries`), **SQL redaction** (`Lexing`, `Lexemes`, `SqlKeywords`,
  `SqlShape`, `SqlRedaction`), **pricing** (`Pricing`) and **instance setup** (`InstanceSetup`).

Every database transaction or handler is one step over maps of rows. Time is a non-decreasing integer
clock, owner tokens are fresh, events are ordered by one total order on (created, event id). Where the
service updates state in place the model has a class whose methods are proved equal to specification
functions (`IdempotencyStore`, `BillingStore`, `Store`, `LatencyAggregate`, `Buffer`, `Instance`), and
the run-level results are lemmas about those functions.

`dafny verify dfyconfig.toml` checks everything.

## Where the code does not do what one would expect

Each of these is proved, with the exact condition under which the expectation holds and a concrete case in
which it does not.

- An event that reports a subscription active or trialing without both period bounds is rejected, but
  the rejection is committed together with the row it wrote. The row then carries the event's own
  stamp, so a retry that names the row by its local id changes nothing ever after; a retry that names only
  the provider id changes a row exactly if that id has moved to a row to which the event is news. Neither
  ever grants anything (`WebhookLedger.DeclinedLeavesRowsAlone`, `DeclinedActivationIsFinal`,
  `IncompleteActivationGrantsNothing`; cases `DeclinedActivationExample`, `MovedProviderExample`).
- Pending plus succeeded refunds can exceed what was captured when the provider revives a refund whose
  call had failed or lowers a captured amount; then the next refund request fails on the checked
  subtraction (`RefundExactness.PaymentIntentKeepsCovered`, `CheckoutKeepsCovered`,
  `InvoiceKeepsCovered`, `RefundKeepsCovered`; cases `RefundReservations.RevivedRefundOverdraws`,
  `RefundExactness.LoweredCaptureOverdraws`).
- A refund event whose new totals do not fit the payment or its order breaks a table constraint and is lost
  without a trace; for a fulfilled order that is already so when the order would be refunded entirely. The
  event goes through on a later delivery if the totals fit by then
  (`RefundExactness.RefundLostExactly`, `RefundDeliveryLostExactly`; case `FulfilledOrderRefund`).
- A payment event is lost in the same way if more has been refunded than it says was captured, if its payment
  intent belongs to another order, or if it reports anything but a capture for a fulfilled order that is not
  refunded; a fulfilled order stays paid whatever the provider reports (`PaymentExactness.PaymentLostExactly`,
  `PaymentDeliveryLostExactly`, `PaidCheckoutLostExactly`, `InvoiceLostExactly`, `FulfilledStaysPaid`; case
  `FulfilledOrderCancellation`).
- Setup with own keys demands a stored account even when no tenant is billed, because the argument of
  `then_some` is evaluated eagerly; an instance that never asked for connect can never use its own keys
  (`InstanceSetup.ByoSetupSucceedsExactly`, `OwnKeysNeedConnectFirst`; case `FirstOwnKeysSetupIsRefused`).
- The provider client in use is not always the one the stored state calls for. Setting connect up again for an
  enabled account stores the setup, then reports an error and leaves the old client in use although none is
  called for; and when the client cannot be built, none is in use although setup is complete
  (`InstanceSetup.ClientFollowsExactly`, `ClientStaysInStep`, `ClientIsLastReloaded`,
  `ConnectAgainLeavesOldClient`; cases `ConnectAgainExample`, `UnbuildableExample`).
- Merging two telemetry batches equals aggregating their concatenation only if the merged keys fit the
  limit and storage samples are in order (`RecorderConservation.MergeIsConcatenation`; case
  `MergeKeepsLaterSample`).
- Redaction is idempotent exactly on the inputs whose shape has a token after its last space, for every input
  and keyword list. An uncut shape of an input with tokens always has; a shape cut after a space or inside a
  keyword has not, unless what is left is a keyword itself, and neither has the fallback `UNKNOWN` for an input
  without tokens (`SqlShape.RedactionIsIdempotentExactly`, `ShapeLexesBack`; cases `CutShapeExample`,
  `FallbackLexesDifferently`).

## Model

| member | source | states |
|---|---|---|
| `Idempotency.IdempotencyStore.Admit` | apps/api/src/idempotency.rs:72-156 | admission, opportunistic purge included, is the specified row transition: fresh claim, conflict, replay, take-over of an expired lease, or in progress |
| `Idempotency.IdempotencyStore.Complete` | apps/api/src/idempotency.rs:161-210 | only the owner's call stores a response, and only a replayable one within the size limits; it releases owner and lease |
| `Idempotency.IdempotencyStore.Abandon` | apps/api/src/idempotency.rs:212-242 | deletes the row exactly if the claim still owns it |
| `Idempotency.IdempotencyStore.Renew` | apps/api/src/idempotency.rs:244-277 | extends the lease exactly if the claim still owns the row, and says whether it did |
| `Idempotency.IdempotencyStore.PurgeExpired` | apps/api/src/idempotency.rs:281-307 | removes only expired, unleased, unlocked rows, earliest expiry first, up to the limit, and all of them if they fit |
| `IdempotencyProtocol.RunSound` | apps/api/src/idempotency.rs:72-297 | invariant of every interleaving of admit, complete, abandon, renew and purge: a row is either leased to the token granted for its hash or holds a published, replayable response |
| `IdempotencyProtocol.ReplaysArePublished` | apps/api/src/idempotency.rs:114-156 | every replay is exactly a response published earlier for the same request hash, and admission never finds an invalid stored response |
| `IdempotencyProtocol.OnePublicationPerIncarnation` | apps/api/src/idempotency.rs:161-210 | two publications on one key are separated by the expiry of the first one's row |
| `IdempotencyProtocol.LostOwnershipIsFinal` | apps/api/src/idempotency.rs:161-277 | a token that no longer owns its row never again completes, renews or deletes it |
| `IdempotencyProtocol.LeaseExclusion` | apps/api/src/idempotency.rs:114-156 | after an admission or renewal at t nobody else becomes owner before t + 30 s unless the claim completes or abandons |
| `IdempotencyProtocol.LeaseStarts` | apps/api/src/idempotency.rs:244-277 | a successful admission or renewal at t is such a start |
| `IdempotencyProtocol.AdmissionDecides` | apps/api/src/idempotency.rs:114-156 | who becomes owner, who is in conflict, who gets the stored answer and who has to wait, each if and only if, told from the row alone |
| `IdempotencyProtocol.AdmissionWrites` | apps/api/src/idempotency.rs:94-156 | a new owner gets a lease of 30 s; a row that is new or over is kept 24 hours from now, one taken over keeps its expiry; nothing else is ever written |
| `IdempotencyProtocol.CompletionDecides` | apps/api/src/idempotency.rs:161-210 | a response is stored if and only if it is no server error, 401 or 403, has at most 512 KiB and comes from the owner |
| `IdempotencyProtocol.HolderDecides` | apps/api/src/idempotency.rs:212-277 | renewing and abandoning work for the owner of an unanswered row alone and change only that row |
| `Idempotency.WrongKeysRefused` | apps/api/src/idempotency.rs:61-70 | a key of the wrong length or with a blank, control character, comma or semicolon is refused |
| `IdempotencyProtocol.StalledClaimIsTakenOver` | apps/api/src/idempotency.rs:146-153 | once a claim stops renewing without publishing or abandoning, an arrival with the same request after the lease's end becomes owner, unless another has before, in every run |
| `IdempotencyProtocol.HeartbeatKeepsOwnership` | apps/api/src/idempotency.rs:309-350 | renewing at gaps under 30 s keeps the row for any length of run, past the retention limit, and every renewal succeeds |
| `IdempotentRequests.RunIsSound` | apps/api/src/billing.rs:621-717 | invariant of every run of clients, heartbeats with stale flags, lost answers, purges and other claimants |
| `IdempotentRequests.SuccessAnswersAgree` | apps/api/src/billing.rs:621-717 | from a success answer until its row expires, every success answer on the key has the same status, body and request hash |
| `IdempotentRequests.ArrivalsInWindow` | apps/api/src/billing.rs:621-660 | in that window a reachable arrival with the same hash gets that answer, one with another hash gets a conflict |
| `IdempotentRequests.SuccessIsRecorded` | apps/api/src/billing.rs:660-717 | a request that ends in success owned its row when it completed, or replayed it |
| `IdempotentRequests.ArrivalDecides` | apps/api/src/billing.rs:621-660 | in every run, what a request that reaches the database is told on arrival, told from the row alone |
| `IdempotentRequests.HeartbeatDecides` | apps/api/src/idempotency.rs:312-333 | what the heartbeat learns from a renewal and what it makes of the health flag |
| `IdempotentRequests.ConfirmationDecides` | apps/api/src/idempotency.rs:340-350 | a request goes on to publish if and only if its flag is up or it renews the lease itself and hears so |
| `IdempotentRequests.FailureFreesKey` | apps/api/src/billing.rs:676-692 | after a failed provider call the key is free again if the database was reached |
| `IdempotentRequests.FlagFollowsHeartbeat` | apps/api/src/idempotency.rs:316-338 | in every run the flag is up if and only if the heartbeat stored nothing yet or last stored that the row is kept |
| `BillingEvents.BillingStore.PersistEvent` | apps/api/src/billing.rs:720-784 | one event is one transaction: recorded and applied, a duplicate, a replay conflict, or rolled back entirely |
| `BillingEvents.BillingStore.WriteAccount` | apps/api/src/billing.rs:868-962 | mis-scoped metadata is refused, older events are skipped, constraints decide the rest |
| `BillingEvents.BillingStore.WriteInvoice` | apps/api/src/billing.rs:786-866 | invoices are written only for the bound customer and subscription and never change organization |
| `BillingEvents.BillingStore.TenantClash` | infra/postgres/migrations/0006_platform_billing.up.sql:38-55 | finds a clash exactly when another tenant holds the customer or the subscription |
| `BillingEvents.TenantBinding` | apps/api/src/billing.rs:720-962 | over every run: customers never change, subscriptions are never dropped, invoices keep their organization, markers never go back, tenants stay disjoint |
| `BillingEvents.ReplacedOnlyWhileCanceled` | apps/api/src/billing.rs:868-962 | if a bound subscription id differs later, some delivery in between replaced it, and the account was canceled right before that delivery |
| `BillingEvents.ChangeStartsCanceled` | apps/api/src/billing.rs:868-962 | every delivery that changes a bound subscription id starts from a canceled account |
| `BillingEvents.RejectionLeavesNoTrace` | apps/api/src/billing.rs:720-784 | a rejected or duplicate event leaves ledger, accounts and invoices untouched; a processed one was new and is recorded |
| `BillingEvents.ProcessedAtMostOnce` | apps/api/src/billing.rs:720-784 | an event id is processed at most once in any run; ever after it is a duplicate with the same payload and a conflict with another |
| `BillingEvents.TablesAlwaysKept` | infra/postgres/migrations/0006_platform_billing.up.sql:38-55 | in every run accounts have a paid tier, its billing unit and 1 to 2^31-1 seats; invoices have 64-bit amounts, no more paid than due unless paid, and https links |
| `BillingEvents.UpdateDecides` | apps/api/src/billing.rs:868-962 | for which updates an account write is invalid, refused by the database or passed over, each if and only if |
| `BillingEvents.InvoiceDecides` | apps/api/src/billing.rs:786-866 | for which updates an invoice write is invalid or refused, each if and only if |
| `BillingConvergence.AccountEndsAtGreatest` | apps/api/src/billing.rs:720-784 | from no account or any account of the customer, any delivery order with duplicates ends at the account the greatest (created, event id) announces, the account's own marker taking part as one more event |
| `BillingConvergence.DeliveryOrderIsIrrelevant` | apps/api/src/billing.rs:868-962 | two deliveries of the same set of events settle on the same account |
| `InvoiceConvergence.InvoiceEndsAtGreatest` | apps/api/src/billing.rs:786-866 | from no invoice or any invoice of the tenant, among any other events and in any order with duplicates, the row ends with the status, currency, amount due, amount paid, period and links of the greatest (created, event id) |
| `InvoiceConvergence.DeliveryOrderIsIrrelevant` | apps/api/src/billing.rs:815-850 | two deliveries of the same set of events settle on the same invoice |
| `EventOrder.LatestIgnoresOrder` | apps/api/src/commerce.rs:3325-3352 | the last writer of a history depends on its events, not on their order |
| `CommerceStore.Store.Deliver` | apps/api/src/commerce.rs:3425-3552 | recording, deduplication, processing, and commit, commit with error, or rollback, as specified |
| `CommerceStore.Store.OnOrderCheckout` | apps/api/src/commerce.rs:3633-3735 | a completed checkout writes payment and order as specified |
| `CommerceStore.Store.OnSubscriptionCheckout` | apps/api/src/commerce.rs:3736-3767 | a completed subscription checkout binds the provider id |
| `CommerceStore.Store.OnCheckoutExpired` | apps/api/src/commerce.rs:3769-3796 | expiry cancels the open order and expires the pending subscription of the session |
| `CommerceStore.Store.OnPaymentIntent` | apps/api/src/commerce.rs:3798-3895 | a payment event writes payment and order status as specified |
| `CommerceStore.Store.WritePayment` | apps/api/src/commerce.rs:3898-3945 | insert, or update only by a strictly greater stamp; says whether a row was touched |
| `CommerceStore.Store.OnSubscription` | apps/api/src/commerce.rs:3947-4044 | the row is written first and entitlements refreshed after, with every early exit |
| `CommerceStore.Store.Refresh` | apps/api/src/commerce.rs:4046-4129 | the key-by-key upsert grants the whole price to the subject, the withdrawal covers all the subscription granted |
| `CommerceStore.Store.OnInvoice` | apps/api/src/commerce.rs:4131-4237 | a subscription invoice writes its payment as specified |
| `CommerceStore.Store.OnRefund` | apps/api/src/commerce.rs:4239-4305 | a newer refund event writes its row and recomputes totals |
| `CommerceStore.Store.Settle` | apps/api/src/commerce.rs:4306-4371 | the recomputed totals are the sums over succeeded refunds and over the order's payments |
| `CommerceStore.Store.Reserve` | apps/api/src/commerce.rs:4630-4712 | a refund is reserved only within captured minus pending and succeeded refunds; a failed one may be revived |
| `CommerceStore.Store.Cancel` | apps/api/src/commerce.rs:4521-4602 | cancellation now or at period end, withdrawing what the subscription granted |
| `CommerceConstraints.WebhookKeepsUnique` | apps/api/src/commerce.rs:3554-3631 | no event ever gives two subscriptions or two refunds the same provider id |
| `CommerceConstraints.ConstraintsAlwaysHold` | infra/postgres/migrations/0008_project_commerce.up.sql:83-200 | in every run all orders and payments satisfy their CHECKs, and no intent, session or provider id is held twice |
| `CommerceFrames.RefundFrame` | apps/api/src/commerce.rs:4239-4371 | a refund event touches at most its own row and the money totals |
| `CommerceFrames.SubscriptionFrame` | apps/api/src/commerce.rs:3947-4044 | a subscription event touches at most its own row, only as newer, and entitlements |
| `CommerceDecisions.CheckoutBindsExactly` | apps/api/src/commerce.rs:3726-3767 | a subscription checkout binds its provider id if and only if the session is the row's and no other row has the id |
| `CommerceDecisions.ExpiryDecides` | apps/api/src/commerce.rs:3769-3796 | expiry cancels an order and ends a subscription if and only if the session is theirs and they are still open |
| `CommerceDecisions.UnpaidCheckoutDecides` | apps/api/src/commerce.rs:3633-3725 | an unpaid checkout moves a freshly opened order to processing and no other |
| `CommerceDecisions.SubscriptionEventDecides` | apps/api/src/commerce.rs:3947-4044 | every outcome of a subscription event, and the row it leaves field by field |
| `CommerceDecisions.EventsNameRows` | apps/api/src/commerce.rs:3955-3985 | an event with a local id is about that row or none; only one without is looked up by provider id |
| `CommerceDecisions.InvoicesNameRows` | apps/api/src/commerce.rs:4131-4185 | an invoice that names a subscription is for it if and only if its provider id, if given, is the row's |
| `CommerceDecisions.InvoicePays` | apps/api/src/commerce.rs:4186-4237 | a newer invoice leaves its own status and amounts in the payment of the subscription |
| `CommerceDecisions.ReservationDecides` | apps/api/src/commerce.rs:4630-4712 | a refund request goes through if and only if the payment is captured or partly refunded, the amount is between one and what is left, and the id is new or its call failed for the same request |
| `CommerceDecisions.ReservedIs` | apps/api/src/commerce.rs:4655-4668 | what is reserved is what is pending plus what has succeeded |
| `CommerceDecisions.RefundAnswersDecide` | apps/api/src/commerce.rs:4743-4770 | what the provider's answer to a refund call writes |
| `CommerceDecisions.FulfilmentDecides` | apps/api/src/commerce.rs:4792-4870 | fulfilment goes on if and only if it is its turn, the order is paid or partly refunded, and captured money less all refunds covers the total |
| `CommerceDecisions.PlacementDecides` | apps/api/src/commerce.rs:4998-5021 | an order is placed if and only if it is new or failed with the same total |
| `CommerceDecisions.OrderSessionsDecide` | apps/api/src/commerce.rs:5100-5136 | which orders take a checkout session and which fail with it |
| `CommerceDecisions.SubscriptionPlacementDecides` | apps/api/src/commerce.rs:5238-5329 | when a subscription is placed, placed again, and given a session |
| `CommerceDecisions.PaymentRejections` | apps/api/src/commerce.rs:3798-3850 | what a payment event is rejected for, if and only if |
| `CommerceDecisions.CheckoutRejections` | apps/api/src/commerce.rs:3633-3700 | what a paid checkout is rejected for, if and only if |
| `CommerceDecisions.LedgerDecides` | apps/api/src/commerce.rs:3465-3552 | what a delivery leaves in the ledger for each verdict |
| `CommerceStories.SaleGoesThrough` | apps/api/src/commerce.rs:4892-5136 | in every balanced state a new sale that is placed, fails, is placed again, opened, tried, paid and fulfilled ends paid and fulfilled with its money captured, and nothing else has changed |
| `CommerceStories.RefundGoesThrough` | apps/api/src/commerce.rs:4630-4770 | in every lawful balanced state a refund that fits, asked for, accepted and reported paid out adds its amount to payment and order, whose statuses say whether that is all |
| `CommerceStories.SubscriptionRunsItsCourse` | apps/api/src/commerce.rs:5137-5329 | a new subscription that is placed, opened, checked out and reported active grants every key of its price; canceled at period end it goes on, and reported over it leaves those keys lapsed and all others alone |
| `RefundLedger.TotalsAlwaysAgree` | apps/api/src/commerce.rs:4239-4372 | in every run a payment's refunded total is the sum of its succeeded refunds and an order's the sum over its payments |
| `RefundReservations.ReservationsStayWithin` | apps/api/src/commerce.rs:4630-4770 | if events never lower captured amounts nor revive failed or canceled refunds, reservations never exceed captured, in any run |
| `RefundReservations.SubtractionNeverFails` | apps/api/src/commerce.rs:4660-4672 | so the checked subtraction never fails after such a run |
| `RefundExactness.PaymentIntentKeepsCovered` | apps/api/src/commerce.rs:3798-3945 | a payment event, whatever becomes of it, keeps reservations covered if and only if it updates no payment, is refused by the database, or its own captured amount covers them |
| `RefundExactness.CheckoutKeepsCovered` | apps/api/src/commerce.rs:3633-3713 | the same for a checkout, which captures its whole amount |
| `RefundExactness.InvoiceKeepsCovered` | apps/api/src/commerce.rs:4131-4237 | the same for an invoice |
| `RefundExactness.LoweredCaptureOverdraws` | apps/api/src/commerce.rs:3898-3945 | a concrete event that lowers the captured amount below what is reserved and breaks the next request |
| `RefundExactness.RefundKeepsCovered` | apps/api/src/commerce.rs:4239-4371 | a refund event, whatever becomes of it, keeps them covered if and only if it is no news, is refused by the database, revives nothing, or the revived amount still fits |
| `RefundReservations.FailedCallFreesItsAmount` | apps/api/src/commerce.rs:4743-4766 | a failed provider call frees its amount for a second refund |
| `RefundReservations.RevivedRefundOverdraws` | apps/api/src/commerce.rs:4239-4371 | reviving the first one overdraws the payment and breaks the next request |
| `RefundExactness.RefundLostExactly` | apps/api/src/commerce.rs:4306-4371 | the database refuses a refund event if and only if it is news and its provider id belongs to another row or the changed totals do not fit the payment or its order |
| `RefundExactness.RefundDeliveryLostExactly` | apps/api/src/commerce.rs:3501-3552 | after every run a refund delivery that is not a duplicate is lost without a trace if and only if the database refuses it at that moment |
| `RefundExactness.FulfilledOrderRefund` | apps/api/src/commerce.rs:4330-4368 | a concrete fulfilled order whose last refund is refused, and accepted once the first refund failed |
| `RefundExactness.RefundDecidesStatuses` | apps/api/src/commerce.rs:4320-4368 | after a refund event that lands, a payment is refunded if and only if its succeeded refunds come to what was captured, partly if to less; an order the same against its total |
| `EntitlementProvenance.EntitlementsAreTraceable` | apps/api/src/commerce.rs:3947-4129 | in every run every active entitlement belongs to an active or trialing subscription of its subject and carries the value that subscription's price gives its key |
| `EntitlementProvenance.ActivationGrantsThePrice` | apps/api/src/commerce.rs:4046-4129 | an activation grants every key of the price, takes keys over, and touches no other slot |
| `EntitlementProvenance.EndedSubscriptionGrantsNothing` | apps/api/src/commerce.rs:4521-4602 | nothing a non-entitling subscription granted is active |
| `EntitlementProvenance.CancellationDecides` | apps/api/src/commerce.rs:4521-4602 | every outcome of a cancellation: at once it ends the subscription and revokes what it granted, at period end it only marks it; no other row changes |
| `EntitlementProvenance.SuspensionWithdraws` | apps/api/src/commerce.rs:4100-4129 | a subscription that no longer entitles has what it granted lapsed if it is over and revoked otherwise |
| `WebhookLedger.AppliedAtMostOnce` | apps/api/src/commerce.rs:3425-3552 | after an event id is applied, every later delivery under it changes nothing |
| `WebhookLedger.AppliedWithFirstPayload` | apps/api/src/commerce.rs:3465-3500 | an event is applied only with the payload first recorded for its id |
| `WebhookLedger.DeclinedLeavesRowsAlone` | apps/api/src/commerce.rs:3520-3537 | a declined event changes no domain row if and only if it is not an accepted-as-new activation without both period bounds, or without its price, which cannot happen while every subscription has one |
| `WebhookLedger.ActivationIsDeclined` | apps/api/src/commerce.rs:3990-4044 | exactly what such an activation writes before it is declined |
| `WebhookLedger.MarkersOnlyAdvance` | apps/api/src/commerce.rs:3325-3352 | over every run no subscription row disappears, no marker moves back, no ledger entry changes its payload |
| `WebhookLedger.DeclinedActivationIsFinal` | apps/api/src/commerce.rs:3947-4044 | after any further run a retry of the declined activation changes rows if and only if it is unacknowledged and its id now names a row to which it is news, which is never so for a local id; it never grants anything |
| `WebhookLedger.IncompleteActivationGrantsNothing` | apps/api/src/commerce.rs:4055-4058 | an activation without both bounds leaves entitlements alone in every state |
| `WebhookLedger.MovedProviderExample` | apps/api/src/commerce.rs:3947-3980 | a concrete run in which the provider id moves and the retry marks another subscription active |
| `WebhookLedger.DeclinedActivationExample` | apps/api/src/commerce.rs:4055-4058 | a concrete event that leaves an active subscription without entitlements |
| `PaymentConvergence.PaymentEndsAtGreatest` | apps/api/src/commerce.rs:3798-3945 | in any run of one sale's payment-intent and checkout events, in any order and number and among any other business of the project, fulfilment of the order short of completion included, the payment row ends as the greatest acceptable (created, event id) announces, and the order is paid, failed or canceled if and only if that says captured, failed or canceled, and in progress otherwise |
| `PaymentConvergence.DeliveryOrderIsIrrelevant` | apps/api/src/commerce.rs:3633-3713 | two runs with the same sale events, whatever else happens in them, agree on payment and order status |
| `PaymentConvergence.FailedSaleCanBePlacedAgain` | apps/api/src/commerce.rs:4998-5021 | after any such run the order can be placed again if and only if the greatest claim is a failure |
| `PaymentExactness.PaymentLostExactly` | apps/api/src/commerce.rs:3798-3945 | in every lawful state the database refuses a payment event if and only if it would write the payment and more of it is refunded than captured, its order or subscription is missing, or its unrefunded order is fulfilled and would cease to be paid, or another order holds the intent |
| `PaymentExactness.PaymentDeliveryLostExactly` | apps/api/src/commerce.rs:3501-3552 | after every run a payment delivery that is not a duplicate is lost without a trace if and only if the database refuses it at that moment |
| `PaymentExactness.PaidCheckoutLostExactly` | apps/api/src/commerce.rs:3633-3713 | a paid checkout is refused if and only if it would write the payment and more of it is refunded than the order's total or another order holds the intent |
| `PaymentExactness.UnpaidCheckoutNeverLost` | apps/api/src/commerce.rs:3714-3728 | an unpaid checkout is never refused by the database |
| `PaymentExactness.InvoiceLostExactly` | apps/api/src/commerce.rs:4131-4237 | an invoice is refused if and only if it would lower the captured amount below what has been refunded |
| `PaymentExactness.FulfilledStaysPaid` | infra/postgres/migrations/0008_project_commerce.up.sql:112 | once an order is fulfilled, it is paid or partly refunded for the rest of every run |
| `PaymentExactness.FulfilledOrderCancellation` | apps/api/src/commerce.rs:3860-3895 | a concrete newer event that reports the payment of a fulfilled order canceled is lost and the payment stays captured |
| `Signature.Verify` | apps/api/src/commerce.rs:3249-3301 | accepts if and only if all components are well-formed, there is one timestamp, within tolerance, and some v1 signature fits |
| `Hexadecimal.DecodeInto` | apps/api/src/commerce.rs:3303-3323 | fills the buffer with the decoded bytes, `16 * high + low` each, if and only if the text is 64 hexadecimal digits |
| `Hexadecimal.EncodeHex` | apps/api/src/commerce.rs:3221-3230 | the loop writes the two lower-case digits of `b / 16` and `b % 16` for every byte 0..255 |
| `Hexadecimal.DecodeEncoded` | apps/api/src/commerce.rs:3303-3314 | for every sequence of bytes 0..255 decoding undoes encoding |
| `Hexadecimal.EncodeDecoded` | apps/api/src/commerce.rs:3316-3323 | encoding undoes decoding up to letter case |
| `Signature.OrderIsIrrelevant` | apps/api/src/commerce.rs:3260-3282 | reordering components never changes the verdict |
| `Signature.AdditionsAreHarmless` | apps/api/src/commerce.rs:3260-3300 | an extra well-formed v1 never rejects an accepted header, another scheme's component changes nothing |
| `Signature.SplitAppend` | apps/api/src/commerce.rs:3260-3263 | appending a component to the text appends one component |
| `SignedHeaders.SignedHeaderVerifies` | apps/api/src/commerce.rs:3249-3323 | the header written for any 64-bit timestamp and 32-byte signature is accepted if and only if there is a secret, the time is within 300 s and the signature fits |
| `SignedHeaders.ParseWritten` | apps/api/src/commerce.rs:3264-3273 | a written 64-bit number is read back |
| `SignedHeaders.LongHeadersAreRefused` | apps/api/src/commerce.rs:3255-3257 | nothing beyond 4096 characters is accepted |
| `SignedHeaders.MalformedHeadersAreRefused` | apps/api/src/commerce.rs:3260-3282 | a component without an equals sign, a timestamp that is no number, a malformed signature or a second timestamp spoils the whole header |
| `Latency.LatencyAggregate.Observe` | apps/api/src/observability.rs:151-166 | clamping, count, sum, maximum and every cumulative bucket |
| `Latency.LatencyAggregate.Merge` | apps/api/src/observability.rs:168-175 | adds counts, sums and buckets, keeps the greater maximum |
| `Latency.ObservedOf` | apps/api/src/observability.rs:151-166 | observing is appending one sample to the samples the histogram stands for |
| `Latency.MergedOf` | apps/api/src/observability.rs:168-175 | merging is concatenating them |
| `Percentile.PercentileOf` | apps/api/src/observability.rs:1255-1284 | for every non-empty sample sequence and 0 < p <= 1 the result lies in the bucket of the exact nearest-rank sample, as far into it as the rank says, and is at most the maximum |
| `Percentile.ReachedIsExactBucket` | apps/api/src/observability.rs:1262-1275 | the scan always stops, at that sample's bucket, which is not empty; the other two branches are unreachable |
| `Percentile.PercentileMonotone` | apps/api/src/observability.rs:1255-1284 | the estimate grows with p |
| `Percentile.ArrangementExists` | apps/api/src/observability.rs:1255-1284 | every recorded sample sequence has the sorted arrangement the exact rank refers to |
| `Percentile.EstimateIsLinear` | apps/api/src/observability.rs:1265-1279 | in a bucket that holds n samples the r-th is put r/n of the way from the lower to the upper bound, at most at the greatest sample |
| `Percentile.LastRankIsExact` | apps/api/src/observability.rs:1262-1283 | the estimate for the last rank is the greatest sample itself |
| `Percentile.TargetIsNearestRank` | apps/api/src/observability.rs:1259 | the rank asked for is the first that leaves at least the share p behind |
| `Recorder.Buffer.Aggregate` | apps/api/src/observability.rs:635-691 | an event is added to its key or, for a new key at the limit, dropped and counted |
| `Recorder.Buffer.Merge` | apps/api/src/observability.rs:705-733 | key-by-key merging with first profile and latest sample |
| `Recorder.Buffer.Flush` | apps/api/src/observability.rs:693-703 | a failed flush leaves pending exactly as it was |
| `RecorderConservation.MergeIsConcatenation` | apps/api/src/observability.rs:705-733 | aggregating apart and merging equals aggregating the concatenation if and only if the keys fit and samples are in order |
| `RecorderConservation.MergeKeepsLaterSample` | apps/api/src/observability.rs:724-732 | two concrete storage samples for which it does not |
| `RecorderConservation.FailedFlushIsHarmless` | apps/api/src/observability.rs:693-703 | a failed flush leaves channel, buffer, tables and counters as they were |
| `RecorderConservation.HttpExact` | apps/api/src/observability.rs:602-733 | in every run the stored and pending histograms of an HTTP key together are the histogram of its accepted samples |
| `RecorderConservation.QueryExact` | apps/api/src/observability.rs:602-733 | the same for statements, with errors, rows and first profile |
| `RecorderConservation.ReceivedIsAccountedFor` | apps/api/src/observability.rs:294-299 | received equals persisted plus pending plus queued plus dropped, and both bounds hold, in every run |
| `TimeSeries.Series` | apps/api/src/observability.rs:302-344 | each aligned bucket once and in order, every group consumed, counts adding up to the window total |
| `TimeSeries.GroupedTotal` | apps/api/src/observability.rs:1374-1415 | grouping by resolution loses no request |
| `TimeSeries.GroupedKeys` | apps/api/src/observability.rs:1374-1396 | every group is a bucket the loop visits |
| `TimeSeries.WindowsMeet` | apps/api/src/observability.rs:1374-1396 | two windows that meet count every request of the whole once |
| `TimeSeries.GroupsMirror` | apps/api/src/observability.rs:1374-1396 | groups are cut towards zero |
| `TimeSeries.MinuteBucket` | apps/api/src/observability.rs:1302-1304 | recorded rows start at a whole minute, never before zero, and contain the recorded time |
| `TimeSeries.ParseRange` | apps/api/src/observability.rs:573-598 | only the five ranges are accepted, each with a resolution of whole minutes |
| `SqlShape.Redact` | apps/api/src/observability.rs:993-1092 | the lexer's result is the shape, non-empty ASCII of at most 320 characters, for any keyword list |
| `SqlShape.RedactSqlShape` | apps/api/src/observability.rs:859-1092 | the same with the service's keywords |
| `SqlShape.LexVocabulary` | apps/api/src/observability.rs:995-1083 | only question marks, listed keywords, punctuation and operators are ever emitted |
| `Lexing.LexJoin` | apps/api/src/observability.rs:995-1084 | for any lexer that skips a space and reads its tokens back at a boundary, tokens joined by spaces lex to themselves |
| `SqlShape.LexerReadsBack` | apps/api/src/observability.rs:997-1082 | this lexer is such a one |
| `SqlShape.ShapeLexesBack` | apps/api/src/observability.rs:1084-1092 | an uncut shape of an input with tokens lexes to the tokens it came from, so redaction is idempotent there |
| `SqlShape.RedactionIsIdempotentExactly` | apps/api/src/observability.rs:993-1092 | for every input and keyword list, redacting a shape again gives it back if and only if what follows its last space is a token |
| `SqlShape.CutShapeExample` | apps/api/src/observability.rs:1088-1092 | a concrete shape cut inside a keyword of the service that is no fixed point |
| `SqlShape.FallbackLexesDifferently` | apps/api/src/observability.rs:1085-1087 | with the service's keywords the fallback lexes to one question mark and is no fixed point |
| `Lexemes.LexLexeme` | apps/api/src/observability.rs:997-1082 | for any lexer that looks one character ahead, a lexeme in its place gives its token and nothing else of it is seen |
| `SqlRedaction.LiteralsAreHidden` | apps/api/src/observability.rs:1014-1029 | whatever text stands in single quotes, double quotes or backticks, anywhere, gives one question mark and the same shape |
| `SqlRedaction.BracketsAreHidden` | apps/api/src/observability.rs:1030-1037 | the same for bracketed names |
| `SqlRedaction.BlockCommentsAreHidden` | apps/api/src/observability.rs:1006-1013 | a block comment adds no token, whatever it says |
| `SqlRedaction.LineCommentsAreHidden` | apps/api/src/observability.rs:1000-1005 | nor does a line comment |
| `SqlRedaction.WordsShow` | apps/api/src/observability.rs:1057-1071 | a word shows as a keyword if its capitals are listed and as a question mark otherwise |
| `SqlRedaction.NumbersAreHidden` | apps/api/src/observability.rs:1038-1056 | numbers and bound parameters are hidden |
| `SqlRedaction.NamesAndNumbersAreHidden` | apps/api/src/observability.rs:1496-1502 | statements that differ in a name or a number have the same shape |
| `SqlRedaction.SignsShow` | apps/api/src/observability.rs:1072-1083 | punctuation and operators show as they are, blanks not at all |
| `SqlRedaction.OthersAreHidden` | apps/api/src/observability.rs:1079-1083 | every other character is hidden |
| `SqlRedaction.StatementShowsAs` | apps/api/src/observability.rs:995-1084 | a statement of up to 96 lexemes written with spaces has exactly the tokens they show as |
| `SqlRedaction.QueriesAreGrouped` | apps/api/src/observability.rs:1496-1502 | a query has the one shape whatever its names, its number and the case of its keywords |
| `SqlRedaction.SelectedLiteral` | apps/api/src/observability.rs:1014-1029 | a selected literal shows as SELECT ?, words of SQL in it included |
| `Pricing.AcceptedPlanCost` | apps/api/src/instance.rs:2462-2502 | for every accepted plan, metric and usage: tiers exist without overflow, ascend, and cost the closed form |
| `Pricing.CostIsMonotoneAndConvex` | apps/api/src/instance.rs:2466-2478 | the next unit never costs less than nothing, nor less than the unit before it |
| `Pricing.NormalizedKeepsAmount` | apps/api/src/instance.rs:2916-2928 | normalising a decimal keeps its value, and only plain decimals have a plain normal form |
| `Pricing.PaddingIsIgnored` | apps/api/src/instance.rs:2916-2928 | zeros at the end of a rate make no difference to its normal form |
| `Pricing.AcceptedPlanTerms` | apps/api/src/instance.rs:3100-3165 | what an accepted plan of each tier promises about base price and overage |
| `Pricing.ValidatePriceTiers` | apps/api/src/instance.rs:2869-2914 | an accepted provider price has exactly the expected bands |
| `Pricing.AcceptedPriceCharges` | apps/api/src/instance.rs:2869-2928 | so, under the billing mode the check demands, it charges what the plan says at every usage |
| `InstanceSetup.Instance.Setup` | apps/api/src/instance.rs:472-662 | what setup stores, when it is refused, and what happens to the client in use |
| `InstanceSetup.Instance.Refresh` | apps/api/src/instance.rs:697-818 | what a refresh stores and when setup becomes complete |
| `InstanceSetup.Instance.Byo` | apps/api/src/instance.rs:820-888 | own keys: the account, secrets and catalog written, the checks before |
| `InstanceSetup.Instance.Connect` | apps/api/src/instance.rs:891-995 | connect: secrets replaced, catalog cleared, account written |
| `InstanceSetup.Instance.Reload` | apps/api/src/instance.rs:292-371 | the client for the stored state, none, or an error that leaves the old one |
| `InstanceSetup.SetupStaysConsistent` | apps/api/src/instance.rs:2687-2702 | in every run complete setup means private or team mode or an enabled account owning the catalog; enforcement is on exactly in platform modes; secrets are the mode's |
| `InstanceSetup.BilledTenantsFreezeBinding` | apps/api/src/instance.rs:2718-2740 | while a tenant is billed neither mode nor account changes, however long the run |
| `InstanceSetup.InstanceCarriesLastSetup` | apps/api/src/instance.rs:472-662 | in every run policy, mode and secrets are those of the last request that was stored, nobody becomes owner, and no other actor changes anything |
| `InstanceSetup.SetupCarries` | apps/api/src/instance.rs:472-580 | only the owner's setup is stored, with the policy, mode and secrets asked for, and one that is left as it was is in place already |
| `InstanceSetup.RefreshDecides` | apps/api/src/instance.rs:697-818 | every outcome of a refresh, if and only if, and what it stores |
| `InstanceSetup.WrongSecretsRefused` | apps/api/src/instance.rs:2748-2772 | secrets of the wrong length or alphabet are never taken |
| `InstanceSetup.ByoSetupSucceedsExactly` | apps/api/src/instance.rs:566-580 | the exact condition under which own-key setup succeeds |
| `InstanceSetup.OwnKeysNeedConnectFirst` | apps/api/src/instance.rs:574-578 | without a connect request no run reaches own keys |
| `InstanceSetup.FirstOwnKeysSetupIsRefused` | apps/api/src/instance.rs:574-578 | a concrete first setup refused as if billing were in use |
| `InstanceSetup.ClientFollowsExactly` | apps/api/src/instance.rs:292-371 | after a stored change the client in use is the one the state calls for, none if it calls for none, if and only if nothing is to be activated, or the account owns the catalog, is bound to the mode, has its key and a client can be built, or the old client is that one already |
| `InstanceSetup.ClientStaysInStep` | apps/api/src/instance.rs:472-818 | in every honest run the client in use is the one called for unless the last stored change set connect up for an enabled account or was followed by a client that could not be built |
| `InstanceSetup.ClientIsLastReloaded` | apps/api/src/instance.rs:292-371 | in every run, honest or not, the client in use is the one called for by the last state that could be reloaded |
| `InstanceSetup.ConnectAgainLeavesOldClient` | apps/api/src/instance.rs:978-994 | connect again for an enabled account keeps the old client, which is no longer called for, and reports an error |
| `InstanceSetup.ConnectAgainExample` | apps/api/src/instance.rs:891-995 | a concrete run (connect, enabled, connect again with a new key) that ends with the old key's client in use |
| `InstanceSetup.UnbuildableExample` | apps/api/src/instance.rs:697-818 | a concrete run that ends with setup complete, a client called for and none in use |

## Left out

- HTTP handlers, JSON parsing and shaping, audit, rate limits and error-to-status maps: no deep property.
- The provider's HTTP client, AES-GCM, HMAC, SHA-256 and random generation: digests and MACs are opaque values or a parameter, tokens are fresh values.
- Interleavings inside one handler, lock waits during which the database clock lags, text collation and timestamp rounding: every transaction or handler is one step and identifiers are compared character by character.
- Order and subscription placement, checkout sessions, refund acknowledgement and fulfilment: modelled as functions on values only, since each is a single guarded row update in the source; they take part in every run.
- Order creation beyond total and status: line items, currency, discounts, taxes and capability checks are computed before the rows modelled here are written and read by none of the handlers.
- Currency, charge id, customer, invoice URLs and failure texts of commerce rows: not needed by the claims; coalesced columns depend on delivery order by design.
- Price entitlements with an invalid key or value: prices are checked when they are created, so the refresh never meets one.
- Other projects: one project's tables are modelled, with the payment intents other projects hold as a given set.
- `commerce.rs` refunds: a payment row is named by its payment intent, which is unique and never changes, instead of by its own uuid.
- PaymentConvergence.PaymentEndsAtGreatest: other actions may do anything to other orders, payments, refunds and subscriptions; expiry and refunds of the sale's own order are excluded, as they write the same status column, and so is the completion of its fulfilment, after which `PaymentExactness` says which events are lost.
- InvoiceConvergence.InvoiceEndsAtGreatest: the tenant's account is bound to one customer and subscription throughout, and only the tenant's own events name the invoice; which events are refused without such an account is `BillingEvents.InvoiceDecides`.
- IdempotentRequests.SuccessAnswersAgree: the provider call is an arbitrary answer; that the provider itself deduplicates is not modelled.
- Counters are unbounded, latencies are reals: 64-bit saturation and rounding of floating point are not modelled.
- The case that a batch is committed although the recorder hears an error, and the retention clean-up: not part of the recorder model.
- Recorder.Buffer.Merge: histograms inside the maps are values; the in-place update of one histogram is modelled by `LatencyAggregate`.
- SqlShape.RedactSqlShape: the binary search over the sorted keyword list is modelled as membership.
- Signature.Verify: the header is ASCII text, as the HTTP layer guarantees; the MAC check is a parameter.
- TimeSeries.Series: request counts only; the other columns are summed the same way.
- Pricing: the recurring base price, meters and provisioning of provider objects.
- InstanceSetup: owner lookup, idempotency-key format, and the environment fallback for connect credentials; each operation, provider calls included, is one step.
- metering, authentication, host updates, e-mail, the database worker and the row-level-security compiler.
