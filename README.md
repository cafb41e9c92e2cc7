# Stripe webhook reconciler

This project models the payment-event reconciler of a multi-tenant pet-care SaaS
signup flow: the `POST` handler of the Stripe webhook endpoint. The handler
receives a signed Stripe event and changes three tables: tenants, tenant admins
and payment logs. It answers 400 when the signature header is missing or does
not verify, and 500 when the update by customer id in the
`customer.subscription.updated` or `customer.subscription.deleted` branch finds
no tenant and throws. It answers 200 otherwise, including after every failure
the `checkout.session.completed` branch catches.

- `billing.dfy` (module `Billing`) holds the data model: the tenant row, the admin
  row under its compound `(email, tenantId)` key, the payment log entry, the
  events and the responses. It also holds the pure computations the branches
  share. `PlanOf` picks the plan from the first item's price id. `Amount` is the
  `Math.round(amount_paid / 100)` conversion. `Stamp` turns a provider timestamp
  into a stored date, or null when the timestamp is falsy. `TenantByEmail` and
  `TenantByCustomer` are the unique-key lookups. `Wf` is the pair of unique
  constraints on tenant email and Stripe customer id.
- `reconcile.dfy` (module `Reconcile`) specifies each event branch as a function
  over the tables (`ApplyCheckout`, `ApplyCreated`, `ApplyUpdated`, `ApplyDeleted`,
  `ApplyPaid`, `ApplyFailed`). It specifies one delivery as `Step`, and a sequence
  of deliveries in any order and with any repetition as `Run`. It proves the
  per-event contracts and the properties that relate several deliveries:
  replay, idempotence, ordering tolerance, and the frame every delivery keeps.
- `store.dfy` (module `Webhook`) is the handler itself. The class `Store` holds
  the tables as fields. `Handle` and one method per branch update those fields
  step by step, as the route does. Each method is proved to leave the store in
  the state its specification function gives and to keep the unique
  constraints.

Behaviour modelled as the code is written:

- A missing or invalid signature gets 400, not 401.
- `Amount` rounds to the nearest unit with halves rounded up, so 4999 gives 50, not 49.
- `customer.subscription.created` sets only the subscription id, price id, status and plan. The status is always `active`, never the provider's status. Period bounds and the next payment date are not touched.
- `customer.subscription.updated` copies the provider's status verbatim and the period bounds, but not the next payment date.
- `invoice.payment_succeeded` appends a log entry but does not refresh the last payment date. Replaying it appends a duplicate.
- `customer.subscription.updated` and `customer.subscription.deleted` update by customer id without looking the customer up first. An unknown customer makes the update throw, and the handler answers 500. The other branches look the tenant up first, and an unknown customer is a no-op answered 200.
- Every failure inside the `checkout.session.completed` branch is caught, and the answer is 200. The modelled failures are: the subscription cannot be retrieved, no tenant has the email, or another tenant already holds the customer id (the unique constraint).
- Timestamps are tested for truthiness, so 0 counts as missing.
- A price id that is absent is `undefined` in the update data, and Prisma leaves that column unchanged (`SetIfDefined`).
- `PlanOf` compares the price id with the configured yearly price id. If the setting is unset and the price id is absent, both are undefined and the plan is `yearly`.

## Model

| member | source | states |
|---|---|---|
| Billing.PlanOfCases | src/app/api/stripe/webhook/route.ts:50-52 | the plan is yearly exactly when the price id equals the configured yearly id, otherwise monthly, including a missing price id when the yearly id is configured |
| Billing.Amount | src/app/api/stripe/webhook/route.ts:242 | the logged amount `r` is the nearest whole unit to `amount_paid/100` with halves rounded up: `100r - 50 <= amount_paid < 100r + 50` |
| Billing.AmountUnique | src/app/api/stripe/webhook/route.ts:242 | that rounding property determines the amount uniquely |
| Billing.AmountExamples | src/app/api/stripe/webhook/route.ts:242 | 4999 minor units log as 50, 4950 as 50, 4949 as 49 |
| Billing.TenantByEmail | src/app/api/stripe/webhook/route.ts:66-67 | the lookup by email finds a tenant with that email, finds none only when no tenant has it, and with unique emails finds the only one |
| Billing.TenantByCustomer | src/app/api/stripe/webhook/route.ts:147-149 | the lookup by customer id finds a tenant holding it, finds none only when none holds it, and with unique customer ids finds the only one |
| Reconcile.RejectedSignatureChangesNothing | src/app/api/stripe/webhook/route.ts:9-22 | a missing header or failed verification answers 400 and leaves every table unchanged |
| Reconcile.VerifiedNeverRejected | src/app/api/stripe/webhook/route.ts:26-284 | a verified event is never answered 400 |
| Reconcile.CheckoutAcknowledged | src/app/api/stripe/webhook/route.ts:30-134 | a verified checkout event is always answered 200 and never touches the payment log |
| Reconcile.CheckoutActivates | src/app/api/stripe/webhook/route.ts:65-126 | the tenant found by email becomes active and verified, gets the store name, the customer and subscription ids, the price id (kept when the event has none) and the derived plan, period bounds of seconds times 1000 or null when falsy, next payment date equal to period end, last payment date `now` and the welcome site data, and has an owner admin; every other field, every other tenant and the log are unchanged |
| Reconcile.CheckoutFailureChangesNothing | src/app/api/stripe/webhook/route.ts:37-132 | a failed subscription retrieval, an unknown email or a customer id held by another tenant leaves the tables unchanged |
| Reconcile.CheckoutAdminOnce | src/app/api/stripe/webhook/route.ts:105-126 | existing admins are never replaced; the only admin added is the root admin for the metadata email and the tenant with that email |
| Reconcile.CheckoutReplay | src/app/api/stripe/webhook/route.ts:66-126 | replaying a checkout event adds no admin and no log, and with the same clock leaves the tables exactly as after the first delivery |
| Reconcile.CreatedGated | src/app/api/stripe/webhook/route.ts:147-188 | a verified `created` event with a missing period timestamp, or for a customer no tenant holds, is answered 200 and changes nothing |
| Reconcile.CreatedConfirms | src/app/api/stripe/webhook/route.ts:161-181 | a complete `created` event sets the subscription id, status `active` and the derived plan, sets the price id to the event's or keeps it when the event has none, and changes no other field, tenant, admin or log |
| Reconcile.UpdatedGated | src/app/api/stripe/webhook/route.ts:195-211 | an `updated` event with a missing period timestamp is answered 200 and changes nothing |
| Reconcile.UpdatedOverwrites | src/app/api/stripe/webhook/route.ts:198-206 | a complete `updated` event copies the provider status and both period bounds, keeps the next payment date and every other field, tenant, admin and log; with no tenant for the customer it answers 500 and changes nothing |
| Reconcile.DeletedCancels | src/app/api/stripe/webhook/route.ts:215-228 | `deleted` sets status `canceled` and clears the active flag of the tenant holding the customer id, changing no other field, tenant, admin or log; with no such tenant it answers 500 and changes nothing |
| Reconcile.DeletedIdempotent | src/app/api/stripe/webhook/route.ts:218-224 | delivering `deleted` twice ends in the same tables as delivering it once |
| Reconcile.PaidLogsOnce | src/app/api/stripe/webhook/route.ts:231-253 | a paid invoice of a known customer appends exactly one `succeeded` entry with the rounded amount, the description `Subscription payment`, the invoice id and that tenant's id; tenants and admins are untouched; an unknown customer changes nothing |
| Reconcile.PaidReplayDuplicates | src/app/api/stripe/webhook/route.ts:238-247 | replaying a paid invoice of a known customer appends a second, identical entry |
| Reconcile.FailedCounts | src/app/api/stripe/webhook/route.ts:256-276 | a verified failed-invoice event is answered 200; for a known customer it sets status `past_due` and raises the failed-attempt count by exactly one, changing nothing else; an unknown customer changes nothing |
| Reconcile.ResponsePolicy | src/app/api/stripe/webhook/route.ts:26-284 | a verified delivery is answered 500 exactly when `updated` (with both timestamps present) or `deleted` names a customer no tenant holds, and 200 in every other case |
| Reconcile.OtherIgnored | src/app/api/stripe/webhook/route.ts:278-279 | an unhandled event type is answered 200 and changes nothing |
| Reconcile.StepPreservesWfCheckout | src/app/api/stripe/webhook/route.ts:66-71 | the checkout update keeps tenant emails and customer ids unique |
| Reconcile.StepPreservesWf | src/app/api/stripe/webhook/route.ts:26-284 | every delivery keeps tenant emails and customer ids unique |
| Reconcile.CheckoutFramed | src/app/api/stripe/webhook/route.ts:30-134 | the checkout branch keeps the frame |
| Reconcile.CreatedFramed | src/app/api/stripe/webhook/route.ts:140-189 | the `created` branch keeps the frame |
| Reconcile.UpdatedFramed | src/app/api/stripe/webhook/route.ts:192-212 | the `updated` branch keeps the frame |
| Reconcile.DeletedFramed | src/app/api/stripe/webhook/route.ts:215-228 | the `deleted` branch keeps the frame |
| Reconcile.InvoiceFramed | src/app/api/stripe/webhook/route.ts:231-276 | the two invoice branches keep the frame |
| Reconcile.StepFramed | src/app/api/stripe/webhook/route.ts:7-285 | one delivery adds or removes no tenant, changes no email or slug, never clears a customer id, never replaces an admin, and only appends to the payment log |
| Reconcile.RunPreservesWf | src/app/api/stripe/webhook/route.ts:7-285 | any sequence of deliveries keeps tenant emails and customer ids unique |
| Reconcile.RunFramed | src/app/api/stripe/webhook/route.ts:7-285 | over any sequence of deliveries the frame holds: at most one admin per pair, created once and never replaced, and an append-only payment log |
| Reconcile.OrderingTolerance | src/app/api/stripe/webhook/route.ts:140-189 | a `created` event delivered before the checkout has linked the customer is a no-op, so created, checkout, created ends where checkout, created ends |
| Webhook.Store.FindByEmail | src/app/api/stripe/webhook/route.ts:66-67 | finds the tenant with the email exactly when one exists, and agrees with the lookup specification |
| Webhook.Store.FindByCustomer | src/app/api/stripe/webhook/route.ts:147-149 | finds the tenant holding the customer id exactly when one exists, and agrees with the lookup specification |
| Webhook.Store.Handle | src/app/api/stripe/webhook/route.ts:7-285 | the response and the new tables are those of one delivery, and the unique constraints still hold |
| Webhook.Store.CompleteCheckout | src/app/api/stripe/webhook/route.ts:30-134 | the new tables are those the checkout branch specifies |
| Webhook.Store.ConfirmSubscription | src/app/api/stripe/webhook/route.ts:140-189 | the new tables are those the `created` branch specifies |
| Webhook.Store.UpdateSubscription | src/app/api/stripe/webhook/route.ts:192-212 | the new tables and response are those the `updated` branch specifies |
| Webhook.Store.CancelSubscription | src/app/api/stripe/webhook/route.ts:215-228 | the new tables and response are those the `deleted` branch specifies |
| Webhook.Store.LogPayment | src/app/api/stripe/webhook/route.ts:231-253 | the new tables are those the payment-succeeded branch specifies |
| Webhook.Store.RecordFailedPayment | src/app/api/stripe/webhook/route.ts:256-276 | the new tables are those the payment-failed branch specifies, with the counter read and then written back raised by one |

## Left out

- Stripe signature verification (`stripe.webhooks.constructEvent`) and the parsing of the body: they are library calls, modelled as the two booleans `sigPresent` and `sigValid` and an already decoded `Event`.
- `stripe.subscriptions.retrieve`: it is a network call. Its result is a field of the checkout event, `None` when the call throws.
- `hashPassword`: it is an opaque function. The digest is the symbolic value `HashOf(password)`.
- Prisma persistence and its transactions: the tables are in-memory maps and a sequence. The tenant update and the admin insert are not atomic in the source. In the model the admin insert cannot fail once the tenant update has succeeded, so partial progress never arises.
- The lost update on `failedPaymentAttempts` when two deliveries run at the same time: deliveries are modelled one after another.
- `console.log` output, the `new Date()` clock and `Date` objects: the clock is the parameter `now`, and dates are integer milliseconds. A timestamp so large that it makes an invalid `Date` is not modelled.
- The `websiteData` template: it is the value `Welcome(storeName)`.
- Billing.Amount: computes `Math.round(amount_paid / 100)` in exact integer arithmetic. The floating-point division agrees with it for every amount below 2^50 minor units.
- Absent event fields other than timestamps and the price id: the metadata fields and the customer ids are always strings in the model. A null `session.metadata`, which would throw outside the inner catch and answer 500, is not modelled.
- Unique constraints of the database schema other than tenant email, tenant customer id and the admin `(email, tenantId)` key: the schema is not part of this model.
- `src/app/api/stripe/create-checkout/route.ts`: a thin wrapper over `stripe.checkout.sessions.create`, with only a price-id presence check and two URL templates.
- `src/lib/stripe/plans.ts`: static descriptive plan data. Only the yearly price id matters, and it is the `yearlyPriceId` configuration of the store.
- `src/components/store/ButtonCustomerPortal.tsx`: a UI component that builds a redirect URL.
- `src/lib/stripe/config.ts`: it only constructs the client and reads the secret from the environment.
