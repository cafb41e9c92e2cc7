/** The records the payment-event reconciler reads and writes, the events it
    receives, and the small pure computations its branches share. */
module Billing {

  datatype Option<T> = None | Some(value: T)

  /** Primary key of a tenant row. */
  type TenantId = nat

  datatype Plan = Monthly | Yearly

  /** Status words the handler writes; `customer.subscription.updated` may
      also copy any word of the payment provider's vocabulary verbatim. */
  const Active: string := "active"
  const PastDue: string := "past_due"
  const Canceled: string := "canceled"
  const PaymentSucceeded: string := "succeeded"
  const PaymentDescription: string := "Subscription payment"
  const RootRole: string := "root"

  /** The site-configuration template written at activation; only the store
      name varies in it. */
  datatype WebsiteData = Welcome(storeName: string)

  /** The password digest, kept symbolic: the hash function is not modelled. */
  datatype Digest = HashOf(password: string)

  /** A tenant row. Dates are milliseconds since the epoch; `None` is SQL null. */
  datatype Tenant = Tenant(
    email: string,
    slug: string,
    name: string,
    emailVerified: bool,
    stripeCustomerId: Option<string>,
    stripeSubscriptionId: Option<string>,
    stripePriceId: Option<string>,
    periodStart: Option<int>,
    periodEnd: Option<int>,
    status: string,
    plan: Plan,
    lastPaymentDate: Option<int>,
    nextPaymentDate: Option<int>,
    failedPaymentAttempts: int,
    isActive: bool,
    websiteData: Option<WebsiteData>)

  /** The compound unique key of a tenant admin row. */
  datatype AdminKey = AdminKey(email: string, tenantId: TenantId)
  datatype Admin = Admin(name: string, passwordHash: Digest, role: string)

  datatype PaymentLog = PaymentLog(
    invoiceId: string, amount: int, status: string, description: string, tenantId: TenantId)

  /** The three tables the handler touches. */
  datatype Tables = Tables(
    tenants: map<TenantId, Tenant>,
    admins: map<AdminKey, Admin>,
    logs: seq<PaymentLog>)

  /** A provider subscription object. Timestamps are seconds since the epoch,
      `None` when the field is absent; `priceId` is the first item's price id. */
  datatype Subscription = Subscription(
    id: string,
    customer: string,
    status: string,
    periodStart: Option<int>,
    periodEnd: Option<int>,
    priceId: Option<string>)

  /** The signup form that the checkout session carries as metadata. */
  datatype CheckoutMetadata = CheckoutMetadata(
    email: string, storeName: string, name: string, storePassword: string)

  datatype Invoice = Invoice(id: string, customer: string, amountPaid: int)

  /** A verified webhook event. The checkout event carries the subscription the
      handler retrieves from the provider, `None` when retrieving it fails. */
  datatype Event =
    | CheckoutCompleted(metadata: CheckoutMetadata, customer: string, subscription: Option<Subscription>)
    | SubscriptionCreated(created: Subscription)
    | SubscriptionUpdated(updated: Subscription)
    | SubscriptionDeleted(deleted: Subscription)
    | InvoicePaymentSucceeded(paid: Invoice)
    | InvoicePaymentFailed(failed: Invoice)
    | Other(eventType: string)

  datatype Response = Ok200 | Bad400 | Err500

  /** A timestamp counts as present when it is truthy: absent and 0 are not. */
  predicate Present(t: Option<int>) {
    t.Some? && t.value != 0
  }

  /** The stored date for a provider timestamp, null when it is not present. */
  function Stamp(t: Option<int>): (r: Option<int>) {
    if Present(t) then Some(t.value * 1000) else None
  }

  /** The plan is yearly when the price id equals the configured yearly price id. */
  function PlanOf(priceId: Option<string>, yearlyPriceId: Option<string>): (r: Plan) {
    if priceId == yearlyPriceId then Yearly else Monthly
  }

  lemma PlanOfCases(priceId: Option<string>, yearlyPriceId: Option<string>)
    ensures PlanOf(priceId, yearlyPriceId) == Yearly <==> priceId == yearlyPriceId
    ensures PlanOf(priceId, yearlyPriceId) == Monthly <==> priceId != yearlyPriceId
    ensures yearlyPriceId.Some? && priceId.None? ==> PlanOf(priceId, yearlyPriceId) == Monthly
  {
  }

  /** `Math.round(amountPaid / 100)`: minor units to the nearest major unit,
      halves rounded up. */
  function Amount(amountPaid: int): (r: int)
    ensures r * 100 - 50 <= amountPaid < r * 100 + 50
  {
    (amountPaid + 50) / 100
  }

  /** The nearest-with-halves-up property determines the amount. */
  lemma AmountUnique(amountPaid: int, r: int)
    requires r * 100 - 50 <= amountPaid < r * 100 + 50
    ensures r == Amount(amountPaid)
  {
  }

  lemma AmountExamples()
    ensures Amount(4999) == 50 && Amount(4950) == 50 && Amount(4949) == 49 && Amount(0) == 0
  {
  }

  /** A Prisma update leaves a column unchanged when the value given is undefined. */
  function SetIfDefined<T>(current: Option<T>, given: Option<T>): (r: Option<T>) {
    if given.Some? then given else current
  }

  ghost predicate UniqueEmails(ts: map<TenantId, Tenant>) {
    forall i, j :: i in ts && j in ts && ts[i].email == ts[j].email ==> i == j
  }

  ghost predicate UniqueCustomerIds(ts: map<TenantId, Tenant>) {
    forall i, j ::
      i in ts && j in ts && ts[i].stripeCustomerId.Some? && ts[i].stripeCustomerId == ts[j].stripeCustomerId
      ==> i == j
  }

  /** The unique constraints of the tenant table. */
  ghost predicate Wf(tb: Tables) {
    UniqueEmails(tb.tenants) && UniqueCustomerIds(tb.tenants)
  }

  /** `findUnique` / `update` by email. */
  ghost function TenantByEmail(ts: map<TenantId, Tenant>, email: string): (r: Option<TenantId>)
    ensures r.Some? ==> r.value in ts && ts[r.value].email == email
    ensures r.None? ==> forall id :: id in ts ==> ts[id].email != email
    ensures UniqueEmails(ts) ==> forall id :: id in ts && ts[id].email == email ==> r == Some(id)
  {
    if exists id :: id in ts && ts[id].email == email then
      var id :| id in ts && ts[id].email == email; Some(id)
    else
      None
  }

  /** `findUnique` / `update` by Stripe customer id. */
  ghost function TenantByCustomer(ts: map<TenantId, Tenant>, customer: string): (r: Option<TenantId>)
    ensures r.Some? ==> r.value in ts && ts[r.value].stripeCustomerId == Some(customer)
    ensures r.None? ==> forall id :: id in ts ==> ts[id].stripeCustomerId != Some(customer)
    ensures UniqueCustomerIds(ts) ==>
      forall id :: id in ts && ts[id].stripeCustomerId == Some(customer) ==> r == Some(id)
  {
    if exists id :: id in ts && ts[id].stripeCustomerId == Some(customer) then
      var id :| id in ts && ts[id].stripeCustomerId == Some(customer); Some(id)
    else
      None
  }
}
