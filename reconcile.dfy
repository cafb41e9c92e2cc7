/** What one webhook delivery does to the tables, branch by branch, and what a
    sequence of deliveries does; the handler in module Webhook is proved to
    follow `Step`. */
module Reconcile {
  import opened Billing

  datatype Outcome = Outcome(after: Tables, response: Response)

  /** One delivery as the provider sends it: whether the signature header is
      there, whether the body verifies against it, the event, and the clock. */
  datatype Delivery = Delivery(sigPresent: bool, sigValid: bool, event: Event, now: int)

  /** The tenant row after a completed checkout. */
  function Activated(t: Tenant, meta: CheckoutMetadata, customer: string, s: Subscription,
                     yearlyPriceId: Option<string>, now: int): (r: Tenant)
  {
    t.(name := meta.storeName,
       emailVerified := true,
       stripeCustomerId := Some(customer),
       stripeSubscriptionId := Some(s.id),
       stripePriceId := SetIfDefined(t.stripePriceId, s.priceId),
       periodStart := Stamp(s.periodStart),
       periodEnd := Stamp(s.periodEnd),
       status := Active,
       plan := PlanOf(s.priceId, yearlyPriceId),
       lastPaymentDate := Some(now),
       nextPaymentDate := Stamp(s.periodEnd),
       websiteData := Some(Welcome(meta.storeName)))
  }

  /** The owner admin created at checkout. */
  function RootAdmin(meta: CheckoutMetadata): (r: Admin) {
    Admin(meta.name, HashOf(meta.storePassword), RootRole)
  }

  /** `checkout.session.completed`. Every failure inside the branch (the
      subscription cannot be retrieved, no tenant has the email, another
      tenant already holds the customer id) is caught and changes nothing. */
  ghost function ApplyCheckout(tb: Tables, yearlyPriceId: Option<string>, meta: CheckoutMetadata,
                               customer: string, sub: Option<Subscription>, now: int): (r: Tables)
  {
    if sub.None? then tb
    else
      match TenantByEmail(tb.tenants, meta.email)
      case None => tb
      case Some(id) =>
        var holder := TenantByCustomer(tb.tenants, customer);
        if holder.Some? && holder.value != id then tb
        else
          var key := AdminKey(meta.email, id);
          tb.(tenants := tb.tenants[id := Activated(tb.tenants[id], meta, customer, sub.value, yearlyPriceId, now)],
              admins := if key in tb.admins then tb.admins else tb.admins[key := RootAdmin(meta)])
  }

  /** `customer.subscription.created`: confirms the subscription of a tenant
      already linked to the customer, when both period timestamps are present. */
  ghost function ApplyCreated(tb: Tables, yearlyPriceId: Option<string>, s: Subscription): (r: Tables) {
    match TenantByCustomer(tb.tenants, s.customer)
    case None => tb
    case Some(id) =>
      if !Present(s.periodStart) || !Present(s.periodEnd) then tb
      else
        var t := tb.tenants[id];
        tb.(tenants := tb.tenants[id := t.(stripeSubscriptionId := Some(s.id),
                                           stripePriceId := SetIfDefined(t.stripePriceId, s.priceId),
                                           status := Active,
                                           plan := PlanOf(s.priceId, yearlyPriceId))])
  }

  /** `customer.subscription.updated`: an update by customer id, which throws
      when no tenant has it. */
  ghost function ApplyUpdated(tb: Tables, s: Subscription): (r: Outcome) {
    if !Present(s.periodStart) || !Present(s.periodEnd) then Outcome(tb, Ok200)
    else
      match TenantByCustomer(tb.tenants, s.customer)
      case None => Outcome(tb, Err500)
      case Some(id) =>
        var t := tb.tenants[id];
        Outcome(tb.(tenants := tb.tenants[id := t.(status := s.status,
                                                   periodStart := Stamp(s.periodStart),
                                                   periodEnd := Stamp(s.periodEnd))]),
                Ok200)
  }

  /** `customer.subscription.deleted`: an update by customer id, which throws
      when no tenant has it. */
  ghost function ApplyDeleted(tb: Tables, s: Subscription): (r: Outcome) {
    match TenantByCustomer(tb.tenants, s.customer)
    case None => Outcome(tb, Err500)
    case Some(id) =>
      Outcome(tb.(tenants := tb.tenants[id := tb.tenants[id].(status := Canceled, isActive := false)]), Ok200)
  }

  function PaymentEntry(inv: Invoice, id: TenantId): (r: PaymentLog) {
    PaymentLog(inv.id, Amount(inv.amountPaid), PaymentSucceeded, PaymentDescription, id)
  }

  /** `invoice.payment_succeeded`: logs the payment of a known customer. */
  ghost function ApplyPaid(tb: Tables, inv: Invoice): (r: Tables) {
    match TenantByCustomer(tb.tenants, inv.customer)
    case None => tb
    case Some(id) => tb.(logs := tb.logs + [PaymentEntry(inv, id)])
  }

  /** `invoice.payment_failed`: marks a known customer past due and counts the failure. */
  ghost function ApplyFailed(tb: Tables, inv: Invoice): (r: Tables) {
    match TenantByCustomer(tb.tenants, inv.customer)
    case None => tb
    case Some(id) =>
      var t := tb.tenants[id];
      tb.(tenants := tb.tenants[id := t.(status := PastDue, failedPaymentAttempts := t.failedPaymentAttempts + 1)])
  }

  /** One delivery to the webhook endpoint. */
  ghost function Step(tb: Tables, yearlyPriceId: Option<string>, d: Delivery): (r: Outcome) {
    if !d.sigPresent || !d.sigValid then Outcome(tb, Bad400)
    else
      match d.event
      case CheckoutCompleted(meta, customer, sub) =>
        Outcome(ApplyCheckout(tb, yearlyPriceId, meta, customer, sub, d.now), Ok200)
      case SubscriptionCreated(s) => Outcome(ApplyCreated(tb, yearlyPriceId, s), Ok200)
      case SubscriptionUpdated(s) => ApplyUpdated(tb, s)
      case SubscriptionDeleted(s) => ApplyDeleted(tb, s)
      case InvoicePaymentSucceeded(inv) => Outcome(ApplyPaid(tb, inv), Ok200)
      case InvoicePaymentFailed(inv) => Outcome(ApplyFailed(tb, inv), Ok200)
      case Other(_) => Outcome(tb, Ok200)
  }

  /** The tables after a sequence of deliveries, handled one after another. */
  ghost function Run(tb: Tables, yearlyPriceId: Option<string>, ds: seq<Delivery>): (r: Tables)
    decreases |ds|
  {
    if ds == [] then tb else Run(Step(tb, yearlyPriceId, ds[0]).after, yearlyPriceId, ds[1..])
  }

  // ---------------------------------------------------------------------------
  // The signature gate

  lemma RejectedSignatureChangesNothing(tb: Tables, yearlyPriceId: Option<string>, d: Delivery)
    requires !d.sigPresent || !d.sigValid
    ensures Step(tb, yearlyPriceId, d) == Outcome(tb, Bad400)
  {
  }

  /** A verified delivery is never answered 400. */
  lemma VerifiedNeverRejected(tb: Tables, yearlyPriceId: Option<string>, d: Delivery)
    requires d.sigPresent && d.sigValid
    ensures Step(tb, yearlyPriceId, d).response != Bad400
  {
  }

  // ---------------------------------------------------------------------------
  // checkout.session.completed

  lemma CheckoutAcknowledged(tb: Tables, yearlyPriceId: Option<string>, d: Delivery)
    requires d.sigPresent && d.sigValid && d.event.CheckoutCompleted?
    ensures Step(tb, yearlyPriceId, d).response == Ok200
    ensures Step(tb, yearlyPriceId, d).after.logs == tb.logs
  {
  }

  /** With the subscription retrieved, the tenant found by email and its
      customer id free, the tenant is activated and its owner admin exists. */
  lemma CheckoutActivates(tb: Tables, yearlyPriceId: Option<string>, meta: CheckoutMetadata,
                          customer: string, s: Subscription, now: int, id: TenantId)
    requires Wf(tb)
    requires id in tb.tenants && tb.tenants[id].email == meta.email
    requires forall j :: j in tb.tenants && j != id ==> tb.tenants[j].stripeCustomerId != Some(customer)
    ensures var after := ApplyCheckout(tb, yearlyPriceId, meta, customer, Some(s), now);
      var t0 := tb.tenants[id];
      var t := after.tenants[id];
      after.tenants.Keys == tb.tenants.Keys &&
      (forall j :: j in tb.tenants && j != id ==> after.tenants[j] == tb.tenants[j]) &&
      t.status == Active && t.emailVerified && t.name == meta.storeName &&
      t.stripeCustomerId == Some(customer) && t.stripeSubscriptionId == Some(s.id) &&
      (s.priceId.Some? ==> t.stripePriceId == s.priceId) &&
      (s.priceId.None? ==> t.stripePriceId == t0.stripePriceId) &&
      t.plan == PlanOf(s.priceId, yearlyPriceId) &&
      t.periodStart == (if Present(s.periodStart) then Some(s.periodStart.value * 1000) else None) &&
      t.periodEnd == (if Present(s.periodEnd) then Some(s.periodEnd.value * 1000) else None) &&
      t.nextPaymentDate == t.periodEnd &&
      t.lastPaymentDate == Some(now) &&
      t.websiteData == Some(Welcome(meta.storeName)) &&
      t.(name := t0.name, emailVerified := t0.emailVerified, stripeCustomerId := t0.stripeCustomerId,
         stripeSubscriptionId := t0.stripeSubscriptionId, stripePriceId := t0.stripePriceId,
         periodStart := t0.periodStart, periodEnd := t0.periodEnd, status := t0.status, plan := t0.plan,
         lastPaymentDate := t0.lastPaymentDate, nextPaymentDate := t0.nextPaymentDate,
         websiteData := t0.websiteData) == t0 &&
      AdminKey(meta.email, id) in after.admins &&
      after.logs == tb.logs
  {
  }

  /** Whatever goes wrong inside the checkout branch leaves the tables as they were. */
  lemma CheckoutFailureChangesNothing(tb: Tables, yearlyPriceId: Option<string>, meta: CheckoutMetadata,
                                      customer: string, sub: Option<Subscription>, now: int)
    requires sub.None?
      || (forall j :: j in tb.tenants ==> tb.tenants[j].email != meta.email)
      || (exists j :: j in tb.tenants && tb.tenants[j].email != meta.email &&
                      tb.tenants[j].stripeCustomerId == Some(customer))
    requires Wf(tb)
    ensures ApplyCheckout(tb, yearlyPriceId, meta, customer, sub, now) == tb
  {
  }

  /** The owner admin is created only when none exists for the pair, and an
      existing one is never replaced. */
  lemma CheckoutAdminOnce(tb: Tables, yearlyPriceId: Option<string>, meta: CheckoutMetadata,
                          customer: string, sub: Option<Subscription>, now: int)
    ensures var after := ApplyCheckout(tb, yearlyPriceId, meta, customer, sub, now);
      (forall k :: k in tb.admins ==> k in after.admins && after.admins[k] == tb.admins[k]) &&
      (forall k :: k in after.admins && k !in tb.admins ==>
         k.email == meta.email && after.admins[k] == RootAdmin(meta) && k.tenantId in tb.tenants &&
         tb.tenants[k.tenantId].email == meta.email)
  {
  }

  /** Replaying a checkout event adds no admin and leaves every existing one as it was. */
  lemma CheckoutReplay(tb: Tables, yearlyPriceId: Option<string>, meta: CheckoutMetadata,
                        customer: string, sub: Option<Subscription>, now1: int, now2: int)
    requires Wf(tb)
    ensures var once := ApplyCheckout(tb, yearlyPriceId, meta, customer, sub, now1);
      var twice := ApplyCheckout(once, yearlyPriceId, meta, customer, sub, now2);
      twice.admins == once.admins && twice.logs == once.logs &&
      (now1 == now2 ==> twice == once)
  {
  }

  // ---------------------------------------------------------------------------
  // customer.subscription.created and customer.subscription.updated

  /** A `created` event with a missing period timestamp, or for a customer no
      tenant holds, is answered 200 and changes nothing. */
  lemma CreatedGated(tb: Tables, yearlyPriceId: Option<string>, d: Delivery)
    requires d.sigPresent && d.sigValid && d.event.SubscriptionCreated?
    requires !Present(d.event.created.periodStart) || !Present(d.event.created.periodEnd)
      || forall j :: j in tb.tenants ==> tb.tenants[j].stripeCustomerId != Some(d.event.created.customer)
    ensures Step(tb, yearlyPriceId, d) == Outcome(tb, Ok200)
  {
  }

  /** A complete `created` event touches the subscription id, price id, status
      and plan of the tenant holding the customer id, and nothing else. */
  lemma CreatedConfirms(tb: Tables, yearlyPriceId: Option<string>, s: Subscription, id: TenantId)
    requires Wf(tb)
    requires Present(s.periodStart) && Present(s.periodEnd)
    requires id in tb.tenants && tb.tenants[id].stripeCustomerId == Some(s.customer)
    ensures var after := ApplyCreated(tb, yearlyPriceId, s);
      var t := tb.tenants[id];
      var t' := after.tenants[id];
      after.tenants.Keys == tb.tenants.Keys &&
      (forall j :: j in tb.tenants && j != id ==> after.tenants[j] == tb.tenants[j]) &&
      t'.stripeSubscriptionId == Some(s.id) && t'.status == Active &&
      t'.plan == PlanOf(s.priceId, yearlyPriceId) &&
      (s.priceId.Some? ==> t'.stripePriceId == s.priceId) &&
      (s.priceId.None? ==> t'.stripePriceId == t.stripePriceId) &&
      t'.(stripeSubscriptionId := t.stripeSubscriptionId, stripePriceId := t.stripePriceId,
          status := t.status, plan := t.plan) == t &&
      after.admins == tb.admins && after.logs == tb.logs
  {
  }

  lemma UpdatedGated(tb: Tables, s: Subscription)
    requires !Present(s.periodStart) || !Present(s.periodEnd)
    ensures ApplyUpdated(tb, s) == Outcome(tb, Ok200)
  {
  }

  /** A complete `updated` event copies the status and period bounds and leaves
      the next payment date alone; an unknown customer gets a 500. */
  lemma UpdatedOverwrites(tb: Tables, s: Subscription)
    requires Wf(tb)
    requires Present(s.periodStart) && Present(s.periodEnd)
    ensures var o := ApplyUpdated(tb, s);
      match TenantByCustomer(tb.tenants, s.customer)
      case None => o == Outcome(tb, Err500)
      case Some(id) =>
        var t := tb.tenants[id];
        var t' := o.after.tenants[id];
        o.response == Ok200 && o.after.tenants.Keys == tb.tenants.Keys &&
        t'.status == s.status &&
        t'.periodStart == Some(s.periodStart.value * 1000) &&
        t'.periodEnd == Some(s.periodEnd.value * 1000) &&
        t'.nextPaymentDate == t.nextPaymentDate &&
        t'.(status := t.status, periodStart := t.periodStart, periodEnd := t.periodEnd) == t &&
        (forall j :: j in tb.tenants && j != id ==> o.after.tenants[j] == tb.tenants[j]) &&
        o.after.admins == tb.admins && o.after.logs == tb.logs
  {
  }

  // ---------------------------------------------------------------------------
  // customer.subscription.deleted

  lemma DeletedCancels(tb: Tables, s: Subscription)
    ensures var o := ApplyDeleted(tb, s);
      if exists j :: j in tb.tenants && tb.tenants[j].stripeCustomerId == Some(s.customer) then
        var id := TenantByCustomer(tb.tenants, s.customer).value;
        var t := tb.tenants[id];
        o.response == Ok200 && o.after.tenants.Keys == tb.tenants.Keys &&
        o.after.tenants[id].status == Canceled && !o.after.tenants[id].isActive &&
        o.after.tenants[id].(status := t.status, isActive := t.isActive) == t &&
        (forall j :: j in tb.tenants && j != id ==> o.after.tenants[j] == tb.tenants[j]) &&
        o.after.admins == tb.admins && o.after.logs == tb.logs
      else
        o == Outcome(tb, Err500)
  {
  }

  /** Delivering `deleted` twice ends in the same tables as delivering it once. */
  lemma DeletedIdempotent(tb: Tables, s: Subscription)
    requires Wf(tb)
    ensures ApplyDeleted(ApplyDeleted(tb, s).after, s).after == ApplyDeleted(tb, s).after
  {
  }

  // ---------------------------------------------------------------------------
  // invoice.payment_succeeded and invoice.payment_failed

  lemma PaidLogsOnce(tb: Tables, inv: Invoice)
    ensures var after := ApplyPaid(tb, inv);
      after.tenants == tb.tenants && after.admins == tb.admins &&
      match TenantByCustomer(tb.tenants, inv.customer)
      case None => after.logs == tb.logs
      case Some(id) =>
        |after.logs| == |tb.logs| + 1 && after.logs[..|tb.logs|] == tb.logs &&
        after.logs[|tb.logs|].amount == Amount(inv.amountPaid) &&
        after.logs[|tb.logs|].status == PaymentSucceeded &&
        after.logs[|tb.logs|].invoiceId == inv.id &&
        after.logs[|tb.logs|].tenantId == id &&
        after.logs[|tb.logs|].description == PaymentDescription &&
        after.logs == tb.logs + [PaymentLog(inv.id, Amount(inv.amountPaid), PaymentSucceeded, PaymentDescription, id)] &&
        tb.tenants[id].stripeCustomerId == Some(inv.customer)
  {
  }

  /** Replaying a paid invoice of a known customer logs it a second time. */
  lemma PaidReplayDuplicates(tb: Tables, inv: Invoice)
    requires exists j :: j in tb.tenants && tb.tenants[j].stripeCustomerId == Some(inv.customer)
    ensures var twice := ApplyPaid(ApplyPaid(tb, inv), inv);
      |twice.logs| == |tb.logs| + 2 && twice.logs[|tb.logs|] == twice.logs[|tb.logs| + 1]
  {
  }

  /** A failed invoice is answered 200; for a known customer it marks the
      tenant past due and counts the failure, changing nothing else. */
  lemma FailedCounts(tb: Tables, yearlyPriceId: Option<string>, d: Delivery)
    requires d.sigPresent && d.sigValid && d.event.InvoicePaymentFailed?
    ensures Step(tb, yearlyPriceId, d).response == Ok200
    ensures var inv := d.event.failed;
      var after := Step(tb, yearlyPriceId, d).after;
      after.admins == tb.admins && after.logs == tb.logs &&
      match TenantByCustomer(tb.tenants, inv.customer)
      case None => after == tb
      case Some(id) =>
        var t := tb.tenants[id];
        var t' := after.tenants[id];
        after.tenants.Keys == tb.tenants.Keys &&
        t'.status == PastDue && t'.failedPaymentAttempts == t.failedPaymentAttempts + 1 &&
        t'.(status := t.status, failedPaymentAttempts := t.failedPaymentAttempts) == t &&
        (forall j :: j in tb.tenants && j != id ==> after.tenants[j] == tb.tenants[j])
  {
  }

  /** The response policy of a verified delivery: 500 exactly when an update
      by customer id finds no tenant (`updated` with both timestamps present,
      or `deleted`), 200 otherwise. */
  lemma ResponsePolicy(tb: Tables, yearlyPriceId: Option<string>, d: Delivery)
    requires d.sigPresent && d.sigValid
    ensures var o := Step(tb, yearlyPriceId, d);
      (o.response == Err500 <==>
         (d.event.SubscriptionUpdated? && Present(d.event.updated.periodStart) &&
          Present(d.event.updated.periodEnd) &&
          TenantByCustomer(tb.tenants, d.event.updated.customer).None?) ||
         (d.event.SubscriptionDeleted? && TenantByCustomer(tb.tenants, d.event.deleted.customer).None?)) &&
      (o.response != Err500 ==> o.response == Ok200)
  {
  }

  lemma OtherIgnored(tb: Tables, yearlyPriceId: Option<string>, d: Delivery)
    requires d.sigPresent && d.sigValid && d.event.Other?
    ensures Step(tb, yearlyPriceId, d) == Outcome(tb, Ok200)
  {
  }

  // ---------------------------------------------------------------------------
  // What every delivery keeps

  lemma StepPreservesWfCheckout(tb: Tables, yearlyPriceId: Option<string>, meta: CheckoutMetadata,
                                customer: string, sub: Option<Subscription>, now: int)
    requires Wf(tb)
    ensures Wf(ApplyCheckout(tb, yearlyPriceId, meta, customer, sub, now))
  {
  }

  /** The tenant table's unique constraints hold after every delivery. */
  lemma StepPreservesWf(tb: Tables, yearlyPriceId: Option<string>, d: Delivery)
    requires Wf(tb)
    ensures Wf(Step(tb, yearlyPriceId, d).after)
  {
    if d.sigPresent && d.sigValid && d.event.CheckoutCompleted? {
      var CheckoutCompleted(meta, customer, sub) := d.event;
      StepPreservesWfCheckout(tb, yearlyPriceId, meta, customer, sub, d.now);
    }
  }

  /** The frame of every delivery: no tenant is added or removed or changes
      its email or slug, a customer id once set is never cleared, an admin once
      created is never replaced, and the payment log only grows. */
  ghost predicate Framed(before: Tables, after: Tables) {
    after.tenants.Keys == before.tenants.Keys &&
    (forall id :: id in before.tenants ==>
       after.tenants[id].email == before.tenants[id].email &&
       after.tenants[id].slug == before.tenants[id].slug &&
       (before.tenants[id].stripeCustomerId.Some? ==> after.tenants[id].stripeCustomerId.Some?)) &&
    (forall k :: k in before.admins ==> k in after.admins && after.admins[k] == before.admins[k]) &&
    |before.logs| <= |after.logs| && after.logs[..|before.logs|] == before.logs
  }

  lemma FramedTransitive(a: Tables, b: Tables, c: Tables)
    requires Framed(a, b) && Framed(b, c)
    ensures Framed(a, c)
  {
  }

  lemma CheckoutFramed(tb: Tables, yearlyPriceId: Option<string>, meta: CheckoutMetadata,
                       customer: string, sub: Option<Subscription>, now: int)
    ensures Framed(tb, ApplyCheckout(tb, yearlyPriceId, meta, customer, sub, now))
  {
  }

  lemma CreatedFramed(tb: Tables, yearlyPriceId: Option<string>, s: Subscription)
    ensures Framed(tb, ApplyCreated(tb, yearlyPriceId, s))
  {
  }

  lemma UpdatedFramed(tb: Tables, s: Subscription)
    ensures Framed(tb, ApplyUpdated(tb, s).after)
  {
  }

  lemma DeletedFramed(tb: Tables, s: Subscription)
    ensures Framed(tb, ApplyDeleted(tb, s).after)
  {
  }

  lemma InvoiceFramed(tb: Tables, inv: Invoice)
    ensures Framed(tb, ApplyPaid(tb, inv))
    ensures Framed(tb, ApplyFailed(tb, inv))
  {
  }

  lemma StepFramed(tb: Tables, yearlyPriceId: Option<string>, d: Delivery)
    ensures Framed(tb, Step(tb, yearlyPriceId, d).after)
  {
    assert tb.logs[..|tb.logs|] == tb.logs;
    if d.sigPresent && d.sigValid {
      match d.event
      case CheckoutCompleted(meta, customer, sub) => CheckoutFramed(tb, yearlyPriceId, meta, customer, sub, d.now);
      case SubscriptionCreated(s) => CreatedFramed(tb, yearlyPriceId, s);
      case SubscriptionUpdated(s) => UpdatedFramed(tb, s);
      case SubscriptionDeleted(s) => DeletedFramed(tb, s);
      case InvoicePaymentSucceeded(inv) => InvoiceFramed(tb, inv);
      case InvoicePaymentFailed(inv) => InvoiceFramed(tb, inv);
      case Other(_) =>
    }
  }

  lemma {:induction false} RunPreservesWf(tb: Tables, yearlyPriceId: Option<string>, ds: seq<Delivery>)
    requires Wf(tb)
    ensures Wf(Run(tb, yearlyPriceId, ds))
    decreases |ds|
  {
    if ds != [] {
      StepPreservesWf(tb, yearlyPriceId, ds[0]);
      RunPreservesWf(Step(tb, yearlyPriceId, ds[0]).after, yearlyPriceId, ds[1..]);
    }
  }

  /** Over any sequence of deliveries, in any order and with any repetition,
      the frame holds: in particular an admin is created at most once per
      (email, tenant) pair and the payment log is append-only. */
  lemma {:induction false} RunFramed(tb: Tables, yearlyPriceId: Option<string>, ds: seq<Delivery>)
    ensures Framed(tb, Run(tb, yearlyPriceId, ds))
    decreases |ds|
  {
    if ds == [] {
      assert tb.logs[..|tb.logs|] == tb.logs;
    } else {
      var mid := Step(tb, yearlyPriceId, ds[0]).after;
      StepFramed(tb, yearlyPriceId, ds[0]);
      RunFramed(mid, yearlyPriceId, ds[1..]);
      FramedTransitive(tb, mid, Run(mid, yearlyPriceId, ds[1..]));
    }
  }

  /** A `created` event delivered before the checkout has linked the customer
      is a no-op, so redelivering it after the checkout ends where
      checkout-then-created ends. */
  lemma OrderingTolerance(tb: Tables, yearlyPriceId: Option<string>, checkout: Delivery, created: Delivery)
    requires created.sigPresent && created.sigValid && created.event.SubscriptionCreated?
    requires forall j :: j in tb.tenants ==> tb.tenants[j].stripeCustomerId != Some(created.event.created.customer)
    ensures Run(tb, yearlyPriceId, [created, checkout, created]) == Run(tb, yearlyPriceId, [checkout, created])
  {
  }
}
