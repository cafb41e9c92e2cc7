/** The webhook endpoint: a store holding the tenant, tenant-admin and
    payment-log tables, and the POST handler that updates them in place. */
module Webhook {
  import opened Billing
  import opened Reconcile

  class Store {
    /** The configured yearly price id (absent when the setting is unset). */
    const yearlyPriceId: Option<string>
    var tenants: map<TenantId, Tenant>
    var admins: map<AdminKey, Admin>
    var logs: seq<PaymentLog>

    ghost function Contents(): (r: Tables)
      reads this
    {
      Tables(tenants, admins, logs)
    }

    /** The unique constraints on tenant email and customer id. */
    ghost predicate Valid()
      reads this
    {
      Wf(Contents())
    }

    /** Tenants exist before any payment event: signup creates them. */
    constructor (yearlyPriceId: Option<string>, init: Tables)
      requires Wf(init)
      ensures Valid() && Contents() == init && this.yearlyPriceId == yearlyPriceId
    {
      this.yearlyPriceId := yearlyPriceId;
      tenants := init.tenants;
      admins := init.admins;
      logs := init.logs;
    }

    /** The tenant whose email is `email`, if any. */
    method FindByEmail(email: string) returns (r: Option<TenantId>)
      requires Valid()
      ensures r.Some? <==> exists id :: id in tenants && tenants[id].email == email
      ensures r.Some? ==> r.value in tenants && tenants[r.value].email == email
      ensures r == TenantByEmail(tenants, email)
    {
      if exists id :: id in tenants && tenants[id].email == email {
        var id :| id in tenants && tenants[id].email == email;
        r := Some(id);
      } else {
        r := None;
      }
    }

    /** The tenant linked to the Stripe customer `customer`, if any. */
    method FindByCustomer(customer: string) returns (r: Option<TenantId>)
      requires Valid()
      ensures r.Some? <==> exists id :: id in tenants && tenants[id].stripeCustomerId == Some(customer)
      ensures r.Some? ==> r.value in tenants && tenants[r.value].stripeCustomerId == Some(customer)
      ensures r == TenantByCustomer(tenants, customer)
    {
      if exists id :: id in tenants && tenants[id].stripeCustomerId == Some(customer) {
        var id :| id in tenants && tenants[id].stripeCustomerId == Some(customer);
        r := Some(id);
      } else {
        r := None;
      }
    }

    /** The POST handler: checks the signature, then dispatches on the event type. */
    method Handle(sigPresent: bool, sigValid: bool, ev: Event, now: int) returns (resp: Response)
      requires Valid()
      modifies this
      ensures Valid()
      ensures Outcome(Contents(), resp) == Step(old(Contents()), yearlyPriceId, Delivery(sigPresent, sigValid, ev, now))
    {
      ghost var before := Contents();
      StepPreservesWf(before, yearlyPriceId, Delivery(sigPresent, sigValid, ev, now));
      if !sigPresent {
        return Bad400;
      }
      if !sigValid {
        return Bad400;
      }
      match ev
      case CheckoutCompleted(meta, customer, sub) =>
        CompleteCheckout(meta, customer, sub, now);
        resp := Ok200;
      case SubscriptionCreated(s) =>
        ConfirmSubscription(s);
        resp := Ok200;
      case SubscriptionUpdated(s) =>
        resp := UpdateSubscription(s);
      case SubscriptionDeleted(s) =>
        resp := CancelSubscription(s);
      case InvoicePaymentSucceeded(inv) =>
        LogPayment(inv);
        resp := Ok200;
      case InvoicePaymentFailed(inv) =>
        RecordFailedPayment(inv);
        resp := Ok200;
      case Other(_) =>
        resp := Ok200;
    }

    /** `checkout.session.completed`; any failure inside it is caught. */
    method CompleteCheckout(meta: CheckoutMetadata, customer: string, sub: Option<Subscription>, now: int)
      requires Valid()
      modifies this
      ensures Valid()
      ensures Contents() == ApplyCheckout(old(Contents()), yearlyPriceId, meta, customer, sub, now)
    {
      StepPreservesWfCheckout(Contents(), yearlyPriceId, meta, customer, sub, now);
      if sub.None? {
        return;  // retrieving the subscription threw
      }
      var found := FindByEmail(meta.email);
      if found.None? {
        return;  // the update by email threw: no such tenant
      }
      var id := found.value;
      var holder := FindByCustomer(customer);
      if holder.Some? && holder.value != id {
        return;  // the update threw: the customer id belongs to another tenant
      }
      tenants := tenants[id := Activated(tenants[id], meta, customer, sub.value, yearlyPriceId, now)];
      var key := AdminKey(meta.email, id);
      if key !in admins {
        admins := admins[key := RootAdmin(meta)];
      }
    }

    /** `customer.subscription.created`. */
    method ConfirmSubscription(s: Subscription)
      requires Valid()
      modifies this
      ensures Valid()
      ensures Contents() == ApplyCreated(old(Contents()), yearlyPriceId, s)
    {
      StepPreservesWf(Contents(), yearlyPriceId, Delivery(true, true, SubscriptionCreated(s), 0));
      var found := FindByCustomer(s.customer);
      if found.Some? {
        if !Present(s.periodStart) || !Present(s.periodEnd) {
          return;
        }
        var plan := PlanOf(s.priceId, yearlyPriceId);
        var id := found.value;
        var t := tenants[id];
        tenants := tenants[id := t.(stripeSubscriptionId := Some(s.id),
                                    stripePriceId := SetIfDefined(t.stripePriceId, s.priceId),
                                    status := Active,
                                    plan := plan)];
      }
    }

    /** `customer.subscription.updated`; the update by customer id throws, and
        the handler answers 500, when no tenant has the customer id. */
    method UpdateSubscription(s: Subscription) returns (resp: Response)
      requires Valid()
      modifies this
      ensures Valid()
      ensures Outcome(Contents(), resp) == ApplyUpdated(old(Contents()), s)
    {
      StepPreservesWf(Contents(), yearlyPriceId, Delivery(true, true, SubscriptionUpdated(s), 0));
      resp := Ok200;
      if Present(s.periodStart) && Present(s.periodEnd) {
        var found := FindByCustomer(s.customer);
        if found.None? {
          return Err500;
        }
        var id := found.value;
        tenants := tenants[id := tenants[id].(status := s.status,
                                              periodStart := Some(s.periodStart.value * 1000),
                                              periodEnd := Some(s.periodEnd.value * 1000))];
      }
    }

    /** `customer.subscription.deleted`; 500 when no tenant has the customer id. */
    method CancelSubscription(s: Subscription) returns (resp: Response)
      requires Valid()
      modifies this
      ensures Valid()
      ensures Outcome(Contents(), resp) == ApplyDeleted(old(Contents()), s)
    {
      StepPreservesWf(Contents(), yearlyPriceId, Delivery(true, true, SubscriptionDeleted(s), 0));
      var found := FindByCustomer(s.customer);
      if found.None? {
        return Err500;
      }
      var id := found.value;
      tenants := tenants[id := tenants[id].(status := Canceled, isActive := false)];
      resp := Ok200;
    }

    /** `invoice.payment_succeeded`. */
    method LogPayment(inv: Invoice)
      requires Valid()
      modifies this
      ensures Valid()
      ensures Contents() == ApplyPaid(old(Contents()), inv)
    {
      StepPreservesWf(Contents(), yearlyPriceId, Delivery(true, true, InvoicePaymentSucceeded(inv), 0));
      var found := FindByCustomer(inv.customer);
      if found.Some? {
        logs := logs + [PaymentLog(inv.id, Amount(inv.amountPaid), PaymentSucceeded, PaymentDescription, found.value)];
      }
    }

    /** `invoice.payment_failed`: reads the counter, then writes it back raised by one. */
    method RecordFailedPayment(inv: Invoice)
      requires Valid()
      modifies this
      ensures Valid()
      ensures Contents() == ApplyFailed(old(Contents()), inv)
    {
      StepPreservesWf(Contents(), yearlyPriceId, Delivery(true, true, InvoicePaymentFailed(inv), 0));
      var found := FindByCustomer(inv.customer);
      if found.Some? {
        var id := found.value;
        var attempts := tenants[id].failedPaymentAttempts;
        tenants := tenants[id := tenants[id].(status := PastDue, failedPaymentAttempts := attempts + 1)];
      }
    }
  }
}
