/**
 The pure decisions of the Stripe webhook handlers
 (backend/src/application/services/billing-service.ts).
 */
module BillingRules {
  import opened Base
  import opened TenantSubscriptions

  /** The part of Stripe metadata the handlers look at; blank entries count as absent. */
  datatype Metadata = Metadata(tenant: Option<Id>, plan: Option<Plan>, billingCycle: Option<Cycle>)

  /** A subscription as Stripe returns it. `price` is the plan and cycle its price id is configured for. */
  datatype StripeSubscription = StripeSubscription(
    status: string,
    customer: Option<Id>,
    created: int,
    metadata: Metadata,
    price: Option<(Plan, Cycle)>,
    periodEnd: Option<int>)

  datatype EventKind = CheckoutCompleted | SubscriptionChanged

  /** One webhook delivery: the subscription it is about and what its own payload declares. */
  datatype Delivery = Delivery(kind: EventKind, subscription: Id, customer: Option<Id>, metadata: Metadata)

  function LicenceStatus(stripeStatus: string): Status {
    if stripeStatus == "active" then Active
    else if stripeStatus == "trialing" then Trial
    else if stripeStatus == "incomplete" then Pending
    else if stripeStatus == "past_due" then PastDue
    else if stripeStatus == "unpaid" then Suspended
    else if stripeStatus == "canceled" then Canceled
    else if stripeStatus == "incomplete_expired" then Expired
    else Suspended
  }

  const MANAGED: set<Status> := {Active, Trial, PastDue, Suspended}

  function CatalogPrice(plan: Plan): nat {
    match plan
    case Starter => 14_900
    case Pro => 19_900
    case Enterprise => 24_900
  }

  /** Every tenant some source names for a subscription. */
  function Declarations(subscriptionBinding: Option<Id>, customerBinding: Option<Id>,
                        metadata: Option<Id>, fallback: Option<Id>): set<Id>
  {
    (if subscriptionBinding.Some? then {subscriptionBinding.value} else {}) +
    (if customerBinding.Some? then {customerBinding.value} else {}) +
    (if metadata.Some? then {metadata.value} else {}) +
    (if fallback.Some? then {fallback.value} else {})
  }

  /** `resolveAuthoritativeTenantId`, given the answers of its two binding lookups. */
  function ResolveAuthoritative(subscriptionBinding: Option<Id>, customerBinding: Option<Id>,
                                metadata: Option<Id>, fallback: Option<Id>): (r: Option<Id>)
    // A tenant is returned exactly when something names one and nothing names another.
    ensures forall t: Id :: r == Some(t) <==> Declarations(subscriptionBinding, customerBinding, metadata, fallback) == {t}
  {
    var bound := OrElse(subscriptionBinding, customerBinding);
    var r :=
      if subscriptionBinding.Some? && customerBinding.Some? && subscriptionBinding != customerBinding then None
      else if bound.Some? && metadata.Some? && bound != metadata then None
      else if bound.Some? && fallback.Some? && bound != fallback then None
      else if metadata.Some? && fallback.Some? && metadata != fallback then None
      else OrElse(OrElse(bound, metadata), fallback);
    assert forall t: Id :: r == Some(t) ==> Declarations(subscriptionBinding, customerBinding, metadata, fallback) == {t};
    assert forall t: Id ::
      Declarations(subscriptionBinding, customerBinding, metadata, fallback) == {t} ==>
        && (subscriptionBinding.Some? ==> subscriptionBinding.value in {t})
        && (customerBinding.Some? ==> customerBinding.value in {t})
        && (metadata.Some? ==> metadata.value in {t})
        && (fallback.Some? ==> fallback.value in {t})
        && t in Declarations(subscriptionBinding, customerBinding, metadata, fallback);
    r
  }

  /** The retrieved subscription belongs to another customer than the event names. */
  predicate CustomersDisagree(d: Delivery, sub: StripeSubscription) {
    d.customer.Some? && sub.customer.Some? && d.customer != sub.customer
  }

  /** The early exits of `canCheckoutReplaceSubscription`: is it worth asking Stripe about the stored one? */
  predicate MayReplace(current: Option<Snapshot>, candidate: StripeSubscription, candidateId: Id) {
    BoundElsewhere(current, candidateId) && current.value.status !in MANAGED && candidate.created > 0
  }

  /** Its final comparison; an equal second is ambiguous and refused. */
  predicate CreatedLater(candidate: StripeSubscription, stored: StripeSubscription) {
    stored.created > 0 && candidate.created > stored.created
  }

  /** The licence `applyStripeObject` builds from a retrieved subscription and the row it read. */
  function NextLicence(d: Delivery, sub: StripeSubscription, current: Option<Snapshot>): Licence {
    var plan :=
      if sub.price.Some? then sub.price.value.0
      else if OrElse(sub.metadata.plan, d.metadata.plan).Some? then OrElse(sub.metadata.plan, d.metadata.plan).value
      else if current.Some? then current.value.plan
      else Starter;
    var cycle :=
      if sub.price.Some? then sub.price.value.1
      else if OrElse(sub.metadata.billingCycle, d.metadata.billingCycle).Some?
        then OrElse(sub.metadata.billingCycle, d.metadata.billingCycle).value
      else if current.Some? then current.value.billingCycle
      else Monthly;
    var storedPrice: Option<nat> := if current.Some? then current.value.priceMonthly else None;
    Licence(
      plan,
      if current.Some? then current.value.seats else 3,
      LicenceStatus(sub.status),
      OrElse(sub.periodEnd, if current.Some? then current.value.expiresAt else None),
      if sub.price.None? && storedPrice.Some? then Some(storedPrice.value) else Some(CatalogPrice(plan)),
      cycle,
      NextCustomer(d, sub, current),
      d.subscription)
  }

  function NextCustomer(d: Delivery, sub: StripeSubscription, current: Option<Snapshot>): Option<Id> {
    OrElse(OrElse(sub.customer, d.customer), if current.Some? then current.value.customer else None)
  }

  // ---------------------------------------------------------------- what a stored licence shows

  /** Event and retrieved subscription do not name different customers. */
  predicate SameCustomer(d: Delivery, sub: StripeSubscription) {
    d.customer.None? || sub.customer.None? || d.customer == sub.customer
  }

  /** The row belongs to no other Stripe subscription and to no other Stripe customer than the event's. */
  predicate RowAdmits(row: Option<Snapshot>, d: Delivery, sub: StripeSubscription) {
    row.Some? && row.value.provider == Stripe ==>
      && (row.value.subscription.None? || row.value.subscription == Some(d.subscription))
      && (row.value.customer.None? || (sub.customer.None? && d.customer.None?)
          || row.value.customer == if sub.customer.Some? then sub.customer else d.customer)
  }

  /** Which licence status stands for which status text of Stripe; any other text suspends. */
  predicate ShowsStatus(text: string, s: Status) {
    && (s == Active <==> text == "active")
    && (s == Trial <==> text == "trialing")
    && (s == Pending <==> text == "incomplete")
    && (s == PastDue <==> text == "past_due")
    && (s == Canceled <==> text == "canceled")
    && (s == Expired <==> text == "incomplete_expired")
    && (text == "unpaid" ==> s == Suspended)
    && (s == Suspended <==> text !in {"active", "trialing", "incomplete", "past_due", "canceled", "incomplete_expired"})
  }

  lemma StatusIsShown(text: string)
    ensures ShowsStatus(text, LicenceStatus(text))
  {
  }

  /** A configured price decides plan, cycle and catalogue price; otherwise metadata, then the row, then the default. */
  predicate ShowsPlan(d: Delivery, sub: StripeSubscription, before: Option<Snapshot>, row: Snapshot) {
    && (sub.price.Some? ==> row.plan == sub.price.value.0 && row.billingCycle == sub.price.value.1)
    && (sub.price.None? ==>
          && (sub.metadata.plan.Some? ==> row.plan == sub.metadata.plan.value)
          && (sub.metadata.plan.None? && d.metadata.plan.Some? ==> row.plan == d.metadata.plan.value)
          && (sub.metadata.plan.None? && d.metadata.plan.None? && before.Some? ==> row.plan == before.value.plan)
          && (sub.metadata.plan.None? && d.metadata.plan.None? && before.None? ==> row.plan == Starter)
          && (sub.metadata.billingCycle.Some? ==> row.billingCycle == sub.metadata.billingCycle.value)
          && (sub.metadata.billingCycle.None? && d.metadata.billingCycle.Some? ==> row.billingCycle == d.metadata.billingCycle.value)
          && (sub.metadata.billingCycle.None? && d.metadata.billingCycle.None? && before.Some? ==>
                row.billingCycle == before.value.billingCycle)
          && (sub.metadata.billingCycle.None? && d.metadata.billingCycle.None? && before.None? ==> row.billingCycle == Monthly))
  }

  /** The catalogue price of the plan, except that a price of the row survives when no price is configured. */
  predicate ShowsPrice(sub: StripeSubscription, before: Option<Snapshot>, row: Snapshot) {
    if sub.price.None? && before.Some? && before.value.priceMonthly.Some?
    then row.priceMonthly == if before.value.priceMonthly.value > 0 then before.value.priceMonthly else None
    else
      && (row.plan == Starter ==> row.priceMonthly == Some(14_900))
      && (row.plan == Pro ==> row.priceMonthly == Some(19_900))
      && (row.plan == Enterprise ==> row.priceMonthly == Some(24_900))
  }

  /** Seats, period end and customer are kept where Stripe is silent. */
  predicate ShowsRest(d: Delivery, sub: StripeSubscription, before: Option<Snapshot>, row: Snapshot) {
    && row.seats == (if before.Some? && before.value.seats > 0 then before.value.seats else 3)
    && (sub.periodEnd.Some? ==> row.expiresAt == sub.periodEnd)
    && (sub.periodEnd.None? && before.Some? ==> row.expiresAt == before.value.expiresAt)
    && (sub.periodEnd.None? && before.None? ==> row.expiresAt == None)
    && (sub.customer.Some? ==> row.customer == sub.customer)
    && (sub.customer.None? && d.customer.Some? ==> row.customer == d.customer)
    && (sub.customer.None? && d.customer.None? && before.Some? ==> row.customer == before.value.customer)
    && (sub.customer.None? && d.customer.None? && before.None? ==> row.customer == None)
    && row.provider == Stripe && row.subscription == Some(d.subscription)
  }

  /** A row stored for delivery `d` over `before` says, field by field, what Stripe's `sub` says. */
  predicate Shows(d: Delivery, sub: StripeSubscription, before: Option<Snapshot>, row: Snapshot) {
    ShowsStatus(sub.status, row.status) && ShowsPlan(d, sub, before, row) && ShowsPrice(sub, before, row) && ShowsRest(d, sub, before, row)
  }

  lemma StoredShows(d: Delivery, sub: StripeSubscription, before: Option<Snapshot>, at: nat)
    ensures Shows(d, sub, before, Stored(NextLicence(d, sub, before), at))
  {
    StatusIsShown(sub.status);
  }

  datatype Notice = PaymentFailed | SubscriptionSuspended | SubscriptionCanceled | SubscriptionReactivated

  /** `notifyBillingTransition`: at most one notice per committed write. */
  function NoticeFor(previous: Option<Status>, next: Status): Option<Notice> {
    if next == PastDue && previous != Some(PastDue) then Some(PaymentFailed)
    else if next == Suspended && previous != Some(Suspended) then Some(SubscriptionSuspended)
    else if next == Canceled && previous != Some(Canceled) then Some(SubscriptionCanceled)
    else if (next == Active || next == Trial) && previous.Some?
      && previous.value in {PastDue, Suspended, Expired, Canceled} then Some(SubscriptionReactivated)
    else None
  }

  /** The status edge that a notice announces. */
  predicate Announces(n: Notice, previous: Option<Status>, next: Status) {
    match n
    case PaymentFailed => Enters(PastDue, previous, next)
    case SubscriptionSuspended => Enters(Suspended, previous, next)
    case SubscriptionCanceled => Enters(Canceled, previous, next)
    case SubscriptionReactivated => Lapsed(previous) && next in {Active, Trial}
  }

  predicate Enters(s: Status, previous: Option<Status>, next: Status) {
    next == s && previous != Some(s)
  }

  predicate Lapsed(previous: Option<Status>) {
    previous.Some? && previous.value in {PastDue, Suspended, Expired, Canceled}
  }
}
