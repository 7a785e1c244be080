/**
 The tenant licence row and its guarded write
 (backend/src/application/services/tenant-subscription-service.ts).
 */
module TenantSubscriptions {
  import opened Base

  datatype Plan = Starter | Pro | Enterprise
  datatype Cycle = Monthly | Yearly
  datatype Provider = Stripe | Local
  datatype Status = Pending | Active | Suspended | Expired | Trial | PastDue | Canceled

  /** A row as `snapshotFromRow` shows it; prices are in cents, instants in milliseconds. */
  datatype Snapshot = Snapshot(
    plan: Plan,
    seats: nat,
    status: Status,
    expiresAt: Option<int>,
    updatedAt: nat,
    priceMonthly: Option<nat>,
    billingCycle: Cycle,
    provider: Provider,
    customer: Option<Id>,
    subscription: Option<Id>)

  /** What a webhook wants to store: every field but `updatedAt` and the provider. */
  datatype Licence = Licence(
    plan: Plan,
    seats: int,
    status: Status,
    expiresAt: Option<int>,
    priceMonthly: Option<int>,
    billingCycle: Cycle,
    customer: Option<Id>,
    subscription: Id)

  datatype Refusal = StaleSnapshot | SubscriptionReplaced | CustomerMismatch

  datatype Mutation =
    | Written(previous: Option<Snapshot>, row: Snapshot)
    | Refused(previous: Option<Snapshot>, reason: Refusal)

  function PositiveSeats(seats: int): nat {
    if seats > 0 then seats else 3
  }

  function PositivePriceOrNull(price: Option<int>): Option<nat> {
    if price.Some? && price.value > 0 then Some(price.value) else None
  }

  function Stored(next: Licence, now: nat): Snapshot {
    Snapshot(next.plan, PositiveSeats(next.seats), next.status, next.expiresAt, now,
             PositivePriceOrNull(next.priceMonthly), next.billingCycle, Stripe,
             next.customer, Some(next.subscription))
  }

  /** The row belongs to a Stripe subscription other than `sub`. */
  predicate BoundElsewhere(row: Option<Snapshot>, sub: Id) {
    row.Some? && row.value.provider == Stripe && row.value.subscription.Some? && row.value.subscription != Some(sub)
  }

  predicate CustomerDiffers(row: Option<Snapshot>, customer: Option<Id>) {
    row.Some? && row.value.provider == Stripe && row.value.customer.Some? && customer.Some?
    && row.value.customer != customer
  }

  /**
   The transaction of `upsertStripeTenantSubscriptionIfCurrent`, run under the tenant's lock:
   comparing snapshots field by field, `updatedAt` included, is structural equality here.
   */
  function GuardedUpsert(row: Option<Snapshot>, next: Licence, expected: Option<Snapshot>,
                         allowReplacement: bool, now: nat): (m: Mutation)
    ensures m.previous == row
    ensures m.Written? ==> m.row.subscription == Some(next.subscription) && m.row.provider == Stripe
                           && m.row.updatedAt == now && m.row.status == next.status && row == expected
    ensures m.Written? && !allowReplacement ==> !BoundElsewhere(row, next.subscription)
    // Written exactly over the row that was read, and, unless replacement is allowed, exactly when that
    // row is bound to no other Stripe subscription and to no other Stripe customer.
    ensures m.Written? <==>
      && row == expected
      && (allowReplacement || row.None? || row.value.provider == Local || row.value.subscription.None?
          || row.value.subscription == Some(next.subscription))
      && (allowReplacement || row.None? || row.value.provider == Local || row.value.customer.None?
          || next.customer.None? || row.value.customer == next.customer)
    ensures m.Refused? && m.reason == StaleSnapshot <==> row != expected
  {
    if row != expected then Refused(row, StaleSnapshot)
    else if BoundElsewhere(row, next.subscription) && !allowReplacement then Refused(row, SubscriptionReplaced)
    else if CustomerDiffers(row, next.customer) && !allowReplacement then Refused(row, CustomerMismatch)
    else Written(row, Stored(next, now))
  }
}
