/**
 Webhook events handled one after another: tenant bindings, the two retry loops and the event log
 (backend/src/application/services/billing-service.ts).
 */
module StripeWebhooks {
  import opened Base
  import opened TenantSubscriptions
  import opened BillingRules

  datatype EventStatus = Received | Processed | EventIgnored | Failed

  /** `Unrecorded`: the licence was written, then its audit entry or its funnel event could not be stored. */
  datatype Outcome = Applied(tenant: Id) | Unrecorded(tenant: Id) | Ignored | StripeFailed

  datatype Answer = Duplicate | Handled(outcome: Outcome)

  // ---------------------------------------------------------------- bindings

  /** Tenants whose Stripe row carries this subscription id. */
  function SubscriptionHolders(rows: map<Id, Snapshot>, sub: Option<Id>): set<Id> {
    set t | t in rows && sub.Some? && rows[t].provider == Stripe && rows[t].subscription == sub
  }

  /** Tenants whose Stripe row carries this customer id. */
  function CustomerHolders(rows: map<Id, Snapshot>, customer: Option<Id>): set<Id> {
    set t | t in rows && customer.Some? && rows[t].provider == Stripe && rows[t].customer == customer
  }

  /** No two tenants share a Stripe subscription or a Stripe customer, and local rows carry neither. */
  predicate BindingsDistinct(rows: map<Id, Snapshot>) {
    && (forall t, u :: t in rows && u in rows && t != u && rows[t].provider == Stripe && rows[u].provider == Stripe ==>
          && (rows[t].subscription.Some? ==> rows[t].subscription != rows[u].subscription)
          && (rows[t].customer.Some? ==> rows[t].customer != rows[u].customer))
    && (forall t :: t in rows && rows[t].provider == Local ==> rows[t].subscription.None? && rows[t].customer.None?)
  }

  /** Everything that names a tenant for a subscription: table, metadata and the event's own resolution. */
  function Claims(rows: map<Id, Snapshot>, sub: Option<Id>, customer: Option<Id>,
                  metadata: Option<Id>, fallback: Option<Id>): set<Id>
  {
    SubscriptionHolders(rows, sub) + CustomerHolders(rows, customer)
    + (if metadata.Some? then {metadata.value} else {}) + (if fallback.Some? then {fallback.value} else {})
  }

  lemma HoldersUnique(rows: map<Id, Snapshot>, sub: Option<Id>, customer: Option<Id>)
    requires BindingsDistinct(rows)
    ensures forall t, u :: t in SubscriptionHolders(rows, sub) && u in SubscriptionHolders(rows, sub) ==> t == u
    ensures forall t, u :: t in CustomerHolders(rows, customer) && u in CustomerHolders(rows, customer) ==> t == u
  {
  }

  /** One write of a serial run: tenant `t` takes a row whose ids no other tenant holds. */
  predicate WritesFreely(rows: map<Id, Snapshot>, rows': map<Id, Snapshot>, t: Id) {
    && t in rows' && rows' == rows[t := rows'[t]]
    && rows'[t].provider == Stripe
    && SubscriptionHolders(rows, rows'[t].subscription) <= {t}
    && CustomerHolders(rows, rows'[t].customer) <= {t}
  }

  lemma WriteKeepsBindingsDistinct(rows: map<Id, Snapshot>, rows': map<Id, Snapshot>, t: Id)
    requires BindingsDistinct(rows) && WritesFreely(rows, rows', t)
    ensures BindingsDistinct(rows')
  {
    forall u | u in rows && u != t && rows[u].provider == Stripe
      ensures rows'[t].subscription.Some? ==> rows'[t].subscription != rows[u].subscription
      ensures rows'[t].customer.Some? ==> rows'[t].customer != rows[u].customer
    {
      assert u !in SubscriptionHolders(rows, rows'[t].subscription);
      assert u !in CustomerHolders(rows, rows'[t].customer);
    }
  }

  // ---------------------------------------------------------------- the retry loop

  /** What the database and Stripe answer during one attempt: the row read, the retrieve, the row at the write. */
  datatype View = View(read: Option<Snapshot>, retrieved: Option<StripeSubscription>, agreed: bool, atWrite: Option<Snapshot>)

  datatype Ending = Wrote(row: Snapshot) | Denied(reason: Refusal) | Dropped | Threw | Conflict

  /** The attempt reaches the guarded write. */
  predicate Reaches(d: Delivery, v: View) {
    v.retrieved.Some? && SameCustomer(d, v.retrieved.value) && v.agreed
  }

  /** The attempt got as far as the guarded write and found another row than it had read. */
  predicate WentStale(d: Delivery, v: View) {
    Reaches(d, v) && v.atWrite != v.read
  }

  /**
   The three-attempt loop of `syncAuthoritativeStripeSubscription` against whatever other writers do
   between its reads and its writes.
   */
  method RetryGuardedWrite(d: Delivery, views: seq<View>, now: nat) returns (ending: Ending, attempts: nat)
    requires |views| == 3
    ensures 1 <= attempts <= 3
    ensures forall k :: 0 <= k < attempts - 1 ==> WentStale(d, views[k])
    ensures ending.Conflict? <==> forall k :: 0 <= k < 3 ==> WentStale(d, views[k])
    ensures !ending.Conflict? ==>
      var v := views[attempts - 1];
      && (ending.Threw? <==> v.retrieved.None?)
      && (ending.Dropped? <==> v.retrieved.Some? && !Reaches(d, v))
      && (ending.Wrote? <==> Reaches(d, v) && v.atWrite == v.read && RowAdmits(v.read, d, v.retrieved.value))
      && (ending.Wrote? ==> Shows(d, v.retrieved.value, v.read, ending.row) && ending.row.updatedAt == now)
    ensures ending.Denied? ==> ending.reason != StaleSnapshot
  {
    var attempt := 0;
    while attempt < 3
      invariant 0 <= attempt <= 3
      invariant forall k :: 0 <= k < attempt ==> WentStale(d, views[k])
    {
      var v := views[attempt];
      var expected := v.read;
      if v.retrieved.None? {
        return Threw, attempt + 1;
      }
      if CustomersDisagree(d, v.retrieved.value) || !v.agreed {
        return Dropped, attempt + 1;
      }
      var m := GuardedUpsert(v.atWrite, NextLicence(d, v.retrieved.value, expected), expected, false, now);
      StoredShows(d, v.retrieved.value, expected, now);
      if m.Written? {
        return Wrote(m.row), attempt + 1;
      }
      if m.reason != StaleSnapshot {
        return Denied(m.reason), attempt + 1;
      }
      attempt := attempt + 1;
    }
    ending, attempts := Conflict, 3;
  }

  // ---------------------------------------------------------------- one event

  /** What `findFirst` answers: one of the matching tenants. */
  ghost function First(tenants: set<Id>): (r: Option<Id>)
    ensures r.None? <==> tenants == {}
    ensures r.Some? ==> r.value in tenants
  {
    if tenants == {} then None else var t :| t in tenants; Some(t)
  }

  /** `resolveAuthoritativeTenantId` over the table. */
  ghost function ResolveIn(rows: map<Id, Snapshot>, sub: Option<Id>, customer: Option<Id>,
                           metadata: Option<Id>, fallback: Option<Id>): Option<Id>
  {
    ResolveAuthoritative(First(SubscriptionHolders(rows, sub)), First(CustomerHolders(rows, customer)), metadata, fallback)
  }

  /** `resolveTenantId`: metadata, then the subscription's holder, then the customer's. */
  ghost function ResolveFirstIn(rows: map<Id, Snapshot>, d: Delivery): Option<Id> {
    if d.metadata.tenant.Some? then d.metadata.tenant
    else OrElse(First(SubscriptionHolders(rows, Some(d.subscription))), First(CustomerHolders(rows, d.customer)))
  }

  /** The table, the clock and how the event ended. */
  datatype Handling = Handling(rows: map<Id, Snapshot>, clock: nat, outcome: Outcome)

  /** `applyStripeObject`: resolve again for the retrieved subscription, then write under the guard. */
  ghost function WriteIn(rows: map<Id, Snapshot>, clock: nat, d: Delivery, sub: StripeSubscription, t: Id,
                         allowReplacement: bool, recorded: bool): Handling
  {
    var row := Get(rows, t);
    var agreed := ResolveIn(rows, Some(d.subscription), OrElse(sub.customer, d.customer),
                            OrElse(sub.metadata.tenant, d.metadata.tenant), Some(t));
    if agreed.None? then Handling(rows, clock, Ignored)
    else
      match GuardedUpsert(row, NextLicence(d, sub, row), row, allowReplacement, clock)
      case Refused(_, _) => Handling(rows, clock, Ignored)
      case Written(_, next) =>
        Handling(rows[agreed.value := next], clock + 1, if recorded then Applied(agreed.value) else Unrecorded(agreed.value))
  }

  /** `syncAuthoritativeStripeSubscription` for subscription and invoice events. */
  ghost function SyncIn(rows: map<Id, Snapshot>, clock: nat, d: Delivery, stripe: map<Id, StripeSubscription>, recorded: bool): Handling {
    var t := ResolveIn(rows, Some(d.subscription), d.customer, d.metadata.tenant, None);
    if t.None? then Handling(rows, clock, Ignored)
    else if d.subscription !in stripe then Handling(rows, clock, StripeFailed)
    else if CustomersDisagree(d, stripe[d.subscription]) then Handling(rows, clock, Ignored)
    else WriteIn(rows, clock, d, stripe[d.subscription], t.value, false, recorded)
  }

  /** The `checkout.session.completed` branch of `processStripeEvent`. */
  ghost function CheckoutIn(rows: map<Id, Snapshot>, clock: nat, d: Delivery, stripe: map<Id, StripeSubscription>, recorded: bool): Handling {
    var t := ResolveFirstIn(rows, d);
    if t.None? then Handling(rows, clock, Ignored)
    else if d.subscription !in stripe then Handling(rows, clock, StripeFailed)
    else
      var sub, row := stripe[d.subscription], Get(rows, t.value);
      if CustomersDisagree(d, sub) then Handling(rows, clock, Ignored)
      else if !MayReplace(row, sub, d.subscription) then WriteIn(rows, clock, d, sub, t.value, false, recorded)
      else if row.value.subscription.value !in stripe then Handling(rows, clock, StripeFailed)
      else WriteIn(rows, clock, d, sub, t.value, CreatedLater(sub, stripe[row.value.subscription.value]), recorded)
  }

  /** The rows, the clock and the event log. */
  datatype Service = Service(rows: map<Id, Snapshot>, clock: nat, events: map<Id, EventStatus>)

  /** An event, what Stripe answers while it is handled, and whether the records after its write are stored. */
  datatype Webhook = Webhook(id: Id, delivery: Delivery, stripe: map<Id, StripeSubscription>, recorded: bool)

  ghost function Process(rows: map<Id, Snapshot>, clock: nat, e: Webhook): Handling {
    if e.delivery.kind == CheckoutCompleted then CheckoutIn(rows, clock, e.delivery, e.stripe, e.recorded)
    else SyncIn(rows, clock, e.delivery, e.stripe, e.recorded)
  }

  function Ended(o: Outcome): EventStatus {
    match o
    case Applied(_) => Processed
    case Unrecorded(_) => Failed
    case Ignored => EventIgnored
    case StripeFailed => Failed
  }

  /** `handleWebhook` for the events that touch licences. */
  ghost function Handle(s: Service, e: Webhook): Service {
    if Get(s.events, e.id) == Some(Processed) then s
    else
      var h := Process(s.rows, s.clock, e);
      Service(h.rows, h.clock, s.events[e.id := Ended(h.outcome)])
  }

  ghost function Run(s: Service, events: seq<Webhook>): Service
    decreases |events|
  {
    if events == [] then s else Run(Handle(s, events[0]), events[1..])
  }

  predicate Changed(o: Outcome) {
    o.Applied? || o.Unrecorded?
  }

  // ---------------------------------------------------------------- what the handlers do

  /** Over distinct bindings the resolver answers exactly with the only tenant claimed. */
  lemma ResolvesToOnlyClaim(rows: map<Id, Snapshot>, sub: Option<Id>, customer: Option<Id>, metadata: Option<Id>, fallback: Option<Id>)
    requires BindingsDistinct(rows)
    ensures forall t: Id :: ResolveIn(rows, sub, customer, metadata, fallback) == Some(t)
                            <==> Claims(rows, sub, customer, metadata, fallback) == {t}
  {
    var a, b := First(SubscriptionHolders(rows, sub)), First(CustomerHolders(rows, customer));
    HoldersUnique(rows, sub, customer);
    assert SubscriptionHolders(rows, sub) == (if a.Some? then {a.value} else {});
    assert CustomerHolders(rows, customer) == (if b.Some? then {b.value} else {});
    assert Claims(rows, sub, customer, metadata, fallback) == Declarations(a, b, metadata, fallback);
  }

  /** The claims checked just before a write, when the subscription has been retrieved for tenant `t`. */
  predicate AloneClaims(rows: map<Id, Snapshot>, d: Delivery, sub: StripeSubscription, t: Id) {
    Claims(rows, Some(d.subscription), OrElse(sub.customer, d.customer),
           OrElse(sub.metadata.tenant, d.metadata.tenant), Some(t)) == {t}
  }

  /** An event about subscription `d.subscription` may be written for tenant `t`. */
  predicate Admissible(rows: map<Id, Snapshot>, d: Delivery, stripe: map<Id, StripeSubscription>, t: Id, replacing: bool) {
    && d.subscription in stripe
    && SameCustomer(d, stripe[d.subscription])
    && AloneClaims(rows, d, stripe[d.subscription], t)
    && (replacing || RowAdmits(Get(rows, t), d, stripe[d.subscription]))
  }

  /** The tenant `resolveTenantId` answers with. */
  predicate LooselyNamed(rows: map<Id, Snapshot>, d: Delivery, t: Id) {
    if d.metadata.tenant.Some? then d.metadata.tenant == Some(t)
    else if SubscriptionHolders(rows, Some(d.subscription)) != {} then t in SubscriptionHolders(rows, Some(d.subscription))
    else t in CustomerHolders(rows, d.customer)
  }

  /** The stored subscription has lapsed and the new one was created strictly later. */
  predicate MaySupersede(rows: map<Id, Snapshot>, d: Delivery, stripe: map<Id, StripeSubscription>, t: Id) {
    && HoldsLapsed(rows, t, d.subscription)
    && d.subscription in stripe && rows[t].subscription.value in stripe
    && 0 < stripe[rows[t].subscription.value].created < stripe[d.subscription].created
  }

  /** The tenant's Stripe row is bound to another subscription than `sub`, which is pending, expired or canceled. */
  predicate HoldsLapsed(rows: map<Id, Snapshot>, t: Id, sub: Id) {
    && t in rows && rows[t].provider == Stripe && rows[t].subscription.Some? && rows[t].subscription.value != sub
    && (rows[t].status == Pending || rows[t].status == Expired || rows[t].status == Canceled)
  }

  /** Either nothing changed, or one tenant took the row built from Stripe's answer, with ids nobody else holds. */
  ghost predicate OneFreeWrite(rows: map<Id, Snapshot>, clock: nat, d: Delivery, stripe: map<Id, StripeSubscription>, h: Handling) {
    if !Changed(h.outcome) then h.rows == rows
    else
      && d.subscription in stripe && WritesFreely(rows, h.rows, h.outcome.tenant)
      && Shows(d, stripe[d.subscription], Get(rows, h.outcome.tenant), h.rows[h.outcome.tenant])
      && h.rows[h.outcome.tenant].updatedAt == clock && h.clock == clock + 1
  }

  /** A write happens exactly when the tenant alone is claimed and the guard agrees, and takes ids nobody else holds. */
  lemma WriteIsFree(rows: map<Id, Snapshot>, clock: nat, d: Delivery, sub: StripeSubscription, t: Id, allowReplacement: bool, recorded: bool)
    requires BindingsDistinct(rows)
    ensures var h := WriteIn(rows, clock, d, sub, t, allowReplacement, recorded);
      var row := Get(rows, t);
      && (Changed(h.outcome) <==> AloneClaims(rows, d, sub, t) && (allowReplacement || RowAdmits(row, d, sub)))
      && (Changed(h.outcome) ==>
            && h.outcome.tenant == t && (h.outcome.Applied? <==> recorded)
            && WritesFreely(rows, h.rows, t) && h.clock == clock + 1
            && Shows(d, sub, row, h.rows[t]) && h.rows[t].updatedAt == clock)
      && (!Changed(h.outcome) ==> h.rows == rows && h.outcome.Ignored?)
  {
    var customer, tenant := OrElse(sub.customer, d.customer), OrElse(sub.metadata.tenant, d.metadata.tenant);
    var claims := Claims(rows, Some(d.subscription), customer, tenant, Some(t));
    ResolvesToOnlyClaim(rows, Some(d.subscription), customer, tenant, Some(t));
    StoredShows(d, sub, Get(rows, t), clock);
    assert t in claims;
    var h := WriteIn(rows, clock, d, sub, t, allowReplacement, recorded);
    if Changed(h.outcome) {
      assert claims == {t};
      assert SubscriptionHolders(rows, h.rows[t].subscription) <= claims;
      if customer.Some? {
        assert CustomerHolders(rows, h.rows[t].customer) <= claims;
      } else {
        KeepsCustomer(rows, d, sub, t);
      }
    }
  }

  /** Without a customer in the event the row keeps its own, which nobody else holds. */
  lemma KeepsCustomer(rows: map<Id, Snapshot>, d: Delivery, sub: StripeSubscription, t: Id)
    requires BindingsDistinct(rows) && OrElse(sub.customer, d.customer).None?
    ensures CustomerHolders(rows, NextLicence(d, sub, Get(rows, t)).customer) <= {t}
  {
  }

  /** A subscription event is written exactly for the one claimed tenant whose row admits it. */
  lemma SyncWritesIff(rows: map<Id, Snapshot>, clock: nat, d: Delivery, stripe: map<Id, StripeSubscription>, recorded: bool)
    requires BindingsDistinct(rows)
    ensures OneFreeWrite(rows, clock, d, stripe, SyncIn(rows, clock, d, stripe, recorded))
    ensures forall t: Id ::
      (Changed(SyncIn(rows, clock, d, stripe, recorded).outcome) && SyncIn(rows, clock, d, stripe, recorded).outcome.tenant == t)
      <==> Claims(rows, Some(d.subscription), d.customer, d.metadata.tenant, None) == {t} && Admissible(rows, d, stripe, t, false)
    ensures SyncIn(rows, clock, d, stripe, recorded).outcome.StripeFailed? <==>
      d.subscription !in stripe && exists t: Id :: Claims(rows, Some(d.subscription), d.customer, d.metadata.tenant, None) == {t}
  {
    ResolvesToOnlyClaim(rows, Some(d.subscription), d.customer, d.metadata.tenant, None);
    var named := ResolveIn(rows, Some(d.subscription), d.customer, d.metadata.tenant, None);
    if named.Some? && d.subscription in stripe {
      WriteIsFree(rows, clock, d, stripe[d.subscription], named.value, false, recorded);
    }
  }

  lemma NamedLoosely(rows: map<Id, Snapshot>, d: Delivery)
    requires BindingsDistinct(rows)
    ensures forall t: Id :: ResolveFirstIn(rows, d) == Some(t) <==> LooselyNamed(rows, d, t)
  {
    HoldersUnique(rows, Some(d.subscription), d.customer);
  }

  /** A retrieve throws: of the event's subscription, or of the lapsed one it might replace. */
  predicate StripeSilent(rows: map<Id, Snapshot>, d: Delivery, stripe: map<Id, StripeSubscription>, t: Id) {
    || d.subscription !in stripe
    || (SameCustomer(d, stripe[d.subscription]) && HoldsLapsed(rows, t, d.subscription)
        && stripe[d.subscription].created > 0 && rows[t].subscription.value !in stripe)
  }

  /**
   A completed checkout is written exactly for the tenant it names whose row admits it, unless Stripe
   fails; another subscription is replaced only by a later one over a lapsed row.
   */
  lemma CheckoutWritesIff(rows: map<Id, Snapshot>, clock: nat, d: Delivery, stripe: map<Id, StripeSubscription>, recorded: bool)
    requires BindingsDistinct(rows)
    ensures OneFreeWrite(rows, clock, d, stripe, CheckoutIn(rows, clock, d, stripe, recorded))
    ensures !CheckoutIn(rows, clock, d, stripe, recorded).outcome.StripeFailed? ==>
      forall t: Id ::
        (Changed(CheckoutIn(rows, clock, d, stripe, recorded).outcome) && CheckoutIn(rows, clock, d, stripe, recorded).outcome.tenant == t)
        <==> LooselyNamed(rows, d, t) && Admissible(rows, d, stripe, t, MaySupersede(rows, d, stripe, t))
  {
    NamedLoosely(rows, d);
    var named := ResolveFirstIn(rows, d);
    if named.Some? {
      CheckoutShape(rows, clock, d, stripe, recorded, named.value);
      if d.subscription in stripe {
        WriteIsFree(rows, clock, d, stripe[d.subscription], named.value, MaySupersede(rows, d, stripe, named.value), recorded);
      }
    }
  }

  lemma CheckoutShape(rows: map<Id, Snapshot>, clock: nat, d: Delivery, stripe: map<Id, StripeSubscription>, recorded: bool, t: Id)
    requires ResolveFirstIn(rows, d) == Some(t)
    ensures CheckoutIn(rows, clock, d, stripe, recorded)
         == if StripeSilent(rows, d, stripe, t) then Handling(rows, clock, StripeFailed)
            else if !SameCustomer(d, stripe[d.subscription]) then Handling(rows, clock, Ignored)
            else WriteIn(rows, clock, d, stripe[d.subscription], t, MaySupersede(rows, d, stripe, t), recorded)
  {
  }

  /** It fails exactly when Stripe cannot be asked what the decision depends on. */
  lemma CheckoutFailsIff(rows: map<Id, Snapshot>, clock: nat, d: Delivery, stripe: map<Id, StripeSubscription>, recorded: bool)
    requires BindingsDistinct(rows)
    ensures CheckoutIn(rows, clock, d, stripe, recorded).outcome.StripeFailed? <==>
      exists t: Id :: LooselyNamed(rows, d, t) && StripeSilent(rows, d, stripe, t)
  {
    NamedLoosely(rows, d);
    var named := ResolveFirstIn(rows, d);
    if named.Some? {
      assert LooselyNamed(rows, d, named.value);
      assert forall t: Id :: LooselyNamed(rows, d, t) ==> t == named.value;
    }
  }

  lemma ProcessKeepsBindingsDistinct(rows: map<Id, Snapshot>, clock: nat, e: Webhook)
    requires BindingsDistinct(rows)
    ensures BindingsDistinct(Process(rows, clock, e).rows)
    ensures OneFreeWrite(rows, clock, e.delivery, e.stripe, Process(rows, clock, e))
  {
    SyncWritesIff(rows, clock, e.delivery, e.stripe, e.recorded);
    CheckoutWritesIff(rows, clock, e.delivery, e.stripe, e.recorded);
    var h := Process(rows, clock, e);
    if Changed(h.outcome) {
      WriteKeepsBindingsDistinct(rows, h.rows, h.outcome.tenant);
    }
  }

  /**
   For every sequence of events, whatever Stripe answers to each: no two tenants' Stripe rows ever
   share a subscription id or a customer id.
   */
  lemma {:induction false} SerialRunKeepsBindingsDistinct(s: Service, events: seq<Webhook>)
    requires BindingsDistinct(s.rows)
    ensures BindingsDistinct(Run(s, events).rows)
    decreases |events|
  {
    if events != [] {
      ProcessKeepsBindingsDistinct(s.rows, s.clock, events[0]);
      SerialRunKeepsBindingsDistinct(Handle(s, events[0]), events[1..]);
    }
  }

  /**
   How an event that was not processed before is recorded: processed exactly when it changed a row and
   everything after the write was stored, failed when that was lost or Stripe could not be asked, and
   ignored otherwise.
   */
  lemma EventsAreRecorded(s: Service, e: Webhook)
    requires BindingsDistinct(s.rows) && Get(s.events, e.id) != Some(Processed)
    ensures var s' := Handle(s, e);
      && e.id in s'.events && s'.events - {e.id} == s.events - {e.id}
      && (s'.events[e.id] == Processed <==> s'.clock == s.clock + 1 && e.recorded)
      && (s'.events[e.id] == Failed <==>
            (s'.clock == s.clock + 1 && !e.recorded) || Process(s.rows, s.clock, e).outcome.StripeFailed?)
      && (s'.events[e.id] == EventIgnored <==> s'.clock == s.clock && !Process(s.rows, s.clock, e).outcome.StripeFailed?)
  {
    ProcessKeepsBindingsDistinct(s.rows, s.clock, e);
    ProcessTicks(s.rows, s.clock, e);
  }

  lemma ProcessTicks(rows: map<Id, Snapshot>, clock: nat, e: Webhook)
    ensures var h := Process(rows, clock, e);
      && (Changed(h.outcome) ==> h.clock == clock + 1 && (h.outcome.Applied? <==> e.recorded))
      && (!Changed(h.outcome) ==> h.clock == clock)
  {
  }

  /** In every serial run an event takes effect at most once: once processed it stays so and its repetitions change nothing. */
  lemma {:induction false} ProcessedForever(s: Service, events: seq<Webhook>, again: Webhook)
    requires Get(s.events, again.id) == Some(Processed)
    ensures Get(Run(s, events).events, again.id) == Some(Processed)
    ensures Handle(Run(s, events), again) == Run(s, events)
    decreases |events|
  {
    if events != [] {
      ProcessedForever(Handle(s, events[0]), events[1..], again);
    }
  }

  // ---------------------------------------------------------------- the service

  class BillingService {
    var rows: map<Id, Snapshot>
    var clock: nat
    var events: map<Id, EventStatus>

    function State(): Service
      reads this
    {
      Service(rows, clock, events)
    }

    predicate Valid()
      reads this
    {
      BindingsDistinct(rows)
    }

    constructor ()
      ensures Valid() && State() == Service(map[], 0, map[])
    {
      rows, events, clock := map[], map[], 0;
    }

    /** `findFirst` by subscription id. */
    method FindBySubscription(sub: Option<Id>) returns (r: Option<Id>)
      ensures r.Some? ==> r.value in SubscriptionHolders(rows, sub)
      ensures r.None? ==> SubscriptionHolders(rows, sub) == {}
    {
      var found := SubscriptionHolders(rows, sub);
      if found == {} {
        r := None;
      } else {
        var t :| t in found;
        r := Some(t);
      }
    }

    /** `findFirst` by customer id. */
    method FindByCustomer(customer: Option<Id>) returns (r: Option<Id>)
      ensures r.Some? ==> r.value in CustomerHolders(rows, customer)
      ensures r.None? ==> CustomerHolders(rows, customer) == {}
    {
      var found := CustomerHolders(rows, customer);
      if found == {} {
        r := None;
      } else {
        var t :| t in found;
        r := Some(t);
      }
    }

    /** The authoritative tenant exists exactly when somebody claims the subscription and nobody disagrees. */
    method ResolveTenant(sub: Option<Id>, customer: Option<Id>, metadata: Option<Id>, fallback: Option<Id>)
      returns (r: Option<Id>)
      requires Valid()
      ensures r == ResolveIn(rows, sub, customer, metadata, fallback)
      ensures forall t: Id :: r == Some(t) <==> Claims(rows, sub, customer, metadata, fallback) == {t}
    {
      var bySubscription := FindBySubscription(sub);
      var byCustomer := FindByCustomer(customer);
      r := ResolveAuthoritative(bySubscription, byCustomer, metadata, fallback);
      HoldersUnique(rows, sub, customer);
      ResolvesToOnlyClaim(rows, sub, customer, metadata, fallback);
    }

    /** The loose resolution of `resolveTenantId`: the first source that answers wins. */
    method ResolveLoosely(d: Delivery) returns (r: Option<Id>)
      requires Valid()
      ensures r == ResolveFirstIn(rows, d)
      ensures forall t: Id :: r == Some(t) <==> LooselyNamed(rows, d, t)
    {
      HoldersUnique(rows, Some(d.subscription), d.customer);
      NamedLoosely(rows, d);
      if d.metadata.tenant.Some? {
        return d.metadata.tenant;
      }
      r := FindBySubscription(Some(d.subscription));
      if r.None? {
        r := FindByCustomer(d.customer);
      }
    }

    /** `applyStripeObject`: resolve again against the retrieved subscription, then write under the guard. */
    method ApplySubscription(d: Delivery, sub: StripeSubscription, t: Id, expected: Option<Snapshot>, allowReplacement: bool, recorded: bool)
      returns (o: Outcome)
      requires Valid() && expected == Get(rows, t)
      modifies this`rows, this`clock
      ensures Handling(rows, clock, o) == WriteIn(old(rows), old(clock), d, sub, t, allowReplacement, recorded)
      ensures Changed(o) <==>
        AloneClaims(old(rows), d, sub, t) && (allowReplacement || RowAdmits(expected, d, sub))
      ensures Changed(o) ==>
        o.tenant == t && WritesFreely(old(rows), rows, t) && Shows(d, sub, expected, rows[t]) && rows[t].updatedAt == old(clock)
      ensures !Changed(o) ==> rows == old(rows) && clock == old(clock)
    {
      WriteIsFree(rows, clock, d, sub, t, allowReplacement, recorded);
      var agreed := ResolveTenant(Some(d.subscription), OrElse(sub.customer, d.customer),
                                  OrElse(sub.metadata.tenant, d.metadata.tenant), Some(t));
      if agreed.None? {
        return Ignored;
      }
      var result := GuardedUpsert(Get(rows, t), NextLicence(d, sub, expected), expected, allowReplacement, clock);
      if result.Refused? {
        return Ignored;
      }
      rows := rows[agreed.value := result.row];
      clock := clock + 1;
      return if recorded then Applied(agreed.value) else Unrecorded(agreed.value);
    }

    /** `syncAuthoritativeStripeSubscription` for subscription and invoice events. */
    method SyncSubscription(d: Delivery, stripe: map<Id, StripeSubscription>, recorded: bool) returns (o: Outcome)
      requires Valid()
      modifies this`rows, this`clock
      ensures Handling(rows, clock, o) == SyncIn(old(rows), old(clock), d, stripe, recorded)
      ensures OneFreeWrite(old(rows), old(clock), d, stripe, Handling(rows, clock, o))
      ensures forall t: Id :: Changed(o) && o.tenant == t <==>
        Claims(old(rows), Some(d.subscription), d.customer, d.metadata.tenant, None) == {t}
        && Admissible(old(rows), d, stripe, t, false)
    {
      SyncWritesIff(rows, clock, d, stripe, recorded);
      var tenant := ResolveTenant(Some(d.subscription), d.customer, d.metadata.tenant, None);
      if tenant.None? {
        return Ignored;
      }
      var expected := Get(rows, tenant.value);
      if d.subscription !in stripe {
        return StripeFailed;
      }
      var sub := stripe[d.subscription];
      if CustomersDisagree(d, sub) {
        return Ignored;
      }
      o := ApplySubscription(d, sub, tenant.value, expected, false, recorded);
    }

    /** The `checkout.session.completed` branch of `processStripeEvent`. */
    method CompleteCheckout(d: Delivery, stripe: map<Id, StripeSubscription>, recorded: bool) returns (o: Outcome)
      requires Valid()
      modifies this`rows, this`clock
      ensures Handling(rows, clock, o) == CheckoutIn(old(rows), old(clock), d, stripe, recorded)
      ensures OneFreeWrite(old(rows), old(clock), d, stripe, Handling(rows, clock, o))
      ensures !o.StripeFailed? ==>
        forall t: Id :: Changed(o) && o.tenant == t <==>
          LooselyNamed(old(rows), d, t) && Admissible(old(rows), d, stripe, t, MaySupersede(old(rows), d, stripe, t))
      ensures o.StripeFailed? <==> exists t: Id :: LooselyNamed(old(rows), d, t) && StripeSilent(old(rows), d, stripe, t)
    {
      CheckoutWritesIff(rows, clock, d, stripe, recorded);
      CheckoutFailsIff(rows, clock, d, stripe, recorded);
      var tenant := ResolveLoosely(d);
      if tenant.None? {
        return Ignored;
      }
      var expected := Get(rows, tenant.value);
      if d.subscription !in stripe {
        return StripeFailed;
      }
      var sub := stripe[d.subscription];
      if CustomersDisagree(d, sub) {
        return Ignored;
      }
      var allow := false;
      if MayReplace(expected, sub, d.subscription) {
        if expected.value.subscription.value !in stripe {
          return StripeFailed;
        }
        allow := CreatedLater(sub, stripe[expected.value.subscription.value]);
      }
      o := ApplySubscription(d, sub, tenant.value, expected, allow, recorded);
    }

    /** `processStripeEvent`: at most one tenant's row changes, and bindings stay distinct. */
    method ProcessStripeEvent(e: Webhook) returns (o: Outcome)
      requires Valid()
      modifies this`rows, this`clock
      ensures Handling(rows, clock, o) == Process(old(rows), old(clock), e)
      ensures Valid() && OneFreeWrite(old(rows), old(clock), e.delivery, e.stripe, Handling(rows, clock, o))
    {
      ProcessKeepsBindingsDistinct(rows, clock, e);
      if e.delivery.kind == CheckoutCompleted {
        o := CompleteCheckout(e.delivery, e.stripe, e.recorded);
      } else {
        o := SyncSubscription(e.delivery, e.stripe, e.recorded);
      }
    }

    /** `handleWebhook` for the events that touch licences. */
    method HandleWebhook(e: Webhook) returns (a: Answer)
      requires Valid()
      modifies this
      ensures Valid() && State() == Handle(old(State()), e)
      ensures a.Duplicate? <==> old(Get(events, e.id)) == Some(Processed)
      ensures a.Duplicate? ==> State() == old(State())
      ensures a.Handled? ==> OneFreeWrite(old(rows), old(clock), e.delivery, e.stripe, Handling(rows, clock, a.outcome))
      ensures a.Handled? ==> events == old(events)[e.id := Ended(a.outcome)]
    {
      if e.id !in events {
        events := events[e.id := Received];
      }
      if events[e.id] == Processed {
        return Duplicate;
      }
      var o := ProcessStripeEvent(e);
      events := events[e.id := Ended(o)];
      a := Handled(o);
    }
  }
}
