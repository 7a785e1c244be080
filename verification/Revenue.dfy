/**
 Revenue snapshots and the revenue report
 (backend/src/application/services/platform-admin-service.ts). Money is in integer cents.
 */
module Revenue {
  import opened Base
  import opened Text
  import opened Months
  import opened TenantSubscriptions
  import opened BillingRules

  type TenantId = string

  datatype PlatformLicence = PlatformLicence(
    plan: Plan, seats: int, status: Status, priceMonthly: Option<int>, billingCycle: Cycle)

  /** The audit log's answer to `getLatestLicenseAtOrBefore`, which a report does not change. */
  type Repository = (TenantId, nat) -> Option<PlatformLicence>

  const DEFAULT_LICENCE := PlatformLicence(Starter, 3, Pending, None, Monthly)

  // ---------------------------------------------------------------- one tenant

  function SeatsFactor(l: PlatformLicence): int {
    if l.seats > 1 then l.seats else 1
  }

  /** The monthly estimate: a yearly price counts one twelfth, rounded half up to a cent. */
  function Estimate(l: PlatformLicence): int {
    var configured := if l.priceMonthly.Some? && l.priceMonthly.value > 0 then l.priceMonthly.value else CatalogPrice(l.plan);
    if l.billingCycle.Yearly? then (2 * configured * SeatsFactor(l) + 12) / 24 else configured * SeatsFactor(l)
  }

  predicate CountsAsLost(s: Status) {
    s.Pending? || s.Suspended? || s.Expired? || s.PastDue? || s.Canceled?
  }

  function ActiveMrr(l: PlatformLicence): int {
    if l.status.Active? then Estimate(l) else 0
  }

  function LostMrr(l: PlatformLicence): int {
    if CountsAsLost(l.status) then Estimate(l) else 0
  }

  function TrialMrr(l: PlatformLicence): int {
    if l.status.Trial? then Estimate(l) else 0
  }

  function One(l: PlatformLicence): int {
    1
  }

  function ActiveOne(l: PlatformLicence): int {
    if l.status.Active? then 1 else 0
  }

  /** The price that counts: a positive one of the licence, otherwise the plan's list price in cents. */
  predicate Priced(l: PlatformLicence, price: int) {
    if l.priceMonthly.Some? && l.priceMonthly.value > 0 then price == l.priceMonthly.value
    else
      && (l.plan == Starter ==> price == 14_900)
      && (l.plan == Pro ==> price == 19_900)
      && (l.plan == Enterprise ==> price == 24_900)
  }

  /** A monthly licence is worth its price for every seat, at least one; a yearly one the nearest cent to a twelfth of that. */
  predicate Worth(l: PlatformLicence, price: int, cents: int) {
    var seats := if l.seats < 1 then 1 else l.seats;
    && (l.billingCycle == Monthly ==> cents == price * seats)
    && (l.billingCycle == Yearly ==> price * seats - 6 < 12 * cents <= price * seats + 6)
  }

  lemma EstimateIsWorth(l: PlatformLicence, price: int)
    requires Priced(l, price)
    ensures Worth(l, price, Estimate(l))
  {
    var product := price * SeatsFactor(l);
    assert 2 * price * SeatsFactor(l) == 2 * product;
  }

  // ---------------------------------------------------------------- what a snapshot must say

  function Total(ls: seq<PlatformLicence>, f: PlatformLicence -> int): int {
    if ls == [] then 0 else Total(ls[..|ls| - 1], f) + f(ls[|ls| - 1])
  }

  /** The same quantity, over one plan's tenants only. */
  function PlanTotal(ls: seq<PlatformLicence>, plan: Plan, f: PlatformLicence -> int): int {
    if ls == [] then 0
    else PlanTotal(ls[..|ls| - 1], plan, f) + if ls[|ls| - 1].plan == plan then f(ls[|ls| - 1]) else 0
  }

  lemma {:induction false} PlansPartition(ls: seq<PlatformLicence>, f: PlatformLicence -> int)
    ensures PlanTotal(ls, Starter, f) + PlanTotal(ls, Pro, f) + PlanTotal(ls, Enterprise, f) == Total(ls, f)
  {
    if ls != [] {
      PlansPartition(ls[..|ls| - 1], f);
    }
  }

  lemma {:induction false} TotalSplits(ls: seq<PlatformLicence>)
    ensures Total(ls, ActiveMrr) + Total(ls, LostMrr) + Total(ls, TrialMrr) == Total(ls, Estimate)
    ensures Total(ls, One) == |ls|
  {
    if ls != [] {
      TotalSplits(ls[..|ls| - 1]);
    }
  }

  /** The source's `Record<SaasPlan, T>`. */
  datatype PerPlan<+T> = PerPlan(starter: T, pro: T, enterprise: T) {
    function At(p: Plan): T {
      match p
      case Starter => starter
      case Pro => pro
      case Enterprise => enterprise
    }
  }

  function With<T>(r: PerPlan<T>, p: Plan, value: T): PerPlan<T> {
    match p
    case Starter => r.(starter := value)
    case Pro => r.(pro := value)
    case Enterprise => r.(enterprise := value)
  }

  datatype BreakdownRow = BreakdownRow(activeTenants: int, totalTenants: int, seatsTotal: int, estimatedRevenue: int)

  datatype RevenueSnapshot = RevenueSnapshot(
    month: string,
    mrrTotal: int,
    mrrLost: int,
    mrrByPlan: PerPlan<int>,
    tenantsByPlan: PerPlan<int>,
    breakdown: PerPlan<BreakdownRow>)

  /** The licence that holds for a tenant at an instant. */
  function LicenceAt(repository: Repository, tenant: TenantId, at: nat): PlatformLicence {
    match repository(tenant, at)
    case Some(l) => l
    case None => DEFAULT_LICENCE
  }

  function LicencesAt(repository: Repository, tenants: seq<TenantId>, at: nat): (ls: seq<PlatformLicence>)
    ensures |ls| == |tenants| && forall i :: 0 <= i < |ls| ==> ls[i] == LicenceAt(repository, tenants[i], at)
  {
    seq(|tenants|, i requires 0 <= i < |tenants| => LicenceAt(repository, tenants[i], at))
  }

  function RowOf(ls: seq<PlatformLicence>, p: Plan): BreakdownRow {
    BreakdownRow(PlanTotal(ls, p, ActiveOne), PlanTotal(ls, p, One), PlanTotal(ls, p, SeatsFactor), PlanTotal(ls, p, ActiveMrr))
  }

  /** The figures computed straight from the licences, without cache or running sums. */
  function SnapshotOf(month: string, ls: seq<PlatformLicence>): RevenueSnapshot {
    RevenueSnapshot(month, Total(ls, ActiveMrr), Total(ls, LostMrr),
      PerPlan(PlanTotal(ls, Starter, ActiveMrr), PlanTotal(ls, Pro, ActiveMrr), PlanTotal(ls, Enterprise, ActiveMrr)),
      PerPlan(PlanTotal(ls, Starter, One), PlanTotal(ls, Pro, One), PlanTotal(ls, Enterprise, One)),
      PerPlan(RowOf(ls, Starter), RowOf(ls, Pro), RowOf(ls, Enterprise)))
  }

  /**
   For every tenant list: the plans' MRR and the plans' breakdown revenue each add up to the total,
   the plans' tenants to the tenants, and active, lost and trial MRR to all estimates.
   */
  lemma SnapshotConserves(month: string, ls: seq<PlatformLicence>)
    ensures var s := SnapshotOf(month, ls);
      && s.mrrByPlan.starter + s.mrrByPlan.pro + s.mrrByPlan.enterprise == s.mrrTotal
      && s.breakdown.starter.estimatedRevenue + s.breakdown.pro.estimatedRevenue
         + s.breakdown.enterprise.estimatedRevenue == s.mrrTotal
      && s.tenantsByPlan.starter + s.tenantsByPlan.pro + s.tenantsByPlan.enterprise == |ls|
      && s.mrrTotal + s.mrrLost + Total(ls, TrialMrr) == Total(ls, Estimate)
  {
    PlansPartition(ls, ActiveMrr);
    PlansPartition(ls, One);
    TotalSplits(ls);
  }

  /**
   What one more tenant adds to any snapshot: its worth to the total exactly when its licence is active,
   to the lost revenue exactly when it is pending, suspended, expired, past due or canceled, and to
   neither during a trial; its plan alone gains a tenant, its seats and, when active, the revenue.
   */
  lemma OneMoreTenant(month: string, ls: seq<PlatformLicence>, l: PlatformLicence, price: int)
    requires Priced(l, price)
    ensures GainsMoney(SnapshotOf(month, ls), SnapshotOf(month, ls + [l]), l, price)
    ensures GainsTenant(SnapshotOf(month, ls), SnapshotOf(month, ls + [l]), l)
  {
    AddExtends(month, ls, l);
    AddGainsMoney(SnapshotOf(month, ls), l, price);
    AddGainsTenant(SnapshotOf(month, ls), l);
  }

  predicate GainsMoney(s: RevenueSnapshot, t: RevenueSnapshot, l: PlatformLicence, price: int) {
    && (l.status == Active ==> Worth(l, price, t.mrrTotal - s.mrrTotal) && t.mrrLost == s.mrrLost)
    && (l.status in {Pending, Suspended, Expired, PastDue, Canceled} ==> Worth(l, price, t.mrrLost - s.mrrLost) && t.mrrTotal == s.mrrTotal)
    && (l.status == Trial ==> t.mrrTotal == s.mrrTotal && t.mrrLost == s.mrrLost)
    && t.mrrByPlan.At(l.plan) - s.mrrByPlan.At(l.plan) == t.mrrTotal - s.mrrTotal
    && t.breakdown.At(l.plan).estimatedRevenue - s.breakdown.At(l.plan).estimatedRevenue == t.mrrTotal - s.mrrTotal
  }

  predicate GainsTenant(s: RevenueSnapshot, t: RevenueSnapshot, l: PlatformLicence) {
    && t.tenantsByPlan.At(l.plan) == s.tenantsByPlan.At(l.plan) + 1
    && t.breakdown.At(l.plan).totalTenants == s.breakdown.At(l.plan).totalTenants + 1
    && t.breakdown.At(l.plan).seatsTotal == s.breakdown.At(l.plan).seatsTotal + (if l.seats < 1 then 1 else l.seats)
    && t.breakdown.At(l.plan).activeTenants == s.breakdown.At(l.plan).activeTenants + (if l.status == Active then 1 else 0)
    && forall p: Plan | p != l.plan ::
         t.mrrByPlan.At(p) == s.mrrByPlan.At(p) && t.tenantsByPlan.At(p) == s.tenantsByPlan.At(p) && t.breakdown.At(p) == s.breakdown.At(p)
  }

  lemma AddGainsMoney(s: RevenueSnapshot, l: PlatformLicence, price: int)
    requires Priced(l, price)
    ensures GainsMoney(s, Add(s, l), l, price)
  {
    EstimateIsWorth(l, price);
    var t, worth := Add(s, l), Estimate(l);
    assert t.mrrTotal - s.mrrTotal == (if l.status == Active then worth else 0);
    assert t.mrrLost - s.mrrLost == (if CountsAsLost(l.status) then worth else 0);
  }

  lemma AddGainsTenant(s: RevenueSnapshot, l: PlatformLicence)
    ensures GainsTenant(s, Add(s, l), l)
  {
  }

  /** A tenant without any licence yet counts as a pending starter with three seats: 447 euros lost. */
  lemma UnlicensedTenant(repository: Repository, month: string, ls: seq<PlatformLicence>, tenant: TenantId, at: nat)
    requires repository(tenant, at) == None
    ensures var s, t := SnapshotOf(month, ls), SnapshotOf(month, ls + [LicenceAt(repository, tenant, at)]);
      && t.mrrTotal == s.mrrTotal && t.mrrLost == s.mrrLost + 44_700
      && t.tenantsByPlan.starter == s.tenantsByPlan.starter + 1 && t.breakdown.starter.seatsTotal == s.breakdown.starter.seatsTotal + 3
  {
    AddExtends(month, ls, LicenceAt(repository, tenant, at));
  }

  // ---------------------------------------------------------------- the shared cache

  type Cache = map<string, Option<PlatformLicence>>

  function CacheKey(tenant: TenantId, month: string): string {
    tenant + ":" + month
  }

  /** A month-end instant is the only one its key stands for. */
  predicate IsMonthEnd(at: nat) {
    at == End(MonthContaining(at))
  }

  /** Every cached answer is what the repository would say for that tenant at that month's end. */
  ghost predicate Agrees(cache: Cache, repository: Repository) {
    forall tenant: TenantId, at: nat | IsMonthEnd(at) && CacheKey(tenant, ToMonthKey(at)) in cache ::
      cache[CacheKey(tenant, ToMonthKey(at))] == repository(tenant, at)
  }

  lemma CacheKeysDiffer(a: TenantId, s: nat, b: TenantId, t: nat)
    requires IsMonthEnd(s) && IsMonthEnd(t) && CacheKey(a, ToMonthKey(s)) == CacheKey(b, ToMonthKey(t))
    ensures a == b && s == t
  {
    KeyHasNoColon(MonthContaining(s));
    KeyHasNoColon(MonthContaining(t));
    LastSeparator(a, ToMonthKey(s), b, ToMonthKey(t), ':');
    KeysDiffer(MonthContaining(s), MonthContaining(t));
  }

  lemma MonthEndIsMonthEnd(start: Month)
    ensures IsMonthEnd(ToMonthEnd(start))
  {
    var m := UtcMonth(start / 12, start % 12);
    OneMonth(End(m), m, MonthContaining(End(m)));
  }

  lemma StoreAgrees(repository: Repository, cache: Cache, tenant: TenantId, at: nat)
    requires IsMonthEnd(at) && Agrees(cache, repository)
    ensures Agrees(cache[CacheKey(tenant, ToMonthKey(at)) := repository(tenant, at)], repository)
  {
    var key := CacheKey(tenant, ToMonthKey(at));
    var after := cache[key := repository(tenant, at)];
    forall other: TenantId, t: nat | IsMonthEnd(t) && CacheKey(other, ToMonthKey(t)) in after
      ensures after[CacheKey(other, ToMonthKey(t))] == repository(other, t)
    {
      if CacheKey(other, ToMonthKey(t)) == key {
        CacheKeysDiffer(other, t, tenant, at);
      }
    }
  }

  /** `getLicenseAt`: a cached answer is the repository's, and so is every new entry. */
  method GetLicenceAt(repository: Repository, tenant: TenantId, at: nat, cache: Cache)
    returns (licence: Option<PlatformLicence>, cache': Cache)
    requires IsMonthEnd(at) && Agrees(cache, repository)
    ensures licence == repository(tenant, at)
    ensures Agrees(cache', repository)
  {
    var key := CacheKey(tenant, ToMonthKey(at));
    cache' := cache;
    if key !in cache {
      StoreAgrees(repository, cache, tenant, at);
      cache' := cache[key := repository(tenant, at)];
    }
    licence := cache'[key];
  }

  const NO_MRR := PerPlan(0, 0, 0)
  const NO_ROW := BreakdownRow(0, 0, 0, 0)

  /** The figures with one more tenant. */
  function Add(s: RevenueSnapshot, l: PlatformLicence): RevenueSnapshot {
    var p := l.plan;
    var row := s.breakdown.At(p);
    RevenueSnapshot(s.month, s.mrrTotal + ActiveMrr(l), s.mrrLost + LostMrr(l),
      With(s.mrrByPlan, p, s.mrrByPlan.At(p) + ActiveMrr(l)),
      With(s.tenantsByPlan, p, s.tenantsByPlan.At(p) + 1),
      With(s.breakdown, p, BreakdownRow(row.activeTenants + ActiveOne(l), row.totalTenants + 1,
                                        row.seatsTotal + SeatsFactor(l), row.estimatedRevenue + ActiveMrr(l))))
  }

  lemma AddExtends(month: string, ls: seq<PlatformLicence>, l: PlatformLicence)
    ensures Add(SnapshotOf(month, ls), l) == SnapshotOf(month, ls + [l])
  {
    assert (ls + [l])[..|ls|] == ls;
  }

  /** One tenant's turn in the loop of `buildSnapshot`. */
  method AddTenant(s: RevenueSnapshot, licence: PlatformLicence) returns (r: RevenueSnapshot)
    ensures r == Add(s, licence)
  {
    var p := licence.plan;
    var mrr := Estimate(licence);
    var row := s.breakdown.At(p);
    row := row.(totalTenants := row.totalTenants + 1, seatsTotal := row.seatsTotal + SeatsFactor(licence));
    r := s.(tenantsByPlan := With(s.tenantsByPlan, p, s.tenantsByPlan.At(p) + 1));
    if licence.status.Active? {
      row := row.(activeTenants := row.activeTenants + 1, estimatedRevenue := row.estimatedRevenue + mrr);
      r := r.(mrrTotal := r.mrrTotal + mrr, mrrByPlan := With(r.mrrByPlan, p, r.mrrByPlan.At(p) + mrr));
    }
    if CountsAsLost(licence.status) {
      r := r.(mrrLost := r.mrrLost + mrr);
    }
    r := r.(breakdown := With(r.breakdown, p, row));
  }

  /** `buildSnapshot`: with a cache that agrees, exactly the uncached figures; the cache still agrees. */
  method BuildSnapshot(repository: Repository, tenants: seq<TenantId>, at: nat, cache: Cache)
    returns (s: RevenueSnapshot, cache': Cache)
    requires IsMonthEnd(at) && Agrees(cache, repository)
    ensures s == SnapshotOf(ToMonthKey(at), LicencesAt(repository, tenants, at))
    ensures Agrees(cache', repository)
  {
    s := RevenueSnapshot(ToMonthKey(at), 0, 0, NO_MRR, NO_MRR, PerPlan(NO_ROW, NO_ROW, NO_ROW));
    cache' := cache;
    ghost var ls := LicencesAt(repository, tenants, at);
    for i := 0 to |tenants|
      invariant Agrees(cache', repository)
      invariant s == SnapshotOf(ToMonthKey(at), ls[..i])
    {
      var found;
      found, cache' := GetLicenceAt(repository, tenants[i], at, cache');
      var licence := if found.Some? then found.value else DEFAULT_LICENCE;
      s := AddTenant(s, licence);
      AddExtends(ToMonthKey(at), ls[..i], licence);
      assert ls[..i] + [licence] == ls[..i + 1];
    }
    assert ls[..|tenants|] == ls;
  }

  // ---------------------------------------------------------------- the report

  datatype TrendEntry = TrendEntry(month: string, mrrTotal: int, mrrLost: int)

  datatype Report = Report(
    selectedMonth: string,
    previousMonth: string,
    mrrTotal: int,
    mrrLost: int,
    deltaFromPrevious: int,
    tenantsByPlan: PerPlan<int>,
    mrrByPlan: PerPlan<int>,
    breakdown: PerPlan<BreakdownRow>,
    trend: seq<TrendEntry>)

  /** The snapshot of a month without any cache. */
  function Uncached(repository: Repository, tenants: seq<TenantId>, start: Month): RevenueSnapshot {
    var at := ToMonthEnd(start);
    SnapshotOf(ToMonthKey(at), LicencesAt(repository, tenants, at))
  }

  /** `Math.max(2, Math.min(12, months))`. */
  function TrendSize(months: int): (n: nat)
    ensures 2 <= n <= 12
  {
    if months < 2 then 2 else if months > 12 then 12 else months
  }

  function Entry(s: RevenueSnapshot): TrendEntry {
    TrendEntry(s.month, s.mrrTotal, s.mrrLost)
  }

  function TrendStart(selected: Month, size: nat, k: nat): Month
    requires k < size <= 12
  {
    ShiftMonth(selected, k - (size - 1))
  }

  function Trend(repository: Repository, tenants: seq<TenantId>, selected: Month, size: nat): (r: seq<TrendEntry>)
    requires size <= 12
    ensures |r| == size
    ensures forall k :: 0 <= k < size ==> r[k] == Entry(Uncached(repository, tenants, TrendStart(selected, size, k)))
  {
    seq(size, k requires 0 <= k < size => Entry(Uncached(repository, tenants, TrendStart(selected, size, k))))
  }

  /** The whole report, every snapshot computed afresh. */
  function UncachedReport(repository: Repository, tenants: seq<TenantId>, selected: Month, months: int): Report {
    var s := Uncached(repository, tenants, selected);
    var p := Uncached(repository, tenants, ShiftMonth(selected, -1));
    Report(s.month, p.month, s.mrrTotal, s.mrrLost, s.mrrTotal - p.mrrTotal, s.tenantsByPlan, s.mrrByPlan, s.breakdown,
      Trend(repository, tenants, selected, TrendSize(months)))
  }

  method BuildTrend(repository: Repository, tenants: seq<TenantId>, selected: Month, size: nat, cache: Cache)
    returns (trend: seq<TrendEntry>)
    requires size <= 12 && Agrees(cache, repository)
    ensures trend == Trend(repository, tenants, selected, size)
  {
    trend := [];
    var licenseCache := cache;
    for k := 0 to size
      invariant Agrees(licenseCache, repository)
      invariant |trend| == k
      invariant forall i :: 0 <= i < k ==> trend[i] == Entry(Uncached(repository, tenants, TrendStart(selected, size, i)))
    {
      var start := TrendStart(selected, size, k);
      MonthEndIsMonthEnd(start);
      var t;
      t, licenseCache := BuildSnapshot(repository, tenants, ToMonthEnd(start), licenseCache);
      trend := trend + [Entry(t)];
    }
  }

  /**
   `revenueReport`: all snapshots share one cache, and the report is the uncached one for every
   repository, tenant list, month and trend length.
   */
  method RevenueReport(repository: Repository, tenants: seq<TenantId>, month: Option<string>, months: int, now: nat)
    returns (r: Report)
    ensures r == UncachedReport(repository, tenants, ToMonthStart(month, now), months)
  {
    var selected := ToMonthStart(month, now);
    var size := TrendSize(months);
    var previous := ShiftMonth(selected, -1);
    MonthEndIsMonthEnd(selected);
    MonthEndIsMonthEnd(previous);
    var s, cache := BuildSnapshot(repository, tenants, ToMonthEnd(selected), map[]);
    var p;
    p, cache := BuildSnapshot(repository, tenants, ToMonthEnd(previous), cache);
    var trend := BuildTrend(repository, tenants, selected, size, cache);
    r := Report(s.month, p.month, s.mrrTotal, s.mrrLost, s.mrrTotal - p.mrrTotal, s.tenantsByPlan, s.mrrByPlan, s.breakdown, trend);
  }

  /**
   For every report of a month that `toMonthStart` can return: the last trend entry is the headline, the one before it is the previous month
   and explains the delta.
   */
  lemma TrendExplainsHeadline(repository: Repository, tenants: seq<TenantId>, selected: Month, months: int)
    requires selected >= 1200
    ensures var r := UncachedReport(repository, tenants, selected, months);
      var n := |r.trend|;
      && n == (if months < 2 then 2 else if months > 12 then 12 else months)
      && r.trend[n - 1] == TrendEntry(r.selectedMonth, r.mrrTotal, r.mrrLost)
      && r.trend[n - 2].month == r.previousMonth
      && r.deltaFromPrevious == r.trend[n - 1].mrrTotal - r.trend[n - 2].mrrTotal
  {
    ShiftCounts(selected, 0);
  }

  /**
   For every report: its plan figures add up to its headline and its tenants, and headline, lost revenue and
   trials to the worth of all licences at the end of the selected month.
   */
  lemma ReportConserves(repository: Repository, tenants: seq<TenantId>, selected: Month, months: int)
    ensures var r := UncachedReport(repository, tenants, selected, months);
      var ls := LicencesAt(repository, tenants, ToMonthEnd(selected));
      && r.mrrByPlan.starter + r.mrrByPlan.pro + r.mrrByPlan.enterprise == r.mrrTotal
      && r.breakdown.starter.estimatedRevenue + r.breakdown.pro.estimatedRevenue + r.breakdown.enterprise.estimatedRevenue == r.mrrTotal
      && r.tenantsByPlan.starter + r.tenantsByPlan.pro + r.tenantsByPlan.enterprise == |tenants|
      && r.mrrTotal + r.mrrLost + Total(ls, TrialMrr) == Total(ls, Estimate)
  {
    var at := ToMonthEnd(selected);
    SnapshotConserves(ToMonthKey(at), LicencesAt(repository, tenants, at));
  }

  lemma TrendMonth(repository: Repository, tenants: seq<TenantId>, selected: Month, size: nat, k: nat)
    requires k < size <= 12
    ensures Trend(repository, tenants, selected, size)[k].month == ToMonthKey(ToMonthEnd(ShiftMonth(selected, k - (size - 1))))
  {
  }

  /**
   The trend up to a month that `toMonthStart` can return is labelled with the consecutive months,
   across year ends, exactly when none of them lies in the first hundred years.
   */
  lemma TrendMonths(repository: Repository, tenants: seq<TenantId>, selected: Month, size: nat, k: nat)
    requires k < size <= 12 && selected >= 1200
    ensures var m := selected - (size - 1) + k;
      Trend(repository, tenants, selected, size)[k].month == KeyOf(m) <==> m >= 1200
  {
    var diff := k - (size - 1);
    ShiftedKey(selected, diff);
    TrendMonth(repository, tenants, selected, size, k);
    assert selected + diff == selected - (size - 1) + k;
  }

  // ---------------------------------------------------------------- snapshots started together

  /** One of the snapshots `Promise.all` starts: it may be overtaken while it waits for the repository. */
  datatype Worker = Worker(start: Month, index: nat, fetching: bool, figures: RevenueSnapshot)

  datatype Pool = Pool(cache: Cache, workers: seq<Worker>)

  function Read(w: Worker, found: Option<PlatformLicence>): Worker {
    Worker(w.start, w.index + 1, false, Add(w.figures, if found.Some? then found.value else DEFAULT_LICENCE))
  }

  /** Worker `i` runs until it next waits: it uses a cached licence, asks the repository, or stores the answer. */
  function Turn(repository: Repository, tenants: seq<TenantId>, p: Pool, i: nat): Pool {
    if i >= |p.workers| || p.workers[i].index >= |tenants| then p
    else
      var w := p.workers[i];
      var at := ToMonthEnd(w.start);
      var key := CacheKey(tenants[w.index], ToMonthKey(at));
      if !w.fetching && key !in p.cache then p.(workers := p.workers[i := w.(fetching := true)])
      else
        var cache := if w.fetching then p.cache[key := repository(tenants[w.index], at)] else p.cache;
        Pool(cache, p.workers[i := Read(w, cache[key])])
  }

  function Turns(repository: Repository, tenants: seq<TenantId>, p: Pool, schedule: seq<nat>): Pool
    decreases |schedule|
  {
    if schedule == [] then p else Turns(repository, tenants, Turn(repository, tenants, p, schedule[0]), schedule[1..])
  }

  function Begun(cache: Cache, starts: seq<Month>): (p: Pool)
    ensures |p.workers| == |starts|
  {
    Pool(cache, seq(|starts|, i requires 0 <= i < |starts| => Worker(starts[i], 0, false, SnapshotOf(ToMonthKey(ToMonthEnd(starts[i])), []))))
  }

  /** A worker's figures are those of the tenants it has read, as the repository answers for them. */
  ghost predicate WorkerOk(repository: Repository, tenants: seq<TenantId>, w: Worker) {
    && w.index <= |tenants|
    && w.figures == SnapshotOf(ToMonthKey(ToMonthEnd(w.start)), LicencesAt(repository, tenants, ToMonthEnd(w.start))[..w.index])
  }

  ghost predicate PoolOk(repository: Repository, tenants: seq<TenantId>, p: Pool) {
    Agrees(p.cache, repository) && forall i :: 0 <= i < |p.workers| ==> WorkerOk(repository, tenants, p.workers[i])
  }

  lemma ReadStaysOk(repository: Repository, tenants: seq<TenantId>, w: Worker)
    requires WorkerOk(repository, tenants, w) && w.index < |tenants|
    ensures WorkerOk(repository, tenants, Read(w, repository(tenants[w.index], ToMonthEnd(w.start))))
  {
    var at := ToMonthEnd(w.start);
    var ls := LicencesAt(repository, tenants, at);
    AddExtends(ToMonthKey(at), ls[..w.index], ls[w.index]);
    assert ls[..w.index] + [ls[w.index]] == ls[..w.index + 1];
  }

  lemma TurnKeepsPool(repository: Repository, tenants: seq<TenantId>, p: Pool, i: nat)
    requires PoolOk(repository, tenants, p)
    ensures PoolOk(repository, tenants, Turn(repository, tenants, p, i))
  {
    if i < |p.workers| && p.workers[i].index < |tenants| {
      var w := p.workers[i];
      var tenant, at := tenants[w.index], ToMonthEnd(w.start);
      MonthEndIsMonthEnd(w.start);
      StoreAgrees(repository, p.cache, tenant, at);
      assert CacheKey(tenant, ToMonthKey(at)) in p.cache ==> p.cache[CacheKey(tenant, ToMonthKey(at))] == repository(tenant, at);
      ReadStaysOk(repository, tenants, w);
    }
  }

  lemma {:induction false} TurnsKeepPool(repository: Repository, tenants: seq<TenantId>, p: Pool, schedule: seq<nat>)
    requires PoolOk(repository, tenants, p)
    ensures PoolOk(repository, tenants, Turns(repository, tenants, p, schedule))
    decreases |schedule|
  {
    if schedule != [] {
      TurnKeepsPool(repository, tenants, p, schedule[0]);
      TurnsKeepPool(repository, tenants, Turn(repository, tenants, p, schedule[0]), schedule[1..]);
    }
  }

  function TurnsOf(schedule: seq<nat>, i: nat): nat {
    if schedule == [] then 0 else (if schedule[0] == i then 1 else 0) + TurnsOf(schedule[1..], i)
  }

  /** Turns a worker still needs, whatever the others do. */
  function TurnsLeft(tenants: seq<TenantId>, w: Worker): int {
    2 * (|tenants| - w.index) - if w.fetching then 1 else 0
  }

  lemma {:induction false} TurnsFinish(repository: Repository, tenants: seq<TenantId>, p: Pool, schedule: seq<nat>, i: nat)
    requires i < |p.workers| && p.workers[i].index <= |tenants| && TurnsLeft(tenants, p.workers[i]) <= TurnsOf(schedule, i)
    ensures var p' := Turns(repository, tenants, p, schedule);
      |p'.workers| == |p.workers| && p'.workers[i].start == p.workers[i].start && p'.workers[i].index == |tenants|
    decreases |schedule|
  {
    if schedule != [] {
      TurnsFinish(repository, tenants, Turn(repository, tenants, p, schedule[0]), schedule[1..], i);
    }
  }

  /**
   Snapshots started together on one agreeing cache, in every interleaving of their lookups: one that
   gets two turns per tenant ends, and with exactly the figures it would have without the cache.
   */
  lemma InterleavedIsUncached(repository: Repository, tenants: seq<TenantId>, cache: Cache, starts: seq<Month>, schedule: seq<nat>, i: nat)
    requires Agrees(cache, repository) && i < |starts| && TurnsOf(schedule, i) >= 2 * |tenants|
    ensures var p := Turns(repository, tenants, Begun(cache, starts), schedule);
      |p.workers| == |starts| && p.workers[i].index == |tenants|
      && p.workers[i].figures == Uncached(repository, tenants, starts[i])
  {
    var p0 := Begun(cache, starts);
    forall j | 0 <= j < |p0.workers| ensures WorkerOk(repository, tenants, p0.workers[j]) {
    }
    TurnsKeepPool(repository, tenants, p0, schedule);
    TurnsFinish(repository, tenants, p0, schedule, i);
    var w := Turns(repository, tenants, p0, schedule).workers[i];
    assert WorkerOk(repository, tenants, w);
    var ls := LicencesAt(repository, tenants, ToMonthEnd(w.start));
    assert ls[..|tenants|] == ls;
  }

  function TrendStarts(selected: Month, size: nat): (r: seq<Month>)
    requires size <= 12
    ensures |r| == size && forall k :: 0 <= k < size ==> r[k] == TrendStart(selected, size, k)
  {
    seq(size, k requires 0 <= k < size => TrendStart(selected, size, k))
  }

  /** Hence the trend of snapshots started together is the uncached trend, in every interleaving. */
  lemma InterleavedTrend(repository: Repository, tenants: seq<TenantId>, cache: Cache, selected: Month, size: nat, schedule: seq<nat>)
    requires Agrees(cache, repository) && size <= 12 && forall k :: 0 <= k < size ==> TurnsOf(schedule, k) >= 2 * |tenants|
    ensures var p := Turns(repository, tenants, Begun(cache, TrendStarts(selected, size)), schedule);
      |p.workers| == size
      && forall k :: 0 <= k < size ==> Entry(p.workers[k].figures) == Trend(repository, tenants, selected, size)[k]
  {
    var starts := TrendStarts(selected, size);
    var p := Turns(repository, tenants, Begun(cache, starts), schedule);
    SameWorkers(repository, tenants, Begun(cache, starts), schedule);
    forall k | 0 <= k < size ensures Entry(p.workers[k].figures) == Trend(repository, tenants, selected, size)[k] {
      InterleavedIsUncached(repository, tenants, cache, starts, schedule, k);
    }
  }

  lemma {:induction false} SameWorkers(repository: Repository, tenants: seq<TenantId>, p: Pool, schedule: seq<nat>)
    ensures |Turns(repository, tenants, p, schedule).workers| == |p.workers|
    decreases |schedule|
  {
    if schedule != [] {
      SameWorkers(repository, tenants, Turn(repository, tenants, p, schedule[0]), schedule[1..]);
    }
  }

  /** Asked for January of the year 100, the report labels the month before it December 1999. */
  lemma TrendBeforeYear100(repository: Repository, tenants: seq<TenantId>, now: nat)
    ensures ToMonthStart(Some("0100-01"), now) == 1200
    ensures Trend(repository, tenants, 1200, 2)[0].month == KeyOf(1999 * 12 + 11)
    ensures Trend(repository, tenants, 1200, 2)[0].month != KeyOf(1199)
  {
    January100(now);
    December99();
    TrendMonths(repository, tenants, 1200, 2, 0);
    LabelBefore1200(repository, tenants);
  }

  lemma LabelBefore1200(repository: Repository, tenants: seq<TenantId>)
    ensures Trend(repository, tenants, 1200, 2)[0].month == ToMonthKey(ToMonthEnd(1199))
  {
    TrendMonth(repository, tenants, 1200, 2, 0);
    ShiftCounts(1200, -1);
  }
}
