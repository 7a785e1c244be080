/**
 Batched suspension of overdue subscriptions
 (backend/src/application/services/billing-dunning-service.ts and
 backend/src/application/services/tenant-subscription-service.ts), run serially.
 */
module Dunning {
  import opened Base
  import opened TenantSubscriptions

  /** A row of the subscription table; one per tenant. */
  datatype Row = Row(
    plan: Plan,
    seats: nat,
    status: Status,
    currentPeriodEnd: Option<int>,
    trialEndsAt: Option<int>,
    updatedAt: nat,
    priceMonthly: Option<nat>,
    billingCycle: Cycle,
    provider: Provider,
    customer: Option<Id>,
    subscription: Option<Id>)

  type Rows = map<Id, Row>

  const DAY := 86_400_000

  datatype Settings = Settings(graceDays: int, batchSize: int)

  function Grace(s: Settings): nat {
    if s.graceDays > 0 then s.graceDays else 0
  }

  function Take(s: Settings): (n: nat)
    ensures n >= 1
  {
    if s.batchSize > 1 then s.batchSize else 1
  }

  function Cutoff(s: Settings, now: int): int {
    now - Grace(s) * DAY
  }

  // ---------------------------------------------------------------- one row

  /** `snapshotFromRow`: the licence other code sees. */
  function View(row: Row): Snapshot {
    Snapshot(row.plan, PositiveSeats(row.seats), row.status, OrElse(row.currentPeriodEnd, row.trialEndsAt),
             row.updatedAt, PositivePriceOrNull(row.priceMonthly), row.billingCycle, row.provider,
             row.customer, row.subscription)
  }

  /** `toSnapshot`: what the audit entry shows as the licence before. */
  function ToSnapshot(row: Row): Snapshot {
    Snapshot(row.plan, row.seats, PastDue, row.currentPeriodEnd, row.updatedAt, row.priceMonthly, row.billingCycle,
             Stripe, row.customer, row.subscription)
  }

  /** What a writer of the table asks for. */
  datatype Input = Input(
    plan: Plan,
    seats: int,
    status: Status,
    expiresAt: Option<int>,
    priceMonthly: Option<int>,
    billingCycle: Cycle,
    provider: Provider,
    customer: Option<Id>,
    subscription: Option<Id>)

  /** The row both upserts store: normalised values, and a trial end only for a trial. */
  function Upserted(input: Input, at: nat): Row {
    Row(input.plan, PositiveSeats(input.seats), input.status, input.expiresAt,
        if input.status.Trial? then input.expiresAt else None, at,
        PositivePriceOrNull(input.priceMonthly), input.billingCycle, input.provider,
        if input.provider.Stripe? then input.customer else None,
        if input.provider.Stripe? then input.subscription else None)
  }

  /** The row after the loop's upsert. */
  function Suspend(row: Row, at: nat): Row {
    Upserted(Input(row.plan, row.seats, Suspended, row.currentPeriodEnd, row.priceMonthly, row.billingCycle,
                   Stripe, row.customer, row.subscription), at)
  }

  predicate Overdue(row: Row, cutoff: int) {
    row.provider.Stripe? && row.status.PastDue? && row.updatedAt <= cutoff
  }

  // ---------------------------------------------------------------- the writers of the table

  /** A trial end is stored only with a trial, and is then the period's end. */
  predicate TrialEndsWithPeriod(row: Row) {
    row.trialEndsAt == if row.status.Trial? then row.currentPeriodEnd else None
  }

  predicate TrialsTidy(rows: Rows) {
    forall t :: t in rows ==> TrialEndsWithPeriod(rows[t])
  }

  /** The rows the migration backfilled from old audit entries: a trial end exactly for a dated trial, no Stripe ids. */
  predicate Backfilled(rows: Rows) {
    forall t :: t in rows ==>
      && rows[t].seats >= 1
      && rows[t].trialEndsAt == (if rows[t].status.Trial? then rows[t].currentPeriodEnd else None)
      && rows[t].customer.None? && rows[t].subscription.None?
  }

  datatype Write = Put(tenant: Id, input: Input, at: nat) | Drop(tenant: Id)

  /** The table after any writes through the two upserts, and deletions with their tenants. */
  function Table(rows: Rows, writes: seq<Write>): Rows
    decreases |writes|
  {
    if writes == [] then rows
    else
      match writes[0]
      case Put(t, input, at) => Table(rows[t := Upserted(input, at)], writes[1..])
      case Drop(t) => Table(rows - {t}, writes[1..])
  }

  lemma {:induction false} WritersKeepTrialsTidy(rows: Rows, writes: seq<Write>)
    requires TrialsTidy(rows)
    ensures TrialsTidy(Table(rows, writes))
    decreases |writes|
  {
    if writes != [] {
      match writes[0]
      case Put(t, input, at) => WritersKeepTrialsTidy(rows[t := Upserted(input, at)], writes[1..]);
      case Drop(t) => WritersKeepTrialsTidy(rows - {t}, writes[1..]);
    }
  }

  /**
   For every past-due Stripe row the writers of the table can have stored: suspension changes its
   status and `updatedAt` and keeps every other field of the visible licence.
   */
  lemma SuspensionKeepsLicence(rows: Rows, writes: seq<Write>, t: Id, cutoff: int, at: nat)
    requires Backfilled(rows) && t in Table(rows, writes) && Overdue(Table(rows, writes)[t], cutoff)
    ensures var row := Table(rows, writes)[t];
      View(Suspend(row, at)) == View(row).(status := Suspended, updatedAt := at)
  {
    WritersKeepTrialsTidy(rows, writes);
    assert TrialEndsWithPeriod(Table(rows, writes)[t]);
  }

  /** For the same rows the audited licence before is the visible one, exactly when the row is normalised, as every upsert leaves it. */
  lemma AuditShowsLicence(rows: Rows, writes: seq<Write>, t: Id, cutoff: int)
    requires Backfilled(rows) && t in Table(rows, writes) && Overdue(Table(rows, writes)[t], cutoff)
    ensures var row := Table(rows, writes)[t];
      ToSnapshot(row) == View(row) <==> row.seats > 0 && row.priceMonthly != Some(0)
    ensures forall input: Input, at: nat :: Upserted(input, at).seats > 0 && Upserted(input, at).priceMonthly != Some(0)
  {
    WritersKeepTrialsTidy(rows, writes);
    assert TrialEndsWithPeriod(Table(rows, writes)[t]);
  }

  // ---------------------------------------------------------------- one pass

  function Due(rows: Rows, cutoff: int): set<Id> {
    set t | t in rows && Overdue(rows[t], cutoff)
  }

  predicate NoRepeats(batch: seq<Id>) {
    forall i, j | 0 <= i < j < |batch| :: batch[i] != batch[j]
  }

  predicate OldestFirst(rows: Rows, batch: seq<Id>) {
    && (forall i :: 0 <= i < |batch| ==> batch[i] in rows)
    && forall i, j | 0 <= i < j < |batch| :: rows[batch[i]].updatedAt <= rows[batch[j]].updatedAt
  }

  /** An answer of `findOverduePastDueSubscriptions`: the oldest overdue rows, in order. */
  predicate IsBatch(rows: Rows, cutoff: int, take: nat, batch: seq<Id>) {
    && NoRepeats(batch)
    && (forall i :: 0 <= i < |batch| ==> batch[i] in Due(rows, cutoff))
    && OldestFirst(rows, batch)
    && |batch| == (if |Due(rows, cutoff)| < take then |Due(rows, cutoff)| else take)
    && forall i, t | 0 <= i < |batch| && t in Due(rows, cutoff) && t !in batch :: rows[batch[i]].updatedAt <= rows[t].updatedAt
  }

  function SuspendAll(rows: Rows, batch: seq<Id>, at: nat): Rows {
    map t | t in rows :: if t in batch then Suspend(rows[t], at) else rows[t]
  }

  function Elements(batch: seq<Id>): set<Id> {
    set t | t in batch
  }

  lemma {:induction false} ElementsCount(batch: seq<Id>)
    requires NoRepeats(batch)
    ensures |Elements(batch)| == |batch|
  {
    if batch != [] {
      var n := |batch| - 1;
      ElementsCount(batch[..n]);
      assert Elements(batch) == Elements(batch[..n]) + {batch[n]};
    }
  }

  lemma DueAfter(rows: Rows, batch: seq<Id>, at: nat, cutoff: int)
    ensures Due(SuspendAll(rows, batch, at), cutoff) == Due(rows, cutoff) - Elements(batch)
  {
  }

  /** A batch takes rows due since an earlier cutoff before any younger one. */
  lemma EarlierFirst(rows: Rows, early: int, cutoff: int, take: nat, batch: seq<Id>)
    requires early <= cutoff && IsBatch(rows, cutoff, take, batch)
    ensures Due(rows, early) <= Elements(batch) || Elements(batch) <= Due(rows, early)
  {
    if !(Due(rows, early) <= Elements(batch)) {
      var t :| t in Due(rows, early) && t !in Elements(batch);
      forall x | x in Elements(batch) ensures x in Due(rows, early) {
        var i :| 0 <= i < |batch| && batch[i] == x;
        assert t in Due(rows, cutoff);
        assert rows[batch[i]].updatedAt <= rows[t].updatedAt;
        assert batch[i] in Due(rows, cutoff);
      }
    }
  }

  function Left(n: nat, taken: nat): nat {
    if n <= taken then 0 else n - taken
  }

  /** One pass suspends as many of the rows due since an earlier cutoff as fit into a batch. */
  lemma PassShrinks(rows: Rows, early: int, cutoff: int, take: nat, batch: seq<Id>, at: nat)
    requires early <= cutoff && IsBatch(rows, cutoff, take, batch)
    ensures |Due(SuspendAll(rows, batch, at), early)| == Left(|Due(rows, early)|, take)
  {
    var due, chosen := Due(rows, early), Elements(batch);
    DueAfter(rows, batch, at, early);
    ElementsCount(batch);
    EarlierFirst(rows, early, cutoff, take, batch);
    if due <= chosen {
      SubsetSize(due, chosen);
      assert due - chosen == {};
    } else {
      assert |due - chosen| == |due| - |chosen| by {
        assert due == (due - chosen) + chosen;
      }
      var all := Due(rows, cutoff);
      assert due <= all && chosen <= all && chosen != all;
      SubsetSize(chosen, all);
    }
  }

  /**
   What a pass at `now` takes: only past-due Stripe rows untouched for at least the grace period, no more
   than the batch size, and all such rows unless the batch is full of rows at least as old.
   */
  lemma PassRespectsGrace(rows: Rows, s: Settings, now: int, batch: seq<Id>)
    requires IsBatch(rows, Cutoff(s, now), Take(s), batch)
    ensures var grace := (if s.graceDays < 0 then 0 else s.graceDays) * 86_400_000;
      var size := if s.batchSize < 1 then 1 else s.batchSize;
      && |batch| <= size
      && (forall i :: 0 <= i < |batch| ==>
            batch[i] in rows && rows[batch[i]].provider == Stripe && rows[batch[i]].status == PastDue
            && now - rows[batch[i]].updatedAt >= grace)
      && (forall t :: t in rows && rows[t].provider == Stripe && rows[t].status == PastDue && now - rows[t].updatedAt >= grace ==>
            t in batch || (|batch| == size && forall i :: 0 <= i < |batch| ==> rows[batch[i]].updatedAt <= rows[t].updatedAt))
  {
    forall i | 0 <= i < |batch| ensures batch[i] in rows && Overdue(rows[batch[i]], Cutoff(s, now)) {
      assert batch[i] in Due(rows, Cutoff(s, now));
    }
    forall t | t in rows && Overdue(rows[t], Cutoff(s, now)) && t !in batch
      ensures |batch| == Take(s) && forall i :: 0 <= i < |batch| ==> rows[batch[i]].updatedAt <= rows[t].updatedAt
    {
      assert t in Due(rows, Cutoff(s, now));
      LeftOut(rows, Cutoff(s, now), Take(s), batch, t);
    }
  }

  /** A due row is left out only by a full batch. */
  lemma LeftOut(rows: Rows, cutoff: int, take: nat, batch: seq<Id>, t: Id)
    requires IsBatch(rows, cutoff, take, batch) && t in Due(rows, cutoff) && t !in batch
    ensures |batch| == take
  {
    var due := Due(rows, cutoff);
    ElementsCount(batch);
    assert Elements(batch) <= due && t !in Elements(batch);
    SubsetSize(Elements(batch), due);
  }

  // ---------------------------------------------------------------- runs of passes

  datatype Pass = Pass(now: int, batch: seq<Id>, at: nat)

  function RowsAfter(rows: Rows, passes: seq<Pass>): Rows {
    if passes == [] then rows
    else RowsAfter(SuspendAll(rows, passes[0].batch, passes[0].at), passes[1..])
  }

  /** Passes with a clock that does not go back, each working on a batch of what the last one left. */
  predicate Legal(rows: Rows, s: Settings, from: int, passes: seq<Pass>)
    decreases |passes|
  {
    passes != [] ==>
      && from <= passes[0].now
      && IsBatch(rows, Cutoff(s, passes[0].now), Take(s), passes[0].batch)
      && Legal(SuspendAll(rows, passes[0].batch, passes[0].at), s, passes[0].now, passes[1..])
  }

  lemma LeftAgain(n: nat, k: nat, take: nat)
    ensures k * take >= 0 && Left(Left(n, take), k * take) == Left(n, (k + 1) * take)
  {
    assert (k + 1) * take == k * take + take;
  }

  /**
   For every run of k passes: of the rows overdue when it starts, exactly k batches' worth have been
   suspended, or all of them.
   */
  lemma {:induction false} PassesShrink(rows: Rows, s: Settings, from: int, passes: seq<Pass>)
    requires Legal(rows, s, from, passes)
    ensures |Due(RowsAfter(rows, passes), Cutoff(s, from))| == Left(|Due(rows, Cutoff(s, from))|, |passes| * Take(s))
    decreases |passes|
  {
    if passes != [] {
      var early, next := Cutoff(s, from), SuspendAll(rows, passes[0].batch, passes[0].at);
      PassShrinks(rows, early, Cutoff(s, passes[0].now), Take(s), passes[0].batch, passes[0].at);
      assert Legal(next, s, from, passes[1..]);
      PassesShrink(next, s, from, passes[1..]);
      LeftAgain(|Due(rows, early)|, |passes| - 1, Take(s));
    }
  }

  /** A row is as it was, or suspended with its licence kept. */
  lemma {:induction false} RowsOnlyGetSuspended(rows: Rows, s: Settings, from: int, passes: seq<Pass>, t: Id)
    requires Legal(rows, s, from, passes) && t in rows
    ensures t in RowsAfter(rows, passes)
    ensures RowsAfter(rows, passes)[t] == rows[t]
            || (rows[t].status.PastDue? && exists at :: RowsAfter(rows, passes)[t] == Suspend(rows[t], at))
    decreases |passes|
  {
    if passes != [] {
      var p := passes[0];
      var next := SuspendAll(rows, p.batch, p.at);
      RowsOnlyGetSuspended(next, s, p.now, passes[1..], t);
      if t in p.batch {
        var i :| 0 <= i < |p.batch| && p.batch[i] == t;
        assert p.batch[i] in Due(rows, Cutoff(s, p.now));
        assert next[t] == Suspend(rows[t], p.at);
      }
    }
  }

  /**
   For every run of passes that create no new past-due rows: all n rows overdue at its start are
   suspended exactly when the passes offer n places, that is from pass ceil(n / batch) on.
   */
  lemma OverdueAreSuspendedIff(rows: Rows, s: Settings, passes: seq<Pass>, from: int)
    requires Legal(rows, s, from, passes)
    ensures (forall t | t in Due(rows, Cutoff(s, from)) :: t in RowsAfter(rows, passes) && RowsAfter(rows, passes)[t].status == Suspended)
            <==> |Due(rows, Cutoff(s, from))| <= |passes| * Take(s)
  {
    var early, end := Cutoff(s, from), RowsAfter(rows, passes);
    PassesShrink(rows, s, from, passes);
    KeysKept(rows, passes);
    forall t | t in Due(rows, early) ensures t in end && (t in Due(end, early) <==> end[t].status != Suspended) {
      RowsOnlyGetSuspended(rows, s, from, passes, t);
    }
    forall t | t in Due(end, early) ensures t in Due(rows, early) {
      RowsOnlyGetSuspended(rows, s, from, passes, t);
    }
    if |Due(end, early)| == 0 {
      assert Due(end, early) == {};
    } else {
      var t :| t in Due(end, early);
    }
  }

  lemma {:induction false} KeysKept(rows: Rows, passes: seq<Pass>)
    ensures RowsAfter(rows, passes).Keys == rows.Keys
    decreases |passes|
  {
    if passes != [] {
      KeysKept(SuspendAll(rows, passes[0].batch, passes[0].at), passes[1..]);
    }
  }

  // ---------------------------------------------------------------- oldest first

  function Suspensions(passes: seq<Pass>): seq<Id> {
    if passes == [] then [] else passes[0].batch + Suspensions(passes[1..])
  }

  /** Whatever a later pass suspends was still past due, and no older than this pass's batch. */
  lemma {:induction false} LaterAreYounger(rows: Rows, s: Settings, from: int, passes: seq<Pass>, t: Id)
    requires Legal(rows, s, from, passes) && t in Suspensions(passes)
    ensures t in rows && rows[t].provider.Stripe? && rows[t].status.PastDue?
    decreases |passes|
  {
    var p := passes[0];
    if t in p.batch {
      var i :| 0 <= i < |p.batch| && p.batch[i] == t;
      assert p.batch[i] in Due(rows, Cutoff(s, p.now));
    } else {
      LaterAreYounger(SuspendAll(rows, p.batch, p.at), s, p.now, passes[1..], t);
    }
  }

  /** For every run of passes: all suspensions, over the whole run, go from the oldest row to the youngest. */
  lemma {:induction false} SuspendedOldestFirst(rows: Rows, s: Settings, from: int, passes: seq<Pass>)
    requires Legal(rows, s, from, passes)
    ensures NoRepeats(Suspensions(passes)) && OldestFirst(rows, Suspensions(passes))
    decreases |passes|
  {
    if passes != [] {
      var p, later := passes[0], Suspensions(passes[1..]);
      var next := SuspendAll(rows, p.batch, p.at);
      SuspendedOldestFirst(next, s, p.now, passes[1..]);
      forall j | 0 <= j < |later| ensures later[j] in rows && later[j] !in p.batch && rows[later[j]].status.PastDue? && rows[later[j]].provider.Stripe? {
        LaterAreYounger(next, s, p.now, passes[1..], later[j]);
      }
      forall i, j | 0 <= i < |p.batch| && 0 <= j < |later|
        ensures rows[p.batch[i]].updatedAt <= rows[later[j]].updatedAt
      {
        assert p.batch[i] in Due(rows, Cutoff(s, p.now));
        if later[j] in Due(rows, Cutoff(s, p.now)) {
        }
      }
      JoinOldestFirst(rows, p.batch, next, later);
    }
  }

  lemma JoinOldestFirst(rows: Rows, a: seq<Id>, next: Rows, b: seq<Id>)
    requires NoRepeats(a) && OldestFirst(rows, a) && NoRepeats(b) && OldestFirst(next, b)
    requires forall j :: 0 <= j < |b| ==> b[j] in rows && b[j] !in a && next[b[j]] == rows[b[j]]
    requires forall i, j | 0 <= i < |a| && 0 <= j < |b| :: rows[a[i]].updatedAt <= rows[b[j]].updatedAt
    ensures NoRepeats(a + b) && OldestFirst(rows, a + b)
  {
    var ab := a + b;
    forall i, j | 0 <= i < j < |ab| ensures ab[i] != ab[j] && ab[i] in rows && ab[j] in rows && rows[ab[i]].updatedAt <= rows[ab[j]].updatedAt {
      if j >= |a| && i >= |a| {
        assert ab[i] == b[i - |a|] && ab[j] == b[j - |a|];
      } else if j >= |a| {
        assert ab[i] == a[i] && ab[j] == b[j - |a|];
      }
    }
  }

  // ---------------------------------------------------------------- the service

  /** The rows picked so far are older than those left. */
  predicate Picked(rows: Rows, due: set<Id>, batch: seq<Id>, left: set<Id>) {
    && due <= rows.Keys && left <= due
    && NoRepeats(batch) && OldestFirst(rows, batch)
    && (forall i :: 0 <= i < |batch| ==> batch[i] in due && batch[i] !in left)
    && (forall t | t in due && t !in left :: t in batch)
    && forall i, t | 0 <= i < |batch| && t in left :: rows[batch[i]].updatedAt <= rows[t].updatedAt
  }

  lemma PickOne(rows: Rows, due: set<Id>, batch: seq<Id>, left: set<Id>, oldest: Id)
    requires Picked(rows, due, batch, left)
    requires oldest in left && forall t | t in left :: rows[oldest].updatedAt <= rows[t].updatedAt
    ensures Picked(rows, due, batch + [oldest], left - {oldest})
  {
    var more, fewer := batch + [oldest], left - {oldest};
    assert NoRepeats(more) && OldestFirst(rows, more);
    forall t | t in due && t !in fewer ensures t in more {
      if t in left {
        assert more[|batch|] == t;
      }
    }
  }

  /** The query, shown to have an answer: pick the oldest overdue row that is left, until the batch is full. */
  method FindOverduePastDueSubscriptions(rows: Rows, cutoff: int, take: nat) returns (batch: seq<Id>)
    ensures IsBatch(rows, cutoff, take, batch)
  {
    var due := Due(rows, cutoff);
    var left := due;
    batch := [];
    while left != {} && |batch| < take
      invariant Picked(rows, due, batch, left)
      invariant |left| + |batch| == |due| && |batch| <= take
      decreases |left|
    {
      var oldest := Oldest(rows, left);
      PickOne(rows, due, batch, left, oldest);
      left := left - {oldest};
      batch := batch + [oldest];
    }
  }

  method Oldest(rows: Rows, tenants: set<Id>) returns (oldest: Id)
    requires tenants != {} && tenants <= rows.Keys
    ensures oldest in tenants && forall t | t in tenants :: rows[oldest].updatedAt <= rows[t].updatedAt
  {
    oldest :| oldest in tenants;
    var rest := tenants - {oldest};
    while rest != {}
      invariant rest <= tenants && oldest in tenants
      invariant forall t | t in tenants && t !in rest :: rows[oldest].updatedAt <= rows[t].updatedAt
      decreases |rest|
    {
      var t :| t in rest;
      if rows[t].updatedAt < rows[oldest].updatedAt {
        oldest := t;
      }
      rest := rest - {t};
    }
  }

  lemma SuspendOneMore(rows: Rows, batch: seq<Id>, i: nat, at: nat)
    requires i < |batch| && batch[i] in rows
    ensures SuspendAll(rows, batch[..i + 1], at) == SuspendAll(rows, batch[..i], at)[batch[i] := Suspend(rows[batch[i]], at)]
  {
    assert batch[..i + 1] == batch[..i] + [batch[i]];
  }

  datatype Report = Report(checked: nat, suspended: nat, tenantIds: seq<Id>)

  class BillingDunningService {
    var rows: Rows
    var audit: seq<(Id, Snapshot, Snapshot)>

    constructor (rows: Rows)
      ensures this.rows == rows && audit == []
    {
      this.rows := rows;
      audit := [];
    }

    /** One pass: the batch is suspended, each suspension audited with the licence before and after. */
    method SuspendOverduePastDueSubscriptions(s: Settings, now: int, at: nat) returns (r: Report)
      modifies this
      ensures IsBatch(old(rows), Cutoff(s, now), Take(s), r.tenantIds)
      ensures r.checked == r.suspended == |r.tenantIds|
      ensures rows == SuspendAll(old(rows), r.tenantIds, at)
      ensures |audit| == |old(audit)| + |r.tenantIds| && audit[..|old(audit)|] == old(audit)
      ensures forall i :: 0 <= i < |r.tenantIds| ==>
        audit[|old(audit)| + i] == (r.tenantIds[i], ToSnapshot(old(rows)[r.tenantIds[i]]), View(rows[r.tenantIds[i]]))
    {
      var batch := FindOverduePastDueSubscriptions(rows, Cutoff(s, now), Take(s));
      var start := rows;
      ghost var base := |audit|;
      var suspended: seq<Id> := [];
      for i := 0 to |batch|
        invariant suspended == batch[..i]
        invariant rows == SuspendAll(start, batch[..i], at)
        invariant |audit| == base + i && audit[..base] == old(audit)
        invariant forall k :: 0 <= k < i ==> audit[base + k] == (batch[k], ToSnapshot(start[batch[k]]), View(Suspend(start[batch[k]], at)))
      {
        var t := batch[i];
        assert t in Due(start, Cutoff(s, now));
        var next := Suspend(start[t], at);
        SuspendOneMore(start, batch, i, at);
        rows := rows[t := next];
        audit := audit + [(t, ToSnapshot(start[t]), View(next))];
        suspended := suspended + [t];
      }
      assert batch[..|batch|] == batch;
      r := Report(|batch|, |suspended|, suspended);
    }
  }
}
