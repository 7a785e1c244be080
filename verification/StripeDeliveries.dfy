/**
 Webhook deliveries running concurrently against one licence table and one Stripe account.

 Every `await` of a handler is a separate step, so a run is any interleaving of the steps of any
 number of deliveries with changes on Stripe's side. The tenant bindings a handler looks up are
 left arbitrary: the theorems hold whatever the lookups answer.
 */
module StripeDeliveries {
  import opened Base
  import opened TenantSubscriptions
  import opened BillingRules

  datatype Outcome =
    | Applied
    | AuditFailed(unsent: Option<Notice>)  // written, then the audit row could not be stored
    | Ignored                     // no agreed tenant, or the customer does not match
    | Denied(reason: Refusal)     // the guarded write refused for good
    | Conflict                    // three stale snapshots in a row
    | StripeFailed                // a retrieve threw

  datatype Pc =
    | Resolving
    | Reading
    | Retrieving
    | Comparing(source: StripeSubscription, version: nat)
    | Writing(source: StripeSubscription, version: nat, allowReplacement: bool)
    | Notifying(notice: Option<Notice>)
    | Done(outcome: Outcome)

  datatype Handler = Handler(
    delivery: Delivery,
    tenant: Id,
    attempt: nat,
    retrievals: nat,
    expected: Option<Snapshot>,
    pc: Pc)

  /** A committed guarded write, with the version of the Stripe subscription it was built from. */
  datatype Commit = Commit(
    author: nat, delivery: Delivery, kind: EventKind, tenant: Id, subscription: Id, version: nat, after: Snapshot)

  datatype Sent = Sent(author: nat, notice: Notice)

  /** Stripe's side and the database: what deliveries share. */
  datatype Ledger = Ledger(
    stripe: map<Id, seq<StripeSubscription>>,  // all versions of every subscription, the latest last
    initial: map<Id, Snapshot>,                // the licence rows the run started from
    rows: map<Id, Snapshot>,
    clock: nat,
    history: seq<Commit>)

  datatype World = World(ledger: Ledger, handlers: seq<Handler>, sent: seq<Sent>)

  /** What the environment decides for one step: lookup answers, and whether the audit insert works. */
  datatype Choice = Choice(subscriptionBinding: Option<Id>, customerBinding: Option<Id>, auditStored: bool)

  datatype Action =
    | Arrive(delivery: Delivery)
    | StripeChange(subscription: Id, next: StripeSubscription)
    | Step(handler: nat, choice: Choice)

  // ---------------------------------------------------------------- transitions

  function ResolveFirst(d: Delivery, c: Choice): Option<Id> {
    match d.kind
    case CheckoutCompleted => OrElse(d.metadata.tenant, OrElse(c.subscriptionBinding, c.customerBinding))
    case SubscriptionChanged => ResolveAuthoritative(c.subscriptionBinding, c.customerBinding, d.metadata.tenant, None)
  }

  predicate Retrievable(l: Ledger, sub: Id) {
    sub in l.stripe && l.stripe[sub] != []
  }

  function Latest(l: Ledger, sub: Id): StripeSubscription
    requires Retrievable(l, sub)
  {
    l.stripe[sub][|l.stripe[sub]| - 1]
  }

  /** The steps that touch nothing but the stepping handler. */
  function Advance(l: Ledger, h: Handler, c: Choice): Handler {
    match h.pc
    case Resolving =>
      var t := ResolveFirst(h.delivery, c);
      if t.None? then h.(pc := Done(Ignored)) else h.(tenant := t.value, pc := Reading)
    case Reading =>
      h.(expected := Get(l.rows, h.tenant), pc := if h.attempt < 3 then Retrieving else Done(Conflict))
    case Retrieving =>
      if !Retrievable(l, h.delivery.subscription) then h.(pc := Done(StripeFailed))
      else
        var sub, version := Latest(l, h.delivery.subscription), |l.stripe[h.delivery.subscription]| - 1;
        var h' := h.(retrievals := h.retrievals + 1);
        if CustomersDisagree(h.delivery, sub) then h'.(pc := Done(Ignored))
        else if h.delivery.kind == CheckoutCompleted && MayReplace(h.expected, sub, h.delivery.subscription)
          then h'.(pc := Comparing(sub, version))
        else h'.(pc := Writing(sub, version, false))
    case Comparing(source, version) =>
      if h.expected.None? || h.expected.value.subscription.None? || !Retrievable(l, h.expected.value.subscription.value)
        then h.(pc := Done(StripeFailed))
      else h.(pc := Writing(source, version, CreatedLater(source, Latest(l, h.expected.value.subscription.value))))
    case Writing(source, _, _) =>
      h.(pc := Done(Ignored))  // the second tenant resolution found a disagreement
    case Notifying(notice) => h.(pc := Done(if c.auditStored then Applied else AuditFailed(notice)))
    case Done(_) => h
  }

  /** The tenant resolved before a write can only be the one resolved at the start. */
  predicate AgreesAgain(h: Handler, c: Choice): (agrees: bool)
    requires h.pc.Writing?
    ensures agrees ==>
      Declarations(c.subscriptionBinding, c.customerBinding,
                   OrElse(h.pc.source.metadata.tenant, h.delivery.metadata.tenant), Some(h.tenant)) == {h.tenant}
  {
    assert h.tenant in Declarations(c.subscriptionBinding, c.customerBinding,
                                    OrElse(h.pc.source.metadata.tenant, h.delivery.metadata.tenant), Some(h.tenant));
    ResolveAuthoritative(c.subscriptionBinding, c.customerBinding,
                         OrElse(h.pc.source.metadata.tenant, h.delivery.metadata.tenant), Some(h.tenant)).Some?
  }

  function Attempted(l: Ledger, h: Handler): Mutation
    requires h.pc.Writing?
  {
    GuardedUpsert(Get(l.rows, h.tenant), NextLicence(h.delivery, h.pc.source, h.expected), h.expected,
                  h.pc.allowReplacement, l.clock)
  }

  function Committed(l: Ledger, i: nat, h: Handler, row: Snapshot): Ledger
    requires h.pc.Writing?
  {
    l.(rows := l.rows[h.tenant := row],
       clock := l.clock + 1,
       history := l.history + [Commit(i, h.delivery, h.delivery.kind, h.tenant, h.delivery.subscription, h.pc.version, row)])
  }

  function StatusOf(row: Option<Snapshot>): Option<Status> {
    if row.Some? then Some(row.value.status) else None
  }

  function Next(w: World, a: Action): World {
    match a
    case Arrive(d) => w.(handlers := w.handlers + [Handler(d, 0, 0, 0, None, Resolving)])
    case StripeChange(sub, next) => w.(ledger := Changed(w.ledger, sub, next))
    case Step(i, c) =>
      if i >= |w.handlers| then w
      else
        var h := w.handlers[i];
        if h.pc.Writing? && AgreesAgain(h, c) then
          match Attempted(w.ledger, h)
          case Refused(_, StaleSnapshot) =>
            w.(handlers := w.handlers[i := h.(attempt := h.attempt + 1, pc := Reading)])
          case Refused(_, reason) =>
            w.(handlers := w.handlers[i := h.(pc := Done(Denied(reason)))])
          case Written(previous, row) =>
            w.(ledger := Committed(w.ledger, i, h, row),
               handlers := w.handlers[i := h.(pc := Notifying(NoticeFor(StatusOf(previous), row.status)))])
        else
          w.(handlers := w.handlers[i := Advance(w.ledger, h, c)],
             sent := if h.pc.Notifying? && h.pc.notice.Some? && c.auditStored
                     then w.sent + [Sent(i, h.pc.notice.value)] else w.sent)
  }

  /** Stripe assigns the creation time once; everything else may change. */
  function Changed(l: Ledger, sub: Id, next: StripeSubscription): Ledger {
    if Retrievable(l, sub) && Latest(l, sub).created != next.created then l
    else l.(stripe := l.stripe[sub := (if sub in l.stripe then l.stripe[sub] else []) + [next]])
  }

  function Run(w: World, actions: seq<Action>): World
    decreases |actions|
  {
    if actions == [] then w else Run(Next(w, actions[0]), actions[1..])
  }

  /** Any licence table and any Stripe account, with no delivery under way. */
  predicate Start(w: World) {
    && w.handlers == [] && w.ledger.history == [] && w.sent == []
    && w.ledger.rows == w.ledger.initial
    && RowsBeforeClock(w.ledger)
    && CreatedOnce(w.ledger)
  }

  // ---------------------------------------------------------------- what every run keeps

  predicate CreatedOnce(l: Ledger) {
    forall sub, i, j :: sub in l.stripe && 0 <= i < |l.stripe[sub]| && 0 <= j < |l.stripe[sub]| ==>
      l.stripe[sub][i].created == l.stripe[sub][j].created
  }

  predicate RowsBeforeClock(l: Ledger) {
    forall t :: t in l.rows ==> l.rows[t].updatedAt < l.clock
  }

  /** The row of tenant `t` after the given commits. */
  function RowAfter(initial: map<Id, Snapshot>, history: seq<Commit>, t: Id): Option<Snapshot>
    decreases |history|
  {
    if history == [] then Get(initial, t)
    else
      var last := history[|history| - 1];
      if last.tenant == t then Some(last.after) else RowAfter(initial, history[..|history| - 1], t)
  }

  /** The table is what the committed history says it is. */
  ghost predicate TableIsHistory(l: Ledger) {
    forall t: Id :: Get(l.rows, t) == RowAfter(l.initial, l.history, t)
  }

  /** Every commit stores the status of a version that Stripe really had. */
  predicate FromStripe(l: Ledger) {
    forall i :: 0 <= i < |l.history| ==> CommitFromStripe(l, l.history[i])
  }

  predicate CommitFromStripe(l: Ledger, c: Commit) {
    && c.subscription in l.stripe && c.version < |l.stripe[c.subscription]|
    && c.after.status == LicenceStatus(l.stripe[c.subscription][c.version].status)
    && c.after.provider == Stripe && c.after.subscription == Some(c.subscription)
  }

  predicate VersionsMonotone(history: seq<Commit>) {
    forall i, j :: 0 <= i < j < |history| && history[i].tenant == history[j].tenant
                   && history[i].subscription == history[j].subscription ==>
      history[i].version <= history[j].version
  }

  predicate OlderThan(l: Ledger, a: Id, b: Id) {
    Retrievable(l, a) && Retrievable(l, b) && l.stripe[a][0].created < l.stripe[b][0].created
  }

  /** The subscription changes at a commit only as a checkout replacing a pending, expired or canceled, older one. */
  predicate Lawful(l: Ledger, before: Option<Snapshot>, c: Commit) {
    before.Some? && before.value.provider == Stripe && before.value.subscription.Some?
    && before.value.subscription.value != c.subscription ==>
      && (before.value.status == Pending || before.value.status == Expired || before.value.status == Canceled)
      && OlderThan(l, before.value.subscription.value, c.subscription)
      && c.kind == CheckoutCompleted
  }

  ghost predicate ReplacesLawfully(l: Ledger) {
    forall i :: 0 <= i < |l.history| ==>
      Lawful(l, RowAfter(l.initial, l.history[..i], l.history[i].tenant), l.history[i])
  }

  predicate IdentitiesAge(l: Ledger) {
    forall i, j :: 0 <= i < j < |l.history| && l.history[i].tenant == l.history[j].tenant ==>
      l.history[i].subscription == l.history[j].subscription
      || OlderThan(l, l.history[i].subscription, l.history[j].subscription)
  }

  ghost predicate LedgerOk(l: Ledger) {
    && CreatedOnce(l) && RowsBeforeClock(l) && TableIsHistory(l) && FromStripe(l)
    && VersionsMonotone(l.history) && ReplacesLawfully(l)
  }

  /** A retrieved subscription is a version Stripe had ... */
  predicate SourceKnown(l: Ledger, h: Handler) {
    h.pc.Comparing? || h.pc.Writing? ==>
      var sub := h.delivery.subscription;
      sub in l.stripe && h.pc.version < |l.stripe[sub]| && l.stripe[sub][h.pc.version] == h.pc.source
  }

  /** ... and no stored one is newer, unless the snapshot the handler holds is stale by now. */
  predicate FreshUnlessStale(l: Ledger, h: Handler) {
    (h.pc.Comparing? || h.pc.Writing?) && Get(l.rows, h.tenant) == h.expected ==>
      forall k :: 0 <= k < |l.history| && l.history[k].tenant == h.tenant
                  && l.history[k].subscription == h.delivery.subscription ==>
        l.history[k].version <= h.pc.version
  }

  predicate Supersedes(h: Handler) {
    h.delivery.kind == CheckoutCompleted && BoundElsewhere(h.expected, h.delivery.subscription)
    && h.expected.value.status !in MANAGED
  }

  /** Permission to replace is only ever held against a lapsed, strictly older subscription. */
  predicate ReplacementJustified(l: Ledger, h: Handler) {
    && (h.pc.Comparing? ==> Supersedes(h))
    && (h.pc.Writing? && h.pc.allowReplacement ==>
          Supersedes(h) && OlderThan(l, h.expected.value.subscription.value, h.delivery.subscription))
  }

  /** Retrieve calls already made stay within three. */
  predicate WithinAttempts(h: Handler) {
    && h.attempt <= 3
    && h.retrievals <= h.attempt + (if h.pc.Resolving? || h.pc.Reading? || h.pc.Retrieving? || h.pc == Done(Conflict) then 0 else 1)
    && (h.attempt == 3 ==> h.pc.Reading? || h.pc == Done(Conflict))
    && (h.pc == Done(Conflict) ==> h.attempt == 3)
    && (h.pc.Done? && h.pc.outcome.Denied? ==> h.pc.outcome.reason != StaleSnapshot)
  }

  predicate HandlerOk(l: Ledger, h: Handler) {
    && (h.expected.Some? ==> h.expected.value.updatedAt < l.clock)
    && SourceKnown(l, h) && FreshUnlessStale(l, h) && ReplacementJustified(l, h) && WithinAttempts(h)
  }

  predicate HasCommitted(h: Handler) {
    h.pc.Notifying? || (h.pc.Done? && (h.pc.outcome == Applied || h.pc.outcome.AuditFailed?))
  }

  /** Each delivery writes at most once, and exactly then when its outcome says so. */
  predicate OneWriteEach(history: seq<Commit>, handlers: seq<Handler>) {
    && (forall k :: 0 <= k < |history| ==> history[k].author < |handlers| && HasCommitted(handlers[history[k].author]))
    && (forall j, k :: 0 <= j < k < |history| ==> history[j].author != history[k].author)
    && (forall i :: 0 <= i < |handlers| && HasCommitted(handlers[i]) ==>
          exists k :: 0 <= k < |history| && history[k].author == i)
  }

  ghost predicate Inv(w: World) {
    && LedgerOk(w.ledger)
    && (forall i :: 0 <= i < |w.handlers| ==> HandlerOk(w.ledger, w.handlers[i]))
    && OneWriteEach(w.ledger.history, w.handlers)
  }

  // ---------------------------------------------------------------- preservation, Stripe's side

  lemma ChangeGrows(l: Ledger, sub: Id, next: StripeSubscription)
    ensures var l' := Changed(l, sub, next);
      && l' == l.(stripe := l'.stripe)
      && forall s, i :: s in l.stripe && 0 <= i < |l.stripe[s]| ==>
           s in l'.stripe && i < |l'.stripe[s]| && l'.stripe[s][i] == l.stripe[s][i]
  {
  }

  lemma ChangeKeepsLedger(l: Ledger, sub: Id, next: StripeSubscription)
    requires LedgerOk(l)
    ensures LedgerOk(Changed(l, sub, next))
  {
    var l' := Changed(l, sub, next);
    ChangeGrows(l, sub, next);
    forall i | 0 <= i < |l.history| ensures CommitFromStripe(l', l.history[i]) {
      assert CommitFromStripe(l, l.history[i]);
    }
    forall i | 0 <= i < |l.history|
      ensures Lawful(l', RowAfter(l'.initial, l'.history[..i], l'.history[i].tenant), l'.history[i])
    {
      assert Lawful(l, RowAfter(l.initial, l.history[..i], l.history[i].tenant), l.history[i]);
    }
  }

  lemma ChangeKeepsHandler(l: Ledger, h: Handler, sub: Id, next: StripeSubscription)
    requires HandlerOk(l, h)
    ensures HandlerOk(Changed(l, sub, next), h)
  {
    ChangeGrows(l, sub, next);
  }

  // ---------------------------------------------------------------- preservation, local steps

  lemma AdvanceKeepsHandler(l: Ledger, h: Handler, c: Choice)
    requires CreatedOnce(l) && RowsBeforeClock(l) && FromStripe(l)
    requires HandlerOk(l, h)
    ensures HandlerOk(l, Advance(l, h, c))
    ensures HasCommitted(Advance(l, h, c)) == HasCommitted(h)
  {
    var h' := Advance(l, h, c);
    if h.pc.Retrieving? && (h'.pc.Comparing? || h'.pc.Writing?) {
      forall k | 0 <= k < |l.history| && l.history[k].subscription == h.delivery.subscription
        ensures l.history[k].version <= h'.pc.version
      {
        assert CommitFromStripe(l, l.history[k]);
      }
    }
  }

  // ---------------------------------------------------------------- preservation, the guarded write

  lemma AppendedPrefixes(l: Ledger, l': Ledger, c: Commit)
    requires l'.history == l.history + [c]
    ensures forall i :: 0 <= i <= |l.history| ==> l'.history[..i] == l.history[..i]
  {
  }

  lemma CommitKeepsTable(l: Ledger, i: nat, h: Handler, row: Snapshot)
    requires h.pc.Writing? && TableIsHistory(l)
    ensures TableIsHistory(Committed(l, i, h, row))
  {
    var l' := Committed(l, i, h, row);
    assert l'.history[..|l'.history| - 1] == l.history;
  }

  lemma CommitKeepsVersions(l: Ledger, i: nat, h: Handler, row: Snapshot)
    requires LedgerOk(l) && HandlerOk(l, h)
    requires h.pc.Writing? && Get(l.rows, h.tenant) == h.expected
    requires row.provider == Stripe && row.subscription == Some(h.delivery.subscription)
    requires row.status == LicenceStatus(h.pc.source.status)
    ensures FromStripe(Committed(l, i, h, row)) && VersionsMonotone(Committed(l, i, h, row).history)
  {
    var l' := Committed(l, i, h, row);
    forall k | 0 <= k < |l'.history| ensures CommitFromStripe(l', l'.history[k]) {
      if k < |l.history| {
        assert CommitFromStripe(l, l.history[k]);
      }
    }
  }

  lemma CommitKeepsLawful(l: Ledger, i: nat, h: Handler, row: Snapshot)
    requires TableIsHistory(l) && ReplacesLawfully(l) && ReplacementJustified(l, h)
    requires h.pc.Writing? && Get(l.rows, h.tenant) == h.expected
    requires !h.pc.allowReplacement ==> !BoundElsewhere(h.expected, h.delivery.subscription)
    ensures ReplacesLawfully(Committed(l, i, h, row))
  {
    var l' := Committed(l, i, h, row);
    var n := |l.history|;
    AppendedPrefixes(l, l', l'.history[n]);
    forall k | 0 <= k < |l'.history|
      ensures Lawful(l', RowAfter(l'.initial, l'.history[..k], l'.history[k].tenant), l'.history[k])
    {
      if k < n {
        assert Lawful(l, RowAfter(l.initial, l.history[..k], l.history[k].tenant), l.history[k]);
      } else {
        assert l'.history[..n] == l.history;
      }
    }
  }

  /** Once a tenant has commits, its row is the last of them. */
  lemma {:induction false} LastCommitIsRow(initial: map<Id, Snapshot>, history: seq<Commit>, t: Id, k: nat)
    requires k < |history| && history[k].tenant == t
    ensures exists m :: k <= m < |history| && history[m].tenant == t && RowAfter(initial, history, t) == Some(history[m].after)
    decreases |history|
  {
    var n := |history| - 1;
    if history[n].tenant != t {
      LastCommitIsRow(initial, history[..n], t, k);
      var m :| k <= m < n && history[..n][m].tenant == t && RowAfter(initial, history[..n], t) == Some(history[..n][m].after);
      assert history[m].tenant == t;
    }
  }

  /** A commit makes every snapshot of that tenant held elsewhere stale. */
  lemma CommitKeepsOthers(l: Ledger, i: nat, h: Handler, row: Snapshot, other: Handler)
    requires h.pc.Writing? && row.updatedAt == l.clock
    requires HandlerOk(l, other)
    ensures HandlerOk(Committed(l, i, h, row), other)
  {
    var l' := Committed(l, i, h, row);
    if other.tenant == h.tenant {
      assert Get(l'.rows, other.tenant) != other.expected;
    }
  }

  lemma StepKeepsInv(w: World, i: nat, c: Choice)
    requires Inv(w)
    ensures Inv(Next(w, Step(i, c)))
  {
    if i < |w.handlers| {
      var h, l, w' := w.handlers[i], w.ledger, Next(w, Step(i, c));
      assert HandlerOk(l, h);
      if h.pc.Writing? && AgreesAgain(h, c) {
        var m := Attempted(l, h);
        if m.Written? {
          WriteKeepsInv(w, i, c);
        } else {
          assert HandlerOk(l, w'.handlers[i]);
          SameCommitters(l.history, w.handlers, i, w'.handlers[i]);
        }
      } else {
        AdvanceKeepsHandler(l, h, c);
        SameCommitters(l.history, w.handlers, i, w'.handlers[i]);
      }
    }
  }

  lemma SameCommitters(history: seq<Commit>, handlers: seq<Handler>, i: nat, h: Handler)
    requires i < |handlers| && OneWriteEach(history, handlers)
    requires HasCommitted(h) == HasCommitted(handlers[i])
    ensures OneWriteEach(history, handlers[i := h])
  {
  }

  lemma CommitKeepsLedger(l: Ledger, i: nat, h: Handler)
    requires LedgerOk(l) && HandlerOk(l, h) && h.pc.Writing? && Attempted(l, h).Written?
    ensures LedgerOk(Committed(l, i, h, Attempted(l, h).row))
  {
    var row := Attempted(l, h).row;
    CommitKeepsTable(l, i, h, row);
    CommitKeepsVersions(l, i, h, row);
    CommitKeepsLawful(l, i, h, row);
  }

  /** The world after a guarded write that succeeds. */
  function Wrote(w: World, i: nat): World
    requires i < |w.handlers| && w.handlers[i].pc.Writing? && Attempted(w.ledger, w.handlers[i]).Written?
  {
    var h := w.handlers[i];
    var m := Attempted(w.ledger, h);
    w.(ledger := Committed(w.ledger, i, h, m.row),
       handlers := w.handlers[i := h.(pc := Notifying(NoticeFor(StatusOf(m.previous), m.row.status)))])
  }

  lemma NotifyingIsOk(l: Ledger, h: Handler, notice: Option<Notice>)
    requires HandlerOk(l, h) && h.pc.Writing?
    ensures HandlerOk(l, h.(pc := Notifying(notice)))
  {
  }

  lemma CommitKeepsHandlers(w: World, i: nat)
    requires LedgerOk(w.ledger) && i < |w.handlers| && forall k :: 0 <= k < |w.handlers| ==> HandlerOk(w.ledger, w.handlers[k])
    requires w.handlers[i].pc.Writing? && Attempted(w.ledger, w.handlers[i]).Written?
    ensures forall k :: 0 <= k < |Wrote(w, i).handlers| ==> HandlerOk(Wrote(w, i).ledger, Wrote(w, i).handlers[k])
  {
    var l, h, w' := w.ledger, w.handlers[i], Wrote(w, i);
    forall k | 0 <= k < |w'.handlers| ensures HandlerOk(w'.ledger, w'.handlers[k]) {
      CommitKeepsOthers(l, i, h, Attempted(l, h).row, w.handlers[k]);
      if k == i {
        NotifyingIsOk(w'.ledger, h, w'.handlers[i].pc.notice);
      }
    }
  }

  lemma WroteKeepsInv(w: World, i: nat)
    requires Inv(w) && i < |w.handlers| && w.handlers[i].pc.Writing? && Attempted(w.ledger, w.handlers[i]).Written?
    ensures Inv(Wrote(w, i))
  {
    var h, l, w' := w.handlers[i], w.ledger, Wrote(w, i);
    assert HandlerOk(l, h);
    CommitKeepsLedger(l, i, h);
    CommitKeepsHandlers(w, i);
    WriterCounted(l.history, w.handlers, i, w'.handlers[i], w'.ledger.history[|l.history|]);
  }

  lemma WriteKeepsInv(w: World, i: nat, c: Choice)
    requires Inv(w) && i < |w.handlers|
    requires w.handlers[i].pc.Writing? && AgreesAgain(w.handlers[i], c) && Attempted(w.ledger, w.handlers[i]).Written?
    ensures Inv(Next(w, Step(i, c)))
  {
    WroteKeepsInv(w, i);
    NextIsWrote(w, i, c);
  }

  lemma NextIsWrote(w: World, i: nat, c: Choice)
    requires i < |w.handlers| && w.handlers[i].pc.Writing? && AgreesAgain(w.handlers[i], c)
    requires Attempted(w.ledger, w.handlers[i]).Written?
    ensures Next(w, Step(i, c)) == Wrote(w, i)
  {
  }

  lemma WriterCounted(history: seq<Commit>, handlers: seq<Handler>, i: nat, h: Handler, c: Commit)
    requires i < |handlers| && OneWriteEach(history, handlers)
    requires !HasCommitted(handlers[i]) && HasCommitted(h) && c.author == i
    ensures OneWriteEach(history + [c], handlers[i := h])
  {
    var history', handlers' := history + [c], handlers[i := h];
    forall j | 0 <= j < |handlers'| && HasCommitted(handlers'[j])
      ensures exists k :: 0 <= k < |history'| && history'[k].author == j
    {
      if j == i {
        assert history'[|history|].author == i;
      } else {
        var k :| 0 <= k < |history| && history[k].author == j;
        assert history'[k].author == j;
      }
    }
  }

  lemma NextKeepsInv(w: World, a: Action)
    requires Inv(w)
    ensures Inv(Next(w, a))
  {
    match a
    case Arrive(d) =>
    case StripeChange(sub, next) =>
      ChangeKeepsLedger(w.ledger, sub, next);
      forall i | 0 <= i < |w.handlers| ensures HandlerOk(Changed(w.ledger, sub, next), w.handlers[i]) {
        ChangeKeepsHandler(w.ledger, w.handlers[i], sub, next);
      }
      ChangeGrows(w.ledger, sub, next);
    case Step(i, c) => StepKeepsInv(w, i, c);
  }

  lemma {:induction false} RunKeepsInv(w: World, actions: seq<Action>)
    requires Inv(w)
    ensures Inv(Run(w, actions))
    decreases |actions|
  {
    if actions != [] {
      NextKeepsInv(w, actions[0]);
      RunKeepsInv(Next(w, actions[0]), actions[1..]);
    }
  }

  lemma StartHasInv(w: World)
    requires Start(w)
    ensures Inv(w)
  {
  }

  // ---------------------------------------------------------------- theorems

  /**
   Whatever the interleaving, the stored licences of a subscription never go back to an older Stripe
   version, each shows the status of the version behind it, and the table is exactly the commits.
   */
  lemma LicencesNeverGoBack(w: World, actions: seq<Action>)
    requires Start(w)
    ensures var l := Run(w, actions).ledger;
      && VersionsMonotone(l.history) && FromStripe(l) && TableIsHistory(l)
      && forall i :: 0 <= i < |l.history| ==>
           ShowsStatus(l.stripe[l.history[i].subscription][l.history[i].version].status, l.history[i].after.status)
  {
    StartHasInv(w);
    RunKeepsInv(w, actions);
    var l := Run(w, actions).ledger;
    forall i | 0 <= i < |l.history|
      ensures ShowsStatus(l.stripe[l.history[i].subscription][l.history[i].version].status, l.history[i].after.status)
    {
      assert CommitFromStripe(l, l.history[i]);
      StatusIsShown(l.stripe[l.history[i].subscription][l.history[i].version].status);
    }
  }

  /**
   A delivery retrieves its subscription at most three times; it is the author of exactly one commit
   when it was applied (even if its audit row was then lost) and of none otherwise.
   */
  lemma DeliveriesAreBounded(w: World, actions: seq<Action>, i: nat)
    requires Start(w) && i < |Run(w, actions).handlers|
    ensures Run(w, actions).handlers[i].retrievals <= 3
    ensures Run(w, actions).handlers[i].pc == Done(Conflict) ==> Run(w, actions).handlers[i].attempt == 3
    ensures HasCommitted(Run(w, actions).handlers[i]) <==> |WritesOf(Run(w, actions).ledger.history, i)| == 1
    ensures !HasCommitted(Run(w, actions).handlers[i]) <==> WritesOf(Run(w, actions).ledger.history, i) == {}
  {
    StartHasInv(w);
    RunKeepsInv(w, actions);
    var w' := Run(w, actions);
    assert HandlerOk(w'.ledger, w'.handlers[i]);
    WritesCounted(w'.ledger.history, w'.handlers, i);
  }

  /** The positions in the history of the commits a delivery is the author of. */
  function WritesOf(history: seq<Commit>, i: nat): set<nat> {
    set k: nat | k < |history| && history[k].author == i
  }

  lemma WritesCounted(history: seq<Commit>, handlers: seq<Handler>, i: nat)
    requires OneWriteEach(history, handlers) && i < |handlers|
    ensures HasCommitted(handlers[i]) <==> |WritesOf(history, i)| == 1
    ensures !HasCommitted(handlers[i]) <==> WritesOf(history, i) == {}
  {
    if HasCommitted(handlers[i]) {
      var k :| 0 <= k < |history| && history[k].author == i;
      assert WritesOf(history, i) == {k};
    }
  }

  /** Steps a handler has left, whatever the others do. */
  function Remaining(h: Handler): int {
    match h.pc
    case Resolving => 20
    case Reading => 5 * (3 - h.attempt) + 4
    case Retrieving => 5 * (3 - h.attempt) + 3
    case Comparing(_, _) => 5 * (3 - h.attempt) + 2
    case Writing(_, _, _) => 5 * (3 - h.attempt) + 1
    case Notifying(_) => 1
    case Done(_) => 0
  }

  function StepsOf(actions: seq<Action>, i: nat): nat {
    if actions == [] then 0
    else (if actions[0].Step? && actions[0].handler == i then 1 else 0) + StepsOf(actions[1..], i)
  }

  /** A delivery that gets its twenty turns has ended, in every interleaving. */
  lemma {:induction false} DeliveriesEnd(w: World, actions: seq<Action>, i: nat)
    requires i < |w.handlers| && WithinAttempts(w.handlers[i])
    requires StepsOf(actions, i) >= Remaining(w.handlers[i])
    ensures i < |Run(w, actions).handlers| && Run(w, actions).handlers[i].pc.Done?
    decreases |actions|
  {
    if actions != [] {
      TurnCounts(w, actions[0], i);
      DeliveriesEnd(Next(w, actions[0]), actions[1..], i);
    }
  }

  lemma TurnCounts(w: World, a: Action, i: nat)
    requires i < |w.handlers| && WithinAttempts(w.handlers[i])
    ensures i < |Next(w, a).handlers| && WithinAttempts(Next(w, a).handlers[i])
    ensures a.Step? && a.handler == i && !w.handlers[i].pc.Done? ==> Remaining(Next(w, a).handlers[i]) < Remaining(w.handlers[i])
    ensures !(a.Step? && a.handler == i && !w.handlers[i].pc.Done?) ==> Next(w, a).handlers[i] == w.handlers[i]
  {
  }

  /** The Stripe subscription tenant `t` holds after the first `n` commits; at 0, the one it started with. */
  function Held(l: Ledger, t: Id, n: nat): Option<Id>
    requires n <= |l.history|
  {
    var row := RowAfter(l.initial, l.history[..n], t);
    if row.Some? && row.value.provider == Stripe then row.value.subscription else None
  }

  lemma HeldAfterCommit(l: Ledger, t: Id, n: nat)
    requires FromStripe(l) && n < |l.history|
    ensures Held(l, t, n + 1) == if l.history[n].tenant == t then Some(l.history[n].subscription) else Held(l, t, n)
  {
    assert l.history[..n + 1][..n] == l.history[..n];
    assert CommitFromStripe(l, l.history[n]);
  }

  /** From holding `a` a tenant comes to hold `b`: the same subscription or one created strictly later. */
  predicate AgesTo(l: Ledger, a: Option<Id>, b: Option<Id>) {
    a.Some? ==> b == a || (b.Some? && OlderThan(l, a.value, b.value))
  }

  lemma HeldStep(l: Ledger, t: Id, n: nat)
    requires FromStripe(l) && ReplacesLawfully(l) && n < |l.history|
    ensures AgesTo(l, Held(l, t, n), Held(l, t, n + 1))
  {
    HeldAfterCommit(l, t, n);
    assert Lawful(l, RowAfter(l.initial, l.history[..n], l.history[n].tenant), l.history[n]);
  }

  lemma {:induction false} AgesAlong(l: Ledger, held: seq<Option<Id>>, i: nat, j: nat)
    requires i <= j < |held| && forall n :: 0 < n < |held| ==> AgesTo(l, held[n - 1], held[n])
    ensures AgesTo(l, held[i], held[j])
    decreases j
  {
    if i < j {
      AgesAlong(l, held, i, j - 1);
    }
  }

  /** A tenant keeps its subscription or moves on to one created strictly later, from the starting row on. */
  lemma HeldAges(l: Ledger, t: Id, i: nat, j: nat)
    requires FromStripe(l) && ReplacesLawfully(l) && i <= j <= |l.history|
    ensures AgesTo(l, Held(l, t, i), Held(l, t, j))
  {
    var held := seq(|l.history| + 1, n requires 0 <= n <= |l.history| => Held(l, t, n));
    forall n | 0 < n < |held| ensures AgesTo(l, held[n - 1], held[n]) {
      HeldStep(l, t, n - 1);
    }
    AgesAlong(l, held, i, j);
  }

  lemma CommitsAge(l: Ledger, i: nat, j: nat)
    requires FromStripe(l) && ReplacesLawfully(l) && i < j < |l.history| && l.history[i].tenant == l.history[j].tenant
    ensures AgesTo(l, Some(l.history[i].subscription), Some(l.history[j].subscription))
  {
    var t := l.history[i].tenant;
    HeldOfCommit(l, i);
    HeldOfCommit(l, j);
    HeldAges(l, t, i + 1, j + 1);
  }

  lemma HeldOfCommit(l: Ledger, n: nat)
    requires FromStripe(l) && n < |l.history|
    ensures Held(l, l.history[n].tenant, n + 1) == Some(l.history[n].subscription)
  {
    HeldAfterCommit(l, l.history[n].tenant, n);
  }

  /**
   Along one tenant's commits the subscription changes only by a checkout, over a row that was not
   managed when it was replaced, to a subscription created strictly later.
   */
  lemma ReplacementsMoveForward(w: World, actions: seq<Action>)
    requires Start(w)
    ensures ReplacesLawfully(Run(w, actions).ledger) && IdentitiesAge(Run(w, actions).ledger)
  {
    var l := Run(w, actions).ledger;
    StartHasInv(w);
    RunKeepsInv(w, actions);
    forall i, j | 0 <= i < j < |l.history| && l.history[i].tenant == l.history[j].tenant
      ensures AgesTo(l, Some(l.history[i].subscription), Some(l.history[j].subscription))
    {
      CommitsAge(l, i, j);
    }
  }

  /**
   Hence a replaced subscription never comes back, whether a commit of the run stored it or the tenant
   already held it at the start.
   */
  lemma ReplacedNeverReturns(w: World, actions: seq<Action>, t: Id, i: nat, j: nat, k: nat)
    requires Start(w) && i <= j <= k <= |Run(w, actions).ledger.history|
    ensures var l := Run(w, actions).ledger;
      Held(l, t, i).Some? && Held(l, t, k) == Held(l, t, i) ==> Held(l, t, j) == Held(l, t, i)
  {
    var l := Run(w, actions).ledger;
    StartHasInv(w);
    RunKeepsInv(w, actions);
    HeldAges(l, t, i, j);
    HeldAges(l, t, j, k);
  }

  /** In terms of commits alone. */
  lemma CommittedNeverReturns(w: World, actions: seq<Action>, i: nat, j: nat, k: nat)
    requires Start(w)
    requires i < j < k < |Run(w, actions).ledger.history|
    requires var h := Run(w, actions).ledger.history;
      h[i].tenant == h[j].tenant == h[k].tenant && h[i].subscription == h[k].subscription
    ensures Run(w, actions).ledger.history[j].subscription == Run(w, actions).ledger.history[i].subscription
  {
    ReplacementsMoveForward(w, actions);
  }

  // ---------------------------------------------------------------- what commits store

  /** A Stripe row passes to another customer only together with a new subscription. */
  predicate CustomerMoves(before: Option<Snapshot>, c: Commit) {
    before.Some? && before.value.provider == Stripe && before.value.customer.Some? && c.after.customer.Some?
    && before.value.customer != c.after.customer ==>
      before.value.subscription.Some? && before.value.subscription != Some(c.subscription)
  }

  /** Commit `i` says, field by field, what its version of the subscription says over the row it replaced. */
  predicate CommitShows(l: Ledger, i: nat)
    requires i < |l.history|
  {
    var c := l.history[i];
    var before := RowAfter(l.initial, l.history[..i], c.tenant);
    && c.delivery.subscription == c.subscription && c.delivery.kind == c.kind
    && c.subscription in l.stripe && c.version < |l.stripe[c.subscription]|
    && SameCustomer(c.delivery, l.stripe[c.subscription][c.version])
    && Shows(c.delivery, l.stripe[c.subscription][c.version], before, c.after)
    && CustomerMoves(before, c)
    && TenantNamed(c, l.stripe[c.subscription][c.version])
  }

  /** A tenant that Stripe's metadata names, or failing that the event's, is the one written for. */
  predicate TenantNamed(c: Commit, sub: StripeSubscription) {
    && (sub.metadata.tenant.Some? ==> sub.metadata.tenant.value == c.tenant)
    && (sub.metadata.tenant.None? && c.delivery.metadata.tenant.Some? ==> c.delivery.metadata.tenant.value == c.tenant)
  }

  predicate HistoryShows(l: Ledger) {
    forall i :: 0 <= i < |l.history| ==> CommitShows(l, i)
  }

  predicate SourceAgrees(h: Handler) {
    h.pc.Comparing? || h.pc.Writing? ==> SameCustomer(h.delivery, h.pc.source)
  }

  predicate AllShown(w: World) {
    HistoryShows(w.ledger) && AllAgree(w.handlers)
  }

  lemma ChangeKeepsShown(l: Ledger, sub: Id, next: StripeSubscription)
    requires HistoryShows(l)
    ensures HistoryShows(Changed(l, sub, next))
  {
    ChangeGrows(l, sub, next);
    forall i | 0 <= i < |l.history| ensures CommitShows(Changed(l, sub, next), i) {
      assert CommitShows(l, i);
    }
  }

  lemma CommitKeepsShown(l: Ledger, i: nat, h: Handler, choice: Choice)
    requires HistoryShows(l) && TableIsHistory(l) && SourceKnown(l, h) && ReplacementJustified(l, h) && SourceAgrees(h)
    requires h.pc.Writing? && AgreesAgain(h, choice) && Attempted(l, h).Written?
    ensures HistoryShows(Committed(l, i, h, Attempted(l, h).row))
  {
    var n, l' := |l.history|, Committed(l, i, h, Attempted(l, h).row);
    AppendedPrefixes(l, l', l'.history[n]);
    StoredShows(h.delivery, h.pc.source, h.expected, l.clock);
    OnlyThatTenant(h, choice);
    forall k | 0 <= k < |l'.history| ensures CommitShows(l', k) {
      if k < n {
        assert CommitShows(l, k);
      } else {
        assert l'.history[..n] == l.history;
        assert RowAfter(l.initial, l.history, h.tenant) == h.expected;
      }
    }
  }

  lemma OnlyThatTenant(h: Handler, choice: Choice)
    requires h.pc.Writing? && AgreesAgain(h, choice)
    ensures h.pc.source.metadata.tenant.Some? ==> h.pc.source.metadata.tenant.value == h.tenant
    ensures h.pc.source.metadata.tenant.None? && h.delivery.metadata.tenant.Some? ==> h.delivery.metadata.tenant.value == h.tenant
  {
    var metadata := OrElse(h.pc.source.metadata.tenant, h.delivery.metadata.tenant);
    var named := Declarations(choice.subscriptionBinding, choice.customerBinding, metadata, Some(h.tenant));
    assert metadata.Some? ==> metadata.value in named;
  }

  predicate AllAgree(handlers: seq<Handler>) {
    forall i :: 0 <= i < |handlers| ==> SourceAgrees(handlers[i])
  }

  /** Only a guarded write that succeeds touches the ledger; no step makes a source disagree. */
  lemma AfterStep(w: World, i: nat, c: Choice)
    requires i < |w.handlers| && SourceAgrees(w.handlers[i])
    ensures var h, w' := w.handlers[i], Next(w, Step(i, c));
      && w'.handlers == w.handlers[i := w'.handlers[i]] && SourceAgrees(w'.handlers[i])
      && w'.ledger == if h.pc.Writing? && AgreesAgain(h, c) && Attempted(w.ledger, h).Written?
                      then Committed(w.ledger, i, h, Attempted(w.ledger, h).row) else w.ledger
  {
  }

  lemma NextKeepsShown(w: World, a: Action)
    requires Inv(w) && AllShown(w)
    ensures AllShown(Next(w, a))
  {
    match a
    case Arrive(_) =>
    case StripeChange(sub, next) => ChangeKeepsShown(w.ledger, sub, next);
    case Step(i, c) =>
      if i < |w.handlers| {
        StepKeepsShown(w, i, c);
      }
  }

  lemma StepKeepsShown(w: World, i: nat, c: Choice)
    requires TableIsHistory(w.ledger) && AllShown(w) && i < |w.handlers| && HandlerOk(w.ledger, w.handlers[i])
    ensures AllShown(Next(w, Step(i, c)))
  {
    var h := w.handlers[i];
    AfterStep(w, i, c);
    if h.pc.Writing? && AgreesAgain(h, c) && Attempted(w.ledger, h).Written? {
      CommitKeepsShown(w.ledger, i, h, c);
    }
  }

  lemma {:induction false} RunKeepsShown(w: World, actions: seq<Action>)
    requires Inv(w) && AllShown(w)
    ensures AllShown(Run(w, actions))
    decreases |actions|
  {
    if actions != [] {
      NextKeepsInv(w, actions[0]);
      NextKeepsShown(w, actions[0]);
      RunKeepsShown(Next(w, actions[0]), actions[1..]);
    }
  }

  /**
   In every interleaving each commit stores, field by field, what the version of the subscription it was
   built from says: status, plan, cycle, price, period end and customer, with seats and everything Stripe
   is silent about kept from the row it replaced.
   */
  lemma CommitsShowStripe(w: World, actions: seq<Action>, i: nat)
    requires Start(w) && i < |Run(w, actions).ledger.history|
    ensures CommitShows(Run(w, actions).ledger, i)
  {
    StartHasInv(w);
    RunKeepsShown(w, actions);
  }

  // ---------------------------------------------------------------- a delivery left alone

  /** A delivery arrives and takes `n` turns while nothing else happens. */
  function Alone(w: World, d: Delivery, c: Choice, n: nat): World {
    if n == 0 then Next(w, Arrive(d)) else Next(Alone(w, d, c, n - 1), Step(|w.handlers|, c))
  }

  /** The checkout's subscription was created strictly after the pending, expired or canceled one of the row. */
  predicate MayTakeOver(l: Ledger, row: Option<Snapshot>, d: Delivery) {
    && d.kind == CheckoutCompleted
    && row.Some? && row.value.provider == Stripe && row.value.subscription.Some? && row.value.subscription.value != d.subscription
    && (row.value.status == Pending || row.value.status == Expired || row.value.status == Canceled)
    && Retrievable(l, d.subscription) && Retrievable(l, row.value.subscription.value)
    && 0 < Latest(l, row.value.subscription.value).created < Latest(l, d.subscription).created
  }

  /** The lookups name tenant `t`, and agree with what the retrieved subscription names. */
  predicate Names(d: Delivery, sub: StripeSubscription, c: Choice, t: Id) {
    && ResolveFirst(d, c) == Some(t)
    && Declarations(c.subscriptionBinding, c.customerBinding, OrElse(sub.metadata.tenant, d.metadata.tenant), Some(t)) == {t}
  }

  /** The turns before the write: one more when Stripe is asked about the subscription to be replaced. */
  function TurnsToWrite(l: Ledger, d: Delivery, t: Id): nat {
    if Retrievable(l, d.subscription) && d.kind == CheckoutCompleted && MayReplace(Get(l.rows, t), Latest(l, d.subscription), d.subscription)
    then 4 else 3
  }

  lemma AloneReads(w: World, d: Delivery, c: Choice, t: Id, turns: nat)
    requires turns == 2 && ResolveFirst(d, c) == Some(t)
    ensures var w' := Alone(w, d, c, turns);
      w' == w.(handlers := w.handlers + [Handler(d, t, 0, 0, Get(w.ledger.rows, t), Retrieving)])
  {
    var n := |w.handlers|;
    var w0 := Next(w, Arrive(d));
    var w1 := Next(w0, Step(n, c));
    assert w1.handlers == w.handlers + [Handler(d, t, 0, 0, None, Reading)];
    var w2 := Next(w1, Step(n, c));
    assert w2.handlers == w.handlers + [Handler(d, t, 0, 0, Get(w.ledger.rows, t), Retrieving)];
    assert Alone(w, d, c, turns - 2) == w0 && Alone(w, d, c, turns - 1) == w1;
  }

  /** The world with one more handler. */
  function Joined(w: World, h: Handler): World {
    w.(handlers := w.handlers + [h])
  }

  lemma JoinedAdvances(w: World, h: Handler, c: Choice)
    requires !h.pc.Writing? && !h.pc.Notifying?
    ensures Next(Joined(w, h), Step(|w.handlers|, c)) == Joined(w, Advance(w.ledger, h, c))
  {
    var w', i := Joined(w, h), |w.handlers|;
    assert w'.handlers[i := Advance(w.ledger, h, c)] == w.handlers + [Advance(w.ledger, h, c)];
  }

  /** The delivery as it stands before its write. */
  function Writer(l: Ledger, d: Delivery, t: Id, allow: bool): Handler
    requires Retrievable(l, d.subscription)
  {
    Handler(d, t, 0, 1, Get(l.rows, t), Writing(Latest(l, d.subscription), |l.stripe[d.subscription]| - 1, allow))
  }

  lemma AloneThree(w: World, d: Delivery, c: Choice, t: Id, n: nat)
    requires n == 3 && ResolveFirst(d, c) == Some(t) && Retrievable(w.ledger, d.subscription) && SameCustomer(d, Latest(w.ledger, d.subscription))
    ensures Alone(w, d, c, n) == Joined(w, Advance(w.ledger, Handler(d, t, 0, 0, Get(w.ledger.rows, t), Retrieving), c))
  {
    AloneReads(w, d, c, t, n - 1);
    AloneTurn(w, d, c, n - 1);
    JoinedAdvances(w, Handler(d, t, 0, 0, Get(w.ledger.rows, t), Retrieving), c);
  }

  lemma TurnJoined(w: World, d: Delivery, c: Choice, n: nat, h: Handler, h': Handler)
    requires Alone(w, d, c, n) == Joined(w, h) && !h.pc.Writing? && !h.pc.Notifying? && h' == Advance(w.ledger, h, c)
    ensures Alone(w, d, c, n + 1) == Joined(w, h')
  {
    AloneTurn(w, d, c, n);
    JoinedAdvances(w, h, c);
  }

  lemma AloneRetrieves(w: World, d: Delivery, c: Choice, t: Id)
    requires ResolveFirst(d, c) == Some(t) && Retrievable(w.ledger, d.subscription) && SameCustomer(d, Latest(w.ledger, d.subscription))
    requires TurnsToWrite(w.ledger, d, t) == 4 ==> Retrievable(w.ledger, Get(w.ledger.rows, t).value.subscription.value)
    ensures Alone(w, d, c, TurnsToWrite(w.ledger, d, t))
         == Joined(w, Writer(w.ledger, d, t, MayTakeOver(w.ledger, Get(w.ledger.rows, t), d)))
  {
    var n := TurnsToWrite(w.ledger, d, t);
    if n == 4 {
      AloneFour(w, d, c, t, n);
    } else {
      AloneStraight(w, d, c, t, n);
    }
  }

  lemma AloneStraight(w: World, d: Delivery, c: Choice, t: Id, n: nat)
    requires n == 3 && ResolveFirst(d, c) == Some(t) && Retrievable(w.ledger, d.subscription) && SameCustomer(d, Latest(w.ledger, d.subscription))
    requires TurnsToWrite(w.ledger, d, t) == 3
    ensures Alone(w, d, c, n) == Joined(w, Writer(w.ledger, d, t, MayTakeOver(w.ledger, Get(w.ledger.rows, t), d)))
  {
    AloneThree(w, d, c, t, n);
    RetrievedAlone(w.ledger, Handler(d, t, 0, 0, Get(w.ledger.rows, t), Retrieving), c);
  }

  lemma AloneFour(w: World, d: Delivery, c: Choice, t: Id, n: nat)
    requires n == 4 && ResolveFirst(d, c) == Some(t) && Retrievable(w.ledger, d.subscription) && SameCustomer(d, Latest(w.ledger, d.subscription))
    requires TurnsToWrite(w.ledger, d, t) == 4 && Retrievable(w.ledger, Get(w.ledger.rows, t).value.subscription.value)
    ensures Alone(w, d, c, n) == Joined(w, Writer(w.ledger, d, t, MayTakeOver(w.ledger, Get(w.ledger.rows, t), d)))
  {
    var h := Handler(d, t, 0, 0, Get(w.ledger.rows, t), Retrieving);
    AloneThree(w, d, c, t, n - 1);
    Compared(w.ledger, h, c);
    TurnJoined(w, d, c, n - 1, Advance(w.ledger, h, c), Writer(w.ledger, d, t, MayTakeOver(w.ledger, Get(w.ledger.rows, t), d)));
  }

  lemma RetrievedAlone(l: Ledger, h: Handler, c: Choice)
    requires h.pc.Retrieving? && Retrievable(l, h.delivery.subscription) && SameCustomer(h.delivery, Latest(l, h.delivery.subscription))
    requires !(h.delivery.kind == CheckoutCompleted && MayReplace(h.expected, Latest(l, h.delivery.subscription), h.delivery.subscription))
    ensures !MayTakeOver(l, h.expected, h.delivery)
    ensures Advance(l, h, c)
         == h.(retrievals := h.retrievals + 1, pc := Writing(Latest(l, h.delivery.subscription), |l.stripe[h.delivery.subscription]| - 1, false))
  {
  }

  lemma Compared(l: Ledger, h: Handler, c: Choice)
    requires h.pc.Retrieving? && Retrievable(l, h.delivery.subscription) && SameCustomer(h.delivery, Latest(l, h.delivery.subscription))
    requires h.delivery.kind == CheckoutCompleted && MayReplace(h.expected, Latest(l, h.delivery.subscription), h.delivery.subscription)
    requires Retrievable(l, h.expected.value.subscription.value)
    ensures var h' := Advance(l, h, c);
      h'.pc.Comparing?
      && Advance(l, h', c)
         == h.(retrievals := h.retrievals + 1,
               pc := Writing(Latest(l, h.delivery.subscription), |l.stripe[h.delivery.subscription]| - 1, MayTakeOver(l, h.expected, h.delivery)))
  {
  }

  lemma AloneWrites(w: World, d: Delivery, c: Choice, t: Id, allow: bool)
    requires Retrievable(w.ledger, d.subscription) && Names(d, Latest(w.ledger, d.subscription), c, t)
    requires allow || RowAdmits(Get(w.ledger.rows, t), d, Latest(w.ledger, d.subscription))
    ensures var w'' := Next(Joined(w, Writer(w.ledger, d, t, allow)), Step(|w.handlers|, c));
      && w''.handlers[|w.handlers|].pc.Notifying? && |w''.handlers| == |w.handlers| + 1
      && |w''.ledger.history| == |w.ledger.history| + 1 && w''.ledger.history[..|w.ledger.history|] == w.ledger.history
      && w''.ledger.history[|w.ledger.history|].tenant == t && w''.ledger.history[|w.ledger.history|].delivery == d
      && w''.ledger.history[|w.ledger.history|].version == |w.ledger.stripe[d.subscription]| - 1
  {
    var h := Writer(w.ledger, d, t, allow);
    assert AgreesAgain(h, c);
    assert Attempted(w.ledger, h).Written?;
    NextIsWrote(Joined(w, h), |w.handlers|, c);
  }

  /**
   From every state, a delivery that nothing disturbs is applied: if its tenant is named without contradiction,
   its customer agrees with Stripe's, and the row admits it or may be taken over, it commits Stripe's latest
   version for that tenant and ends applied within six turns.
   */
  lemma UndisturbedDeliveryIsApplied(w: World, d: Delivery, c: Choice, t: Id)
    requires c.auditStored && Retrievable(w.ledger, d.subscription)
    requires SameCustomer(d, Latest(w.ledger, d.subscription)) && Names(d, Latest(w.ledger, d.subscription), c, t)
    requires RowAdmits(Get(w.ledger.rows, t), d, Latest(w.ledger, d.subscription)) || MayTakeOver(w.ledger, Get(w.ledger.rows, t), d)
    ensures var n := TurnsToWrite(w.ledger, d, t) + 2; var w', i := Alone(w, d, c, n), |w.ledger.history|;
      && n <= 6
      && |w'.handlers| == |w.handlers| + 1 && w'.handlers[|w.handlers|].pc == Done(Applied)
      && |w'.ledger.history| == i + 1 && w'.ledger.history[..i] == w.ledger.history
      && w'.ledger.history[i].tenant == t && w'.ledger.history[i].delivery == d
      && w'.ledger.history[i].version == |w.ledger.stripe[d.subscription]| - 1
  {
    var k := TurnsToWrite(w.ledger, d, t);
    AloneRetrieves(w, d, c, t);
    AloneWrites(w, d, c, t, MayTakeOver(w.ledger, Get(w.ledger.rows, t), d));
    AloneTurn(w, d, c, k);
    AloneTurn(w, d, c, k + 1);
    AloneNotifies(Alone(w, d, c, k + 1), |w.handlers|, c);
  }

  lemma AloneTurn(w: World, d: Delivery, c: Choice, n: nat)
    ensures Alone(w, d, c, n + 1) == Next(Alone(w, d, c, n), Step(|w.handlers|, c))
  {
  }

  lemma AloneNotifies(w: World, i: nat, c: Choice)
    requires i < |w.handlers| && w.handlers[i].pc.Notifying? && c.auditStored
    ensures var w' := Next(w, Step(i, c)); w'.ledger == w.ledger && |w'.handlers| == |w.handlers| && w'.handlers[i].pc == Done(Applied)
  {
  }

  // ---------------------------------------------------------------- convergence

  ghost predicate Settled(w: World, i: nat, sub: Id, versions: seq<StripeSubscription>) {
    && i < |w.handlers| && w.handlers[i].delivery.subscription == sub
    && (if sub in w.ledger.stripe then w.ledger.stripe[sub] else []) == versions
    && (w.handlers[i].pc.Comparing? || w.handlers[i].pc.Writing? ==> w.handlers[i].pc.version == |versions| - 1)
    && (forall k :: 0 <= k < |w.ledger.history| && w.ledger.history[k].author == i ==>
          w.ledger.history[k].version == |versions| - 1 && w.ledger.history[k].subscription == sub)
  }

  predicate Quiet(actions: seq<Action>, sub: Id) {
    forall k :: 0 <= k < |actions| && actions[k].StripeChange? ==> actions[k].subscription != sub
  }

  lemma StaysSettled(w: World, a: Action, i: nat, sub: Id, versions: seq<StripeSubscription>)
    requires Settled(w, i, sub, versions)
    requires a.StripeChange? ==> a.subscription != sub
    ensures Settled(Next(w, a), i, sub, versions)
  {
    if a.Step? && a.handler < |w.handlers| {
      var h := w.handlers[a.handler];
      if h.pc.Writing? && AgreesAgain(h, a.choice) && Attempted(w.ledger, h).Written? {
        NextIsWrote(w, a.handler, a.choice);
        WroteStaysSettled(w, a.handler, i, sub, versions);
      } else {
        TurnStaysSettled(w, a.handler, a.choice, i, sub, versions);
      }
    }
  }

  lemma WroteStaysSettled(w: World, j: nat, i: nat, sub: Id, versions: seq<StripeSubscription>)
    requires Settled(w, i, sub, versions) && j < |w.handlers| && w.handlers[j].pc.Writing? && Attempted(w.ledger, w.handlers[j]).Written?
    ensures Settled(Wrote(w, j), i, sub, versions)
  {
  }

  lemma TurnStaysSettled(w: World, j: nat, c: Choice, i: nat, sub: Id, versions: seq<StripeSubscription>)
    requires Settled(w, i, sub, versions) && j < |w.handlers|
    requires !(w.handlers[j].pc.Writing? && AgreesAgain(w.handlers[j], c) && Attempted(w.ledger, w.handlers[j]).Written?)
    ensures Settled(Next(w, Step(j, c)), i, sub, versions)
  {
    assert Next(w, Step(j, c)).ledger == w.ledger;
  }

  lemma {:induction false} QuietRunStaysSettled(w: World, actions: seq<Action>, i: nat, sub: Id, versions: seq<StripeSubscription>)
    requires Settled(w, i, sub, versions) && Quiet(actions, sub)
    ensures Settled(Run(w, actions), i, sub, versions)
    decreases |actions|
  {
    if actions != [] {
      StaysSettled(w, actions[0], i, sub, versions);
      assert forall k :: 0 <= k < |actions[1..]| ==> actions[1..][k] == actions[k + 1];
      QuietRunStaysSettled(Next(w, actions[0]), actions[1..], i, sub, versions);
    }
  }

  /**
   Duplicated and reordered deliveries converge: if a delivery arrives after Stripe's last change of
   its subscription and commits, then whatever older deliveries still do, the tenant's row shows that
   latest state for as long as it holds this subscription.
   */
  lemma LateDeliveryConverges(w: World, d: Delivery, actions: seq<Action>, k: nat)
    requires Inv(w) && Quiet(actions, d.subscription)
    requires var w' := Run(Next(w, Arrive(d)), actions);
      k < |w'.ledger.history| && w'.ledger.history[k].author == |w.handlers|
    ensures var l := Run(Next(w, Arrive(d)), actions).ledger;
      var t := l.history[k].tenant;
      && t in l.rows
      && (l.rows[t].subscription == Some(d.subscription) ==>
            Retrievable(l, d.subscription) && ShowsStatus(Latest(l, d.subscription).status, l.rows[t].status))
  {
    var i, w0 := |w.handlers|, Next(w, Arrive(d));
    var versions := if d.subscription in w.ledger.stripe then w.ledger.stripe[d.subscription] else [];
    NextKeepsInv(w, Arrive(d));
    RunKeepsInv(w0, actions);
    assert Settled(w0, i, d.subscription, versions) by {
      assert OneWriteEach(w.ledger.history, w.handlers);
    }
    QuietRunStaysSettled(w0, actions, i, d.subscription, versions);
    LatestStays(Run(w0, actions).ledger, k, d.subscription);
  }

  /** A commit built from the latest version leaves the row at that version from then on. */
  lemma LatestStays(l: Ledger, k: nat, sub: Id)
    requires TableIsHistory(l) && FromStripe(l) && VersionsMonotone(l.history)
    requires k < |l.history| && l.history[k].subscription == sub
    requires sub in l.stripe && l.history[k].version == |l.stripe[sub]| - 1
    ensures var t := l.history[k].tenant;
      && t in l.rows
      && (l.rows[t].subscription == Some(sub) ==>
            Retrievable(l, sub) && ShowsStatus(Latest(l, sub).status, l.rows[t].status))
  {
    StatusIsShown(Latest(l, sub).status);
    var t := l.history[k].tenant;
    LastCommitIsRow(l.initial, l.history, t, k);
    var m :| k <= m < |l.history| && l.history[m].tenant == t && RowAfter(l.initial, l.history, t) == Some(l.history[m].after);
    assert Get(l.rows, t) == RowAfter(l.initial, l.history, t);
    assert CommitFromStripe(l, l.history[m]) && CommitFromStripe(l, l.history[k]);
  }

  // ---------------------------------------------------------------- notices

  /** Status edges of kind `n` in the tenants' committed histories. */
  function Edges(initial: map<Id, Snapshot>, history: seq<Commit>, n: Notice): nat
    decreases |history|
  {
    if history == [] then 0
    else
      var earlier, last := history[..|history| - 1], history[|history| - 1];
      Edges(initial, earlier, n)
      + (if Announces(n, StatusOf(RowAfter(initial, earlier, last.tenant)), last.after.status) then 1 else 0)
  }

  function SentCount(sent: seq<Sent>, n: Notice): nat
    decreases |sent|
  {
    if sent == [] then 0 else SentCount(sent[..|sent| - 1], n) + (if sent[|sent| - 1].notice == n then 1 else 0)
  }

  /** The handler has committed an edge whose notice is still to come, or was lost with the audit row. */
  predicate Unsent(h: Handler, n: Notice) {
    h.pc == Notifying(Some(n)) || h.pc == Done(AuditFailed(Some(n)))
  }

  function UnsentCount(handlers: seq<Handler>, n: Notice): nat
    decreases |handlers|
  {
    if handlers == [] then 0
    else UnsentCount(handlers[..|handlers| - 1], n) + (if Unsent(handlers[|handlers| - 1], n) then 1 else 0)
  }

  lemma {:induction false} UnsentAfterUpdate(handlers: seq<Handler>, i: nat, h: Handler, n: Notice)
    requires i < |handlers|
    ensures UnsentCount(handlers[i := h], n)
         == UnsentCount(handlers, n) - (if Unsent(handlers[i], n) then 1 else 0) + (if Unsent(h, n) then 1 else 0)
    decreases |handlers|
  {
    var m := |handlers| - 1;
    if i == m {
      assert handlers[i := h][..m] == handlers[..m];
    } else {
      UnsentAfterUpdate(handlers[..m], i, h, n);
      assert handlers[i := h][..m] == handlers[..m][i := h];
    }
  }

  predicate NoticesBalance(w: World, n: Notice) {
    Edges(w.ledger.initial, w.ledger.history, n) == SentCount(w.sent, n) + UnsentCount(w.handlers, n)
  }

  lemma NextKeepsBalance(w: World, a: Action, n: Notice)
    requires TableIsHistory(w.ledger) && NoticesBalance(w, n)
    ensures NoticesBalance(Next(w, a), n)
  {
    var w' := Next(w, a);
    match a
    case Arrive(d) => assert w'.handlers[..|w.handlers|] == w.handlers;
    case StripeChange(sub, next) => ChangeGrows(w.ledger, sub, next);
    case Step(i, c) =>
      if i < |w.handlers| {
        StepKeepsBalance(w, i, c, n);
      }
  }

  lemma StepKeepsBalance(w: World, i: nat, c: Choice, n: Notice)
    requires TableIsHistory(w.ledger) && NoticesBalance(w, n) && i < |w.handlers|
    ensures NoticesBalance(Next(w, Step(i, c)), n)
  {
    var w', h := Next(w, Step(i, c)), w.handlers[i];
    UnsentAfterUpdate(w.handlers, i, w'.handlers[i], n);
    if h.pc.Writing? && AgreesAgain(h, c) {
      WriteKeepsBalance(w, i, c, n);
    } else {
      AdvanceOwes(w.ledger, h, c, n);
      if w'.sent != w.sent {
        assert w'.sent[..|w.sent|] == w.sent;
      }
    }
  }

  lemma AdvanceOwes(l: Ledger, h: Handler, c: Choice, n: Notice)
    ensures Unsent(Advance(l, h, c), n) == (Unsent(h, n) && !(h.pc.Notifying? && c.auditStored))
  {
  }

  lemma WriteKeepsBalance(w: World, i: nat, c: Choice, n: Notice)
    requires TableIsHistory(w.ledger) && NoticesBalance(w, n) && i < |w.handlers|
    requires w.handlers[i].pc.Writing? && AgreesAgain(w.handlers[i], c)
    ensures NoticesBalance(Next(w, Step(i, c)), n)
  {
    var w', h, m := Next(w, Step(i, c)), w.handlers[i], Attempted(w.ledger, w.handlers[i]);
    UnsentAfterUpdate(w.handlers, i, w'.handlers[i], n);
    if m.Written? {
      EdgesAfterCommit(w.ledger, i, h, m.row, n);
      NoticeIsEdge(StatusOf(m.previous), m.row.status, n);
    }
  }

  lemma EdgesAfterCommit(l: Ledger, i: nat, h: Handler, row: Snapshot, n: Notice)
    requires TableIsHistory(l) && h.pc.Writing?
    ensures Edges(l.initial, Committed(l, i, h, row).history, n)
         == Edges(l.initial, l.history, n) + (if Announces(n, StatusOf(Get(l.rows, h.tenant)), row.status) then 1 else 0)
  {
    var history := Committed(l, i, h, row).history;
    assert history[..|l.history|] == l.history;
  }

  lemma NoticeIsEdge(previous: Option<Status>, next: Status, n: Notice)
    ensures NoticeFor(previous, next) == Some(n) <==> Announces(n, previous, next)
  {
  }

  lemma {:induction false} RunKeepsBalance(w: World, actions: seq<Action>, n: Notice)
    requires Inv(w) && NoticesBalance(w, n)
    ensures NoticesBalance(Run(w, actions), n)
    decreases |actions|
  {
    if actions != [] {
      NextKeepsInv(w, actions[0]);
      NextKeepsBalance(w, actions[0], n);
      RunKeepsBalance(Next(w, actions[0]), actions[1..], n);
    }
  }

  /**
   In every run each notice kind has been attempted once per committed status edge it announces,
   except for edges whose handler has not got there yet or has lost its audit row: refused writes,
   retries and duplicates announce nothing.
   */
  lemma NoticesMatchEdges(w: World, actions: seq<Action>, n: Notice)
    requires Start(w)
    ensures var w' := Run(w, actions);
      Edges(w'.ledger.initial, w'.ledger.history, n) == SentCount(w'.sent, n) + UnsentCount(w'.handlers, n)
  {
    StartHasInv(w);
    RunKeepsBalance(w, actions, n);
  }
}
