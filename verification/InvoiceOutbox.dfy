/**
 The idempotent invoice e-mail outbox: the transaction inside `sendEmail`
 (backend/src/application/services/invoice-service.ts). Sends of one (tenant, idempotency key) pair
 are serialised by an advisory lock, so a run is a sequence of whole transactions.
 */
module InvoiceOutbox {
  import opened Base

  datatype DeliveryStatus = DeliveryPending | DeliverySent | DeliveryFailed

  datatype Delivery = Delivery(invoice: Id, recipient: Id, status: DeliveryStatus)

  datatype QueueKind = InvoiceEmail | OtherEmail

  /** `delivery` and `command` are the references kept in the queue row's metadata. */
  datatype QueueRow = QueueRow(tenant: Id, kind: QueueKind, recipient: Id, delivery: Id, command: Id, status: nat)

  /** `hash` digests invoice, recipient, subject and text. */
  datatype EmailRequest = EmailRequest(hash: Id, delivery: Id, queued: Id)

  type RequestKey = (Id, Id)  // tenant and idempotency key

  datatype Outbox = Outbox(
    requests: map<RequestKey, EmailRequest>,
    deliveries: map<Id, Delivery>,
    queue: map<Id, QueueRow>)

  datatype Command = Command(tenant: Id, idempotencyKey: Id, hash: Id, invoice: Id, recipient: Id, newDelivery: Id, newQueued: Id)

  datatype Reply =
    | Enqueued(delivery: Id, queued: Id, replayed: bool)
    | KeyReused
    | OutboxInconsistent
    | IdClash  // a generated id already exists: the transaction rolls back

  function KeyOf(c: Command): RequestKey {
    (c.tenant, c.idempotencyKey)
  }

  function ReplyTo(o: Outbox, c: Command): Reply {
    if KeyOf(c) in o.requests then
      var prior := o.requests[KeyOf(c)];
      if prior.hash != c.hash then KeyReused
      else if prior.queued in o.queue && o.queue[prior.queued].tenant == c.tenant && o.queue[prior.queued].kind == InvoiceEmail
        then Enqueued(prior.delivery, prior.queued, true)
      else OutboxInconsistent
    else if c.newDelivery in o.deliveries || c.newQueued in o.queue then IdClash
    else Enqueued(c.newDelivery, c.newQueued, false)
  }

  function AfterSend(o: Outbox, c: Command): Outbox {
    if ReplyTo(o, c) == Enqueued(c.newDelivery, c.newQueued, false) && KeyOf(c) !in o.requests then
      Outbox(o.requests[KeyOf(c) := EmailRequest(c.hash, c.newDelivery, c.newQueued)],
             o.deliveries[c.newDelivery := Delivery(c.invoice, c.recipient, DeliveryPending)],
             o.queue[c.newQueued := QueueRow(c.tenant, InvoiceEmail, c.recipient, c.newDelivery, c.idempotencyKey, 0)])
    else o
  }

  datatype Event =
    | Send(command: Command)
    | QueueProgress(id: Id, status: nat)                    // the worker claims, sends or fails a row
    | DeliveryProgress(id: Id, delivered: DeliveryStatus)
    | OtherMail(id: Id, row: QueueRow)                      // any other kind of e-mail is queued

  function Apply(o: Outbox, e: Event): Outbox {
    match e
    case Send(c) => AfterSend(o, c)
    case QueueProgress(id, status) => if id in o.queue then o.(queue := o.queue[id := o.queue[id].(status := status)]) else o
    case DeliveryProgress(id, status) =>
      if id in o.deliveries then o.(deliveries := o.deliveries[id := o.deliveries[id].(status := status)]) else o
    case OtherMail(id, row) => if id !in o.queue && row.kind == OtherEmail then o.(queue := o.queue[id := row]) else o
  }

  function Run(o: Outbox, events: seq<Event>): Outbox
    decreases |events|
  {
    if events == [] then o else Run(Apply(o, events[0]), events[1..])
  }

  predicate Empty(o: Outbox) {
    o.requests == map[] && o.deliveries == map[] && forall id :: id in o.queue ==> o.queue[id].kind == OtherEmail
  }

  // ---------------------------------------------------------------- the bijection

  function InvoiceRows(o: Outbox): set<Id> {
    set id | id in o.queue && o.queue[id].kind == InvoiceEmail
  }

  /** Each request owns one delivery and one queue row that point back to it. */
  predicate Owns(o: Outbox, k: RequestKey)
    requires k in o.requests
  {
    var r := o.requests[k];
    && r.delivery in o.deliveries
    && r.queued in o.queue && o.queue[r.queued].kind == InvoiceEmail
    && o.queue[r.queued].tenant == k.0 && o.queue[r.queued].command == k.1 && o.queue[r.queued].delivery == r.delivery
    && o.queue[r.queued].recipient == o.deliveries[r.delivery].recipient
  }

  predicate AllOwn(o: Outbox) {
    forall k :: k in o.requests ==> Owns(o, k)
  }

  predicate DeliveriesApart(requests: map<RequestKey, EmailRequest>) {
    forall j, k :: j in requests && k in requests && requests[j].delivery == requests[k].delivery ==> j == k
  }

  predicate QueuedApart(requests: map<RequestKey, EmailRequest>) {
    forall j, k :: j in requests && k in requests && requests[j].queued == requests[k].queued ==> j == k
  }

  predicate DeliveriesOwned(o: Outbox) {
    forall id :: id in o.deliveries ==> exists k :: k in o.requests && o.requests[k].delivery == id
  }

  predicate QueuedOwned(o: Outbox) {
    forall id :: id in InvoiceRows(o) ==> exists k :: k in o.requests && o.requests[k].queued == id
  }

  predicate Inv(o: Outbox) {
    AllOwn(o) && DeliveriesApart(o.requests) && QueuedApart(o.requests) && DeliveriesOwned(o) && QueuedOwned(o)
  }

  /** The send stores three new rows. */
  predicate Stores(o: Outbox, c: Command) {
    KeyOf(c) !in o.requests && c.newDelivery !in o.deliveries && c.newQueued !in o.queue
  }

  lemma StoredOwns(o: Outbox, c: Command)
    requires AllOwn(o) && Stores(o, c)
    ensures AllOwn(AfterSend(o, c))
  {
    var o' := AfterSend(o, c);
    forall k | k in o'.requests ensures Owns(o', k) {
      if k != KeyOf(c) {
        assert Owns(o, k);
      }
    }
  }

  lemma StoredApart(o: Outbox, c: Command)
    requires AllOwn(o) && DeliveriesApart(o.requests) && QueuedApart(o.requests) && Stores(o, c)
    ensures DeliveriesApart(AfterSend(o, c).requests) && QueuedApart(AfterSend(o, c).requests)
  {
    forall k | k in o.requests ensures o.requests[k].delivery != c.newDelivery && o.requests[k].queued != c.newQueued {
      assert Owns(o, k);
    }
  }

  lemma StoredDeliveriesOwned(o: Outbox, c: Command)
    requires DeliveriesOwned(o) && Stores(o, c)
    ensures DeliveriesOwned(AfterSend(o, c))
  {
    var o' := AfterSend(o, c);
    assert o'.requests[KeyOf(c)].delivery == c.newDelivery;
    forall id | id in o'.deliveries ensures exists k :: k in o'.requests && o'.requests[k].delivery == id {
      if id != c.newDelivery {
        var k :| k in o.requests && o.requests[k].delivery == id;
        assert o'.requests[k] == o.requests[k];
      }
    }
  }

  lemma StoredQueuedOwned(o: Outbox, c: Command)
    requires QueuedOwned(o) && Stores(o, c)
    ensures QueuedOwned(AfterSend(o, c))
  {
    var o' := AfterSend(o, c);
    assert o'.requests[KeyOf(c)].queued == c.newQueued;
    forall id | id in InvoiceRows(o') ensures exists k :: k in o'.requests && o'.requests[k].queued == id {
      if id != c.newQueued {
        assert id in InvoiceRows(o);
        var k :| k in o.requests && o.requests[k].queued == id;
        assert o'.requests[k] == o.requests[k];
      }
    }
  }

  lemma SendKeepsInv(o: Outbox, c: Command)
    requires Inv(o)
    ensures Inv(AfterSend(o, c))
  {
    if Stores(o, c) {
      StoredOwns(o, c);
      StoredApart(o, c);
      StoredDeliveriesOwned(o, c);
      StoredQueuedOwned(o, c);
    }
  }

  /** Everything but a send leaves requests and ownership alone. */
  lemma OthersKeepOwnership(o: Outbox, e: Event)
    requires AllOwn(o) && !e.Send?
    ensures AllOwn(Apply(o, e)) && Apply(o, e).requests == o.requests
    ensures Apply(o, e).deliveries.Keys == o.deliveries.Keys && InvoiceRows(Apply(o, e)) == InvoiceRows(o)
  {
    var o' := Apply(o, e);
    forall k | k in o'.requests ensures Owns(o', k) {
      assert Owns(o, k);
    }
  }

  lemma ApplyKeepsInv(o: Outbox, e: Event)
    requires Inv(o)
    ensures Inv(Apply(o, e))
  {
    if e.Send? {
      SendKeepsInv(o, e.command);
    } else {
      OthersKeepOwnership(o, e);
    }
  }

  lemma {:induction false} RunKeepsInv(o: Outbox, events: seq<Event>)
    requires Inv(o)
    ensures Inv(Run(o, events))
    decreases |events|
  {
    if events != [] {
      ApplyKeepsInv(o, events[0]);
      RunKeepsInv(Apply(o, events[0]), events[1..]);
    }
  }

  // ---------------------------------------------------------------- theorems

  lemma {:induction false} BijectionCounts(keys: set<RequestKey>, owned: map<RequestKey, Id>, ids: set<Id>)
    requires keys == owned.Keys
    requires forall k :: k in keys ==> owned[k] in ids
    requires forall j, k :: j in keys && k in keys && owned[j] == owned[k] ==> j == k
    requires forall id :: id in ids ==> exists k :: k in keys && owned[k] == id
    ensures |keys| == |ids|
    decreases |keys|
  {
    if keys == {} {
      assert ids == {};
    } else {
      var k :| k in keys;
      forall id | id in ids - {owned[k]} ensures exists j :: j in keys - {k} && (owned - {k})[j] == id {
        var j :| j in keys && owned[j] == id;
        assert (owned - {k})[j] == id;
      }
      BijectionCounts(keys - {k}, owned - {k}, ids - {owned[k]});
    }
  }

  /** The (tenant, idempotency key) pairs of the sends a run answered with `Enqueued`. */
  function AcceptedKeys(o: Outbox, events: seq<Event>): set<RequestKey>
    decreases |events|
  {
    if events == [] then {}
    else
      (if events[0].Send? && ReplyTo(o, events[0].command).Enqueued? then {KeyOf(events[0].command)} else {})
      + AcceptedKeys(Apply(o, events[0]), events[1..])
  }

  lemma {:induction false} RequestsAreAccepted(o: Outbox, events: seq<Event>)
    ensures Run(o, events).requests.Keys == o.requests.Keys + AcceptedKeys(o, events)
    decreases |events|
  {
    if events != [] {
      RequestsAreAccepted(Apply(o, events[0]), events[1..]);
    }
  }

  /**
   Over any run, requests, deliveries and invoice queue rows stay in bijection with the distinct
   (tenant, key) pairs of the accepted sends: there are as many of each, and each delivery and each
   row is owned by exactly one request.
   */
  lemma OutboxIsABijection(o: Outbox, events: seq<Event>)
    requires Empty(o)
    ensures var o' := Run(o, events);
      && Inv(o')
      && o'.requests.Keys == AcceptedKeys(o, events)
      && |AcceptedKeys(o, events)| == |o'.deliveries.Keys| == |InvoiceRows(o')|
  {
    RunKeepsInv(o, events);
    RequestsAreAccepted(o, events);
    DeliveriesCounted(Run(o, events));
    InvoiceRowsCounted(Run(o, events));
  }

  lemma DeliveriesCounted(o: Outbox)
    requires AllOwn(o) && DeliveriesApart(o.requests) && DeliveriesOwned(o)
    ensures |o.requests.Keys| == |o.deliveries.Keys|
  {
    var owned := map k | k in o.requests :: o.requests[k].delivery;
    forall id | id in o.deliveries.Keys ensures exists k :: k in owned.Keys && owned[k] == id {
      var k :| k in o.requests && o.requests[k].delivery == id;
      assert owned[k] == id;
    }
    BijectionCounts(o.requests.Keys, owned, o.deliveries.Keys);
  }

  lemma InvoiceRowsCounted(o: Outbox)
    requires AllOwn(o) && QueuedApart(o.requests) && QueuedOwned(o)
    ensures |o.requests.Keys| == |InvoiceRows(o)|
  {
    var owned := map k | k in o.requests :: o.requests[k].queued;
    forall id | id in InvoiceRows(o) ensures exists k :: k in owned.Keys && owned[k] == id {
      var k :| k in o.requests && o.requests[k].queued == id;
      assert owned[k] == id;
    }
    BijectionCounts(o.requests.Keys, owned, InvoiceRows(o));
  }

  lemma {:induction false} RequestsAreForever(o: Outbox, events: seq<Event>, k: RequestKey)
    requires k in o.requests
    ensures k in Run(o, events).requests && Run(o, events).requests[k] == o.requests[k]
    decreases |events|
  {
    if events != [] {
      RequestsAreForever(Apply(o, events[0]), events[1..], k);
    }
  }

  /**
   After a send was accepted, whatever happens in between, a later send with the same tenant and key
   creates nothing: with the same hash it gets the original rows back, with another it is refused.
   */
  lemma RepliesAreIdempotent(o: Outbox, c: Command, events: seq<Event>, again: Command)
    requires Inv(o) && ReplyTo(o, c).Enqueued? && KeyOf(again) == KeyOf(c)
    ensures var o' := Run(AfterSend(o, c), events);
      && AfterSend(o', again) == o'
      && ReplyTo(o', again) == (if again.hash == c.hash then Enqueued(ReplyTo(o, c).delivery, ReplyTo(o, c).queued, true) else KeyReused)
  {
    var sent := AfterSend(o, c);
    SendKeepsInv(o, c);
    RunKeepsInv(sent, events);
    RequestsAreForever(sent, events, KeyOf(c));
    assert Owns(Run(sent, events), KeyOf(c));
  }

  // ---------------------------------------------------------------- what is stored

  /** The command that a run first accepts for a (tenant, key) pair. */
  function FirstAccepted(o: Outbox, events: seq<Event>, k: RequestKey): Option<Command>
    decreases |events|
  {
    if events == [] then None
    else if events[0].Send? && KeyOf(events[0].command) == k && ReplyTo(o, events[0].command).Enqueued? then Some(events[0].command)
    else FirstAccepted(Apply(o, events[0]), events[1..], k)
  }

  /** The rows of request `k` are those of command `c`: its invoice, its recipient, its tenant and its key. */
  predicate Carries(o: Outbox, k: RequestKey, c: Command) {
    && k in o.requests && o.requests[k].hash == c.hash
    && o.requests[k].delivery == c.newDelivery && o.requests[k].queued == c.newQueued
    && c.newDelivery in o.deliveries
    && o.deliveries[c.newDelivery].invoice == c.invoice && o.deliveries[c.newDelivery].recipient == c.recipient
    && c.newQueued in o.queue
    && o.queue[c.newQueued].tenant == c.tenant && o.queue[c.newQueued].kind == InvoiceEmail
    && o.queue[c.newQueued].recipient == c.recipient && o.queue[c.newQueued].delivery == c.newDelivery
    && o.queue[c.newQueued].command == c.idempotencyKey
  }

  /** A first send is stored as it is, waiting to be sent, and nothing else is touched. */
  lemma FirstSendIsPending(o: Outbox, c: Command)
    requires KeyOf(c) !in o.requests && ReplyTo(o, c).Enqueued?
    ensures var o' := AfterSend(o, c);
      && Carries(o', KeyOf(c), c)
      && o'.deliveries[c.newDelivery].status == DeliveryPending && o'.queue[c.newQueued].status == 0
      && o'.requests - {KeyOf(c)} == o.requests && o'.deliveries - {c.newDelivery} == o.deliveries && o'.queue - {c.newQueued} == o.queue
  {
  }

  lemma ApplyKeepsCarried(o: Outbox, e: Event, k: RequestKey, c: Command)
    requires Carries(o, k, c)
    ensures Carries(Apply(o, e), k, c)
  {
  }

  lemma {:induction false} CarriedForever(o: Outbox, events: seq<Event>, k: RequestKey, c: Command)
    requires Carries(o, k, c)
    ensures Carries(Run(o, events), k, c)
    decreases |events|
  {
    if events != [] {
      ApplyKeepsCarried(o, events[0], k, c);
      CarriedForever(Apply(o, events[0]), events[1..], k, c);
    }
  }

  lemma {:induction false} AcceptedIsCarried(o: Outbox, events: seq<Event>, k: RequestKey)
    requires k !in o.requests
    ensures k in Run(o, events).requests <==> FirstAccepted(o, events, k).Some?
    ensures FirstAccepted(o, events, k).Some? ==>
      KeyOf(FirstAccepted(o, events, k).value) == k && Carries(Run(o, events), k, FirstAccepted(o, events, k).value)
    decreases |events|
  {
    if events != [] {
      var e := events[0];
      if e.Send? && KeyOf(e.command) == k && ReplyTo(o, e.command).Enqueued? {
        FirstSendIsPending(o, e.command);
        CarriedForever(Apply(o, e), events[1..], k, e.command);
      } else {
        AcceptedIsCarried(Apply(o, e), events[1..], k);
      }
    }
  }

  /**
   Over every run, for every (tenant, key) pair: there is a request exactly when a send was accepted, and
   its delivery and queue row carry the invoice, recipient, tenant and key of the first one accepted.
   */
  lemma FirstSendIsStored(o: Outbox, events: seq<Event>, k: RequestKey)
    requires Empty(o)
    ensures k in Run(o, events).requests <==> FirstAccepted(o, events, k).Some?
    ensures FirstAccepted(o, events, k).Some? ==>
      KeyOf(FirstAccepted(o, events, k).value) == k && Carries(Run(o, events), k, FirstAccepted(o, events, k).value)
  {
    AcceptedIsCarried(o, events, k);
  }

  /**
   Over every run, the answer to the next send is decided by the first accepted one with its tenant and
   key: the same hash gets that one's rows back, another is refused, and without one the send is new.
   */
  lemma RepliesFollowFirstSend(o: Outbox, events: seq<Event>, c: Command)
    requires Empty(o)
    ensures var o' := Run(o, events); var first := FirstAccepted(o, events, KeyOf(c));
      ReplyTo(o', c)
      == if first.Some? then (if first.value.hash == c.hash then Enqueued(first.value.newDelivery, first.value.newQueued, true) else KeyReused)
         else if c.newDelivery in o'.deliveries || c.newQueued in o'.queue then IdClash
         else Enqueued(c.newDelivery, c.newQueued, false)
  {
    FirstSendIsStored(o, events, KeyOf(c));
  }

  /** Without deletions the inconsistent-outbox error cannot be reached. */
  lemma NeverInconsistent(o: Outbox, events: seq<Event>, c: Command)
    requires Empty(o)
    ensures ReplyTo(Run(o, events), c) != OutboxInconsistent
  {
    RunKeepsInv(o, events);
    var o' := Run(o, events);
    assert KeyOf(c) in o'.requests ==> Owns(o', KeyOf(c));
  }

  // ---------------------------------------------------------------- the service

  class InvoiceEmailService {
    var requests: map<RequestKey, EmailRequest>
    var deliveries: map<Id, Delivery>
    var queue: map<Id, QueueRow>

    ghost function State(): Outbox
      reads this
    {
      Outbox(requests, deliveries, queue)
    }

    constructor ()
      ensures Empty(State())
    {
      requests, deliveries, queue := map[], map[], map[];
    }

    /** The locked transaction of `sendEmail`. */
    method SendEmail(c: Command) returns (r: Reply)
      modifies this
      ensures r == ReplyTo(old(State()), c)
      ensures State() == AfterSend(old(State()), c)
      ensures r.KeyReused? || r.OutboxInconsistent? || r.IdClash? ==> State() == old(State())
      ensures r.Enqueued? && !r.replayed ==>
        Carries(State(), KeyOf(c), c) && deliveries[c.newDelivery].status == DeliveryPending
        && deliveries - {c.newDelivery} == old(deliveries) && queue - {c.newQueued} == old(queue)
    {
      var key := KeyOf(c);
      if key in requests {
        var prior := requests[key];
        if prior.hash != c.hash {
          return KeyReused;
        }
        if prior.queued !in queue || queue[prior.queued].tenant != c.tenant || queue[prior.queued].kind != InvoiceEmail {
          return OutboxInconsistent;
        }
        return Enqueued(prior.delivery, prior.queued, true);
      }
      if c.newDelivery in deliveries || c.newQueued in queue {
        return IdClash;
      }
      deliveries := deliveries[c.newDelivery := Delivery(c.invoice, c.recipient, DeliveryPending)];
      queue := queue[c.newQueued := QueueRow(c.tenant, InvoiceEmail, c.recipient, c.newDelivery, c.idempotencyKey, 0)];
      requests := requests[key := EmailRequest(c.hash, c.newDelivery, c.newQueued)];
      r := Enqueued(c.newDelivery, c.newQueued, false);
    }
  }
}
