/**
  The state shared by both provider services: the payments table, the webhook
  ledger (the dedup store keyed by provider and event id) and the order-service
  client whose `updatePaymentStatus` calls are kept as a notification log.
 */
module Payments {
  import opened Wrappers
  import opened Uuids

  type OrderId = Uuid

  datatype Provider = Stripe | Razorpay

  datatype PaymentStatus = Created | Pending | Paid | Failed

  /**
    A row of the payments table. `providerSessionId` is the Stripe checkout session,
    `providerOrderId` the Razorpay order, `providerPaymentId` the Stripe payment intent
    or the Razorpay payment; an unset column is None.
   */
  datatype Payment = Payment(
    orderId: OrderId,
    provider: Provider,
    status: PaymentStatus,
    providerSessionId: Option<string>,
    providerOrderId: Option<string>,
    providerPaymentId: Option<string>)

  /** A row of the webhook_events table. */
  datatype WebhookEvent = WebhookEvent(provider: Provider, eventId: string, payload: string)

  /** One `updatePaymentStatus(orderId, PaymentStatusUpdateRequest(status, referenceId))` call. */
  datatype Notification = Notification(orderId: OrderId, status: PaymentStatus, referenceId: string)

  /** What `getOrder` of the order service answers. */
  datatype OrderSummary = OrderSummary(id: OrderId, totalAmount: int, currency: string)

  /** The whole observable state of the engine. */
  datatype Tables = Tables(payments: seq<Payment>, ledger: seq<WebhookEvent>, notifications: seq<Notification>)

  /** The state after an operation, and what the operation returned or threw. */
  datatype Step<T> = Step(tables: Tables, outcome: Outcome<T>)

  /** A JSON body as Jackson reads it: unparseable, or the fields the handler reads (`asText`, "" when absent). */
  datatype Parse<T> = Malformed | Parsed(value: T)

  /** The message of `IncorrectResultSizeDataAccessException`, thrown by an Optional finder that matches several rows. */
  const NonUniqueResult := "query did not return a unique result"

  /** The message of the Feign error when the order service has no such order. */
  const OrderLookupFailed := "order-service: order not found"

  // ---------------------------------------------------------------- lookups

  /** The columns the repositories search the payments table by. */
  datatype Key =
    | ByOrderId(orderId: OrderId)
    | ByProviderSessionId(sessionId: string)
    | ByProviderPaymentId(paymentId: string)
    | ByProviderOrderId(providerOrderId: string)

  /** A row matches a key when that column holds the value; a null column matches nothing. */
  predicate Matches(p: Payment, k: Key) {
    match k
    case ByOrderId(o) => p.orderId == o
    case ByProviderSessionId(s) => p.providerSessionId == Some(s)
    case ByProviderPaymentId(s) => p.providerPaymentId == Some(s)
    case ByProviderOrderId(s) => p.providerOrderId == Some(s)
  }

  /** `findAll().stream().filter(...).findFirst()`: the first matching row in table order. */
  function FindFirst(ps: seq<Payment>, k: Key): (r: Option<nat>)
    ensures r.Some? ==> r.value < |ps| && Matches(ps[r.value], k)
    ensures r.Some? ==> forall j :: 0 <= j < r.value ==> !Matches(ps[j], k)
    ensures r.None? <==> forall j :: 0 <= j < |ps| ==> !Matches(ps[j], k)
  {
    if ps == [] then None
    else if Matches(ps[0], k) then Some(0)
    else match FindFirst(ps[1..], k)
      case None => None
      case Some(i) => Some(i + 1)
  }

  /** What a Spring Data finder returning Optional sees: no row, one row, or several (it throws). */
  datatype Found = NotFound | Unique(index: nat) | Ambiguous

  /** `findByOrderId`, `findByProviderSessionId`, `findByProviderPaymentId`. */
  function FindUnique(ps: seq<Payment>, k: Key): (r: Found)
    ensures r == NotFound <==> forall j :: 0 <= j < |ps| ==> !Matches(ps[j], k)
    ensures r.Unique? ==> r.index < |ps| && Matches(ps[r.index], k)
    ensures r.Unique? ==> forall j :: 0 <= j < |ps| && j != r.index ==> !Matches(ps[j], k)
    ensures r == Ambiguous <==> exists i, j :: 0 <= i < j < |ps| && Matches(ps[i], k) && Matches(ps[j], k)
  {
    match FindFirst(ps, k)
    case None => NotFound
    case Some(i) =>
      var rest := ps[i + 1..];
      match FindFirst(rest, k)
      case None =>
        assert forall j :: i < j < |ps| ==> ps[j] == rest[j - i - 1];
        Unique(i)
      case Some(j) =>
        assert ps[i + 1 + j] == rest[j];
        Ambiguous
  }

  /** The number of rows matching a key. */
  function Count(ps: seq<Payment>, k: Key): nat {
    if ps == [] then 0 else (if Matches(ps[0], k) then 1 else 0) + Count(ps[1..], k)
  }

  lemma {:induction false} CountAppend(ps: seq<Payment>, p: Payment, k: Key)
    ensures Count(ps + [p], k) == Count(ps, k) + (if Matches(p, k) then 1 else 0)
  {
    if ps != [] {
      assert (ps + [p])[1..] == ps[1..] + [p];
      CountAppend(ps[1..], p, k);
    }
  }

  lemma {:induction false} CountUpdate(ps: seq<Payment>, i: nat, p: Payment, k: Key)
    requires i < |ps|
    requires Matches(ps[i], k) == Matches(p, k)
    ensures Count(ps[i := p], k) == Count(ps, k)
  {
    if i > 0 {
      assert ps[i := p][1..] == ps[1..][i - 1 := p];
      CountUpdate(ps[1..], i - 1, p, k);
    }
  }

  lemma {:induction false} CountNone(ps: seq<Payment>, k: Key)
    requires forall j :: 0 <= j < |ps| ==> !Matches(ps[j], k)
    ensures Count(ps, k) == 0
  {
    if ps != [] {
      CountNone(ps[1..], k);
    }
  }

  lemma {:induction false} CountOnly(ps: seq<Payment>, i: nat, k: Key)
    requires i < |ps| && Matches(ps[i], k)
    requires forall j :: 0 <= j < |ps| && j != i ==> !Matches(ps[j], k)
    ensures Count(ps, k) == 1
  {
    if i == 0 {
      CountNone(ps[1..], k);
    } else {
      CountOnly(ps[1..], i - 1, k);
    }
  }

  lemma {:induction false} CountAtLeastTwo(ps: seq<Payment>, i: nat, j: nat, k: Key)
    requires i < j < |ps| && Matches(ps[i], k) && Matches(ps[j], k)
    ensures Count(ps, k) >= 2
  {
    if i == 0 {
      CountAtLeastOne(ps[1..], j - 1, k);
    } else {
      CountAtLeastTwo(ps[1..], i - 1, j - 1, k);
    }
  }

  lemma {:induction false} CountAtLeastOne(ps: seq<Payment>, i: nat, k: Key)
    requires i < |ps| && Matches(ps[i], k)
    ensures Count(ps, k) >= 1
  {
    if i > 0 {
      CountAtLeastOne(ps[1..], i - 1, k);
    }
  }

  /** A finder finds nothing, one row or throws exactly as the table holds zero, one or several matching rows. */
  lemma FindUniqueCount(ps: seq<Payment>, k: Key)
    ensures FindUnique(ps, k) == NotFound <==> Count(ps, k) == 0
    ensures FindUnique(ps, k).Unique? <==> Count(ps, k) == 1
    ensures FindUnique(ps, k) == Ambiguous <==> Count(ps, k) >= 2
  {
    match FindUnique(ps, k)
    case NotFound => CountNone(ps, k);
    case Unique(i) => CountOnly(ps, i, k);
    case Ambiguous =>
      var i, j :| 0 <= i < j < |ps| && Matches(ps[i], k) && Matches(ps[j], k);
      CountAtLeastTwo(ps, i, j, k);
  }

  // ---------------------------------------------------------------- ledger

  /** `existsByProviderAndEventId`. */
  predicate Recorded(ledger: seq<WebhookEvent>, provider: Provider, eventId: string) {
    exists i :: 0 <= i < |ledger| && ledger[i].provider == provider && ledger[i].eventId == eventId
  }

  /** The unique constraint uk_webhook_provider_event on (provider, eventId). */
  predicate UniqueEventKeys(ledger: seq<WebhookEvent>) {
    forall i, j :: 0 <= i < j < |ledger| ==>
      !(ledger[i].provider == ledger[j].provider && ledger[i].eventId == ledger[j].eventId)
  }

  /** Appending an event whose key is not yet recorded keeps the keys unique and records it. */
  lemma RecordNewKeepsUnique(ledger: seq<WebhookEvent>, e: WebhookEvent)
    requires UniqueEventKeys(ledger)
    requires !Recorded(ledger, e.provider, e.eventId)
    ensures UniqueEventKeys(ledger + [e])
    ensures Recorded(ledger + [e], e.provider, e.eventId)
  {
    var l := ledger + [e];
    assert l[|ledger|] == e;
    forall i, j | 0 <= i < j < |l|
      ensures !(l[i].provider == l[j].provider && l[i].eventId == l[j].eventId)
    {
      if j == |ledger| {
        assert l[i] == ledger[i];
      }
    }
  }

  /** Appending an event under another key leaves a key that was not recorded unrecorded. */
  lemma AppendKeepsUnrecorded(ledger: seq<WebhookEvent>, e: WebhookEvent, provider: Provider, eventId: string)
    requires !Recorded(ledger, provider, eventId)
    requires !(e.provider == provider && e.eventId == eventId)
    ensures !Recorded(ledger + [e], provider, eventId)
  {
    var l := ledger + [e];
    forall k | 0 <= k < |l|
      ensures !(l[k].provider == provider && l[k].eventId == eventId)
    {
      if k < |ledger| {
        assert l[k] == ledger[k];
      }
    }
  }

  // ---------------------------------------------------------------- shared transitions

  /** The row after a successful capture: PAID with the provider's payment id. */
  function Settled(p: Payment, paymentId: string): Payment {
    p.(status := Paid, providerPaymentId := Some(paymentId))
  }

  /** Save row i as settled and tell the order service it is PAID with that reference. */
  function SettleAndNotify(t: Tables, i: nat, paymentId: string): (r: Tables)
    requires i < |t.payments|
  {
    t.(payments := t.payments[i := Settled(t.payments[i], paymentId)],
       notifications := t.notifications + [Notification(t.payments[i].orderId, Paid, paymentId)])
  }

  // ---------------------------------------------------------------- the stores as objects

  /** The payments and webhook_events tables behind PaymentRepository and WebhookEventRepository. */
  class PaymentRepositories {
    var payments: seq<Payment>
    var ledger: seq<WebhookEvent>

    constructor ()
      ensures payments == [] && ledger == []
    {
      payments := [];
      ledger := [];
    }

    /** `paymentRepository.save` of a new row; returns its position. */
    method Insert(p: Payment) returns (index: nat)
      modifies this
      ensures payments == old(payments) + [p] && ledger == old(ledger)
      ensures index == old(|payments|)
    {
      index := |payments|;
      payments := payments + [p];
    }

    /** `paymentRepository.save` of an existing row. */
    method Update(index: nat, p: Payment)
      requires index < |payments|
      modifies this
      ensures payments == old(payments)[index := p] && ledger == old(ledger)
    {
      payments := payments[index := p];
    }

    /** `webhookEventRepository.save`. */
    method SaveEvent(e: WebhookEvent)
      modifies this
      ensures ledger == old(ledger) + [e] && payments == old(payments)
    {
      ledger := ledger + [e];
    }

    /** The rollback of a `@Transactional` method: both tables go back to what they were. */
    method Rollback(savedPayments: seq<Payment>, savedLedger: seq<WebhookEvent>)
      modifies this
      ensures payments == savedPayments && ledger == savedLedger
    {
      payments := savedPayments;
      ledger := savedLedger;
    }
  }

  /** The Feign client of the order service: a fixed order directory and the log of status updates sent. */
  class OrderClient {
    const orders: map<OrderId, OrderSummary>
    var notifications: seq<Notification>

    constructor (orders: map<OrderId, OrderSummary>)
      ensures this.orders == orders && notifications == []
    {
      this.orders := orders;
      notifications := [];
    }

    /** `getOrder(id)`: the order's summary, or the error the remote call raises. */
    method GetOrder(id: OrderId) returns (r: Outcome<OrderSummary>)
      ensures r.Ok? <==> id in orders
      ensures r.Ok? ==> r.value == orders[id]
      ensures r.Err? ==> r.message == OrderLookupFailed
    {
      if id in orders {
        r := Ok(orders[id]);
      } else {
        r := Err(OrderLookupFailed);
      }
    }

    /** `updatePaymentStatus(id, new PaymentStatusUpdateRequest(status, referenceId))`. */
    method UpdatePaymentStatus(id: OrderId, status: PaymentStatus, referenceId: string)
      modifies this
      ensures notifications == old(notifications) + [Notification(id, status, referenceId)]
    {
      notifications := notifications + [Notification(id, status, referenceId)];
    }
  }
}
