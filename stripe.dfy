/**
  The Stripe adapter (StripePaymentService): the payment-record part of opening a
  checkout session, and webhook application with dedup by (STRIPE, event id).
 */
module Stripe {
  import opened Wrappers
  import opened Payments

  const CheckoutSessionCompleted := "checkout.session.completed"
  const PaymentIntentFailed := "payment_intent.payment_failed"
  const SuccessWebhookError := "Stripe success webhook error"
  const FailureWebhookError := "Stripe failure webhook error"

  /** The parts of a verified `com.stripe.model.Event` the service reads. */
  datatype Event = Event(id: string, eventType: string)

  /** `data.object` of the raw payload: its `id` and its `payment_intent`, as `asText` gives them. */
  datatype DataObject = DataObject(id: string, paymentIntent: string)

  /** What `Session.create` returns: the session id and its checkout URL. */
  datatype CheckoutSession = CheckoutSession(id: string, url: string)

  /** The row `createCheckoutSession` saves when the order has no payment yet. */
  function NewCheckoutPayment(orderId: OrderId): Payment {
    Payment(orderId, Stripe, Created, None, None, None)
  }

  /**
    `createCheckoutSession(orderId)`, given the order directory and what `Session.create`
    answers. Not transactional: a row saved before a failing `Session.create` stays.
   */
  function OpenCheckout(t: Tables, orders: map<OrderId, OrderSummary>, orderId: OrderId,
                        session: Outcome<CheckoutSession>): Step<string>
  {
    if orderId !in orders then Step(t, Err(OrderLookupFailed))
    else
      var found := FindUnique(t.payments, ByOrderId(orderId));
      if found == Ambiguous then Step(t, Err(NonUniqueResult))
      else
        var withRow := if found.Unique? then t else t.(payments := t.payments + [NewCheckoutPayment(orderId)]);
        var i := if found.Unique? then found.index else |t.payments|;
        match session
        case Err(m) => Step(withRow, Err(m))
        case Ok(s) =>
          var p := withRow.payments[i];
          Step(withRow.(payments := withRow.payments[i := p.(status := Pending, providerSessionId := Some(s.id))]),
               Ok(s.url))
  }

  /** `handleCheckoutSessionCompleted`: settle the row of the session; any exception is rethrown wrapped. */
  function CompletedEffect(t: Tables, parsed: Parse<DataObject>): Step<()> {
    match parsed
    case Malformed => Step(t, Err(SuccessWebhookError))
    case Parsed(obj) =>
      match FindUnique(t.payments, ByProviderSessionId(obj.id))
      case NotFound => Step(t, Ok(()))
      case Ambiguous => Step(t, Err(SuccessWebhookError))
      case Unique(i) => Step(SettleAndNotify(t, i, obj.paymentIntent), Ok(()))
  }

  /** `handlePaymentIntentFailed`: mark the row of the intent FAILED, whatever its status. */
  function FailedEffect(t: Tables, parsed: Parse<DataObject>): Step<()> {
    match parsed
    case Malformed => Step(t, Err(FailureWebhookError))
    case Parsed(obj) =>
      match FindUnique(t.payments, ByProviderPaymentId(obj.id))
      case NotFound => Step(t, Ok(()))
      case Ambiguous => Step(t, Err(FailureWebhookError))
      case Unique(i) =>
        var p := t.payments[i];
        Step(t.(payments := t.payments[i := p.(status := Failed)],
                notifications := t.notifications + [Notification(p.orderId, Failed, obj.id)]),
             Ok(()))
  }

  /** The ledger row a new Stripe event is recorded as. */
  function LedgerEntry(event: Event, rawPayload: string): WebhookEvent {
    WebhookEvent(Stripe, event.id, rawPayload)
  }

  /**
    `handleStripeEvent(event, rawPayload)`: skip a recorded event id, record a new one,
    dispatch on the type; `@Transactional`, so an exception rolls the ledger row back too.
   */
  function HandleEvent(t: Tables, event: Event, rawPayload: string, parsed: Parse<DataObject>): Step<()> {
    if Recorded(t.ledger, Stripe, event.id) then Step(t, Ok(()))
    else
      var recorded := t.(ledger := t.ledger + [LedgerEntry(event, rawPayload)]);
      var r :=
        if event.eventType == CheckoutSessionCompleted then CompletedEffect(recorded, parsed)
        else if event.eventType == PaymentIntentFailed then FailedEffect(recorded, parsed)
        else Step(recorded, Ok(()));
      if r.outcome.Err? then Step(t, r.outcome) else r
  }

  /** The column a handled event type looks its payment up by. */
  function HandlerKey(eventType: string, obj: DataObject): Key {
    if eventType == CheckoutSessionCompleted then ByProviderSessionId(obj.id) else ByProviderPaymentId(obj.id)
  }

  predicate IsHandled(eventType: string) {
    eventType == CheckoutSessionCompleted || eventType == PaymentIntentFailed
  }

  // ---------------------------------------------------------------- the service

  class StripePaymentService {
    const repo: PaymentRepositories
    const client: OrderClient

    constructor (repo: PaymentRepositories, client: OrderClient)
      ensures this.repo == repo && this.client == client
    {
      this.repo := repo;
      this.client := client;
    }

    function State(): Tables
      reads repo, client
    {
      Tables(repo.payments, repo.ledger, client.notifications)
    }

    /** The payment-record part of `createCheckoutSession`; `session` is what `Session.create` answers. */
    method CreateCheckoutSession(orderId: OrderId, session: Outcome<CheckoutSession>) returns (r: Outcome<string>)
      modifies repo
      ensures Step(State(), r) == OpenCheckout(old(State()), client.orders, orderId, session)
    {
      var order := client.GetOrder(orderId);
      if order.Err? {
        return Err(order.message);
      }
      var found := FindUnique(repo.payments, ByOrderId(orderId));
      var index: nat;
      match found {
        case Ambiguous =>
          return Err(NonUniqueResult);
        case Unique(i) =>
          index := i;
        case NotFound =>
          index := repo.Insert(NewCheckoutPayment(orderId));
      }
      if session.Err? {
        return Err(session.message);
      }
      var payment := repo.payments[index];
      repo.Update(index, payment.(status := Pending, providerSessionId := Some(session.value.id)));
      return Ok(session.value.url);
    }

    method HandleStripeEvent(event: Event, rawPayload: string, parsed: Parse<DataObject>) returns (r: Outcome<()>)
      modifies repo, client
      ensures Step(State(), r) == HandleEvent(old(State()), event, rawPayload, parsed)
    {
      if Recorded(repo.ledger, Stripe, event.id) {
        return Ok(());
      }
      var savedPayments, savedLedger := repo.payments, repo.ledger;
      repo.SaveEvent(LedgerEntry(event, rawPayload));
      if event.eventType == CheckoutSessionCompleted {
        r := HandleCheckoutSessionCompleted(parsed);
      } else if event.eventType == PaymentIntentFailed {
        r := HandlePaymentIntentFailed(parsed);
      } else {
        r := Ok(());
      }
      if r.Err? {
        repo.Rollback(savedPayments, savedLedger);
      }
    }

    /**
      The private `handleCheckoutSessionCompleted`: only `HandleStripeEvent` calls it, after the
      dedup check and the ledger row, and undoes its changes when it fails.
     */
    method HandleCheckoutSessionCompleted(parsed: Parse<DataObject>) returns (r: Outcome<()>)
      modifies repo, client
      ensures Step(State(), r) == CompletedEffect(old(State()), parsed)
    {
      if parsed.Malformed? {
        return Err(SuccessWebhookError);
      }
      var sessionId, paymentIntentId := parsed.value.id, parsed.value.paymentIntent;
      var found := FindUnique(repo.payments, ByProviderSessionId(sessionId));
      match found {
        case NotFound =>
          return Ok(());
        case Ambiguous =>
          return Err(SuccessWebhookError);
        case Unique(i) =>
          var payment := repo.payments[i];
          repo.Update(i, payment.(status := Paid, providerPaymentId := Some(paymentIntentId)));
          client.UpdatePaymentStatus(payment.orderId, Paid, paymentIntentId);
          return Ok(());
      }
    }

    /**
      The private `handlePaymentIntentFailed`: only `HandleStripeEvent` calls it, after the
      dedup check and the ledger row, and undoes its changes when it fails.
     */
    method HandlePaymentIntentFailed(parsed: Parse<DataObject>) returns (r: Outcome<()>)
      modifies repo, client
      ensures Step(State(), r) == FailedEffect(old(State()), parsed)
    {
      if parsed.Malformed? {
        return Err(FailureWebhookError);
      }
      var paymentIntentId := parsed.value.id;
      var found := FindUnique(repo.payments, ByProviderPaymentId(paymentIntentId));
      match found {
        case NotFound =>
          return Ok(());
        case Ambiguous =>
          return Err(FailureWebhookError);
        case Unique(i) =>
          var payment := repo.payments[i];
          repo.Update(i, payment.(status := Failed));
          client.UpdatePaymentStatus(payment.orderId, Failed, paymentIntentId);
          return Ok(());
      }
    }
  }
}
