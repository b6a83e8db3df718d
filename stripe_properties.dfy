/** What the Stripe adapter guarantees, and where it departs from a sticky PAID state. */
module StripeProperties {
  import opened Wrappers
  import opened Payments
  import opened Stripe

  // ---------------------------------------------------------------- webhook dedup

  /** A recorded (STRIPE, event id) changes nothing: no ledger row, no payment change, no notification. */
  lemma DuplicateEventIsNoOp(t: Tables, event: Event, rawPayload: string, parsed: Parse<DataObject>)
    requires Recorded(t.ledger, Stripe, event.id)
    ensures HandleEvent(t, event, rawPayload, parsed) == Step(t, Ok(()))
  {
  }

  /** A new event id adds exactly the row (STRIPE, id, rawPayload), unless the handler throws and all is rolled back. */
  lemma NewEventRecordedOnce(t: Tables, event: Event, rawPayload: string, parsed: Parse<DataObject>)
    requires !Recorded(t.ledger, Stripe, event.id)
    ensures var r := HandleEvent(t, event, rawPayload, parsed);
      (r.outcome.Ok? ==> r.tables.ledger == t.ledger + [WebhookEvent(Stripe, event.id, rawPayload)]
                         && Recorded(r.tables.ledger, Stripe, event.id))
      && (r.outcome.Err? ==> r.tables == t)
  {
    var l := t.ledger + [LedgerEntry(event, rawPayload)];
    assert l[|t.ledger|] == LedgerEntry(event, rawPayload);
  }

  /** The ledger never holds two rows with the same (provider, event id). */
  lemma LedgerStaysUnique(t: Tables, event: Event, rawPayload: string, parsed: Parse<DataObject>)
    requires UniqueEventKeys(t.ledger)
    ensures UniqueEventKeys(HandleEvent(t, event, rawPayload, parsed).tables.ledger)
  {
    if !Recorded(t.ledger, Stripe, event.id) {
      RecordNewKeepsUnique(t.ledger, LedgerEntry(event, rawPayload));
    }
  }

  /** Delivering the same event again after it was handled changes nothing more. */
  lemma ReplayIsNoOp(t: Tables, event: Event, rawPayload: string, parsed: Parse<DataObject>)
    ensures var r := HandleEvent(t, event, rawPayload, parsed);
      HandleEvent(r.tables, event, rawPayload, parsed) == (if r.outcome.Ok? then Step(r.tables, Ok(())) else r)
  {
    if !Recorded(t.ledger, Stripe, event.id) {
      NewEventRecordedOnce(t, event, rawPayload, parsed);
    }
  }

  // ---------------------------------------------------------------- dispatch

  /** Event types other than the two handled ones only grow the ledger. */
  lemma UnhandledTypeOnlyRecords(t: Tables, event: Event, rawPayload: string, parsed: Parse<DataObject>)
    requires !Recorded(t.ledger, Stripe, event.id)
    requires !IsHandled(event.eventType)
    ensures HandleEvent(t, event, rawPayload, parsed)
         == Step(t.(ledger := t.ledger + [WebhookEvent(Stripe, event.id, rawPayload)]), Ok(()))
  {
  }

  /**
    checkout.session.completed for the row whose providerSessionId is the session id: that row
    becomes PAID with the payment intent as providerPaymentId, one PAID notification is sent,
    every other row and every other column stays.
   */
  lemma CompletedSettlesSessionPayment(t: Tables, event: Event, rawPayload: string, obj: DataObject, i: nat)
    requires !Recorded(t.ledger, Stripe, event.id)
    requires event.eventType == CheckoutSessionCompleted
    requires FindUnique(t.payments, ByProviderSessionId(obj.id)) == Unique(i)
    ensures var r := HandleEvent(t, event, rawPayload, Parsed(obj));
      && i < |t.payments| && t.payments[i].providerSessionId == Some(obj.id)
      && r.outcome == Ok(())
      && r.tables.ledger == t.ledger + [WebhookEvent(Stripe, event.id, rawPayload)]
      && |r.tables.payments| == |t.payments|
      && r.tables.payments[i] == t.payments[i].(status := Paid, providerPaymentId := Some(obj.paymentIntent))
      && (forall j :: 0 <= j < |t.payments| && j != i ==> r.tables.payments[j] == t.payments[j])
      && r.tables.notifications == t.notifications + [Notification(t.payments[i].orderId, Paid, obj.paymentIntent)]
  {
  }

  /**
    payment_intent.payment_failed for the row whose providerPaymentId is the intent id: that row
    becomes FAILED whatever its status was, PAID included, and one FAILED notification is sent.
   */
  lemma FailedMarksIntentPayment(t: Tables, event: Event, rawPayload: string, obj: DataObject, i: nat)
    requires !Recorded(t.ledger, Stripe, event.id)
    requires event.eventType == PaymentIntentFailed
    requires FindUnique(t.payments, ByProviderPaymentId(obj.id)) == Unique(i)
    ensures var r := HandleEvent(t, event, rawPayload, Parsed(obj));
      && i < |t.payments| && t.payments[i].providerPaymentId == Some(obj.id)
      && r.outcome == Ok(())
      && r.tables.ledger == t.ledger + [WebhookEvent(Stripe, event.id, rawPayload)]
      && |r.tables.payments| == |t.payments|
      && r.tables.payments[i] == t.payments[i].(status := Failed)
      && (forall j :: 0 <= j < |t.payments| && j != i ==> r.tables.payments[j] == t.payments[j])
      && r.tables.notifications == t.notifications + [Notification(t.payments[i].orderId, Failed, obj.id)]
  {
  }

  /** With no row for the lookup key, neither handler touches a payment or notifies. */
  lemma UnmatchedEventOnlyRecords(t: Tables, event: Event, rawPayload: string, obj: DataObject)
    requires !Recorded(t.ledger, Stripe, event.id)
    requires IsHandled(event.eventType)
    requires FindUnique(t.payments, HandlerKey(event.eventType, obj)) == NotFound
    ensures HandleEvent(t, event, rawPayload, Parsed(obj))
         == Step(t.(ledger := t.ledger + [WebhookEvent(Stripe, event.id, rawPayload)]), Ok(()))
  {
  }

  /** An unparseable payload, or a key held by several rows, makes a handler throw: nothing at all is kept. */
  lemma HandlerFailureRollsBack(t: Tables, event: Event, rawPayload: string, parsed: Parse<DataObject>)
    requires !Recorded(t.ledger, Stripe, event.id)
    requires IsHandled(event.eventType)
    requires parsed.Malformed? || FindUnique(t.payments, HandlerKey(event.eventType, parsed.value)) == Ambiguous
    ensures HandleEvent(t, event, rawPayload, parsed)
         == Step(t, Err(if event.eventType == CheckoutSessionCompleted then SuccessWebhookError else FailureWebhookError))
  {
  }

  /**
    One notification exactly when a handler applied to a row, none otherwise; the log
    only ever grows at its end.
   */
  lemma NotifiesOncePerAppliedHandler(t: Tables, event: Event, rawPayload: string, parsed: Parse<DataObject>)
    ensures var r := HandleEvent(t, event, rawPayload, parsed);
      && |t.notifications| <= |r.tables.notifications| <= |t.notifications| + 1
      && r.tables.notifications[..|t.notifications|] == t.notifications
      && (|r.tables.notifications| == |t.notifications| + 1 <==>
            !Recorded(t.ledger, Stripe, event.id) && IsHandled(event.eventType) && parsed.Parsed?
            && FindUnique(t.payments, HandlerKey(event.eventType, parsed.value)).Unique?)
  {
  }

  /**
    PAID is not sticky: a failure event for the intent a completed session recorded turns
    the just-settled payment into FAILED and sends a second, FAILED, notification.
   */
  lemma PaidOverwrittenByLaterFailure(t: Tables, completed: Event, failed: Event, raw1: string, raw2: string,
                                      session: DataObject, failure: DataObject, i: nat)
    requires completed.eventType == CheckoutSessionCompleted && failed.eventType == PaymentIntentFailed
    requires !Recorded(t.ledger, Stripe, completed.id)
    requires failed.id != completed.id && !Recorded(t.ledger, Stripe, failed.id)
    requires FindUnique(t.payments, ByProviderSessionId(session.id)) == Unique(i)
    requires failure.id == session.paymentIntent
    requires forall j :: 0 <= j < |t.payments| && j != i ==> t.payments[j].providerPaymentId != Some(session.paymentIntent)
    ensures var r1 := HandleEvent(t, completed, raw1, Parsed(session));
            var r2 := HandleEvent(r1.tables, failed, raw2, Parsed(failure));
      && i < |t.payments|
      && r1.tables.payments[i].status == Paid
      && r2.outcome == Ok(())
      && r2.tables.payments[i].status == Failed
      && r2.tables.notifications == t.notifications
           + [Notification(t.payments[i].orderId, Paid, session.paymentIntent),
              Notification(t.payments[i].orderId, Failed, session.paymentIntent)]
  {
    CompletedSettlesSessionPayment(t, completed, raw1, session, i);
    var r1 := HandleEvent(t, completed, raw1, Parsed(session));
    AppendKeepsUnrecorded(t.ledger, WebhookEvent(Stripe, completed.id, raw1), Stripe, failed.id);
    OnlyRowWithIntent(t.payments, r1.tables.payments, i, session.paymentIntent);
    FailedMarksIntentPayment(r1.tables, failed, raw2, failure, i);
  }

  /** After row i alone took the intent id, the intent finder finds exactly row i. */
  lemma OnlyRowWithIntent(before: seq<Payment>, after: seq<Payment>, i: nat, intent: string)
    requires |after| == |before| && i < |after| && after[i].providerPaymentId == Some(intent)
    requires forall j :: 0 <= j < |before| && j != i ==> after[j] == before[j]
    requires forall j :: 0 <= j < |before| && j != i ==> before[j].providerPaymentId != Some(intent)
    ensures FindUnique(after, ByProviderPaymentId(intent)) == Unique(i)
  {
    assert Matches(after[i], ByProviderPaymentId(intent));
  }

  // ---------------------------------------------------------------- opening a checkout session

  /** An unknown order or several rows for the order: nothing is saved and the call throws. */
  lemma CheckoutFailsEarly(t: Tables, orders: map<OrderId, OrderSummary>, orderId: OrderId,
                           session: Outcome<CheckoutSession>)
    requires orderId !in orders || Count(t.payments, ByOrderId(orderId)) >= 2
    ensures OpenCheckout(t, orders, orderId, session).tables == t
    ensures OpenCheckout(t, orders, orderId, session).outcome
         == Err(if orderId !in orders then OrderLookupFailed else NonUniqueResult)
  {
    FindUniqueCount(t.payments, ByOrderId(orderId));
  }

  /**
    Create-or-reuse: the order's rows grow from zero to one and otherwise stay as they were,
    so an order with at most one payment never gets a second one; the other tables are untouched.
   */
  lemma CheckoutKeepsOnePaymentPerOrder(t: Tables, orders: map<OrderId, OrderSummary>, orderId: OrderId,
                                        session: Outcome<CheckoutSession>)
    ensures var r := OpenCheckout(t, orders, orderId, session);
      && Count(r.tables.payments, ByOrderId(orderId))
         == (if orderId in orders && Count(t.payments, ByOrderId(orderId)) == 0 then 1
             else Count(t.payments, ByOrderId(orderId)))
      && r.tables.ledger == t.ledger
      && r.tables.notifications == t.notifications
    ensures Count(t.payments, ByOrderId(orderId)) <= 1
        ==> Count(OpenCheckout(t, orders, orderId, session).tables.payments, ByOrderId(orderId)) <= 1
  {
    var k := ByOrderId(orderId);
    FindUniqueCount(t.payments, k);
    if orderId in orders {
      var found := FindUnique(t.payments, k);
      if found != Ambiguous {
        var withRow := if found.Unique? then t else t.(payments := t.payments + [NewCheckoutPayment(orderId)]);
        var i := if found.Unique? then found.index else |t.payments|;
        if found.NotFound? {
          CountAppend(t.payments, NewCheckoutPayment(orderId), k);
        }
        if session.Ok? {
          var p := withRow.payments[i];
          CountUpdate(withRow.payments, i, p.(status := Pending, providerSessionId := Some(session.value.id)), k);
        }
      }
    }
  }

  /**
    A successful checkout leaves the order with one payment, PENDING, holding the new session id:
    the reused row keeps its provider and its other ids; a new row is a STRIPE row.
   */
  lemma CheckoutMarksPending(t: Tables, orders: map<OrderId, OrderSummary>, orderId: OrderId,
                             session: CheckoutSession)
    requires orderId in orders
    requires Count(t.payments, ByOrderId(orderId)) <= 1
    ensures var r := OpenCheckout(t, orders, orderId, Ok(session));
      && r.outcome == Ok(session.url)
      && (match FindUnique(r.tables.payments, ByOrderId(orderId))
          case Unique(i) =>
            && r.tables.payments[i].status == Pending
            && r.tables.payments[i].providerSessionId == Some(session.id)
          case _ => false)
    ensures var r := OpenCheckout(t, orders, orderId, Ok(session));
      match FindUnique(t.payments, ByOrderId(orderId))
      case Unique(i) =>
        r.tables.payments == t.payments[i := t.payments[i].(status := Pending, providerSessionId := Some(session.id))]
      case _ =>
        r.tables.payments == t.payments + [Payment(orderId, Stripe, Pending, Some(session.id), None, None)]
  {
    CheckoutKeepsOnePaymentPerOrder(t, orders, orderId, Ok(session));
    var r := OpenCheckout(t, orders, orderId, Ok(session));
    FindUniqueCount(t.payments, ByOrderId(orderId));
    FindUniqueCount(r.tables.payments, ByOrderId(orderId));
  }

  /** If `Session.create` throws for an order without a payment, the CREATED row already saved stays. */
  lemma CheckoutSessionFailureKeepsNewRow(t: Tables, orders: map<OrderId, OrderSummary>, orderId: OrderId,
                                          message: string)
    requires orderId in orders
    requires Count(t.payments, ByOrderId(orderId)) == 0
    ensures OpenCheckout(t, orders, orderId, Err(message))
         == Step(t.(payments := t.payments + [Payment(orderId, Stripe, Created, None, None, None)]), Err(message))
  {
    FindUniqueCount(t.payments, ByOrderId(orderId));
  }

  /** Reuse does not look at the status: a PAID payment of the order is put back to PENDING. */
  lemma CheckoutReopensPaidPayment(t: Tables, orders: map<OrderId, OrderSummary>, orderId: OrderId,
                                   session: CheckoutSession, i: nat)
    requires orderId in orders
    requires FindUnique(t.payments, ByOrderId(orderId)) == Unique(i)
    requires t.payments[i].status == Paid
    ensures OpenCheckout(t, orders, orderId, Ok(session)).tables.payments[i].status == Pending
  {
  }
}
