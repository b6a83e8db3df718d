/** What the Razorpay adapter guarantees, and the gaps its code leaves. */
module RazorpayProperties {
  import opened Wrappers
  import opened Crypto
  import opened Uuids
  import opened Payments
  import opened Razorpay

  // ---------------------------------------------------------------- opening a Razorpay order

  /**
    With a known order and a provider that opens an order for the request (amount, currency,
    receipt "ord_" + 30 hex digits, capture 1), a new PENDING RAZORPAY row holding the provider's
    order id is appended, and the response echoes the key id, that id, the amount and the currency.
   */
  lemma OpenOrderAppendsPendingRow(t: Tables, orders: map<OrderId, OrderSummary>, keyId: string,
                                   orderId: OrderId, remote: RemoteOrders, id: string)
    requires orderId in orders
    requires remote(RemoteOrderRequest(orders[orderId].totalAmount, orders[orderId].currency,
                                       "ord_" + HexEncode(orderId)[..30], 1)) == Ok(id)
    ensures OpenOrder(t, orders, keyId, orderId, remote)
         == Step(t.(payments := t.payments + [Payment(orderId, Razorpay, Pending, None, Some(id), None)]),
                 Ok(CreateOrderResponse(keyId, id, orders[orderId].totalAmount, orders[orderId].currency)))
  {
    ReceiptOfOrderId(orderId);
  }

  /** An unknown order or a failing provider call saves nothing. */
  lemma OpenOrderFailureSavesNothing(t: Tables, orders: map<OrderId, OrderSummary>, keyId: string,
                                     orderId: OrderId, remote: RemoteOrders)
    requires orderId !in orders
          || remote(RemoteOrderRequest(orders[orderId].totalAmount, orders[orderId].currency,
                                       "ord_" + HexEncode(orderId)[..30], 1)).Err?
    ensures OpenOrder(t, orders, keyId, orderId, remote).tables == t
    ensures OpenOrder(t, orders, keyId, orderId, remote).outcome.Err?
  {
    ReceiptOfOrderId(orderId);
  }

  /** Always-create: every successful call adds one more payment for the order, however many it has. */
  lemma OpenOrderGrowsOrderPayments(t: Tables, orders: map<OrderId, OrderSummary>, keyId: string,
                                    orderId: OrderId, remote: RemoteOrders)
    requires OpenOrder(t, orders, keyId, orderId, remote).outcome.Ok?
    ensures Count(OpenOrder(t, orders, keyId, orderId, remote).tables.payments, ByOrderId(orderId))
         == Count(t.payments, ByOrderId(orderId)) + 1
  {
    var r := OpenOrder(t, orders, keyId, orderId, remote);
    ReceiptOfOrderId(orderId);
    CountAppend(t.payments, Payment(orderId, Razorpay, Pending, None, Some(r.outcome.value.razorpayOrderId), None),
                ByOrderId(orderId));
  }

  /**
    Opening twice for one order leaves two rows for it, after which `verifyPayment` for that
    order can never succeed: `findByOrderId` throws on the second row.
   */
  lemma ReopenedOrderCannotBeVerified(t: Tables, orders: map<OrderId, OrderSummary>, keyId: string,
                                      orderId: OrderId, remote1: RemoteOrders, remote2: RemoteOrders,
                                      mac: Mac, keySecret: string, req: VerifyRequest)
    requires Count(t.payments, ByOrderId(orderId)) == 0
    requires OpenOrder(t, orders, keyId, orderId, remote1).outcome.Ok?
    requires OpenOrder(OpenOrder(t, orders, keyId, orderId, remote1).tables, orders, keyId, orderId, remote2).outcome.Ok?
    requires req.orderId == orderId
    ensures var t2 := OpenOrder(OpenOrder(t, orders, keyId, orderId, remote1).tables, orders, keyId, orderId, remote2).tables;
      && Count(t2.payments, ByOrderId(orderId)) == 2
      && Verify(t2, mac, keySecret, req).tables == t2
      && Verify(t2, mac, keySecret, req).outcome.Err?
  {
    var t1 := OpenOrder(t, orders, keyId, orderId, remote1).tables;
    var t2 := OpenOrder(t1, orders, keyId, orderId, remote2).tables;
    OpenOrderGrowsOrderPayments(t, orders, keyId, orderId, remote1);
    OpenOrderGrowsOrderPayments(t1, orders, keyId, orderId, remote2);
    FindUniqueCount(t2.payments, ByOrderId(orderId));
  }

  // ---------------------------------------------------------------- client verification

  /**
    A signature other than HMAC(keySecret, razorpayOrderId + "|" + razorpayPaymentId) fails and
    changes nothing: "Invalid Razorpay signature", or "HMAC error" when the key secret is empty
    and no HMAC can be computed at all.
   */
  lemma VerifyRejectsBadSignature(t: Tables, mac: Mac, keySecret: string, req: VerifyRequest)
    requires HmacSha256Hex(mac, SignedData(req.razorpayOrderId, req.razorpayPaymentId), keySecret) != Some(req.razorpaySignature)
    ensures Verify(t, mac, keySecret, req) == Step(t, Err(if keySecret == "" then HmacError else InvalidSignature))
  {
  }

  /**
    The gate in terms of bytes: the signature check is passed (neither HMAC error nor invalid
    signature) exactly when the key secret is non-empty and the signature is the hex spelling
    of the expected digest.
   */
  lemma VerifyAcceptsExactlyTheDigest(t: Tables, mac: Mac, keySecret: string, req: VerifyRequest)
    ensures var o := Verify(t, mac, keySecret, req).outcome;
      (o != Err(InvalidSignature) && o != Err(HmacError))
        <==> keySecret != "" && HexDecode(req.razorpaySignature) == Some(mac(keySecret, SignedData(req.razorpayOrderId, req.razorpayPaymentId)))
  {
    SignatureMatchIffDigest(mac, SignedData(req.razorpayOrderId, req.razorpayPaymentId), keySecret, req.razorpaySignature);
  }

  /** With a valid signature but no payment for the order: "Payment not found", nothing changes. */
  lemma VerifyPaymentNotFound(t: Tables, mac: Mac, keySecret: string, req: VerifyRequest)
    requires HmacSha256Hex(mac, SignedData(req.razorpayOrderId, req.razorpayPaymentId), keySecret) == Some(req.razorpaySignature)
    requires Count(t.payments, ByOrderId(req.orderId)) == 0
    ensures Verify(t, mac, keySecret, req) == Step(t, Err(PaymentNotFound))
  {
    FindUniqueCount(t.payments, ByOrderId(req.orderId));
  }

  /**
    With a valid signature and one payment for the order, that payment becomes PAID with the
    Razorpay payment id, and (orderId, PAID, razorpayPaymentId) is sent once. The row's own
    providerOrderId is never compared with the signed razorpayOrderId.
   */
  lemma VerifySettlesOrderPayment(t: Tables, mac: Mac, keySecret: string, req: VerifyRequest, i: nat)
    requires HmacSha256Hex(mac, SignedData(req.razorpayOrderId, req.razorpayPaymentId), keySecret) == Some(req.razorpaySignature)
    requires FindUnique(t.payments, ByOrderId(req.orderId)) == Unique(i)
    ensures var r := Verify(t, mac, keySecret, req);
      && i < |t.payments|
      && r.outcome == Ok(())
      && r.tables.ledger == t.ledger
      && r.tables.payments == t.payments[i := t.payments[i].(status := Paid, providerPaymentId := Some(req.razorpayPaymentId))]
      && r.tables.notifications == t.notifications + [Notification(req.orderId, Paid, req.razorpayPaymentId)]
  {
  }

  /** No already-PAID check: replaying a verified request notifies the order service a second time. */
  lemma VerifyReplayNotifiesAgain(t: Tables, mac: Mac, keySecret: string, req: VerifyRequest)
    requires Verify(t, mac, keySecret, req).outcome.Ok?
    ensures var r1 := Verify(t, mac, keySecret, req);
            var r2 := Verify(r1.tables, mac, keySecret, req);
      && r2.outcome.Ok?
      && r2.tables.payments == r1.tables.payments
      && r2.tables.notifications == t.notifications + [Notification(req.orderId, Paid, req.razorpayPaymentId),
                                                       Notification(req.orderId, Paid, req.razorpayPaymentId)]
  {
    var i := FindUnique(t.payments, ByOrderId(req.orderId)).index;
    var r1 := Verify(t, mac, keySecret, req);
    var ps := r1.tables.payments;
    assert forall j :: 0 <= j < |ps| ==> (Matches(ps[j], ByOrderId(req.orderId)) <==> Matches(t.payments[j], ByOrderId(req.orderId)));
    assert FindUnique(ps, ByOrderId(req.orderId)) == Unique(i);
  }

  // ---------------------------------------------------------------- webhook

  /** A recorded (RAZORPAY, event id) changes nothing. */
  lemma DuplicateWebhookIsNoOp(t: Tables, rawPayload: string, eventId: string, parsed: Parse<WebhookPayload>)
    requires Recorded(t.ledger, Razorpay, eventId)
    ensures HandleWebhookEffect(t, rawPayload, eventId, parsed) == Step(t, Ok(()))
  {
  }

  /** A new event id adds exactly one ledger row, unless the payload does not parse and all is rolled back. */
  lemma NewWebhookRecordedOnce(t: Tables, rawPayload: string, eventId: string, parsed: Parse<WebhookPayload>)
    requires !Recorded(t.ledger, Razorpay, eventId)
    ensures var r := HandleWebhookEffect(t, rawPayload, eventId, parsed);
      && (parsed.Parsed? ==> r.outcome.Ok? && r.tables.ledger == t.ledger + [WebhookEvent(Razorpay, eventId, rawPayload)]
                             && Recorded(r.tables.ledger, Razorpay, eventId))
      && (parsed.Malformed? ==> r == Step(t, Err(WebhookProcessingFailed)))
  {
    var l := t.ledger + [LedgerEntry(rawPayload, eventId)];
    assert l[|t.ledger|] == LedgerEntry(rawPayload, eventId);
  }

  lemma WebhookLedgerStaysUnique(t: Tables, rawPayload: string, eventId: string, parsed: Parse<WebhookPayload>)
    requires UniqueEventKeys(t.ledger)
    ensures UniqueEventKeys(HandleWebhookEffect(t, rawPayload, eventId, parsed).tables.ledger)
  {
    if !Recorded(t.ledger, Razorpay, eventId) {
      RecordNewKeepsUnique(t.ledger, LedgerEntry(rawPayload, eventId));
    }
  }

  /** A redelivered event changes nothing more once handled. */
  lemma WebhookReplayIsNoOp(t: Tables, rawPayload: string, eventId: string, parsed: Parse<WebhookPayload>)
    ensures var r := HandleWebhookEffect(t, rawPayload, eventId, parsed);
      HandleWebhookEffect(r.tables, rawPayload, eventId, parsed) == (if r.outcome.Ok? then Step(r.tables, Ok(())) else r)
  {
    if !Recorded(t.ledger, Razorpay, eventId) {
      NewWebhookRecordedOnce(t, rawPayload, eventId, parsed);
    }
  }

  /**
    payment.captured settles the FIRST row whose providerOrderId is the entity's order_id: it becomes
    PAID with the entity's id, and one PAID notification goes to that row's order.
   */
  lemma CapturedSettlesFirstMatch(t: Tables, rawPayload: string, eventId: string, body: WebhookPayload, i: nat)
    requires !Recorded(t.ledger, Razorpay, eventId)
    requires body.event == PaymentCaptured
    requires i < |t.payments| && t.payments[i].providerOrderId == Some(body.orderId)
    requires forall j :: 0 <= j < i ==> t.payments[j].providerOrderId != Some(body.orderId)
    ensures var r := HandleWebhookEffect(t, rawPayload, eventId, Parsed(body));
      && r.outcome == Ok(())
      && r.tables.ledger == t.ledger + [WebhookEvent(Razorpay, eventId, rawPayload)]
      && r.tables.payments == t.payments[i := t.payments[i].(status := Paid, providerPaymentId := Some(body.paymentId))]
      && r.tables.notifications == t.notifications + [Notification(t.payments[i].orderId, Paid, body.paymentId)]
  {
    var ps := t.payments;
    var f := FindFirst(ps, ByProviderOrderId(body.orderId));
    assert Matches(ps[i], ByProviderOrderId(body.orderId));
    assert f == Some(i);
  }

  /** payment.captured with no row for the order_id, or any other event name, grows only the ledger. */
  lemma UnsettlingWebhookOnlyRecords(t: Tables, rawPayload: string, eventId: string, body: WebhookPayload)
    requires !Recorded(t.ledger, Razorpay, eventId)
    requires body.event != PaymentCaptured
          || forall j :: 0 <= j < |t.payments| ==> t.payments[j].providerOrderId != Some(body.orderId)
    ensures HandleWebhookEffect(t, rawPayload, eventId, Parsed(body))
         == Step(t.(ledger := t.ledger + [WebhookEvent(Razorpay, eventId, rawPayload)]), Ok(()))
  {
    if body.event == PaymentCaptured {
      assert FindFirst(t.payments, ByProviderOrderId(body.orderId)).None?;
    }
  }

  /** No already-PAID check: a capture for a row that is already PAID still notifies. */
  lemma CapturedRenotifiesPaidPayment(t: Tables, rawPayload: string, eventId: string, body: WebhookPayload, i: nat)
    requires !Recorded(t.ledger, Razorpay, eventId)
    requires body.event == PaymentCaptured
    requires FindFirst(t.payments, ByProviderOrderId(body.orderId)) == Some(i)
    requires t.payments[i].status == Paid
    ensures |HandleWebhookEffect(t, rawPayload, eventId, Parsed(body)).tables.notifications| == |t.notifications| + 1
  {
  }
}
