/**
  The Razorpay adapter (RazorpayPaymentService): always-create of a payment row for a
  new Razorpay order, client-side signature verification, and webhook application with
  dedup by (RAZORPAY, event id).
 */
module Razorpay {
  import opened Wrappers
  import opened Crypto
  import opened Uuids
  import opened Payments

  const PaymentCaptured := "payment.captured"
  const InvalidSignature := "Invalid Razorpay signature"
  const HmacError := "HMAC error"
  const PaymentNotFound := "Payment not found"
  const WebhookProcessingFailed := "Webhook processing failed"
  const SubstringOutOfRange := "begin 0, end 30: index out of range"

  /** The body sent to `razorpayClient.orders.create`. */
  datatype RemoteOrderRequest = RemoteOrderRequest(amount: int, currency: string, receipt: string, paymentCapture: int)

  /** CreateRazorpayOrderResponse. */
  datatype CreateOrderResponse = CreateOrderResponse(razorpayKeyId: string, razorpayOrderId: string, amount: int, currency: string)

  /** RazorpayVerifyPaymentRequest. */
  datatype VerifyRequest = VerifyRequest(orderId: OrderId, razorpayOrderId: string, razorpayPaymentId: string,
                                         razorpaySignature: string)

  /** The webhook body as the handler reads it: `event`, and `payload.payment.entity` `id` and `order_id`. */
  datatype WebhookPayload = WebhookPayload(event: string, paymentId: string, orderId: string)

  /** The provider's `orders.create`: the id of the order it opens, or the exception it throws. */
  type RemoteOrders = RemoteOrderRequest -> Outcome<string>

  /**
    `"ord_" + orderIdText.replace("-", "").substring(0, 30)`; `substring` throws when
    fewer than 30 characters remain.
   */
  function Receipt(orderIdText: string): (r: Outcome<string>)
    ensures r.Ok? <==> |RemoveHyphens(orderIdText)| >= 30
    ensures r.Ok? ==> |r.value| == 34 && r.value[..4] == "ord_" && '-' !in r.value
    ensures r.Ok? ==> r.value[4..] == RemoveHyphens(orderIdText)[..30]
  {
    var digits := RemoveHyphens(orderIdText);
    if |digits| < 30 then Err(SubstringOutOfRange)
    else
      var s := "ord_" + digits[..30];
      assert forall c :: c in s ==> c in "ord_" || c in digits;
      Ok(s)
  }

  /** The receipt of a UUID order id never fails: "ord_" and its first 30 hexadecimal digits. */
  lemma ReceiptOfOrderId(orderId: OrderId)
    ensures Receipt(UuidText(orderId)) == Ok("ord_" + HexEncode(orderId)[..30])
  {
    UuidTextDigits(orderId);
  }

  /** The string the client signature is computed over. */
  function SignedData(razorpayOrderId: string, razorpayPaymentId: string): string {
    razorpayOrderId + "|" + razorpayPaymentId
  }

  /** The request `createRazorpayOrder` sends for an order. */
  function OrderRequest(order: OrderSummary, receipt: string): RemoteOrderRequest {
    RemoteOrderRequest(order.totalAmount, order.currency, receipt, 1)
  }

  /** `createRazorpayOrder(orderId)`: always saves a new PENDING row holding the provider's order id. */
  function OpenOrder(t: Tables, orders: map<OrderId, OrderSummary>, keyId: string, orderId: OrderId,
                     remote: RemoteOrders): Step<CreateOrderResponse>
  {
    if orderId !in orders then Step(t, Err(OrderLookupFailed))
    else
      var order := orders[orderId];
      match Receipt(UuidText(orderId))
      case Err(m) => Step(t, Err(m))
      case Ok(receipt) =>
        match remote(OrderRequest(order, receipt))
        case Err(m) => Step(t, Err(m))
        case Ok(id) =>
          Step(t.(payments := t.payments + [Payment(orderId, Razorpay, Pending, None, Some(id), None)]),
               Ok(CreateOrderResponse(keyId, id, order.totalAmount, order.currency)))
  }

  /** `verifyPayment(req)`: check the client signature, then settle the order's row. `@Transactional`. */
  function Verify(t: Tables, mac: Mac, keySecret: string, req: VerifyRequest): Step<()> {
    match HmacSha256Hex(mac, SignedData(req.razorpayOrderId, req.razorpayPaymentId), keySecret)
    case None => Step(t, Err(HmacError))
    case Some(generated) =>
      if generated != req.razorpaySignature then Step(t, Err(InvalidSignature))
      else
        match FindUnique(t.payments, ByOrderId(req.orderId))
        case NotFound => Step(t, Err(PaymentNotFound))
        case Ambiguous => Step(t, Err(NonUniqueResult))
        case Unique(i) => Step(SettleAndNotify(t, i, req.razorpayPaymentId), Ok(()))
  }

  /** The ledger row a new Razorpay event is recorded as. */
  function LedgerEntry(rawPayload: string, eventId: string): WebhookEvent {
    WebhookEvent(Razorpay, eventId, rawPayload)
  }

  /** The part of `handleWebhook` inside its try block, on the state with the event recorded. */
  function CapturedEffect(t: Tables, parsed: Parse<WebhookPayload>): Step<()> {
    match parsed
    case Malformed => Step(t, Err(WebhookProcessingFailed))
    case Parsed(body) =>
      if body.event != PaymentCaptured then Step(t, Ok(()))
      else
        match FindFirst(t.payments, ByProviderOrderId(body.orderId))
        case None => Step(t, Ok(()))
        case Some(i) => Step(SettleAndNotify(t, i, body.paymentId), Ok(()))
  }

  /** `handleWebhook(rawPayload, webhookEventId)`; `@Transactional`, so a parse failure drops the ledger row too. */
  function HandleWebhookEffect(t: Tables, rawPayload: string, eventId: string, parsed: Parse<WebhookPayload>): Step<()> {
    if Recorded(t.ledger, Razorpay, eventId) then Step(t, Ok(()))
    else
      var r := CapturedEffect(t.(ledger := t.ledger + [LedgerEntry(rawPayload, eventId)]), parsed);
      if r.outcome.Err? then Step(t, r.outcome) else r
  }

  // ---------------------------------------------------------------- the service

  class RazorpayPaymentService {
    const repo: PaymentRepositories
    const client: OrderClient
    const keyId: string
    const keySecret: string
    const mac: Mac

    constructor (repo: PaymentRepositories, client: OrderClient, keyId: string, keySecret: string, mac: Mac)
      ensures this.repo == repo && this.client == client
      ensures this.keyId == keyId && this.keySecret == keySecret && this.mac == mac
    {
      this.repo := repo;
      this.client := client;
      this.keyId := keyId;
      this.keySecret := keySecret;
      this.mac := mac;
    }

    function State(): Tables
      reads repo, client
    {
      Tables(repo.payments, repo.ledger, client.notifications)
    }

    method CreateRazorpayOrder(orderId: OrderId, remote: RemoteOrders) returns (r: Outcome<CreateOrderResponse>)
      modifies repo
      ensures Step(State(), r) == OpenOrder(old(State()), client.orders, keyId, orderId, remote)
    {
      var order := client.GetOrder(orderId);
      if order.Err? {
        return Err(order.message);
      }
      var receipt := Receipt(UuidText(orderId));
      if receipt.Err? {
        return Err(receipt.message);
      }
      var rzOrder := remote(OrderRequest(order.value, receipt.value));
      if rzOrder.Err? {
        return Err(rzOrder.message);
      }
      var _ := repo.Insert(Payment(orderId, Razorpay, Pending, None, Some(rzOrder.value), None));
      return Ok(CreateOrderResponse(keyId, rzOrder.value, order.value.totalAmount, order.value.currency));
    }

    method VerifyPayment(req: VerifyRequest) returns (r: Outcome<()>)
      modifies repo, client
      ensures Step(State(), r) == Verify(old(State()), mac, keySecret, req)
    {
      var data := SignedData(req.razorpayOrderId, req.razorpayPaymentId);
      var generatedSignature := HmacSha256Hex(mac, data, keySecret);
      if generatedSignature.None? {
        return Err(HmacError);
      }
      if generatedSignature.value != req.razorpaySignature {
        return Err(InvalidSignature);
      }
      var found := FindUnique(repo.payments, ByOrderId(req.orderId));
      match found {
        case NotFound =>
          return Err(PaymentNotFound);
        case Ambiguous =>
          return Err(NonUniqueResult);
        case Unique(i) =>
          var payment := repo.payments[i];
          repo.Update(i, payment.(providerPaymentId := Some(req.razorpayPaymentId), status := Paid));
          client.UpdatePaymentStatus(req.orderId, Paid, req.razorpayPaymentId);
          return Ok(());
      }
    }

    method HandleWebhook(rawPayload: string, webhookEventId: string, parsed: Parse<WebhookPayload>) returns (r: Outcome<()>)
      modifies repo, client
      ensures Step(State(), r) == HandleWebhookEffect(old(State()), rawPayload, webhookEventId, parsed)
    {
      if Recorded(repo.ledger, Razorpay, webhookEventId) {
        return Ok(());
      }
      var savedPayments, savedLedger := repo.payments, repo.ledger;
      repo.SaveEvent(LedgerEntry(rawPayload, webhookEventId));
      if parsed.Malformed? {
        repo.Rollback(savedPayments, savedLedger);
        return Err(WebhookProcessingFailed);
      }
      var body := parsed.value;
      if body.event == PaymentCaptured {
        var payment := FindFirst(repo.payments, ByProviderOrderId(body.orderId));
        if payment.Some? {
          var i := payment.value;
          var p := repo.payments[i];
          repo.Update(i, p.(providerPaymentId := Some(body.paymentId), status := Paid));
          client.UpdatePaymentStatus(p.orderId, Paid, body.paymentId);
        }
      }
      return Ok(());
    }
  }
}
