/**
  RazorpayWebhookController.handle: the header-presence and signature gate in front of
  `handleWebhook`, and the HTTP answer it gives.
 */
module RazorpayWebhook {
  import opened Wrappers
  import opened Crypto
  import opened Payments
  import opened Razorpay

  const MissingHeaders := "Missing Razorpay headers"
  const InvalidSignatureBody := "Invalid signature"
  const HmacFailure := "Failed to compute HMAC"

  /** A ResponseEntity<String>: status code and body. */
  datatype Response = Response(status: int, body: string)

  /**
    What the gate decides: answer at once, throw (the HMAC cannot be computed), or hand the
    payload and event id to the service.
   */
  datatype Verdict = Reject(response: Response) | Throw(message: string) | Forward(payload: string, eventId: string)

  /**
    Headers are checked first (either one absent is "Missing Razorpay headers"), then the
    X-Razorpay-Signature value against HMAC(webhookSecret, payload) in hex; an empty secret
    makes the HMAC itself throw.
   */
  function Gate(mac: Mac, webhookSecret: string, payload: string,
                signature: Option<string>, eventId: Option<string>): (v: Verdict)
    ensures v.Forward? <==> signature.Some? && eventId.Some?
                            && HmacSha256Hex(mac, payload, webhookSecret) == Some(signature.value)
    ensures v.Forward? ==> v.payload == payload && v.eventId == eventId.value
    ensures signature.None? || eventId.None? ==> v == Reject(Response(400, MissingHeaders))
    ensures signature.Some? && eventId.Some? && webhookSecret == "" ==> v == Throw(HmacFailure)
    ensures signature.Some? && eventId.Some? && webhookSecret != "" && !v.Forward?
            ==> v == Reject(Response(400, InvalidSignatureBody))
  {
    if signature.None? || eventId.None? then Reject(Response(400, MissingHeaders))
    else
      match HmacSha256Hex(mac, payload, webhookSecret)
      case None => Throw(HmacFailure)
      case Some(expected) =>
        if expected != signature.value then Reject(Response(400, InvalidSignatureBody))
        else Forward(payload, eventId.value)
  }

  /** A signature the gate lets through is 64 lowercase hex digits spelling the payload's digest. */
  lemma ForwardedSignatureIsDigest(mac: Mac, webhookSecret: string, payload: string,
                                   signature: Option<string>, eventId: Option<string>)
    requires Gate(mac, webhookSecret, payload, signature, eventId).Forward?
    ensures signature.Some? && |signature.value| == 64
    ensures forall i :: 0 <= i < |signature.value| ==> IsLowerHex(signature.value[i])
    ensures HexDecode(signature.value) == Some(mac(webhookSecret, payload))
  {
  }

  /**
    The whole request: the gate, then `handleWebhook`; an exception of the HMAC or of the
    service propagates out of the controller.
   */
  function Receive(t: Tables, mac: Mac, webhookSecret: string, payload: string,
                   signature: Option<string>, eventId: Option<string>, parsed: Parse<WebhookPayload>): Step<Response>
  {
    match Gate(mac, webhookSecret, payload, signature, eventId)
    case Reject(response) => Step(t, Ok(response))
    case Throw(message) => Step(t, Err(message))
    case Forward(p, id) =>
      var s := HandleWebhookEffect(t, p, id, parsed);
      Step(s.tables, if s.outcome.Ok? then Ok(Response(200, "ok")) else Err(s.outcome.message))
  }

  /**
    A request the gate does not forward writes no ledger row, changes no payment and sends no
    notification: it is answered 400, or it throws "Failed to compute HMAC" exactly when both
    headers are present and the secret is empty.
   */
  lemma RejectedRequestChangesNothing(t: Tables, mac: Mac, webhookSecret: string, payload: string,
                                      signature: Option<string>, eventId: Option<string>, parsed: Parse<WebhookPayload>)
    requires !Gate(mac, webhookSecret, payload, signature, eventId).Forward?
    ensures var r := Receive(t, mac, webhookSecret, payload, signature, eventId, parsed);
      && r.tables == t
      && (r.outcome.Ok? ==> r.outcome.value.status == 400)
      && (r.outcome == Err(HmacFailure) <==> signature.Some? && eventId.Some? && webhookSecret == "")
      && (r.outcome.Err? ==> r.outcome == Err(HmacFailure))
  {
  }

  /**
    A request that passes the gate is handled on exactly its payload and event-id header and,
    unless the payload does not parse, answered 200 "ok".
   */
  lemma AcceptedRequestIsHandled(t: Tables, mac: Mac, webhookSecret: string, payload: string,
                                 signature: string, eventId: string, parsed: Parse<WebhookPayload>)
    requires HmacSha256Hex(mac, payload, webhookSecret) == Some(signature)
    ensures var r := Receive(t, mac, webhookSecret, payload, Some(signature), Some(eventId), parsed);
      && r.tables == HandleWebhookEffect(t, payload, eventId, parsed).tables
      && (r.outcome == Ok(Response(200, "ok")) <==> HandleWebhookEffect(t, payload, eventId, parsed).outcome.Ok?)
  {
  }

  /**
    Tampering: a payload whose digest differs from the one the signature was made for is
    answered 400 "Invalid signature" with nothing changed.
   */
  lemma TamperedPayloadRejected(t: Tables, mac: Mac, webhookSecret: string, signed: string, tampered: string,
                                signature: string, eventId: string, parsed: Parse<WebhookPayload>)
    requires HmacSha256Hex(mac, signed, webhookSecret) == Some(signature)
    requires mac(webhookSecret, tampered) != mac(webhookSecret, signed)
    ensures Receive(t, mac, webhookSecret, tampered, Some(signature), Some(eventId), parsed)
        == Step(t, Ok(Response(400, InvalidSignatureBody)))
  {
  }

  class RazorpayWebhookController {
    const service: RazorpayPaymentService
    const webhookSecret: string
    const mac: Mac

    constructor (service: RazorpayPaymentService, webhookSecret: string, mac: Mac)
      ensures this.service == service && this.webhookSecret == webhookSecret && this.mac == mac
    {
      this.service := service;
      this.webhookSecret := webhookSecret;
      this.mac := mac;
    }

    /** `handle(request)`: body, the two header values (None when absent), and the body as Jackson reads it. */
    method Handle(payload: string, signature: Option<string>, eventId: Option<string>,
                  parsed: Parse<WebhookPayload>) returns (r: Outcome<Response>)
      modifies service.repo, service.client
      ensures Step(service.State(), r) == Receive(old(service.State()), mac, webhookSecret, payload, signature, eventId, parsed)
    {
      if signature.None? || eventId.None? {
        return Ok(Response(400, MissingHeaders));
      }
      var expected := HmacSha256Hex(mac, payload, webhookSecret);
      if expected.None? {
        return Err(HmacFailure);
      }
      if expected.value != signature.value {
        return Ok(Response(400, InvalidSignatureBody));
      }
      var handled := service.HandleWebhook(payload, eventId.value, parsed);
      if handled.Err? {
        return Err(handled.message);
      }
      return Ok(Response(200, "ok"));
    }
  }
}
