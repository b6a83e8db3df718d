# Payment reconciliation engine: a Dafny model

This project models the payment service of `payment-gateway-integration-java`. The service
settles orders against two providers, Stripe and Razorpay. The model is one sequential
in-memory system with three pieces of state:

- the **payments table**: rows with `orderId`, `provider`, `status`, `providerSessionId`,
  `providerOrderId` and `providerPaymentId`;
- the append-only **webhook ledger**: rows of (provider, eventId, payload), used for dedup;
- the **notification log**: one `(orderId, status, referenceId)` entry for each
  `OrderClient.updatePaymentStatus` call.

The operations modelled are:

- opening a payment: Stripe's create-or-reuse and Razorpay's always-create;
- Razorpay's client-side signature verification;
- webhook application for both providers, deduplicated by (provider, event id);
- the Razorpay webhook controller's header and signature gate;
- the small local order store.

Each Java class that changes state becomes a Dafny `class`: `PaymentRepositories`,
`OrderClient`, `StripePaymentService`, `RazorpayPaymentService`,
`RazorpayWebhookController` and `OrderService`. Each method is proved equal to a pure
transition function over the value `Tables` (`OpenCheckout`, `HandleEvent`, `OpenOrder`,
`Verify`, `HandleWebhookEffect`, `Receive`). The lemmas in `stripe_properties.dfy` and
`razorpay_properties.dfy` state what those functions guarantee.

Modelling choices:

- **Order ids.** An order id is a `java.util.UUID`, modelled as 16 bytes. Its text is
  `UUID.toString()`: 8-4-4-4-12 lowercase hex digits. The services and `PaymentRepository`
  use UUID. `PaymentEntity.java:25` types the column as `Long`; the model follows the
  services. `PaymentEntity` has no `providerSessionId` column, but the Stripe service and
  `PaymentRepository.java:11` use one, so the model keeps it beside `providerOrderId`.
- **Finders that return `Optional`.** A `findByX` method of Spring Data throws
  `IncorrectResultSizeDataAccessException` when several rows match. The model's
  `FindUnique` therefore answers `NotFound`, `Unique(i)` or `Ambiguous`, and `Ambiguous`
  becomes a thrown error. Razorpay's `findAll().stream().filter(..).findFirst()` is
  `FindFirst`, which searches in table order.
- **Transactions.** `@Transactional` methods (`handleStripeEvent`, `verifyPayment`,
  `handleWebhook`) roll back completely when they throw, including the ledger row already
  written. `createCheckoutSession` is not transactional. If `Session.create` fails there,
  the CREATED row saved just before it stays in the table.
- **Inputs that stand for outside code.** These become parameters of the operations:
  - the answers of `Session.create` and `razorpayClient.orders.create`;
  - Jackson's parse of the payload, as `Parse<T>`: either `Malformed`, or the fields as
    `asText` returns them (`""` when a field is absent);
  - HMAC-SHA256 itself, as a function value of type `Mac`.

  `OrderClient` is a fixed order directory plus the notification log.

## Where the code is not idempotent

Payment status is not monotone, and settling is not idempotent. Each of the following is a
fact about the code, and a lemma proves it:

- `PaidOverwrittenByLaterFailure`: PAID is not sticky. A later failure event overwrites it
  with FAILED.
- `CheckoutReopensPaidPayment`: Stripe's reuse puts a PAID row back to PENDING.
- `VerifyReplayNotifiesAgain` and `CapturedRenotifiesPaidPayment`: the settle paths notify
  again for a row that is already PAID.
- `OpenOrderGrowsOrderPayments` and `ReopenedOrderCannotBeVerified`: Razorpay never reuses
  a row. A second open for an order therefore makes `verifyPayment` throw from then on.
- `VerifySettlesOrderPayment`: `verifyPayment` never compares the signed `razorpayOrderId`
  with the row's `providerOrderId`.
- `SignatureMatchIffDigest`: both signature checks compare the hex text with
  `String.equals`.

## Model

| member | source | states |
|---|---|---|
| `Crypto.HexEncode` | demo/src/main/java/com/manasgoyal/payment/controller/RazorpayWebhookController.java:56-57 | `formatHex` emits two characters per byte, every one a lowercase hex digit from 0-9a-f |
| `Crypto.HexRoundTrip` | demo/src/main/java/com/manasgoyal/payment/service/RazorpayPaymentService.java:170 | decoding the hex text of any bytes returns exactly those bytes |
| `Crypto.HexDecodeRoundTrip` | demo/src/main/java/com/manasgoyal/payment/service/RazorpayPaymentService.java:170 | a string that decodes is the hex encoding of what it decodes to |
| `Crypto.HexEncodeInjective` | demo/src/main/java/com/manasgoyal/payment/controller/RazorpayWebhookController.java:42 | two byte strings with equal hex text are equal, so `String.equals` on hex compares digests |
| `Crypto.HmacSha256Hex` | demo/src/main/java/com/manasgoyal/payment/controller/RazorpayWebhookController.java:51-61 | fails exactly when the secret is empty, since `SecretKeySpec` refuses an empty key; otherwise the result is 64 lowercase hex digits that decode to HMAC(secret, data) |
| `Crypto.SignatureMatchIffDigest` | demo/src/main/java/com/manasgoyal/payment/service/RazorpayPaymentService.java:164-174 | the computed hex equals a signature exactly when the secret is non-empty and the signature decodes to the expected digest |
| `Payments.Recorded` | demo/src/main/java/com/manasgoyal/payment/repository/WebhookEventRepository.java:8 | `existsByProviderAndEventId`: some ledger row has that provider and that event id |
| `Uuids.UuidText` | demo/src/main/java/com/manasgoyal/payment/service/RazorpayPaymentService.java:61 | `UUID.toString()` is 36 characters, with hyphens at positions 8, 13, 18 and 23 |
| `Uuids.RemoveHyphens` | demo/src/main/java/com/manasgoyal/payment/service/RazorpayPaymentService.java:61 | `replace("-", "")` leaves no hyphen and never lengthens the string |
| `Uuids.UuidTextDigits` | demo/src/main/java/com/manasgoyal/payment/service/RazorpayPaymentService.java:61 | without hyphens, a UUID's text is the 32 hex digits of its bytes |
| `Razorpay.Receipt` | demo/src/main/java/com/manasgoyal/payment/service/RazorpayPaymentService.java:61 | the receipt exists exactly when at least 30 non-hyphen characters remain; it is "ord_" plus the first 30 of them, 34 characters long with no '-' |
| `Razorpay.ReceiptOfOrderId` | demo/src/main/java/com/manasgoyal/payment/service/RazorpayPaymentService.java:61 | for every UUID order id the substring succeeds: "ord_" plus the first 30 hex digits |
| `Payments.FindFirst` | demo/src/main/java/com/manasgoyal/payment/service/RazorpayPaymentService.java:141-144 | returns the first matching row with no match before it, or None exactly when nothing matches |
| `Payments.FindUnique` | demo/src/main/java/com/manasgoyal/payment/repository/PaymentRepository.java:11-13 | NotFound exactly when no row matches; Unique(i) only when row i is the one match; Ambiguous exactly when two rows match |
| `Payments.FindUniqueCount` | demo/src/main/java/com/manasgoyal/payment/repository/PaymentRepository.java:11-13 | a finder finds nothing, one row, or throws exactly as 0, 1 or at least 2 rows match |
| `Payments.RecordNewKeepsUnique` | demo/src/main/java/com/manasgoyal/payment/entity/WebhookEventEntity.java:12-14 | appending an unrecorded (provider, eventId) keeps the keys unique and records it |
| `Payments.PaymentRepositories.Insert` | demo/src/main/java/com/manasgoyal/payment/service/RazorpayPaymentService.java:67-74 | `paymentRepository.save` of a new row appends exactly that row, returns its position and leaves the ledger as it was |
| `Payments.PaymentRepositories.Update` | demo/src/main/java/com/manasgoyal/payment/service/StripePaymentService.java:122-124 | `paymentRepository.save` of an existing row replaces exactly that row; every other row and the ledger stay |
| `Payments.PaymentRepositories.SaveEvent` | demo/src/main/java/com/manasgoyal/payment/service/StripePaymentService.java:97-103 | `webhookEventRepository.save` appends exactly that event to the ledger; payments stay |
| `Payments.PaymentRepositories.Rollback` | demo/src/main/java/com/manasgoyal/payment/service/StripePaymentService.java:90 | the rollback of a `@Transactional` method puts both tables back to their state at entry |
| `Payments.OrderClient.GetOrder` | demo/src/main/java/com/manasgoyal/payment/client/OrderClient.java:16 | answers the order's summary when the order service knows it, an error otherwise |
| `Payments.OrderClient.UpdatePaymentStatus` | demo/src/main/java/com/manasgoyal/payment/client/OrderClient.java:19-22 | appends exactly (orderId, status, referenceId) to the notification log |
| `Stripe.StripePaymentService.CreateCheckoutSession` | demo/src/main/java/com/manasgoyal/payment/service/StripePaymentService.java:38-86 | the new tables and the returned URL are those of `OpenCheckout` on the old tables |
| `Stripe.StripePaymentService.HandleStripeEvent` | demo/src/main/java/com/manasgoyal/payment/service/StripePaymentService.java:91-109 | the new tables and the outcome are those of `HandleEvent`: dedup, ledger row, dispatch, rollback on exception |
| `Stripe.StripePaymentService.HandleCheckoutSessionCompleted` | demo/src/main/java/com/manasgoyal/payment/service/StripePaymentService.java:111-135 | the new tables and the outcome follow `CompletedEffect` |
| `Stripe.StripePaymentService.HandlePaymentIntentFailed` | demo/src/main/java/com/manasgoyal/payment/service/StripePaymentService.java:137-159 | the new tables and the outcome follow `FailedEffect` |
| `StripeProperties.DuplicateEventIsNoOp` | demo/src/main/java/com/manasgoyal/payment/service/StripePaymentService.java:93-95 | a recorded (STRIPE, id) changes nothing and succeeds |
| `StripeProperties.NewEventRecordedOnce` | demo/src/main/java/com/manasgoyal/payment/service/StripePaymentService.java:97-103 | a new id adds exactly (STRIPE, id, rawPayload) to the ledger, or rolls everything back on an exception |
| `StripeProperties.LedgerStaysUnique` | demo/src/main/java/com/manasgoyal/payment/entity/WebhookEventEntity.java:12-14 | handling an event keeps the ledger free of two rows with the same (provider, eventId) |
| `StripeProperties.ReplayIsNoOp` | demo/src/main/java/com/manasgoyal/payment/service/StripePaymentService.java:91-109 | delivering the same event a second time changes nothing more |
| `StripeProperties.UnhandledTypeOnlyRecords` | demo/src/main/java/com/manasgoyal/payment/service/StripePaymentService.java:105-108 | other event types only append the ledger row; payments and notifications stay |
| `StripeProperties.CompletedSettlesSessionPayment` | demo/src/main/java/com/manasgoyal/payment/service/StripePaymentService.java:116-130 | the session's row becomes PAID with the payment intent; one (orderId, PAID, intent) notification; all else unchanged |
| `StripeProperties.FailedMarksIntentPayment` | demo/src/main/java/com/manasgoyal/payment/service/StripePaymentService.java:142-154 | the intent's row becomes FAILED whatever its prior status; one (orderId, FAILED, intent) notification |
| `StripeProperties.UnmatchedEventOnlyRecords` | demo/src/main/java/com/manasgoyal/payment/service/StripePaymentService.java:119-120 | with no row for the lookup key, neither handler touches a payment or notifies |
| `StripeProperties.HandlerFailureRollsBack` | demo/src/main/java/com/manasgoyal/payment/service/StripePaymentService.java:132-134 | an unparseable payload or an ambiguous lookup throws the handler's message, and the ledger row is rolled back too |
| `StripeProperties.NotifiesOncePerAppliedHandler` | demo/src/main/java/com/manasgoyal/payment/service/StripePaymentService.java:126-130 | the log grows by at most one entry, at its end, and by one exactly when a handler found its row |
| `StripeProperties.PaidOverwrittenByLaterFailure` | demo/src/main/java/com/manasgoyal/payment/service/StripePaymentService.java:147 | a failure event for the intent of a completed session turns PAID into FAILED and notifies twice |
| `StripeProperties.CheckoutFailsEarly` | demo/src/main/java/com/manasgoyal/payment/service/StripePaymentService.java:38-44 | an unknown order, or several rows for it, saves nothing and throws |
| `StripeProperties.CheckoutKeepsOnePaymentPerOrder` | demo/src/main/java/com/manasgoyal/payment/service/StripePaymentService.java:44-51 | the order's row count goes from 0 to 1 and otherwise stays, so it never grows past one; ledger and log stay |
| `StripeProperties.CheckoutMarksPending` | demo/src/main/java/com/manasgoyal/payment/service/StripePaymentService.java:81-83 | afterwards the order's one row is PENDING with the new session id; a reused row keeps its other columns; a new row is STRIPE |
| `StripeProperties.CheckoutSessionFailureKeepsNewRow` | demo/src/main/java/com/manasgoyal/payment/service/StripePaymentService.java:44-51 | when `Session.create` throws, the CREATED STRIPE row saved before it stays |
| `StripeProperties.CheckoutReopensPaidPayment` | demo/src/main/java/com/manasgoyal/payment/service/StripePaymentService.java:81 | reusing a PAID row sets it back to PENDING |
| `Razorpay.RazorpayPaymentService.CreateRazorpayOrder` | demo/src/main/java/com/manasgoyal/payment/service/RazorpayPaymentService.java:49-83 | the new tables and the response are those of `OpenOrder` on the old tables |
| `Razorpay.RazorpayPaymentService.VerifyPayment` | demo/src/main/java/com/manasgoyal/payment/service/RazorpayPaymentService.java:90-111 | the new tables and the outcome are those of `Verify` |
| `Razorpay.RazorpayPaymentService.HandleWebhook` | demo/src/main/java/com/manasgoyal/payment/service/RazorpayPaymentService.java:117-162 | the new tables and the outcome are those of `HandleWebhookEffect` |
| `RazorpayProperties.OpenOrderAppendsPendingRow` | demo/src/main/java/com/manasgoyal/payment/service/RazorpayPaymentService.java:67-82 | appends (orderId, RAZORPAY, PENDING, providerOrderId = provider id); the response echoes keyId, that id, amount and currency |
| `RazorpayProperties.OpenOrderFailureSavesNothing` | demo/src/main/java/com/manasgoyal/payment/service/RazorpayPaymentService.java:52-64 | an unknown order or a failing provider call saves nothing and throws |
| `RazorpayProperties.OpenOrderGrowsOrderPayments` | demo/src/main/java/com/manasgoyal/payment/service/RazorpayPaymentService.java:67-74 | every successful open adds one more row for the order |
| `RazorpayProperties.ReopenedOrderCannotBeVerified` | demo/src/main/java/com/manasgoyal/payment/service/RazorpayPaymentService.java:99-100 | after two opens, the order has two rows and `verifyPayment` for it throws and changes nothing |
| `RazorpayProperties.VerifyRejectsBadSignature` | demo/src/main/java/com/manasgoyal/payment/service/RazorpayPaymentService.java:92-97 | a signature other than HMAC(keySecret, orderId + "\|" + paymentId) fails and nothing changes; the message is "Invalid Razorpay signature", or "HMAC error" when the key secret is empty |
| `RazorpayProperties.VerifyAcceptsExactlyTheDigest` | demo/src/main/java/com/manasgoyal/payment/service/RazorpayPaymentService.java:92-97 | the signature check is passed, with neither HMAC error nor invalid signature, exactly when the key secret is non-empty and the signature is the hex text of the expected digest |
| `RazorpayProperties.VerifyPaymentNotFound` | demo/src/main/java/com/manasgoyal/payment/service/RazorpayPaymentService.java:99-100 | a valid signature with no row for the order fails with "Payment not found"; nothing changes |
| `RazorpayProperties.VerifySettlesOrderPayment` | demo/src/main/java/com/manasgoyal/payment/service/RazorpayPaymentService.java:102-110 | the order's row becomes PAID with razorpayPaymentId; exactly one (orderId, PAID, razorpayPaymentId) notification; ledger unchanged |
| `RazorpayProperties.VerifyReplayNotifiesAgain` | demo/src/main/java/com/manasgoyal/payment/service/RazorpayPaymentService.java:102-110 | replaying a verified request leaves the rows as they are but notifies a second time |
| `RazorpayProperties.DuplicateWebhookIsNoOp` | demo/src/main/java/com/manasgoyal/payment/service/RazorpayPaymentService.java:119-121 | a recorded (RAZORPAY, eventId) changes nothing |
| `RazorpayProperties.NewWebhookRecordedOnce` | demo/src/main/java/com/manasgoyal/payment/service/RazorpayPaymentService.java:123-129 | a new id adds exactly one ledger row; an unparseable payload rolls that row back and fails |
| `RazorpayProperties.WebhookLedgerStaysUnique` | demo/src/main/java/com/manasgoyal/payment/entity/WebhookEventEntity.java:12-14 | handling a webhook keeps (provider, eventId) unique in the ledger |
| `RazorpayProperties.WebhookReplayIsNoOp` | demo/src/main/java/com/manasgoyal/payment/service/RazorpayPaymentService.java:117-162 | redelivering an event changes nothing more |
| `RazorpayProperties.CapturedSettlesFirstMatch` | demo/src/main/java/com/manasgoyal/payment/service/RazorpayPaymentService.java:135-156 | payment.captured makes the first row with that providerOrderId PAID with the payment id, with one PAID notification |
| `RazorpayProperties.UnsettlingWebhookOnlyRecords` | demo/src/main/java/com/manasgoyal/payment/service/RazorpayPaymentService.java:135 | other event names, or a capture with no matching row, only append the ledger row |
| `RazorpayProperties.CapturedRenotifiesPaidPayment` | demo/src/main/java/com/manasgoyal/payment/service/RazorpayPaymentService.java:146-155 | a capture for a row already PAID still sends a notification |
| `RazorpayWebhook.Gate` | demo/src/main/java/com/manasgoyal/payment/controller/RazorpayWebhookController.java:32-46 | forwards (payload, eventId) exactly when both headers are present and the HMAC under the secret equals the signature; a missing header is reported first (400); then an empty secret throws "Failed to compute HMAC"; otherwise a mismatch is 400 "Invalid signature" |
| `RazorpayWebhook.ForwardedSignatureIsDigest` | demo/src/main/java/com/manasgoyal/payment/controller/RazorpayWebhookController.java:40-44 | a forwarded signature is 64 lowercase hex digits spelling HMAC(webhookSecret, payload) |
| `RazorpayWebhook.RejectedRequestChangesNothing` | demo/src/main/java/com/manasgoyal/payment/controller/RazorpayWebhookController.java:35-44 | a request that is not forwarded writes no ledger row and changes no payment or notification; it answers 400, or throws "Failed to compute HMAC" exactly when both headers are present and the secret is empty |
| `RazorpayWebhook.AcceptedRequestIsHandled` | demo/src/main/java/com/manasgoyal/payment/controller/RazorpayWebhookController.java:46-48 | an accepted request is handled on its exact payload and event id, and answers 200 "ok" exactly when handling succeeds |
| `RazorpayWebhook.TamperedPayloadRejected` | demo/src/main/java/com/manasgoyal/payment/controller/RazorpayWebhookController.java:40-44 | a payload with a different digest than the signed one gets 400 "Invalid signature" and changes nothing |
| `RazorpayWebhook.RazorpayWebhookController.Handle` | demo/src/main/java/com/manasgoyal/payment/controller/RazorpayWebhookController.java:28-49 | the new tables and the response are those of `Receive`: the gate, then `handleWebhook` |
| `Orders.UpperAscii` | demo/src/main/java/com/manasgoyal/payment/service/OrderService.java:22 | same length; a-z become A-Z, everything else stays; no lowercase ASCII letter is left |
| `Orders.UpperAsciiIdempotent` | demo/src/main/java/com/manasgoyal/payment/service/OrderService.java:22 | upper-casing a stored currency again changes nothing |
| `Orders.NatTextRoundTrip` | demo/src/main/java/com/manasgoyal/payment/service/OrderService.java:39 | the decimal digits of a non-negative id read back as that id |
| `Orders.LongText` | demo/src/main/java/com/manasgoyal/payment/service/OrderService.java:39 | `Long.toString` of the id: never empty, and starts with '-' exactly for a negative id |
| `Orders.LongTextRoundTrip` | demo/src/main/java/com/manasgoyal/payment/service/OrderService.java:39 | the text of any Long id in the not-found message, negative ones included, is a signed decimal that reads back as that id |
| `Orders.FindOrder` | demo/src/main/java/com/manasgoyal/payment/service/OrderService.java:37-47 | succeeds exactly for stored ids with the stored fields; otherwise fails with "Order not found: " + id |
| `Orders.StoredOrderReadsBack` | demo/src/main/java/com/manasgoyal/payment/service/OrderService.java:19-47 | after storing, getOrder returns the amount, upper-cased currency and CREATED; other ids unaffected |
| `Orders.OrderService.CreateOrder` | demo/src/main/java/com/manasgoyal/payment/service/OrderService.java:19-35 | stores a new order under a fresh id with the amount unchanged, the currency upper-cased and status CREATED; the response carries exactly the stored fields and reads back |
| `Orders.OrderService.GetOrder` | demo/src/main/java/com/manasgoyal/payment/service/OrderService.java:37-48 | answers `FindOrder` on the store and changes nothing |

## Left out

- Stripe's `Session.create` and its parameter building (StripePaymentService.java:53-78), and
  `razorpayClient.orders.create` (RazorpayPaymentService.java:64), are calls into the providers'
  SDKs. Their answers are inputs. The checkout URL returned to the client is the session's `url`.
- StripeWebhookController.java's `Webhook.constructEvent` signature check is SDK code and is not
  part of this model. `handleStripeEvent` receives an already verified event.
- HMAC-SHA256 internals (RFC 2104 over SHA-256) are the uninterpreted `Mac` function. The UTF-8
  encoding of its inputs is folded into that function. Of the ways `Mac.getInstance`,
  `SecretKeySpec` and `init` can throw, only the empty key is modelled.
- The webhook payload is the string `StreamUtils.copyToString` decodes from the request body
  as UTF-8 (RazorpayWebhookController.java:30). Malformed byte sequences decode to U+FFFD, so
  distinct raw bodies can share one string, one signature and one ledger payload. Byte-level
  tampering inside malformed UTF-8 is not modelled: `TamperedPayloadRejected` is about the
  decoded strings.
- Jackson parsing (`readTree`, `path`, `asText`) is an input. `Malformed` stands for a body that
  does not parse. A JSON `null` read with `asText` is the text "null" and is treated like any
  other text.
- The Feign transport of OrderClient.java is not modelled. `getOrder` is a lookup in a fixed map.
  `updatePaymentStatus` always succeeds. So the case where the order service fails after a row
  was saved is not modelled.
- Only the payments columns the core reads are modelled. The generated row id is the row's
  position in the table, and the `createdAt`/`receivedAt` timestamps are omitted. The order
  store's `createdAt` is an input.
- `BigDecimal` and `long` amounts are unbounded integers. No arithmetic is done on them.
- Concurrency and atomicity of check-then-insert are not modelled: calls run one at a time.
- The order in which `findAll()` returns rows is taken to be table order. JPA does not promise an order.
- `String.equals` timing is not modelled. Only its result is, so the non-constant-time
  comparison does not show in the model.
- The text of `IncorrectResultSizeDataAccessException`, of the Feign error and of the
  `substring` exception are stand-in constants.
- A `null` event type would make the Java `switch` throw. Event types are plain strings here.
- The OrderStatus enum file is not part of this model. Its values follow the order lifecycle
  CREATED, PAID, PAYMENT_FAILED, and only CREATED is used.
- The thin routing controllers (StripeController.java, RazorpayController.java,
  OrderController.java), request validation and the DTO and JPA annotations are not part of
  this model.
- Orders.UpperAscii: models `toUpperCase()` on ASCII letters only, because Java's
  locale-sensitive Unicode case mapping (such as 'ß' to "SS") has no counterpart here.
