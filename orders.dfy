/**
  The local order store (OrderService over OrderRepository): orders keyed by a
  database-assigned Long id, created in CREATED with an upper-cased currency.
 */
module Orders {
  import opened Wrappers

  datatype OrderStatus = Created | Paid | PaymentFailed

  /** A row of the orders table; `createdAt` is the instant `prePersist` stamps, in epoch milliseconds. */
  datatype OrderEntity = OrderEntity(amount: int, currency: string, status: OrderStatus, createdAt: int)

  datatype CreateOrderRequest = CreateOrderRequest(amount: int, currency: string)

  datatype OrderResponse = OrderResponse(id: int, amount: int, currency: string, status: OrderStatus, createdAt: int)

  const OrderNotFoundPrefix := "Order not found: "

  // ---------------------------------------------------------------- text

  predicate IsAsciiLower(c: char) {
    'a' <= c <= 'z'
  }

  function UpperChar(c: char): char {
    if IsAsciiLower(c) then ((c as int) - 32) as char else c
  }

  /** `toUpperCase()` on the ASCII letters: a-z become A-Z, every other character stays. */
  function UpperAscii(s: string): (r: string)
    ensures |r| == |s|
    ensures forall i :: 0 <= i < |r| ==> !IsAsciiLower(r[i])
    ensures forall i :: 0 <= i < |s| && IsAsciiLower(s[i]) ==> r[i] as int == s[i] as int - 32
    ensures forall i :: 0 <= i < |s| && !IsAsciiLower(s[i]) ==> r[i] == s[i]
  {
    if s == [] then [] else [UpperChar(s[0])] + UpperAscii(s[1..])
  }

  /** Upper-casing an upper-cased currency changes nothing. */
  lemma UpperAsciiIdempotent(s: string)
    ensures UpperAscii(UpperAscii(s)) == UpperAscii(s)
  {
  }

  predicate IsDigit(c: char) {
    '0' <= c <= '9'
  }

  function DigitChar(d: nat): (c: char)
    requires d < 10
    ensures IsDigit(c)
  {
    ((('0' as int) + d) as char)
  }

  /** Decimal digits of a natural number, most significant first, without leading zeros. */
  function NatText(n: nat): (s: string)
    ensures |s| >= 1
    ensures forall i :: 0 <= i < |s| ==> IsDigit(s[i])
    ensures s[0] == '0' ==> n == 0
  {
    if n < 10 then [DigitChar(n)] else NatText(n / 10) + [DigitChar(n % 10)]
  }

  /** The number a string of decimal digits denotes. */
  function DecimalValue(s: string): nat
    requires forall i :: 0 <= i < |s| ==> IsDigit(s[i])
  {
    if s == [] then 0
    else
      assert IsDigit(s[|s| - 1]);
      10 * DecimalValue(s[..|s| - 1]) + ((s[|s| - 1] as int) - ('0' as int))
  }

  /** The decimal text of a number reads back as that number. */
  lemma {:induction false} NatTextRoundTrip(n: nat)
    ensures DecimalValue(NatText(n)) == n
  {
    if n >= 10 {
      var s := NatText(n);
      assert s[..|s| - 1] == NatText(n / 10);
      NatTextRoundTrip(n / 10);
    }
  }

  /** `Long.toString`: a minus sign before the digits of a negative number. */
  function LongText(n: int): (s: string)
    ensures |s| >= 1 && (n < 0 <==> s[0] == '-')
  {
    if n < 0 then "-" + NatText(-n) else NatText(n)
  }

  /** Decimal digits, optionally after one leading minus sign. */
  predicate IsSignedDecimal(s: string) {
    |s| >= 1 && forall i :: 0 <= i < |s| ==> IsDigit(s[i]) || (i == 0 && s[i] == '-')
  }

  /** The number a signed decimal string denotes, as `Long.parseLong` reads it. */
  function SignedValue(s: string): int
    requires IsSignedDecimal(s)
  {
    if s[0] == '-' then
      assert forall i :: 0 <= i < |s| - 1 ==> s[1..][i] == s[i + 1];
      -(DecimalValue(s[1..]) as int)
    else DecimalValue(s)
  }

  /** The text of any Long id in the not-found message, negative ones included, reads back as that id. */
  lemma LongTextRoundTrip(n: int)
    ensures IsSignedDecimal(LongText(n))
    ensures SignedValue(LongText(n)) == n
  {
    var s := LongText(n);
    if n < 0 {
      assert s[1..] == NatText(-n);
      NatTextRoundTrip(-n);
    } else {
      NatTextRoundTrip(n);
    }
  }

  // ---------------------------------------------------------------- the store

  function ToResponse(id: int, e: OrderEntity): OrderResponse {
    OrderResponse(id, e.amount, e.currency, e.status, e.createdAt)
  }

  /** `getOrder(id)` over the stored rows. */
  function FindOrder(orders: map<int, OrderEntity>, id: int): (r: Outcome<OrderResponse>)
    ensures r.Ok? <==> id in orders
    ensures r.Ok? ==> r.value.id == id && r.value.amount == orders[id].amount
                      && r.value.currency == orders[id].currency && r.value.status == orders[id].status
                      && r.value.createdAt == orders[id].createdAt
    ensures r.Err? ==> r.message == OrderNotFoundPrefix + LongText(id)
  {
    if id in orders then Ok(ToResponse(id, orders[id])) else Err(OrderNotFoundPrefix + LongText(id))
  }

  /** The row `createOrder` builds from a request. */
  function NewOrder(req: CreateOrderRequest, createdAt: int): OrderEntity {
    OrderEntity(req.amount, UpperAscii(req.currency), Created, createdAt)
  }

  /** Round trip: after storing a new order under a fresh id, `getOrder` gives back its amount, upper-cased currency and CREATED. */
  lemma StoredOrderReadsBack(orders: map<int, OrderEntity>, id: int, req: CreateOrderRequest, createdAt: int, other: int)
    requires other != id
    ensures FindOrder(orders[id := NewOrder(req, createdAt)], id)
         == Ok(OrderResponse(id, req.amount, UpperAscii(req.currency), Created, createdAt))
    ensures FindOrder(orders[id := NewOrder(req, createdAt)], other) == FindOrder(orders, other)
  {
  }

  class OrderService {
    var orders: map<int, OrderEntity>
    /** The next IDENTITY value the database hands out. */
    var nextId: int

    ghost predicate Valid()
      reads this
    {
      nextId >= 1 && forall id :: id in orders ==> 1 <= id < nextId
    }

    constructor ()
      ensures Valid() && orders == map[]
    {
      orders := map[];
      nextId := 1;
    }

    /** `createOrder(req)`; `createdAt` stands for the `Instant.now()` of `prePersist`. */
    method CreateOrder(req: CreateOrderRequest, createdAt: int) returns (resp: OrderResponse)
      requires Valid()
      modifies this
      ensures Valid()
      ensures resp.id !in old(orders)
      ensures orders == old(orders)[resp.id := NewOrder(req, createdAt)]
      ensures resp == OrderResponse(resp.id, req.amount, UpperAscii(req.currency), Created, createdAt)
      ensures FindOrder(orders, resp.id) == Ok(resp)
    {
      var id := nextId;
      nextId := nextId + 1;
      var order := NewOrder(req, createdAt);
      orders := orders[id := order];
      resp := ToResponse(id, order);
    }

    /** `getOrder(id)`: reads the store and leaves it as it was. */
    method GetOrder(id: int) returns (r: Outcome<OrderResponse>)
      ensures r == FindOrder(orders, id)
    {
      if id !in orders {
        return Err(OrderNotFoundPrefix + LongText(id));
      }
      var order := orders[id];
      r := Ok(ToResponse(id, order));
    }
  }
}
