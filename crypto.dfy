/**
  Bytes, the HMAC-SHA256 digest as an opaque function, and the lowercase hexadecimal
  encoding that `HexFormat.of().formatHex` produces.
 */
module Crypto {
  import opened Wrappers

  type byte = x: int | 0 <= x < 256

  /** A SHA-256 sized digest: 32 bytes. */
  type Digest = d: seq<byte> | |d| == 32 witness seq(32, _ => 0)

  /**
    HMAC-SHA256 (RFC 2104 over SHA-256) as an uninterpreted function from
    (secret, message) to the digest; the UTF-8 encoding of both strings is part of it.
   */
  type Mac = (string, string) -> Digest

  predicate IsLowerHex(c: char) {
    '0' <= c <= '9' || 'a' <= c <= 'f'
  }

  /** The lowercase hexadecimal digit of a nibble. */
  function HexDigit(n: nat): (c: char)
    requires n < 16
    ensures IsLowerHex(c)
  {
    if n < 10 then (('0' as int) + n) as char else (('a' as int) + n - 10) as char
  }

  /** The nibble a lowercase hexadecimal digit stands for; inverse of HexDigit. */
  function NibbleOf(c: char): (n: nat)
    requires IsLowerHex(c)
    ensures n < 16 && HexDigit(n) == c
  {
    if c <= '9' then (c as int) - ('0' as int) else (c as int) - ('a' as int) + 10
  }

  /** Two lowercase hexadecimal digits per byte, high nibble first. */
  function HexEncode(bs: seq<byte>): (s: string)
    ensures |s| == 2 * |bs|
    ensures forall i :: 0 <= i < |s| ==> IsLowerHex(s[i])
  {
    if bs == [] then []
    else [HexDigit(bs[0] / 16), HexDigit(bs[0] % 16)] + HexEncode(bs[1..])
  }

  /** Reads back a string of lowercase hexadecimal digit pairs; None on anything else. */
  function HexDecode(s: string): (r: Option<seq<byte>>)
    ensures r.Some? ==> 2 * |r.value| == |s|
  {
    if s == [] then Some([])
    else if |s| == 1 || !IsLowerHex(s[0]) || !IsLowerHex(s[1]) then None
    else match HexDecode(s[2..])
      case None => None
      case Some(rest) => Some([(16 * NibbleOf(s[0]) + NibbleOf(s[1])) as byte] + rest)
  }

  lemma {:induction false} HexEncodeConcat(a: seq<byte>, b: seq<byte>)
    ensures HexEncode(a + b) == HexEncode(a) + HexEncode(b)
  {
    if a == [] {
      assert a + b == b;
    } else {
      assert (a + b)[1..] == a[1..] + b;
      HexEncodeConcat(a[1..], b);
    }
  }

  /** Decoding undoes encoding: every digest has exactly one hexadecimal spelling. */
  lemma {:induction false} HexRoundTrip(bs: seq<byte>)
    ensures HexDecode(HexEncode(bs)) == Some(bs)
  {
    if bs != [] {
      var s := HexEncode(bs);
      assert s[2..] == HexEncode(bs[1..]);
      HexRoundTrip(bs[1..]);
      assert NibbleOf(s[0]) == bs[0] / 16 && NibbleOf(s[1]) == bs[0] % 16;
      assert [bs[0]] + bs[1..] == bs;
    }
  }

  /** Encoding undoes decoding: a decodable string is the encoding of what it decodes to. */
  lemma {:induction false} HexDecodeRoundTrip(s: string, bs: seq<byte>)
    requires HexDecode(s) == Some(bs)
    ensures HexEncode(bs) == s
  {
    if s != [] {
      var rest := HexDecode(s[2..]).value;
      HexDecodeRoundTrip(s[2..], rest);
      var b := bs[0];
      assert b == 16 * NibbleOf(s[0]) + NibbleOf(s[1]);
      assert b / 16 == NibbleOf(s[0]) && b % 16 == NibbleOf(s[1]);
      assert bs[1..] == rest;
      assert s == [s[0], s[1]] + s[2..];
    }
  }

  /** Comparing hexadecimal strings is the same as comparing the bytes they encode. */
  lemma HexEncodeInjective(a: seq<byte>, b: seq<byte>)
    requires HexEncode(a) == HexEncode(b)
    ensures a == b
  {
    HexRoundTrip(a);
    HexRoundTrip(b);
  }

  /**
    `hmacSha256Hex(data, secret)`: the HMAC of the data under the secret, hex encoded.
    `new SecretKeySpec` refuses an empty key, so an empty secret gives None, which each
    caller turns into its own exception.
   */
  function HmacSha256Hex(mac: Mac, data: string, secret: string): (r: Option<string>)
    ensures r.Some? <==> secret != ""
    ensures r.Some? ==> |r.value| == 64
    ensures r.Some? ==> forall i :: 0 <= i < |r.value| ==> IsLowerHex(r.value[i])
    ensures r.Some? ==> HexDecode(r.value) == Some(mac(secret, data))
  {
    if secret == "" then None
    else
      HexRoundTrip(mac(secret, data));
      Some(HexEncode(mac(secret, data)))
  }

  /**
    A signature string equals the computed one exactly when the secret is usable and the
    signature decodes to the computed digest, so `String.equals` on the hex text decides
    digest equality.
   */
  lemma SignatureMatchIffDigest(mac: Mac, data: string, secret: string, signature: string)
    ensures HmacSha256Hex(mac, data, secret) == Some(signature)
        <==> secret != "" && HexDecode(signature) == Some(mac(secret, data))
  {
    if secret != "" && HexDecode(signature) == Some(mac(secret, data)) {
      HexDecodeRoundTrip(signature, mac(secret, data));
    }
  }
}
