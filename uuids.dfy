/**
  Order identifiers of the payment engine: `java.util.UUID` values, their
  `toString()` text and `String.replace("-", "")` on it.
 */
module Uuids {
  import opened Crypto

  /** The 128 bits of a UUID, most significant byte first. */
  type Uuid = u: seq<byte> | |u| == 16 witness seq(16, _ => 0)

  /** `UUID.toString()`: 8-4-4-4-12 lowercase hexadecimal digits joined by hyphens. */
  function UuidText(u: Uuid): (s: string)
    ensures |s| == 36
    ensures s[8] == '-' && s[13] == '-' && s[18] == '-' && s[23] == '-'
  {
    HexEncode(u[..4]) + "-" + HexEncode(u[4..6]) + "-" + HexEncode(u[6..8]) + "-"
      + HexEncode(u[8..10]) + "-" + HexEncode(u[10..])
  }

  /** `s.replace("-", "")`: the string with every hyphen taken out. */
  function RemoveHyphens(s: string): (r: string)
    ensures '-' !in r
    ensures |r| <= |s|
  {
    if s == [] then []
    else (if s[0] == '-' then [] else [s[0]]) + RemoveHyphens(s[1..])
  }

  lemma {:induction false} RemoveHyphensConcat(a: string, b: string)
    ensures RemoveHyphens(a + b) == RemoveHyphens(a) + RemoveHyphens(b)
  {
    if a == [] {
      assert a + b == b;
    } else {
      assert (a + b)[1..] == a[1..] + b;
      RemoveHyphensConcat(a[1..], b);
    }
  }

  lemma {:induction false} RemoveHyphensKeeps(s: string)
    requires '-' !in s
    ensures RemoveHyphens(s) == s
  {
    if s != [] {
      assert s[0] in s;
      assert forall c :: c in s[1..] ==> c in s;
      RemoveHyphensKeeps(s[1..]);
    }
  }

  lemma RemoveHyphensAround(x: string, y: string)
    ensures RemoveHyphens(x + "-" + y) == RemoveHyphens(x) + RemoveHyphens(y)
  {
    assert RemoveHyphens("-") == [];
    RemoveHyphensConcat(x, "-");
    RemoveHyphensConcat(x + "-", y);
  }

  lemma GroupsJoin(ha: string, hb: string, hc: string, hd: string, he: string)
    requires '-' !in ha && '-' !in hb && '-' !in hc && '-' !in hd && '-' !in he
    ensures RemoveHyphens(ha + "-" + hb + "-" + hc + "-" + hd + "-" + he) == ha + hb + hc + hd + he
  {
    RemoveHyphensKeeps(ha);
    RemoveHyphensKeeps(hb);
    RemoveHyphensKeeps(hc);
    RemoveHyphensKeeps(hd);
    RemoveHyphensKeeps(he);
    var s1 := ha + "-" + hb;
    RemoveHyphensAround(ha, hb);
    var s2 := s1 + "-" + hc;
    RemoveHyphensAround(s1, hc);
    var s3 := s2 + "-" + hd;
    RemoveHyphensAround(s2, hd);
    RemoveHyphensAround(s3, he);
  }

  lemma HexOfGroups(a: seq<byte>, b: seq<byte>, c: seq<byte>, d: seq<byte>, e: seq<byte>)
    ensures HexEncode(a) + HexEncode(b) + HexEncode(c) + HexEncode(d) + HexEncode(e)
         == HexEncode(a + b + c + d + e)
  {
    HexEncodeConcat(a, b);
    HexEncodeConcat(a + b, c);
    HexEncodeConcat(a + b + c, d);
    HexEncodeConcat(a + b + c + d, e);
  }

  lemma NoHyphenInHex(bs: seq<byte>)
    ensures '-' !in HexEncode(bs)
  {
    var s := HexEncode(bs);
    assert forall i :: 0 <= i < |s| ==> s[i] != '-';
  }

  /** Without its hyphens, the text of a UUID is the 32 hexadecimal digits of its bytes. */
  lemma UuidTextDigits(u: Uuid)
    ensures RemoveHyphens(UuidText(u)) == HexEncode(u)
    ensures |RemoveHyphens(UuidText(u))| == 32
  {
    var a, b, c, d, e := u[..4], u[4..6], u[6..8], u[8..10], u[10..];
    NoHyphenInHex(a);
    NoHyphenInHex(b);
    NoHyphenInHex(c);
    NoHyphenInHex(d);
    NoHyphenInHex(e);
    GroupsJoin(HexEncode(a), HexEncode(b), HexEncode(c), HexEncode(d), HexEncode(e));
    HexOfGroups(a, b, c, d, e);
    assert a + b + c + d + e == u;
  }
}
