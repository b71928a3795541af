/** Fixed-width integers as bytes, little- and big-endian. */
module Bytes {
  type byte = x: int | 0 <= x < 256

  function Pow256(n: nat): (p: nat)
    ensures p >= 1
  {
    if n == 0 then 1 else 256 * Pow256(n - 1)
  }

  /** The low `len` bytes of `n`, least significant first. */
  function LE(n: nat, len: nat): (s: seq<byte>)
    ensures |s| == len
  {
    if len == 0 then [] else [n % 256] + LE(n / 256, len - 1)
  }

  function FromLE(s: seq<byte>): nat {
    if s == [] then 0 else s[0] + 256 * FromLE(s[1..])
  }

  /** The low `len` bytes of `n`, most significant first. */
  function BE(n: nat, len: nat): (s: seq<byte>)
    ensures |s| == len
  {
    if len == 0 then [] else BE(n / 256, len - 1) + [n % 256]
  }

  function FromBE(s: seq<byte>): nat {
    if s == [] then 0 else 256 * FromBE(s[..|s| - 1]) + s[|s| - 1]
  }

  lemma {:induction false} LERoundTrip(n: nat, len: nat)
    requires n < Pow256(len)
    ensures FromLE(LE(n, len)) == n
  {
    if len > 0 {
      LERoundTrip(n / 256, len - 1);
      assert LE(n, len)[1..] == LE(n / 256, len - 1);
    }
  }

  lemma {:induction false} BERoundTrip(n: nat, len: nat)
    requires n < Pow256(len)
    ensures FromBE(BE(n, len)) == n
  {
    if len > 0 {
      BERoundTrip(n / 256, len - 1);
      assert BE(n, len)[..len - 1] == BE(n / 256, len - 1);
    }
  }

  lemma {:induction false} BEBound(s: seq<byte>)
    ensures FromBE(s) < Pow256(|s|)
  {
    if s != [] {
      BEBound(s[..|s| - 1]);
    }
  }

  /** Byte-array order: the first differing byte decides. */
  predicate LexLess(a: seq<byte>, b: seq<byte>)
    requires |a| == |b|
  {
    |a| > 0 && (a[0] < b[0] || (a[0] == b[0] && LexLess(a[1..], b[1..])))
  }

  lemma {:induction false} FromBEHead(s: seq<byte>)
    requires s != []
    ensures FromBE(s) == s[0] * Pow256(|s| - 1) + FromBE(s[1..])
  {
    if |s| > 1 {
      var init := s[..|s| - 1];
      FromBEHead(init);
      assert init[1..] == s[1..][..|s| - 2];
    }
  }

  /** Comparing fixed-width keys byte by byte is comparing the numbers they spell. */
  lemma {:induction false} ByteOrderIsNumeric(a: seq<byte>, b: seq<byte>)
    requires |a| == |b|
    ensures LexLess(a, b) <==> FromBE(a) < FromBE(b)
  {
    if a != [] {
      ByteOrderIsNumeric(a[1..], b[1..]);
      FromBEHead(a);
      FromBEHead(b);
      BEBound(a[1..]);
      BEBound(b[1..]);
      LeadingDigit(a[0], b[0], Pow256(|a| - 1), FromBE(a[1..]), FromBE(b[1..]));
    }
  }

  lemma LeadingDigit(x: nat, y: nat, p: nat, u: nat, v: nat)
    requires u < p && v < p
    ensures x * p + u < y * p + v <==> x < y || (x == y && u < v)
  {
    if x < y {
      assert (x + 1) * p <= y * p;
    } else if y < x {
      assert (y + 1) * p <= x * p;
    }
  }
}
