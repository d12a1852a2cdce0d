/** Bytes, 64-bit words and big-endian layout, shared by every wire format of the model. */
module Bytes {

  type byte = b: int | 0 <= b < 256
  type bytes = seq<byte>

  const U64_LIMIT: int := 0x1_0000_0000_0000_0000
  const U64_MAX: int := 0xFFFF_FFFF_FFFF_FFFF
  type u64 = v: int | 0 <= v < U64_LIMIT

  datatype Option<+T> = None | Some(value: T)

  function Pow256(n: nat): (p: nat)
    ensures p > 0
  {
    if n == 0 then 1 else 256 * Pow256(n - 1)
  }

  /** The low `n` bytes of `v`, most significant first (folly's writeBE). */
  function BigEndian(v: nat, n: nat): (s: bytes)
    ensures |s| == n
  {
    if n == 0 then [] else BigEndian(v / 256, n - 1) + [v % 256]
  }

  /** The number whose big-endian layout is `s` (folly's readBE). */
  function FromBigEndian(s: bytes): nat {
    if |s| == 0 then 0 else FromBigEndian(s[..|s| - 1]) * 256 + s[|s| - 1]
  }

  lemma {:induction false} BigEndianRoundTrip(v: nat, n: nat)
    requires v < Pow256(n)
    ensures FromBigEndian(BigEndian(v, n)) == v
  {
    if n > 0 {
      var s := BigEndian(v, n);
      assert s[..|s| - 1] == BigEndian(v / 256, n - 1);
      BigEndianRoundTrip(v / 256, n - 1);
    }
  }

  /** The leading byte can be read off without disturbing the others. */
  lemma {:induction false} BigEndianHead(head: byte, low: nat, n: nat)
    requires low < Pow256(n)
    ensures BigEndian(head * Pow256(n) + low, n + 1) == [head] + BigEndian(low, n)
  {
    if n > 0 {
      var v := head * Pow256(n) + low;
      assert head * Pow256(n) == 256 * (head * Pow256(n - 1));
      assert v / 256 == head * Pow256(n - 1) + low / 256;
      assert v % 256 == low % 256;
      BigEndianHead(head, low / 256, n - 1);
    } else {
      assert BigEndian(head, 1) == BigEndian(head / 256, 0) + [head % 256];
    }
  }

  lemma {:induction false} FromBigEndianBound(s: bytes)
    ensures FromBigEndian(s) < Pow256(|s|)
  {
    if |s| > 0 {
      FromBigEndianBound(s[..|s| - 1]);
    }
  }

  /** Every digit string splits into its head, weighted by position, and its tail. */
  lemma {:induction false} FromBigEndianHead(s: bytes)
    requires |s| > 0
    ensures FromBigEndian(s) == s[0] * Pow256(|s| - 1) + FromBigEndian(s[1..])
  {
    if |s| > 1 {
      var init := s[..|s| - 1];
      FromBigEndianHead(init);
      assert init[1..] == s[1..][..|s| - 2];
      assert init[0] * Pow256(|s| - 1) == 256 * (init[0] * Pow256(|s| - 2));
    } else {
      assert FromBigEndian(s[..0]) == 0;
    }
  }
}
