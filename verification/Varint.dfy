/**
  The MoQT variable-length integer of drafts 17 and later (MoQVarint.h, MoQVarint.cpp).

  The number of leading one bits of the first byte is the number of bytes that follow.
  It is not the two-bit length scheme of section 16 of RFC 9000.
 */
module Varint {
  import opened Bytes

  /** kFirstBytePrefixMask */
  function Prefix(length: nat): byte
    requires 1 <= length <= 9
  {
    match length
    case 1 => 0x00
    case 2 => 0x80
    case 3 => 0xC0
    case 4 => 0xE0
    case 5 => 0xF0
    case 6 => 0xF8
    case 7 => 0xFC
    case 8 => 0xFE
    case _ => 0xFF
  }

  /** kValueMax */
  function ValueMax(length: nat): u64
    requires 1 <= length <= 9
  {
    match length
    case 1 => 0x7F
    case 2 => 0x3FFF
    case 3 => 0x1F_FFFF
    case 4 => 0xFFF_FFFF
    case 5 => 0x7_FFFF_FFFF
    case 6 => 0x3FF_FFFF_FFFF
    case 7 => 0x1_FFFF_FFFF_FFFF
    case 8 => 0xFF_FFFF_FFFF_FFFF
    case _ => 0xFFFF_FFFF_FFFF_FFFF
  }

  /** The prefix bits OR'd above the value bits; the two never overlap, so the OR is a sum. */
  function Word(v: u64, length: nat): nat
    requires 1 <= length <= 8
  {
    Prefix(length) * Pow256(length - 1) + v
  }

  /** The write path selected for each length: a 9-byte form has a pure prefix byte. */
  function EncodeAs(v: u64, length: nat): (s: bytes)
    requires 1 <= length <= 9
    ensures |s| == length
  {
    if length == 9 then [0xFF] + BigEndian(v, 8) else BigEndian(Word(v, length), length)
  }

  /** The comparisons of encodeMoQVarint and encodeMoQVarintSlow, in their order. */
  function CascadeLength(v: u64): (n: nat)
    ensures 1 <= n <= 9
  {
    if v <= 0x7F then 1
    else if v <= ValueMax(2) then 2
    else if v > ValueMax(8) then 9
    else if v > ValueMax(7) then 8
    else if v > ValueMax(4) then
      if v <= ValueMax(5) then 5 else if v <= ValueMax(6) then 6 else 7
    else if v <= ValueMax(3) then 3
    else 4
  }

  function Encode(v: u64): (s: bytes)
    ensures 1 <= |s| <= 9
  {
    EncodeAs(v, CascadeLength(v))
  }

  function BitWidth(v: nat): nat {
    if v == 0 then 0 else 1 + BitWidth(v / 2)
  }

  /** getMoQVarintSize: the bit width rounded up to sevenths, clamped to 1..9. */
  function Size(v: u64): nat {
    var n := (BitWidth(v) + 6) / 7;
    if n < 1 then 1 else if n > 9 then 9 else n
  }

  /** std::countl_one on the `width` low bits of `b`. */
  function LeadingOnes(b: nat, width: nat): nat {
    if width == 0 || b < Pow2(width - 1) then 0
    else 1 + LeadingOnes(b - Pow2(width - 1), width - 1)
  }

  function Pow2(n: nat): (p: nat)
    ensures p > 0
  {
    if n == 0 then 1 else 2 * Pow2(n - 1)
  }

  /** Value and number of bytes consumed, or None when the cursor does not move. */
  type Decoded = Option<(u64, nat)>

  function DecodeAtMost(s: bytes, atMost: nat): (d: Decoded)
    ensures d.Some? ==> 1 <= d.value.1 <= |s| && d.value.1 <= atMost
  {
    if atMost == 0 || |s| == 0 then None
    else if s[0] < 0x80 then Some((s[0], 1))
    else
      var length := LeadingOnes(s[0], 8) + 1;
      LengthFromFirstByte(s[0]);
      if length > atMost || |s| < length then None
      else if length == 9 then
        Value9Fits(s[1..9]);
        Some((FromBigEndian(s[1..9]), 9))
      else
        MaskedValueFits(s, length);
        Some((FromBigEndian([s[0] % (256 - Prefix(length))] + s[1..length]), length))
  }

  /** The bounded read every item parser performs: `s` is all the parser may look at. */
  function Decode(s: bytes): (d: Decoded)
    ensures d.Some? ==> 1 <= d.value.1 <= |s|
  {
    DecodeAtMost(s, |s|)
  }

  // ---------------------------------------------------------------- lengths

  /** First bytes of a form of `length` bytes: its prefix, then free value bits. */
  predicate HeadOf(b: byte, length: nat)
    requires 1 <= length <= 9
  {
    if length == 9 then b == 0xFF
    else Prefix(length) <= b < (if length == 8 then 0xFF else Prefix(length + 1))
  }

  /** The leading-ones count recovers exactly the length whose prefix the byte carries. */
  lemma {:induction false} LengthFromFirstByte(b: byte)
    ensures var n := LeadingOnes(b, 8) + 1; n <= 9 && HeadOf(b, n)
  {
    Pow2Small();
    LeadingOnesUnfold(b);
  }

  lemma {:induction false} LengthFromPrefix(b: byte, length: nat)
    requires 1 <= length <= 9 && HeadOf(b, length)
    ensures LeadingOnes(b, 8) + 1 == length
  {
    Pow2Small();
    LeadingOnesUnfold(b);
  }

  lemma Pow2Small()
    ensures Pow2(0) == 1 && Pow2(1) == 2 && Pow2(2) == 4 && Pow2(3) == 8
    ensures Pow2(4) == 16 && Pow2(5) == 32 && Pow2(6) == 64 && Pow2(7) == 128
  {
    assert Pow2(2) == 2 * Pow2(1);
    assert Pow2(4) == 2 * Pow2(3);
    assert Pow2(6) == 2 * Pow2(5);
  }

  lemma {:induction false} LeadingOnesUnfold(b: byte)
    requires Pow2(0) == 1 && Pow2(1) == 2 && Pow2(2) == 4 && Pow2(3) == 8
    requires Pow2(4) == 16 && Pow2(5) == 32 && Pow2(6) == 64 && Pow2(7) == 128
    ensures LeadingOnes(b, 8) ==
      if b < 0x80 then 0 else if b < 0xC0 then 1 else if b < 0xE0 then 2 else if b < 0xF0 then 3
      else if b < 0xF8 then 4 else if b < 0xFC then 5 else if b < 0xFE then 6
      else if b < 0xFF then 7 else 8
  {
    if b >= 0x80 {
      var c := b - 0x80;
      assert LeadingOnes(b, 8) == 1 + LeadingOnes(c, 7);
      if c >= 64 {
        assert LeadingOnes(c, 7) == 1 + LeadingOnes(c - 64, 6);
        if c >= 96 {
          assert LeadingOnes(c - 64, 6) == 1 + LeadingOnes(c - 96, 5);
          if c >= 112 {
            assert LeadingOnes(c - 96, 5) == 1 + LeadingOnes(c - 112, 4);
            if c >= 120 {
              assert LeadingOnes(c - 112, 4) == 1 + LeadingOnes(c - 120, 3);
            }
          }
        }
      }
    }
  }

  lemma {:induction false} BitWidthBound(v: nat, k: nat)
    ensures BitWidth(v) <= k <==> v < Pow2(k)
  {
    if v > 0 && k > 0 {
      BitWidthBound(v / 2, k - 1);
    }
  }

  lemma {:induction false} Pow2Sevenths(n: nat)
    requires 1 <= n <= 8
    ensures Pow2(7 * n) == ValueMax(n) + 1
  {
    assert Pow2(7) == 128;
    if n > 1 {
      Pow2Sevenths(n - 1);
      Pow2Add(7 * (n - 1), 7);
    }
  }

  lemma {:induction false} Pow2Add(a: nat, b: nat)
    ensures Pow2(a + b) == Pow2(a) * Pow2(b)
  {
    if b > 0 {
      Pow2Add(a, b - 1);
      assert Pow2(a + b) == 2 * Pow2(a + (b - 1));
      assert Pow2(a) * Pow2(b) == 2 * (Pow2(a) * Pow2(b - 1));
    }
  }

  /** The branch cascade and the bit-width formula choose the same length. */
  lemma CascadeAgreesWithSize(v: u64)
    ensures |Encode(v)| == CascadeLength(v) == Size(v)
  {
    hide BitWidth;
    var n := CascadeLength(v);
    CascadeIsLeastLength(v);
    if n < 9 {
      Pow2Sevenths(n);
      BitWidthBound(v, 7 * n);
    }
    if n > 1 {
      Pow2Sevenths(n - 1);
      BitWidthBound(v, 7 * (n - 1));
    }
  }

  lemma CascadeIsLeastLength(v: u64)
    ensures v <= ValueMax(CascadeLength(v))
    ensures forall n :: 1 <= n < CascadeLength(v) ==> v > ValueMax(n)
  {
  }

  // ---------------------------------------------------------------- values

  lemma Powers256()
    ensures Pow256(0) == 1 && Pow256(1) == 0x100 && Pow256(2) == 0x1_0000 && Pow256(3) == 0x100_0000
    ensures Pow256(4) == 0x1_0000_0000 && Pow256(5) == 0x100_0000_0000 && Pow256(6) == 0x1_0000_0000_0000
    ensures Pow256(7) == 0x100_0000_0000_0000 && Pow256(8) == U64_LIMIT
  {
    assert Pow256(2) == 256 * Pow256(1);
    assert Pow256(4) == 256 * Pow256(3);
    assert Pow256(6) == 256 * Pow256(5);
    assert Pow256(8) == 256 * Pow256(7);
  }

  lemma {:induction false} Value9Fits(s: bytes)
    requires |s| == 8
    ensures FromBigEndian(s) < U64_LIMIT
  {
    FromBigEndianBound(s);
    Powers256();
  }

  lemma MaskedValueFits(s: bytes, length: nat)
    requires 2 <= length <= 8 && length <= |s|
    requires HeadOf(s[0], length)
    ensures FromBigEndian([s[0] % (256 - Prefix(length))] + s[1..length]) <= ValueMax(length)
  {
    var masked: byte := s[0] % (256 - Prefix(length));
    var digits := [masked] + s[1..length];
    FromBigEndianHead(digits);
    assert digits[1..] == s[1..length];
    FromBigEndianBound(s[1..length]);
    Powers256();
    assert masked == s[0] - Prefix(length);
  }

  /** The head byte of an encoding carries the prefix and the top value bits. */
  lemma {:induction false} EncodeSplit(v: u64, length: nat)
    requires 1 <= length <= 8 && v <= ValueMax(length)
    ensures var p := Pow256(length - 1);
      var head := Prefix(length) + v / p;
      && 0 <= head < 256 && HeadOf(head, length)
      && EncodeAs(v, length) == [head] + BigEndian(v % p, length - 1)
  {
    var p := Pow256(length - 1);
    var head := Prefix(length) + v / p;
    HeadInRange(v, length);
    DivMod(v, p);
    Distribute(Prefix(length), v / p, p);
    assert Word(v, length) == head * p + v % p;
    BigEndianHead(head, v % p, length - 1);
  }

  lemma Distribute(a: nat, b: nat, p: nat)
    ensures (a + b) * p == a * p + b * p
  {
  }

  lemma {:induction false} HeadInRange(v: u64, length: nat)
    requires 1 <= length <= 8 && v <= ValueMax(length)
    ensures var head := Prefix(length) + v / Pow256(length - 1);
      0 <= head < 256 && HeadOf(head, length)
  {
    Powers256();
  }

  /** Decoding the encoding of any u64, whatever follows it, returns it and stops right after it. */
  lemma RoundTrip(v: u64, rest: bytes)
    ensures Decode(Encode(v) + rest) == Some((v, |Encode(v)|))
  {
    var n := CascadeLength(v);
    CascadeIsLeastLength(v);
    RoundTripAs(v, n, rest);
  }

  /** Non-minimal forms decode to the same value. */
  lemma RoundTripAs(v: u64, length: nat, rest: bytes)
    requires 1 <= length <= 9 && v <= ValueMax(length)
    ensures Decode(EncodeAs(v, length) + rest) == Some((v, length))
  {
    var s := EncodeAs(v, length) + rest;
    Powers256();
    if length == 9 {
      LengthFromPrefix(s[0], 9);
      assert s[1..9] == BigEndian(v, 8);
      BigEndianRoundTrip(v, 8);
    } else {
      EncodeSplit(v, length);
      LengthFromPrefix(s[0], length);
      if length > 1 {
        RoundTripMasked(v, length, rest);
      }
    }
  }

  lemma RoundTripMasked(v: u64, length: nat, rest: bytes)
    requires 2 <= length <= 8 && v <= ValueMax(length)
    ensures var s := EncodeAs(v, length) + rest;
      FromBigEndian([s[0] % (256 - Prefix(length))] + s[1..length]) == v
  {
    var p := Pow256(length - 1);
    EncodeSplit(v, length);
    MaskedDigits(EncodeAs(v, length) + rest, v / p, v % p, length);
    DivMod(v, p);
  }

  lemma DivMod(v: nat, p: nat)
    requires p > 0
    ensures v == (v / p) * p + v % p
  {
  }

  lemma MaskedDigits(s: bytes, high: nat, low: nat, length: nat)
    requires 2 <= length <= 8 && Prefix(length) + high < 256 && HeadOf(Prefix(length) + high, length)
    requires low < Pow256(length - 1)
    requires [Prefix(length) + high] + BigEndian(low, length - 1) <= s
    ensures FromBigEndian([s[0] % (256 - Prefix(length))] + s[1..length]) == high * Pow256(length - 1) + low
  {
    Unmask(high, length);
    assert s[0] == Prefix(length) + high;
    assert s[1..length] == BigEndian(low, length - 1);
    var digits: bytes := [high] + s[1..length];
    FromBigEndianHead(digits);
    assert digits[1..] == s[1..length];
    BigEndianRoundTrip(low, length - 1);
  }

  /** Masking with the complement of the prefix leaves the value bits. */
  lemma Unmask(high: nat, length: nat)
    requires 2 <= length <= 8 && Prefix(length) + high < 256 && HeadOf(Prefix(length) + high, length)
    ensures (Prefix(length) + high) % (256 - Prefix(length)) == high
  {
  }

  /** No shorter byte string decodes to the same value, so the encoder's form is minimal. */
  lemma EncodeIsShortest(v: u64, s: bytes)
    requires Decode(s).Some? && Decode(s).value.0 == v
    ensures |Encode(v)| <= Decode(s).value.1
  {
    var length := Decode(s).value.1;
    CascadeIsLeastLength(v);
    LengthFromFirstByte(s[0]);
    if s[0] >= 0x80 && length <= 8 {
      MaskedValueFits(s, length);
    }
    assert v <= ValueMax(length);
  }

  // ---------------------------------------------------------------- locality

  /** A decode looks at no byte past its bound and none past the length it reports. */
  lemma DecodeIsLocal(s: bytes, t: bytes, atMost: nat)
    ensures DecodeAtMost(s, atMost).Some? ==> DecodeAtMost(s + t, atMost) == DecodeAtMost(s, atMost)
    ensures DecodeAtMost(s, |s|) == DecodeAtMost(s + t, |s|)
    ensures atMost >= 9 ==> DecodeAtMost(s, atMost) == Decode(s)
  {
    if |s| > 0 {
      LengthFromFirstByte(s[0]);
      var length := LeadingOnes(s[0], 8) + 1;
      if length <= |s| {
        assert (s + t)[1..length] == s[1..length];
      }
    }
  }

  /** A successful decode survives extra bytes; only an underflow may change its mind. */
  lemma DecodeStable(s: bytes, t: bytes)
    requires Decode(s).Some?
    ensures Decode(s + t) == Decode(s)
    ensures (s + t)[Decode(s).value.1..] == s[Decode(s).value.1..] + t
  {
    DecodeIsLocal(s, t, |s|);
    var n := LeadingOnes(s[0], 8) + 1;
    LengthFromFirstByte(s[0]);
    if s[0] >= 0x80 {
      assert (s + t)[1..n] == s[1..n];
    }
  }
}
