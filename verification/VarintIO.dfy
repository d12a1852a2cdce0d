/** The varint code as it runs: an appender that grows, a cursor that moves, and word-sized loads and stores. */
module VarintIO {
  import opened Bytes
  import opened Varint

  /** Shifting a word up by whole bytes and storing its top bytes is storing the word itself. */
  lemma {:induction false} ShiftedStore(w: nat, n: nat, k: nat)
    ensures BigEndian(w * Pow256(k), n + k)[..n] == BigEndian(w, n)
  {
    if k == 0 {
      assert w * Pow256(0) == w;
    } else {
      var v := w * Pow256(k);
      assert v == 256 * (w * Pow256(k - 1));
      assert v / 256 == w * Pow256(k - 1);
      ShiftedStore(w, n, k - 1);
      assert BigEndian(v, n + k)[..n] == BigEndian(v / 256, n + k - 1)[..n];
    }
  }

  /** Leading zero bytes of a right-aligned load do not count. */
  lemma {:induction false} ZeroExtendedLoad(k: nat, s: bytes)
    ensures FromBigEndian(Zeros(k) + s) == FromBigEndian(s)
    decreases k + |s|
  {
    var z := Zeros(k) + s;
    if s != [] {
      assert z[..|z| - 1] == Zeros(k) + s[..|s| - 1];
      ZeroExtendedLoad(k, s[..|s| - 1]);
    } else if k > 0 {
      assert z[..|z| - 1] == Zeros(k - 1) + s;
      ZeroExtendedLoad(k - 1, s);
    }
  }

  function Zeros(k: nat): (z: bytes)
    ensures |z| == k
  {
    seq(k, _ => 0)
  }

  class Appender {
    var written: bytes

    constructor ()
      ensures written == []
    {
      written := [];
    }

    method WriteBE(word: nat, width: nat)
      modifies this
      ensures written == old(written) + BigEndian(word, width)
    {
      written := written + BigEndian(word, width);
    }

    /** encodeSpecialLength: the value shifted into the top bytes of a 64-bit word, of which `length` are copied. */
    method EncodeSpecialLength(value: u64, length: nat) returns (size: nat)
      requires 3 <= length <= 7 && value <= ValueMax(length)
      modifies this
      ensures written == old(written) + EncodeAs(value, length) && size == length
    {
      var shift := Pow256(8 - length);
      var shifted := value * shift + Prefix(length) * Pow256(7);
      SpecialWord(value, length);
      ShiftedStore(Word(value, length), length, 8 - length);
      written := written + BigEndian(shifted, 8)[..length];
      size := length;
    }

    method EncodeMoQVarint(value: u64) returns (size: nat)
      modifies this
      ensures written == old(written) + Encode(value) && size == |Encode(value)|
    {
      hide BigEndian;
      if value <= 0x7F {
        WriteBE(value, 1);
        assert Word(value, 1) == value;
        return 1;
      }
      if value <= ValueMax(2) {
        WriteBE(Word(value, 2), 2);
        return 2;
      }
      if value > ValueMax(8) {
        WriteBE(0xFF, 1);
        assert BigEndian(0xFF, 1) == [0xFF] by { OneByte(0xFF); }
        WriteBE(value, 8);
        return 9;
      }
      if value > ValueMax(7) {
        WriteBE(Word(value, 8), 8);
        return 8;
      }
      if value > ValueMax(4) {
        if value <= ValueMax(5) {
          size := EncodeSpecialLength(value, 5);
        } else if value <= ValueMax(6) {
          size := EncodeSpecialLength(value, 6);
        } else {
          size := EncodeSpecialLength(value, 7);
        }
        return;
      }
      if value <= ValueMax(3) {
        size := EncodeSpecialLength(value, 3);
        return;
      }
      WriteBE(Word(value, 4), 4);
      return 4;
    }
  }

  lemma {:induction false} OneByte(b: byte)
    ensures BigEndian(b, 1) == [b]
  {
    assert BigEndian(b, 1) == BigEndian(b / 256, 0) + [b % 256];
  }

  lemma {:induction false} SpecialWord(value: u64, length: nat)
    requires 3 <= length <= 7
    ensures value * Pow256(8 - length) + Prefix(length) * Pow256(7) == Word(value, length) * Pow256(8 - length)
  {
    Powers256();
    Distribute(Prefix(length) * Pow256(length - 1), value, Pow256(8 - length));
  }

  /** The contents of a chain of buffers. */
  function Joined(chain: seq<bytes>): bytes { if chain == [] then [] else chain[0] + Joined(chain[1..]) }

  /** A cursor over a chain of buffers, the first of which may be partly read. */
  class Cursor {
    var chain: seq<bytes>

    function Remaining(): bytes
      reads this
    {
      Joined(chain)
    }

    constructor (chain: seq<bytes>)
      ensures Remaining() == Joined(chain)
    {
      this.chain := chain;
    }

    /** What can be read without leaving a buffer; nothing only at the end. */
    method PeekBytes() returns (s: bytes)
      modifies this
      ensures Remaining() == old(Remaining()) && s <= Remaining() && (s == [] ==> Remaining() == [])
    {
      while chain != [] && chain[0] == []
        invariant Remaining() == old(Remaining())
        decreases |chain|
      {
        chain := chain[1..];
      }
      s := if chain == [] then [] else chain[0];
    }

    method CanAdvance(amount: nat) returns (can: bool)
      ensures can == (amount <= |Remaining()|)
    {
      var ahead, seen := chain, 0;
      while ahead != [] && seen < amount
        invariant seen + |Joined(ahead)| == |Remaining()|
        decreases |ahead|
      {
        seen := seen + |ahead[0]|;
        ahead := ahead[1..];
      }
      can := seen >= amount;
    }

    /** Copies bytes out, over as many buffers as it takes. */
    method Pull(amount: nat) returns (s: bytes)
      requires amount <= |Remaining()|
      modifies this
      ensures s == old(Remaining())[..amount] && Remaining() == old(Remaining())[amount..]
    {
      ghost var all := Remaining();
      s := [];
      while |s| < amount
        invariant |s| <= amount && s + Remaining() == all
        decreases |chain|, amount - |s|
      {
        var first, need := chain[0], amount - |s|;
        ghost var before := Remaining();
        assert before == first + Joined(chain[1..]);
        if |first| <= need {
          chain := chain[1..];
          s := s + first;
        } else {
          chain := [first[need..]] + chain[1..];
          Rejoined(first, need, before, chain);
          s := s + first[..need];
        }
      }
    }

    method Skip(amount: nat)
      requires amount <= |Remaining()|
      modifies this
      ensures Remaining() == old(Remaining())[amount..]
    {
      var _ := Pull(amount);
    }

    /** decodeMoQVarint: the cursor moves past the varint, or not at all, however the bytes are spread over buffers. */
    method DecodeMoQVarint(atMost: nat) returns (r: Decoded)
      modifies this
      ensures r == DecodeAtMost(old(Remaining()), atMost)
      ensures Remaining() == old(Remaining())[if r.Some? then r.value.1 else 0..]
    {
      var peeked := PeekBytes();
      if atMost == 0 || peeked == [] {
        return None;
      }
      var firstByte := peeked[0];
      if firstByte < 0x80 {
        Skip(1);
        return Some((firstByte, 1));
      }
      r := DecodeSlow(peeked, atMost);
    }

    method DecodeSlow(peeked: bytes, atMost: nat) returns (r: Decoded)
      requires peeked != [] && peeked <= Remaining() && peeked[0] >= 0x80 && atMost > 0
      modifies this
      ensures r == DecodeAtMost(old(Remaining()), atMost)
      ensures Remaining() == old(Remaining())[if r.Some? then r.value.1 else 0..]
    {
      ghost var all := Remaining();
      var firstByte := peeked[0];
      var length := LeadingOnes(firstByte, 8) + 1;
      LengthFromFirstByte(firstByte);
      if length > atMost {
        return None;
      }
      if |peeked| >= length {
        assert peeked[1..length] == all[1..length];
        Skip(length);
        if length == 9 {
          Value9Fits(peeked[1..9]);
          return Some((FromBigEndian(peeked[1..9]), 9));
        }
        var word := LoadRightAligned(peeked[..length], length);
        return Some((word, length));
      }
      var enough := CanAdvance(length);
      if !enough {
        return None;
      }
      if length == 9 {
        Skip(1);
        var word := Pull(8);
        assert word == all[1..9];
        Value9Fits(word);
        return Some((FromBigEndian(word), 9));
      }
      var pulled := Pull(length);
      var word := LoadRightAligned(pulled, length);
      return Some((word, length));
    }
  }

  lemma {:induction false} Rejoined(first: bytes, need: nat, before: bytes, chain: seq<bytes>)
    requires need < |first| && chain != [] && chain[0] == first[need..] && before == first + Joined(chain[1..])
    ensures first[..need] + Joined(chain) == before
  {
    assert first[..need] + first[need..] == first;
  }

  /** The bytes at the end of a zeroed word, the length bits masked off the first of them. */
  method LoadRightAligned(s: bytes, length: nat) returns (word: u64)
    requires 2 <= length <= 8 && |s| == length && HeadOf(s[0], length)
    ensures word == FromBigEndian([s[0] % (256 - Prefix(length))] + s[1..])
  {
    var masked := [s[0] % (256 - Prefix(length))] + s[1..];
    ZeroExtendedLoad(8 - length, masked);
    MaskedValueFits(s, length);
    assert s[1..length] == s[1..];
    word := FromBigEndian(Zeros(8 - length) + masked);
  }

  /** What an appender wrote, a cursor reads back, stopping right behind it, over any chain that holds these bytes. */
  method WriteThenRead(value: u64, trailer: bytes, chain: seq<bytes>) returns (result: Decoded, left: bytes)
    requires Joined(chain) == Encode(value) + trailer
    ensures result.Some? && result.value.0 == value && left == trailer
  {
    var appender := new Appender();
    var size := appender.EncodeMoQVarint(value);
    assert Joined(chain) == appender.written + trailer;
    var cursor := new Cursor(chain);
    result := cursor.DecodeMoQVarint(9);
    DecodeIsLocal(Encode(value) + trailer, [], 9);
    RoundTrip(value, trailer);
    left := cursor.Remaining();
  }
}
