/** The vocabulary of the item parsers in MoQFramer.cpp: bounded varint reads and three-way results. */
module Wire {
  import opened Bytes
  import Varint

  /** Ok keeps the unread bytes; Underflow asks for more of them; Violation is final. */
  datatype Parse<+T> = Ok(value: T, rest: bytes) | Underflow | Violation

  /** decodeVarint(cursor, length) followed by `length -= consumed`. */
  function ReadVarint(s: bytes): (r: Option<(u64, bytes)>)
    ensures r.Some? ==> |r.value.1| < |s|
  {
    match Varint.Decode(s)
    case None => None
    case Some(d) => Some((d.0, s[d.1..]))
  }

  lemma ReadWritten(v: u64, rest: bytes)
    ensures ReadVarint(Varint.Encode(v) + rest) == Some((v, rest))
  {
    Varint.RoundTrip(v, rest);
    var e := Varint.Encode(v);
    assert (e + rest)[|e|..] == rest;
  }

  lemma EncodedIsNonEmpty(v: u64)
    ensures |Varint.Encode(v)| > 0
  {
  }

  lemma ReadWrittenAs(v: u64, length: nat, rest: bytes)
    requires 1 <= length <= 9 && v <= Varint.ValueMax(length)
    ensures ReadVarint(Varint.EncodeAs(v, length) + rest) == Some((v, rest))
  {
    Varint.RoundTripAs(v, length, rest);
    var e := Varint.EncodeAs(v, length);
    assert (e + rest)[|e|..] == rest;
  }

  lemma ReadStable(s: bytes, t: bytes)
    requires ReadVarint(s).Some?
    ensures ReadVarint(s + t) == Some((ReadVarint(s).value.0, ReadVarint(s).value.1 + t))
  {
    Varint.DecodeStable(s, t);
  }

  /** decodeDelta: the sum, or None when it passes 2^64-1. */
  function DecodeDelta(previous: u64, delta: u64): Option<u64> {
    if delta > U64_MAX - previous then None else Some(previous + delta)
  }
}
