/** Objects of a SUBGROUP stream: the ID is the distance from the previous object, minus one. */
module SubgroupObjects {
  import opened Bytes
  import opened Wire
  import opened Extensions
  import opened ObjectWire
  import Varint

  /** parseSubgroupObjectHeader's ID: `objectIDDelta + 1` is computed in 64 bits and wraps. */
  function ResolveId(previous: Option<u64>, delta: u64): Option<u64> {
    match previous
    case None => Some(delta)
    case Some(p) => DecodeDelta(p, (delta + 1) % U64_LIMIT)
  }

  function ParseObject(s: bytes, previous: Option<u64>, template: ObjectHeader, hasExtensions: bool): (r: Parse<ObjectHeader>)
    ensures r.Ok? ==> |r.rest| < |s|
  {
    match ReadVarint(s)
    case None => Underflow
    case Some((delta, s1)) =>
      match ResolveId(previous, delta)
      case None => Violation
      case Some(id) => ParseTail(s1, template.(id := id), hasExtensions, true)
  }

  /** The writer refuses an ID that does not increase. */
  predicate Advances(previous: Option<u64>, id: u64) {
    previous.Some? ==> previous.value < id
  }

  /** writeStreamObject on a subgroup stream, without the payload. */
  function WriteObject(previous: Option<u64>, h: ObjectHeader, hasExtensions: bool): Option<bytes>
    requires BlockFits(h.extensions.mutableExts, h.extensions.immutableExts)
  {
    if !Advances(previous, h.id) then None
    else
      var delta := if previous.Some? then h.id - previous.value - 1 else h.id;
      Some(Varint.Encode(delta) + WriteTail(h, hasExtensions, true))
  }

  /** A parsed ID lies above the previous one, except for the one delta whose increment wraps to zero. */
  lemma ParsedIdAdvances(previous: u64, delta: u64)
    requires ResolveId(Some(previous), delta).Some?
    ensures ResolveId(Some(previous), delta).value > previous <==> delta != U64_MAX
    ensures delta == U64_MAX ==> ResolveId(Some(previous), delta).value == previous
  {
    if delta == U64_MAX {
      assert (delta + 1) % U64_LIMIT == 0;
    } else {
      assert (delta + 1) % U64_LIMIT == delta + 1;
    }
  }

  /** Whatever the writer accepts, the parser in the same context returns, and stops at the payload. */
  lemma ObjectRoundTrip(previous: Option<u64>, h: ObjectHeader, template: ObjectHeader, hasExtensions: bool, rest: bytes)
    requires Writable(h, hasExtensions, true) && Advances(previous, h.id)
    requires template.extensions == NO_EXTENSIONS
    ensures ParseObject(WriteObject(previous, h, hasExtensions).value + rest, previous, template, hasExtensions)
         == Ok(Received(h).(group := template.group, subgroup := template.subgroup,
                            priority := template.priority, datagram := template.datagram), rest)
  {
    hide Varint.Encode, ReadVarint, WriteTail, ParseTail, WithinLimits;
    var delta := if previous.Some? then h.id - previous.value - 1 else h.id;
    var tail := WriteTail(h, hasExtensions, true);
    assert WriteObject(previous, h, hasExtensions).value + rest == Varint.Encode(delta) + (tail + rest);
    ReadWritten(delta, tail + rest);
    TailRoundTrip(h, template.(id := h.id), hasExtensions, true, rest);
  }

  lemma ObjectStable(s: bytes, t: bytes, previous: Option<u64>, template: ObjectHeader, hasExtensions: bool)
    ensures var r := ParseObject(s, previous, template, hasExtensions);
      var r' := ParseObject(s + t, previous, template, hasExtensions);
      (r.Ok? ==> r' == Ok(r.value, r.rest + t)) && (r.Violation? ==> r'.Violation?)
  {
    hide ReadVarint, ParseTail;
    if ReadVarint(s).Some? {
      ReadStable(s, t);
      var (delta, s1) := ReadVarint(s).value;
      var id := ResolveId(previous, delta);
      if id.Some? {
        TailStable(s1, t, template.(id := id.value), hasExtensions, true);
      }
    }
  }
}
