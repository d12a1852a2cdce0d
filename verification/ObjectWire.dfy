/**
  Object and stream headers of the two draft-18 data streams: SUBGROUP, whose objects carry a
  delta-coded ID, and FETCH, whose objects carry serialization flags and up to four
  delta-coded fields. Writer and parser each keep a hidden context that must stay in step.
 */
module ObjectWire {
  import opened Bytes
  import opened Wire
  import opened Extensions
  import Varint

  datatype GroupOrder = OldestFirst | NewestFirst

  /** ObjectStatus codes; 1 and 2 are retired names that the parser still lets through. */
  type Status = c: int | 0 <= c <= 4
  const NORMAL: Status := 0
  const END_OF_GROUP: Status := 3
  const END_OF_TRACK: Status := 4

  datatype ObjectHeader = ObjectHeader(
    group: u64,
    subgroup: u64,
    id: u64,
    priority: Option<byte>,
    status: Status,
    extensions: ExtensionLists,
    length: Option<u64>,
    datagram: bool)

  const NO_EXTENSIONS := ExtensionLists([], [])
  const DEFAULT_HEADER := ObjectHeader(0, 0, 0, Some(128), NORMAL, NO_EXTENSIONS, None, false)

  /** previousFetchGroup_, previousFetchSubgroup_, previousObjectID_ and previousFetchPriority_. */
  datatype Context = Context(
    group: Option<u64>,
    subgroup: Option<u64>,
    objectId: Option<u64>,
    priority: Option<byte>)

  const EMPTY_CONTEXT := Context(None, None, None, None)

  // ---------------------------------------------------------------- subgroup header

  datatype SubgroupIdFormat = Present | Zero | FirstObject

  datatype SubgroupOptions = SubgroupOptions(
    hasExtensions: bool,
    idFormat: SubgroupIdFormat,
    hasEndOfGroup: bool,
    priorityPresent: bool,
    beginsWithFirstObject: bool)

  function Bit(b: bool, weight: nat): nat { if b then weight else 0 }

  predicate HasBit(flags: nat, weight: nat)
    requires weight > 0
  {
    flags / weight % 2 == 1
  }

  /** getSubgroupStreamType at draft 18. */
  function SubgroupStreamType(o: SubgroupOptions): u64 {
    0x10 + Bit(o.idFormat.Present?, 0x4) + Bit(o.idFormat.FirstObject?, 0x2) + Bit(o.hasExtensions, 0x1)
    + Bit(o.hasEndOfGroup, 0x8) + Bit(!o.priorityPresent, 0x20) + Bit(o.beginsWithFirstObject, 0x40)
  }

  /** isValidSubgroupType at draft 18. */
  predicate ValidSubgroupType(t: u64) {
    HasBit(t, 0x10) && !(HasBit(t, 0x4) && HasBit(t, 0x2)) && t <= 0x7D
  }

  /** getSubgroupOptions at draft 18. */
  function OptionsOf(t: u64): SubgroupOptions {
    SubgroupOptions(
      HasBit(t, 0x1),
      if HasBit(t, 0x4) then Present else if HasBit(t, 0x2) then FirstObject else Zero,
      HasBit(t, 0x8),
      !HasBit(t, 0x20),
      HasBit(t, 0x40))
  }

  /** The stream type carries the options without loss, and never as one of the other stream types. */
  lemma StreamTypeRoundTrip(o: SubgroupOptions)
    ensures ValidSubgroupType(SubgroupStreamType(o)) && OptionsOf(SubgroupStreamType(o)) == o
    ensures 0x10 <= SubgroupStreamType(o) <= 0x7D
  {
    var t := SubgroupStreamType(o);
    var first := Bit(o.beginsWithFirstObject, 1);
    var unprioritized := Bit(!o.priorityPresent, 1) + 2 * first;
    var subgroup := 1 + 2 * unprioritized;
    var endOfGroup := Bit(o.hasEndOfGroup, 1) + 2 * subgroup;
    var present := Bit(o.idFormat.Present?, 1) + 2 * endOfGroup;
    var value := Bit(o.idFormat.FirstObject?, 1) + 2 * present;
    assert t == Bit(o.hasExtensions, 1) + 2 * value;
    assert t / 0x40 == first;
    assert t / 0x20 == unprioritized;
    assert t / 0x10 == subgroup;
    assert t / 0x8 == endOfGroup;
    assert t / 0x4 == present;
    assert t / 0x2 == value;
    assert t / 0x1 == t;
  }

  datatype SubgroupHeader = SubgroupHeader(alias: u64, header: ObjectHeader)

  const UNSET: u64 := U64_MAX

  /** parseSubgroupHeader: in the FirstObject form the subgroup ID is peeked from the first object. */
  function ParseSubgroupHeader(s: bytes, o: SubgroupOptions): (r: Parse<SubgroupHeader>)
    ensures r.Ok? ==> |r.rest| < |s|
  {
    match ReadVarint(s)
    case None => Underflow
    case Some((alias, s1)) =>
      match ReadVarint(s1)
      case None => Underflow
      case Some((group, s2)) =>
        match ReadSubgroupId(s2, o.idFormat)
        case None => Underflow
        case Some((subgroup, s3)) =>
          if o.priorityPresent && |s3| == 0 then Underflow
          else
            var priority := if o.priorityPresent then Some(s3[0]) else None;
            var s4 := if o.priorityPresent then s3[1..] else s3;
            var h := DEFAULT_HEADER.(group := group, priority := priority);
            if o.idFormat.FirstObject? then
              match ReadVarint(s4)
              case None => Underflow
              case Some((id, _)) => Ok(SubgroupHeader(alias, h.(subgroup := id, id := id)), s4)
            else
              Ok(SubgroupHeader(alias, h.(subgroup := subgroup, id := UNSET)), s4)
  }

  function ReadSubgroupId(s: bytes, f: SubgroupIdFormat): (r: Option<(u64, bytes)>)
    ensures r.Some? ==> |r.value.1| <= |s|
  {
    if f.Present? then ReadVarint(s) else Some((0, s))
  }

  /** The options writeSubgroupHeader really sends: subgroup 0 never travels, priority follows the header. */
  function SentOptions(h: ObjectHeader, o: SubgroupOptions): SubgroupOptions {
    o.(idFormat := if h.subgroup == 0 then Zero else o.idFormat, priorityPresent := h.priority.Some?)
  }

  /** writeSubgroupHeader after the stream type. */
  function WriteSubgroupHeader(alias: u64, h: ObjectHeader, o: SubgroupOptions): bytes {
    Varint.Encode(alias) + (Varint.Encode(h.group) +
    ((if SentOptions(h, o).idFormat.Present? then Varint.Encode(h.subgroup) else []) +
     (if h.priority.Some? then [h.priority.value] else [])))
  }

  /** The header comes back, with the subgroup ID recovered in each of its three formats. */
  lemma SubgroupHeaderRoundTrip(alias: u64, h: ObjectHeader, o: SubgroupOptions, first: u64, rest: bytes)
    requires SentOptions(h, o).idFormat.Zero? ==> h.subgroup == 0
    requires SentOptions(h, o).idFormat.FirstObject? ==>
      h.subgroup == first && ReadVarint(rest).Some? && ReadVarint(rest).value.0 == first
    ensures var r := ParseSubgroupHeader(WriteSubgroupHeader(alias, h, o) + rest, SentOptions(h, o));
      && r.Ok? && r.rest == rest && r.value.alias == alias
      && r.value.header.group == h.group && r.value.header.subgroup == h.subgroup
      && r.value.header.priority == h.priority && r.value.header.extensions == NO_EXTENSIONS
  {
    hide Varint.Encode, ReadVarint;
    var sent := SentOptions(h, o);
    var prio: bytes := if h.priority.Some? then [h.priority.value] else [];
    var sub: bytes := if sent.idFormat.Present? then Varint.Encode(h.subgroup) else [];
    var s2 := sub + (prio + rest);
    var s1 := Varint.Encode(h.group) + s2;
    assert WriteSubgroupHeader(alias, h, o) + rest == Varint.Encode(alias) + s1;
    ReadWritten(alias, s1);
    ReadWritten(h.group, s2);
    if sent.idFormat.Present? {
      ReadWritten(h.subgroup, prio + rest);
    } else {
      assert s2 == prio + rest;
    }
    if h.priority.Some? {
      assert (prio + rest)[1..] == rest;
    } else {
      assert prio + rest == rest;
    }
  }

  // ---------------------------------------------------------------- object tail

  /** parseObjectStatusAndLength, with a status only after a zero length. */
  function ParseStatusAndLength(s: bytes, h: ObjectHeader, hasStatus: bool): (r: Parse<ObjectHeader>)
    ensures r.Ok? ==> |r.rest| < |s| && (!hasStatus ==> r.value.status == NORMAL)
  {
    match ReadVarint(s)
    case None => Underflow
    case Some((length, s1)) =>
      if hasStatus && length == 0 then
        match ReadVarint(s1)
        case None => Underflow
        case Some((code, s2)) =>
          if code > END_OF_TRACK then Violation
          else Ok(h.(length := Some(length), status := code), s2)
      else Ok(h.(length := Some(length), status := NORMAL), s1)
  }

  /** The optional extension block, appended to the template's lists, then length and status. */
  function ParseTail(s: bytes, h: ObjectHeader, hasExtensions: bool, hasStatus: bool): (r: Parse<ObjectHeader>)
    ensures r.Ok? ==> |r.rest| < |s| && (!hasStatus ==> r.value.status == NORMAL)
  {
    match if hasExtensions then ParseBlock(s) else Ok(NO_EXTENSIONS, s)
    case Underflow => Underflow
    case Violation => Violation
    case Ok(l, s1) =>
      var h1 := h.(extensions := ExtensionLists(
        h.extensions.mutableExts + l.mutableExts, h.extensions.immutableExts + l.immutableExts));
      match ParseStatusAndLength(s1, h1, hasStatus)
      case Underflow => Underflow
      case Violation => Violation
      case Ok(h2, s2) =>
        if h2.status != NORMAL && !h2.extensions.Empty() then Violation else Ok(h2, s2)
  }

  /** The part of writeStreamObject common to both streams: extension block, length, then status. */
  function WriteTail(h: ObjectHeader, hasExtensions: bool, hasStatus: bool): bytes
    requires BlockFits(h.extensions.mutableExts, h.extensions.immutableExts)
  {
    (if hasExtensions then WriteBlock(h.extensions.mutableExts, h.extensions.immutableExts) else []) +
    (if Length(h) > 0 then Varint.Encode(Length(h))
     else Varint.Encode(0) + (if hasStatus then Varint.Encode(h.status) else []))
  }

  function Length(h: ObjectHeader): u64 {
    if h.length.Some? then h.length.value else 0
  }

  /**
    What a caller of writeStreamObject must supply: sorted extensions inside the parser's
    limits, sent only if the stream announces them, and neither payload nor extensions on a status.
   */
  predicate Writable(h: ObjectHeader, hasExtensions: bool, hasStatus: bool) {
    && BlockFits(h.extensions.mutableExts, h.extensions.immutableExts)
    && WithinLimits(h.extensions.mutableExts, h.extensions.immutableExts)
    && (!hasExtensions ==> h.extensions.Empty())
    && (h.status != NORMAL ==> hasStatus && Length(h) == 0 && h.extensions.Empty())
  }

  /** What the receiver is given for a written header. */
  function Received(h: ObjectHeader): ObjectHeader {
    h.(length := Some(Length(h)),
       extensions := ExtensionLists(Norms(h.extensions.mutableExts), Norms(h.extensions.immutableExts)))
  }

  lemma TailRoundTrip(h: ObjectHeader, template: ObjectHeader, hasExtensions: bool, hasStatus: bool, rest: bytes)
    requires Writable(h, hasExtensions, hasStatus) && template.extensions == NO_EXTENSIONS
    ensures ParseTail(WriteTail(h, hasExtensions, hasStatus) + rest, template, hasExtensions, hasStatus)
         == Ok(template.(extensions := Received(h).extensions, length := Received(h).length, status := h.status), rest)
  {
    hide Varint.Encode, ReadVarint, ParseBlock, WriteBlock, WithinLimits;
    var l := h.extensions;
    var lists := Received(h).extensions;
    var end := if Length(h) > 0 then Varint.Encode(Length(h))
      else Varint.Encode(0) + (if hasStatus then Varint.Encode(h.status) else []);
    if hasExtensions {
      assert WriteTail(h, hasExtensions, hasStatus) + rest
        == WriteBlock(l.mutableExts, l.immutableExts) + (end + rest);
      BlockRoundTrip(l.mutableExts, l.immutableExts, end + rest);
    } else {
      assert WriteTail(h, hasExtensions, hasStatus) + rest == end + rest;
    }
    assert [] + lists.mutableExts == lists.mutableExts && [] + lists.immutableExts == lists.immutableExts;
    EndRoundTrip(h, template.(extensions := lists), hasStatus, rest);
  }

  lemma EndRoundTrip(h: ObjectHeader, h1: ObjectHeader, hasStatus: bool, rest: bytes)
    requires h.status != NORMAL ==> hasStatus && Length(h) == 0
    ensures var end := if Length(h) > 0 then Varint.Encode(Length(h))
        else Varint.Encode(0) + (if hasStatus then Varint.Encode(h.status) else []);
      ParseStatusAndLength(end + rest, h1, hasStatus) == Ok(h1.(length := Some(Length(h)), status := h.status), rest)
  {
    hide Varint.Encode, ReadVarint;
    if Length(h) > 0 {
      ReadWritten(Length(h), rest);
    } else if hasStatus {
      assert Varint.Encode(0) + Varint.Encode(h.status) + rest == Varint.Encode(0) + (Varint.Encode(h.status) + rest);
      ReadWritten(0, Varint.Encode(h.status) + rest);
      ReadWritten(h.status, rest);
    } else {
      assert Varint.Encode(0) + [] + rest == Varint.Encode(0) + rest;
      ReadWritten(0, rest);
    }
  }

  lemma TailStable(s: bytes, t: bytes, h: ObjectHeader, hasExtensions: bool, hasStatus: bool)
    ensures var r := ParseTail(s, h, hasExtensions, hasStatus);
      var r' := ParseTail(s + t, h, hasExtensions, hasStatus);
      (r.Ok? ==> r' == Ok(r.value, r.rest + t)) && (r.Violation? ==> r'.Violation?)
  {
    hide ReadVarint, ParseBlock;
    var s1 := s;
    if hasExtensions {
      BlockStable(s, t);
      if ParseBlock(s).Ok? {
        s1 := ParseBlock(s).rest;
      }
    }
    if ReadVarint(s1).Some? {
      ReadStable(s1, t);
      var s2 := ReadVarint(s1).value.1;
      if ReadVarint(s2).Some? {
        ReadStable(s2, t);
      }
    }
  }
}
