/** Objects of a FETCH stream: serialization flags, then only the fields that the context does not predict. */
module FetchObjects {
  import opened Bytes
  import opened Wire
  import opened Extensions
  import opened ObjectWire
  import Varint

  const END_OF_NON_EXISTENT_RANGE: u64 := 0x8C
  const END_OF_UNKNOWN_RANGE: u64 := 0x10C

  datatype FetchItem =
    | Object(header: ObjectHeader)
    | EndOfRange(group: u64, objectId: u64, isUnknown: bool)

  /** A parsed item together with the context it leaves behind. */
  datatype FetchStep = FetchStep(item: FetchItem, context: Context)

  // ---------------------------------------------------------------- field resolution

  /** resolveFetchGroupID with draft-18 deltas. */
  function ResolveGroup(field: Option<u64>, previous: Option<u64>, order: GroupOrder): Option<u64> {
    match (field, previous)
    case (None, _) => previous
    case (Some(delta), None) => Some(delta)
    case (Some(delta), Some(p)) =>
      if order.NewestFirst? then
        if delta == U64_MAX || p < delta + 1 then None else Some(p - (delta + 1))
      else
        if delta == U64_MAX || p > U64_MAX - delta - 1 then None else Some(p + delta + 1)
  }

  /** resolveFetchObjectID with draft-18 deltas: relative inside a group, absolute after a group change. */
  function ResolveObject(field: Option<u64>, groupDeltaPresent: bool, previous: Option<u64>): Option<u64> {
    match (field, previous)
    case (Some(v), None) => if groupDeltaPresent then field else None
    case (Some(v), Some(p)) => if groupDeltaPresent then field else DecodeDelta(p, v)
    case (None, None) => None
    case (None, Some(p)) => if p == U64_MAX then None else Some(p + 1)
  }

  datatype DeltaFields = DeltaFields(groupDelta: Option<u64>, objectDelta: Option<u64>)

  /** computeFetchObjectDeltaFieldsForWrite: None when the order rules out the object. */
  function DeltaFieldsFor(group: u64, id: u64, c: Context, order: GroupOrder): Option<DeltaFields> {
    var groupField :=
      if c.group.None? then Some(Some(group))
      else if group == c.group.value then Some(None)
      else if order.NewestFirst? then
        if group >= c.group.value then None else Some(Some(c.group.value - group - 1))
      else
        if group <= c.group.value then None else Some(Some(group - c.group.value - 1));
    match groupField
    case None => None
    case Some(g) =>
      var isNext := c.objectId.Some? && c.objectId.value != U64_MAX && id == c.objectId.value + 1;
      if c.objectId.None? then Some(DeltaFields(g, Some(id)))
      else if isNext then Some(DeltaFields(g, None))
      else if g.Some? then Some(DeltaFields(g, Some(id)))
      else if id < c.objectId.value then None
      else Some(DeltaFields(g, Some(id - c.objectId.value)))
  }

  /** Locations a FETCH may send next: onward in the group order, or on or after the object in the same group. */
  predicate Follows(group: u64, id: u64, c: Context, order: GroupOrder) {
    && (c.group.Some? && group != c.group.value ==>
          if order.NewestFirst? then group < c.group.value else group > c.group.value)
    && (c.group.Some? && group == c.group.value && c.objectId.Some? ==> id >= c.objectId.value)
  }

  predicate Paired(c: Context) {
    c.group.Some? <==> c.objectId.Some?
  }

  /** The writer's fields exist exactly for those locations, and the parser's resolution inverts them. */
  lemma DeltaFieldsInvert(group: u64, id: u64, c: Context, order: GroupOrder)
    requires Paired(c)
    ensures DeltaFieldsFor(group, id, c, order).Some? <==> Follows(group, id, c, order)
    ensures DeltaFieldsFor(group, id, c, order).Some? ==>
      var f := DeltaFieldsFor(group, id, c, order).value;
      && ResolveGroup(f.groupDelta, c.group, order) == Some(group)
      && ResolveObject(f.objectDelta, f.groupDelta.Some?, c.objectId) == Some(id)
      && (c.group.None? ==> f.groupDelta.Some? && f.objectDelta.Some?)
  {
  }

  // ---------------------------------------------------------------- flags

  datatype Flags = Flags(mode: nat, hasId: bool, hasGroup: bool, hasPriority: bool, hasExtensions: bool, datagram: bool) {
    function Byte(): nat {
      mode + Bit(hasId, 0x4) + Bit(hasGroup, 0x8) + Bit(hasPriority, 0x10) + Bit(hasExtensions, 0x20) + Bit(datagram, 0x40)
    }
  }

  function FlagsOf(v: nat): Flags {
    Flags(v % 4, HasBit(v, 0x4), HasBit(v, 0x8), HasBit(v, 0x10), HasBit(v, 0x20), HasBit(v, 0x40))
  }

  lemma FlagsRoundTrip(f: Flags)
    requires f.mode < 4
    ensures FlagsOf(f.Byte()) == f && f.Byte() < 0x80
  {
    var v := f.Byte();
    var d := Bit(f.datagram, 1);
    var e := Bit(f.hasExtensions, 1) + 2 * d;
    var p := Bit(f.hasPriority, 1) + 2 * e;
    var g := Bit(f.hasGroup, 1) + 2 * p;
    var i := Bit(f.hasId, 1) + 2 * g;
    assert v == f.mode + 4 * i;
    assert v / 0x40 == d;
    assert v / 0x20 == e;
    assert v / 0x10 == p;
    assert v / 0x8 == g;
    assert v / 0x4 == i;
  }

  // ---------------------------------------------------------------- parser

  /** Every item leaves a usable context, and no FETCH object carries a status. */
  predicate Sound(s: FetchStep) {
    Paired(s.context) && (s.item.Object? ==> s.item.header.status == NORMAL)
  }

  function ReadIf(present: bool, s: bytes): (r: Option<(Option<u64>, bytes)>)
    ensures r.Some? ==> |r.value.1| <= |s|
  {
    if !present then Some((None, s))
    else match ReadVarint(s)
      case None => None
      case Some((v, s1)) => Some((Some(v), s1))
  }

  /** parseFetchObjectHeaderImpl. The context is part of the result, so an Underflow cannot touch it. */
  function ParseItem(s: bytes, c: Context, order: GroupOrder, template: ObjectHeader): (r: Parse<FetchStep>)
    ensures r.Ok? ==> |r.rest| < |s| && Sound(r.value)
  {
    match ReadVarint(s)
    case None => Underflow
    case Some((flags, s1)) =>
      if flags == END_OF_NON_EXISTENT_RANGE || flags == END_OF_UNKNOWN_RANGE then
        ParseRange(s1, c, flags == END_OF_UNKNOWN_RANGE)
      else if flags >= 0x80 then Violation
      else if c.group.Some? != c.objectId.Some? then Violation
      else if c.group.None? && !(FlagsOf(flags).hasGroup && FlagsOf(flags).hasId) then Violation
      else ParseGroup(s1, FlagsOf(flags), c, order, template)
  }

  function ParseRange(s: bytes, c: Context, isUnknown: bool): (r: Parse<FetchStep>)
    ensures r.Ok? ==> |r.rest| <= |s| && Sound(r.value)
  {
    match ReadVarint(s)
    case None => Underflow
    case Some((group, s1)) =>
      match ReadVarint(s1)
      case None => Underflow
      case Some((objectId, s2)) =>
        Ok(FetchStep(EndOfRange(group, objectId, isUnknown), c.(group := Some(group), objectId := Some(objectId))), s2)
  }

  function ParseGroup(s: bytes, f: Flags, c: Context, order: GroupOrder, h: ObjectHeader): (r: Parse<FetchStep>)
    ensures r.Ok? ==> |r.rest| <= |s| && Sound(r.value)
  {
    match ReadIf(f.hasGroup, s)
    case None => Underflow
    case Some((field, s1)) =>
      match ResolveGroup(field, c.group, order)
      case None => Violation
      case Some(group) => ParseSubgroup(s1, f, c, h.(group := group))
  }

  function ParseSubgroup(s: bytes, f: Flags, c: Context, h: ObjectHeader): (r: Parse<FetchStep>)
    ensures r.Ok? ==> |r.rest| <= |s| && Sound(r.value)
  {
    if f.datagram || f.mode == 0 then ParseId(s, f, c, h.(subgroup := 0))
    else if f.mode == 3 then
      match ReadVarint(s)
      case None => Underflow
      case Some((subgroup, s1)) => ParseId(s1, f, c, h.(subgroup := subgroup))
    else if c.subgroup.None? then Violation
    else if f.mode == 1 then ParseId(s, f, c, h.(subgroup := c.subgroup.value))
    else ParseId(s, f, c, h.(subgroup := (c.subgroup.value + 1) % U64_LIMIT))
  }

  function ParseId(s: bytes, f: Flags, c: Context, h: ObjectHeader): (r: Parse<FetchStep>)
    ensures r.Ok? ==> |r.rest| <= |s| && Sound(r.value)
  {
    match ReadIf(f.hasId, s)
    case None => Underflow
    case Some((field, s1)) =>
      match ResolveObject(field, f.hasGroup, c.objectId)
      case None => Violation
      case Some(id) => ParsePriority(s1, f, c, h.(id := id))
  }

  function ParsePriority(s: bytes, f: Flags, c: Context, h: ObjectHeader): (r: Parse<FetchStep>)
    ensures r.Ok? ==> |r.rest| <= |s| && Sound(r.value)
  {
    if f.hasPriority then
      if |s| == 0 then Underflow else ParseRest(s[1..], f, h.(priority := Some(s[0])), c)
    else if c.priority.None? then Violation
    else ParseRest(s, f, h.(priority := c.priority), c)
  }

  function ParseRest(s: bytes, f: Flags, h: ObjectHeader, c: Context): (r: Parse<FetchStep>)
    ensures r.Ok? ==> |r.rest| <= |s| && Sound(r.value)
  {
    match ParseTail(s, h, f.hasExtensions, false)
    case Underflow => Underflow
    case Violation => Violation
    case Ok(h1, s1) =>
      Ok(FetchStep(Object(h1.(datagram := f.datagram)),
                   Context(Some(h.group), Some(h.subgroup), Some(h.id), h.priority)), s1)
  }

  // ---------------------------------------------------------------- writer

  function SubgroupMode(h: ObjectHeader, c: Context): nat {
    if h.datagram || h.subgroup == 0 then 0
    else if c.subgroup.Some? && h.subgroup == c.subgroup.value then 1
    else if c.subgroup.Some? && h.subgroup == (c.subgroup.value + 1) % U64_LIMIT then 2
    else 3
  }

  function FlagsFor(h: ObjectHeader, c: Context, d: DeltaFields): (f: Flags)
    ensures f.mode < 4
  {
    Flags(SubgroupMode(h, c), d.objectDelta.Some?, d.groupDelta.Some?,
          c.priority.None? || h.priority != c.priority, !h.extensions.Empty(), h.datagram)
  }

  function WriteIf(field: Option<u64>): bytes {
    if field.Some? then Varint.Encode(field.value) else []
  }

  /** The writer's next context: it records the header's own subgroup, even for a datagram object. */
  function NextContext(h: ObjectHeader): Context {
    Context(Some(h.group), Some(h.subgroup), Some(h.id), h.priority)
  }

  function WriteFields(h: ObjectHeader, c: Context, d: DeltaFields): bytes
    requires h.priority.Some? && BlockFits(h.extensions.mutableExts, h.extensions.immutableExts)
  {
    var f := FlagsFor(h, c, d);
    WriteIf(d.groupDelta) + ((if f.mode == 3 then Varint.Encode(h.subgroup) else []) +
    (WriteIf(d.objectDelta) + ((if f.hasPriority then [h.priority.value] else []) + WriteTail(h, f.hasExtensions, false))))
  }

  /** writeFetchObjectHeaderImpl and the rest of writeStreamObject, without the payload. */
  function WriteObject(h: ObjectHeader, c: Context, order: GroupOrder): Option<bytes>
    requires h.priority.Some? && BlockFits(h.extensions.mutableExts, h.extensions.immutableExts)
  {
    if h.status != NORMAL then None
    else
      match DeltaFieldsFor(h.group, h.id, c, order)
      case None => None
      case Some(d) => Some(Varint.Encode(FlagsFor(h, c, d).Byte()) + WriteFields(h, c, d))
  }

  // ---------------------------------------------------------------- round trip

  /** The template the codec passes in: an earlier header whose extensions were handed over. */
  predicate Clean(template: ObjectHeader) {
    template.extensions == NO_EXTENSIONS
  }

  /** What should reach the receiver: a datagram object has no subgroup. */
  function Delivered(h: ObjectHeader): ObjectHeader {
    Received(h).(subgroup := if h.datagram then 0 else h.subgroup)
  }

  /** The subgroup read for a header written in context c by a parser that remembers p. */
  function ReadSubgroup(h: ObjectHeader, c: Context, p: Option<u64>): u64 {
    var remembered := if p.Some? then p.value else 0;
    match SubgroupMode(h, c)
    case 1 => remembered
    case 2 => (remembered + 1) % U64_LIMIT
    case _ => Delivered(h).subgroup
  }

  lemma ReadIfWritten(field: Option<u64>, rest: bytes)
    ensures ReadIf(field.Some?, WriteIf(field) + rest) == Some((field, rest))
  {
    hide Varint.Encode, ReadVarint;
    if field.Some? {
      ReadWritten(field.value, rest);
    } else {
      assert WriteIf(field) + rest == rest;
    }
  }

  lemma RestRoundTrip(h: ObjectHeader, c: Context, f: Flags, h0: ObjectHeader, rest: bytes)
    requires Writable(h, f.hasExtensions, false) && h.status == NORMAL && h.priority.Some? && Clean(h0)
    requires f.hasPriority <==> c.priority.None? || h.priority != c.priority
    requires h0.group == h.group && h0.id == h.id && f.datagram == h.datagram
    ensures var prio := if f.hasPriority then [h.priority.value] else [];
      ParsePriority(prio + (WriteTail(h, f.hasExtensions, false) + rest), f, c, h0)
        == Ok(FetchStep(Object(Received(h).(subgroup := h0.subgroup)), NextContext(h).(subgroup := Some(h0.subgroup))), rest)
  {
    hide WriteTail, ParseTail, WithinLimits;
    var tail := WriteTail(h, f.hasExtensions, false) + rest;
    if f.hasPriority {
      assert ([h.priority.value] + tail)[1..] == tail;
    } else {
      assert [] + tail == tail;
    }
    TailRoundTrip(h, h0.(priority := h.priority), f.hasExtensions, false, rest);
  }

  /** Each of the four subgroup modes, read against what the parser remembers. */
  lemma SubgroupModeRoundTrip(h: ObjectHeader, c: Context, p: Option<u64>, f: Flags, h0: ObjectHeader, tail: bytes)
    requires f.mode == SubgroupMode(h, c) && f.datagram == h.datagram && (p.Some? <==> c.subgroup.Some?)
    ensures ParseSubgroup((if f.mode == 3 then Varint.Encode(h.subgroup) else []) + tail, f, c.(subgroup := p), h0)
         == ParseId(tail, f, c.(subgroup := p), h0.(subgroup := ReadSubgroup(h, c, p)))
  {
    hide Varint.Encode, ReadVarint, ParseId;
    if f.mode == 3 {
      ReadWritten(h.subgroup, tail);
    } else {
      assert [] + tail == tail;
    }
  }

  lemma IdRoundTrip(h: ObjectHeader, c: Context, f: Flags, objectDelta: Option<u64>, h0: ObjectHeader, rest: bytes)
    requires Writable(h, f.hasExtensions, false) && h.status == NORMAL && h.priority.Some? && Clean(h0)
    requires f.hasPriority <==> c.priority.None? || h.priority != c.priority
    requires f.hasId == objectDelta.Some? && ResolveObject(objectDelta, f.hasGroup, c.objectId) == Some(h.id)
    requires h0.group == h.group && f.datagram == h.datagram
    ensures var prio := if f.hasPriority then [h.priority.value] else [];
      ParseId(WriteIf(objectDelta) + (prio + (WriteTail(h, f.hasExtensions, false) + rest)), f, c, h0)
        == Ok(FetchStep(Object(Received(h).(subgroup := h0.subgroup)), NextContext(h).(subgroup := Some(h0.subgroup))), rest)
  {
    hide ReadIf, WriteIf, WriteTail, ParsePriority, WithinLimits, ResolveObject;
    var prio := if f.hasPriority then [h.priority.value] else [];
    ReadIfWritten(objectDelta, prio + (WriteTail(h, f.hasExtensions, false) + rest));
    RestRoundTrip(h, c, f, h0.(id := h.id), rest);
  }

  /** What a parser whose remembered subgroup is p makes of the header, and what it remembers next. */
  function ReadBack(h: ObjectHeader, c: Context, p: Option<u64>): FetchStep {
    var subgroup := ReadSubgroup(h, c, p);
    FetchStep(Object(Received(h).(subgroup := subgroup)), NextContext(h).(subgroup := Some(subgroup)))
  }

  lemma FieldsRoundTrip(
    h: ObjectHeader, c: Context, p: Option<u64>, order: GroupOrder, d: DeltaFields, template: ObjectHeader, rest: bytes)
    requires Paired(c) && DeltaFieldsFor(h.group, h.id, c, order) == Some(d) && (p.Some? <==> c.subgroup.Some?)
    requires h.priority.Some? && h.status == NORMAL && Clean(template)
    requires Writable(h, !h.extensions.Empty(), false)
    ensures ParseGroup(WriteFields(h, c, d) + rest, FlagsFor(h, c, d), c.(subgroup := p), order, template)
      == Ok(ReadBack(h, c, p), rest)
  {
    hide Varint.Encode, ReadIf, WriteIf, WriteTail, ParseId, ParseSubgroup, WithinLimits;
    hide ResolveGroup, ResolveObject, DeltaFieldsFor, SubgroupMode, ReadSubgroup;
    var f := FlagsFor(h, c, d);
    var prio := if f.hasPriority then [h.priority.value] else [];
    var s3 := WriteIf(d.objectDelta) + (prio + (WriteTail(h, f.hasExtensions, false) + rest));
    var s2 := (if f.mode == 3 then Varint.Encode(h.subgroup) else []) + s3;
    assert WriteFields(h, c, d) + rest == WriteIf(d.groupDelta) + s2;
    DeltaFieldsInvert(h.group, h.id, c, order);
    ReadIfWritten(d.groupDelta, s2);
    var h0 := template.(group := h.group);
    SubgroupModeRoundTrip(h, c, p, f, h0, s3);
    IdRoundTrip(h, c.(subgroup := p), f, d.objectDelta, h0.(subgroup := ReadSubgroup(h, c, p)), rest);
  }

  /**
    Whatever the writer accepts comes back, up to the subgroup, and the flag byte is no end-of-range marker. The
    parser's context is the writer's but for the subgroup it remembers.
   */
  lemma ObjectReadBack(h: ObjectHeader, c: Context, p: Option<u64>, order: GroupOrder, template: ObjectHeader, rest: bytes)
    requires Paired(c) && Clean(template) && h.priority.Some? && (p.Some? <==> c.subgroup.Some?)
    requires Writable(h, !h.extensions.Empty(), false)
    requires WriteObject(h, c, order).Some?
    ensures ParseItem(WriteObject(h, c, order).value + rest, c.(subgroup := p), order, template) == Ok(ReadBack(h, c, p), rest)
  {
    hide Varint.Encode, ReadVarint, WriteFields, ParseGroup, WithinLimits, DeltaFieldsFor, FlagsOf, Flags.Byte;
    hide SubgroupMode, ReadSubgroup, Follows, ResolveGroup, ResolveObject, ParseRange;
    var d := DeltaFieldsFor(h.group, h.id, c, order).value;
    var f := FlagsFor(h, c, d);
    FlagsRoundTrip(f);
    assert WriteObject(h, c, order).value + rest == Varint.Encode(f.Byte()) + (WriteFields(h, c, d) + rest);
    ReadWritten(f.Byte(), WriteFields(h, c, d) + rest);
    DeltaFieldsInvert(h.group, h.id, c, order);
    FieldsRoundTrip(h, c, p, order, d, template, rest);
  }

  /** The header refers to the subgroup of the object before it. */
  predicate RefersBack(h: ObjectHeader, c: Context) { SubgroupMode(h, c) == 1 || SubgroupMode(h, c) == 2 }

  /** The subgroup is read correctly exactly if the header does not refer back or the parser remembers the same one. */
  lemma ReadCorrectly(h: ObjectHeader, c: Context, p: Option<u64>)
    requires p.Some? <==> c.subgroup.Some?
    ensures ReadSubgroup(h, c, p) == Delivered(h).subgroup <==> !RefersBack(h, c) || p == c.subgroup
  {
    if RefersBack(h, c) {
      WrapsApart(p.value, c.subgroup.value);
    }
  }

  lemma WrapsApart(a: u64, b: u64)
    ensures (a + 1) % U64_LIMIT == (b + 1) % U64_LIMIT <==> a == b
  {
    assert (a + 1) % U64_LIMIT == if a == U64_MAX then 0 else a + 1;
    assert (b + 1) % U64_LIMIT == if b == U64_MAX then 0 else b + 1;
  }

  /**
    In step, whatever the writer accepts comes back unchanged up to a datagram's subgroup, and the two contexts stay
    equal exactly when that subgroup is zero.
   */
  lemma ObjectRoundTrip(h: ObjectHeader, c: Context, order: GroupOrder, template: ObjectHeader, rest: bytes)
    requires Paired(c) && Clean(template) && h.priority.Some?
    requires Writable(h, !h.extensions.Empty(), false)
    requires WriteObject(h, c, order).Some?
    ensures var r := ParseItem(WriteObject(h, c, order).value + rest, c, order, template);
      && r.Ok? && r.value.item == Object(Delivered(h)) && r.rest == rest
      && (r.value.context == NextContext(h) <==> !(h.datagram && h.subgroup != 0))
      && Paired(r.value.context)
  {
    hide Varint.Encode, ParseItem, WriteObject, WithinLimits, SubgroupMode, ReadSubgroup;
    assert c.(subgroup := c.subgroup) == c;
    ObjectReadBack(h, c, c.subgroup, order, template, rest);
    ReadCorrectly(h, c, c.subgroup);
  }

  /**
    Out of step, as after a datagram object with a subgroup other than 0, the next object is read correctly exactly
    when its header does not refer to the remembered subgroup.
   */
  lemma NextAfterDatagram(h: ObjectHeader, c: Context, p: u64, order: GroupOrder, template: ObjectHeader, rest: bytes)
    requires Paired(c) && Clean(template) && h.priority.Some?
    requires Writable(h, !h.extensions.Empty(), false)
    requires WriteObject(h, c, order).Some?
    requires c.subgroup.Some? && c.subgroup.value != p
    ensures var r := ParseItem(WriteObject(h, c, order).value + rest, c.(subgroup := Some(p)), order, template);
      && r.Ok? && r.rest == rest
      && (r.value.item == Object(Delivered(h)) <==> !RefersBack(h, c))
  {
    hide Varint.Encode, ParseItem, WriteObject, WithinLimits, SubgroupMode, ReadSubgroup, RefersBack;
    ObjectReadBack(h, c, Some(p), order, template, rest);
    ReadCorrectly(h, c, Some(p));
  }

  /** The writer accepts exactly the normal objects that follow the context in the group order. */
  lemma WriterAccepts(h: ObjectHeader, c: Context, order: GroupOrder)
    requires Paired(c) && h.priority.Some? && BlockFits(h.extensions.mutableExts, h.extensions.immutableExts)
    ensures WriteObject(h, c, order).Some? <==> h.status == NORMAL && Follows(h.group, h.id, c, order)
  {
    hide Varint.Encode, WriteFields;
    DeltaFieldsInvert(h.group, h.id, c, order);
  }

  // ---------------------------------------------------------------- prefix stability

  predicate StableStep(r: Parse<FetchStep>, r': Parse<FetchStep>, t: bytes) {
    (r.Ok? ==> r' == Ok(r.value, r.rest + t)) && (r.Violation? ==> r'.Violation?)
  }

  lemma PriorityStable(s: bytes, t: bytes, f: Flags, c: Context, h: ObjectHeader)
    ensures StableStep(ParsePriority(s, f, c, h), ParsePriority(s + t, f, c, h), t)
  {
    hide ParseTail;
    if f.hasPriority {
      if |s| > 0 {
        assert (s + t)[1..] == s[1..] + t;
        TailStable(s[1..], t, h.(priority := Some(s[0])), f.hasExtensions, false);
      }
    } else {
      TailStable(s, t, h.(priority := c.priority), f.hasExtensions, false);
    }
  }

  lemma IdStable(s: bytes, t: bytes, f: Flags, c: Context, h: ObjectHeader)
    ensures StableStep(ParseId(s, f, c, h), ParseId(s + t, f, c, h), t)
  {
    hide ReadVarint, ParsePriority;
    if f.hasId && ReadVarint(s).Some? {
      ReadStable(s, t);
    }
    if ReadIf(f.hasId, s).Some? {
      var (field, s1) := ReadIf(f.hasId, s).value;
      var id := ResolveObject(field, f.hasGroup, c.objectId);
      if id.Some? {
        PriorityStable(s1, t, f, c, h.(id := id.value));
      }
    }
  }

  lemma SubgroupStable(s: bytes, t: bytes, f: Flags, c: Context, h: ObjectHeader)
    ensures StableStep(ParseSubgroup(s, f, c, h), ParseSubgroup(s + t, f, c, h), t)
  {
    hide ReadVarint, ParseId;
    if f.datagram || f.mode == 0 {
      IdStable(s, t, f, c, h.(subgroup := 0));
    } else if f.mode == 3 {
      if ReadVarint(s).Some? {
        ReadStable(s, t);
        IdStable(ReadVarint(s).value.1, t, f, c, h.(subgroup := ReadVarint(s).value.0));
      }
    } else if c.subgroup.Some? {
      IdStable(s, t, f, c, h.(subgroup := c.subgroup.value));
      IdStable(s, t, f, c, h.(subgroup := (c.subgroup.value + 1) % U64_LIMIT));
    }
  }

  lemma GroupStable(s: bytes, t: bytes, f: Flags, c: Context, order: GroupOrder, h: ObjectHeader)
    ensures StableStep(ParseGroup(s, f, c, order, h), ParseGroup(s + t, f, c, order, h), t)
  {
    hide ReadVarint, ParseSubgroup;
    if f.hasGroup && ReadVarint(s).Some? {
      ReadStable(s, t);
    }
    if ReadIf(f.hasGroup, s).Some? {
      var (field, s1) := ReadIf(f.hasGroup, s).value;
      var group := ResolveGroup(field, c.group, order);
      if group.Some? {
        SubgroupStable(s1, t, f, c, h.(group := group.value));
      }
    }
  }

  lemma RangeStable(s: bytes, t: bytes, c: Context, isUnknown: bool)
    ensures StableStep(ParseRange(s, c, isUnknown), ParseRange(s + t, c, isUnknown), t)
  {
    hide ReadVarint;
    if ReadVarint(s).Some? {
      ReadStable(s, t);
      var s1 := ReadVarint(s).value.1;
      if ReadVarint(s1).Some? {
        ReadStable(s1, t);
      }
    }
  }

  /** Ok and Violation of the FETCH item parser survive extra bytes. */
  lemma ItemStable(s: bytes, t: bytes, c: Context, order: GroupOrder, template: ObjectHeader)
    ensures StableStep(ParseItem(s, c, order, template), ParseItem(s + t, c, order, template), t)
  {
    hide ReadVarint, ParseGroup, ParseRange;
    if ReadVarint(s).Some? {
      ReadStable(s, t);
      var (flags, s1) := ReadVarint(s).value;
      RangeStable(s1, t, c, flags == END_OF_UNKNOWN_RANGE);
      GroupStable(s1, t, FlagsOf(flags), c, order, template);
    }
  }
}
