/**
  The incremental data-stream parser (MoQObjectStreamCodec in MoQCodec.cpp) as a state machine:
  one Step per pass of its loop, Drain for the loop, Ingress for one onIngress call.
 */
module StreamCodec {
  import opened Bytes
  import opened Wire
  import opened Extensions
  import opened ObjectWire
  import SubgroupObjects
  import FetchObjects

  const FETCH_TYPE: u64 := 0x5
  const PADDING_TYPE: u64 := 0x132B3E28

  datatype ParseState =
    | StreamHeaderType | SubgroupHeaderState | FetchHeaderState | Padding
    | MultiObjectHeader | ObjectPayload | FinDelivered

  datatype StreamType = SubgroupStream | FetchStream | PaddingStream

  datatype Error = ParseUnderflow | ProtocolViolation

  /** The callbacks of ObjectCallback, in call order. */
  datatype Event =
    | OnFetchHeader(requestId: u64)
    | OnSubgroup(alias: u64, group: u64, subgroup: u64, priority: Option<byte>, options: SubgroupOptions)
    | OnObjectBegin(header: ObjectHeader, payload: bytes, objectComplete: bool, subgroupComplete: bool)
    | OnObjectPayload(piece: bytes, pieceComplete: bool)
    | OnObjectStatus(statusHeader: ObjectHeader)
    | OnEndOfRange(rangeGroup: u64, rangeObject: u64, isUnknown: bool)
    | OnEndOfStream
    | OnConnectionError(error: Error)

  /**
    The codec's fields. `requestOrder` is the order of the FETCH request, which the session sets from
    inside onFetchHeader; `buffer` is the unread part of ingress_.
   */
  datatype Codec = Codec(
    state: ParseState,
    streamType: StreamType,
    options: SubgroupOptions,
    current: ObjectHeader,
    context: Context,
    order: GroupOrder,
    requestOrder: GroupOrder,
    buffer: bytes,
    error: Option<Error>)

  const NO_OPTIONS := SubgroupOptions(false, Present, false, true, false)

  function Fresh(requestOrder: GroupOrder): Codec {
    Codec(StreamHeaderType, SubgroupStream, NO_OPTIONS, DEFAULT_HEADER, EMPTY_CONTEXT, OldestFirst, requestOrder, [], None)
  }

  /** A codec and the callbacks made on the way to it. */
  datatype Trace = Trace(codec: Codec, events: seq<Event>)

  function Fail(c: Codec, e: Error): Trace { Trace(c.(error := Some(e)), []) }

  // ---------------------------------------------------------------- one pass of the loop

  function Step(c: Codec, fin: bool): Trace {
    match c.state
    case StreamHeaderType => StepStreamType(c)
    case Padding =>
      if forall b :: b in c.buffer ==> b == 0 then
        Trace(c.(buffer := [], state := if fin then FinDelivered else Padding), [])
      else Fail(c, ProtocolViolation)
    case FetchHeaderState =>
      (match ReadVarint(c.buffer)
       case None => Fail(c, ParseUnderflow)
       case Some((id, rest)) =>
         Trace(c.(state := MultiObjectHeader, context := EMPTY_CONTEXT, order := c.requestOrder, buffer := rest),
               [OnFetchHeader(id)]))
    case SubgroupHeaderState =>
      (match ParseSubgroupHeader(c.buffer, c.options)
       case Underflow => Fail(c, ParseUnderflow)
       case Violation => Fail(c, ProtocolViolation)
       case Ok(h, rest) =>
         Trace(c.(state := MultiObjectHeader, current := h.header, buffer := rest),
               [OnSubgroup(h.alias, h.header.group, h.header.subgroup, h.header.priority, c.options)]))
    case MultiObjectHeader => if c.streamType.FetchStream? then StepFetchItem(c, fin) else StepSubgroupObject(c, fin)
    case ObjectPayload => StepPayload(c, fin)
    case FinDelivered => Fail(c, ProtocolViolation)
  }

  function StepStreamType(c: Codec): Trace {
    match ReadVarint(c.buffer)
    case None => Fail(c, ParseUnderflow)
    case Some((t, rest)) =>
      if t == FETCH_TYPE then Trace(c.(streamType := FetchStream, state := FetchHeaderState, buffer := rest), [])
      else if t == PADDING_TYPE then Trace(c.(streamType := PaddingStream, state := Padding, buffer := rest), [])
      else if ValidSubgroupType(t) then
        Trace(c.(streamType := SubgroupStream, state := SubgroupHeaderState, options := OptionsOf(t), buffer := rest), [])
      else Fail(c.(buffer := rest), ProtocolViolation)
  }

  function StepFetchItem(c: Codec, fin: bool): Trace {
    match FetchObjects.ParseItem(c.buffer, c.context, c.order, c.current)
    case Underflow => Fail(c, ParseUnderflow)
    case Violation => Fail(c, ProtocolViolation)
    case Ok(s, rest) =>
      match s.item
      case EndOfRange(g, o, u) => Trace(c.(context := s.context, buffer := rest), [OnEndOfRange(g, o, u)])
      case Object(h) => StepObject(c.(context := s.context, buffer := rest), h, fin)
  }

  function StepSubgroupObject(c: Codec, fin: bool): Trace {
    match SubgroupObjects.ParseObject(c.buffer, c.context.objectId, c.current, c.options.hasExtensions)
    case Underflow => Fail(c, ParseUnderflow)
    case Violation => Fail(c, ProtocolViolation)
    case Ok(h, rest) =>
      StepObject(c.(context := c.context.(objectId := Some(h.id)), buffer := rest), h, fin)
  }

  predicate EndsStream(t: StreamType, status: Status) {
    status == END_OF_TRACK || (t.SubgroupStream? && status == END_OF_GROUP)
  }

  /** After a header: hand over as much payload as is buffered, or deliver the status. */
  function StepObject(c: Codec, h: ObjectHeader, fin: bool): Trace
  {
    if h.status != NORMAL then
      Trace(c.(current := h, state := if EndsStream(c.streamType, h.status) then FinDelivered else MultiObjectHeader),
            [OnObjectStatus(h)])
    else
      var length := Length(h);
      var n := Min(length, |c.buffer|);
      var rest := c.buffer[n..];
      if fin && n < length then Fail(c.(current := h, buffer := rest), ProtocolViolation)
      else
        Trace(c.(current := h.(extensions := NO_EXTENSIONS, length := Some(length - n)), buffer := rest,
                 state := if n < length then ObjectPayload
                          else if fin && rest == [] then FinDelivered else MultiObjectHeader),
              [OnObjectBegin(h, c.buffer[..n], n == length, fin && rest == [])])
  }

  function StepPayload(c: Codec, fin: bool): Trace
  {
    var length := Length(c.current);
    var n := Min(length, |c.buffer|);
    var rest := c.buffer[n..];
    var c' := c.(current := c.current.(length := Some(length - n)), buffer := rest);
    if fin && n < length then Fail(c', ProtocolViolation)
    else
      Trace(c'.(state := if n < length then ObjectPayload else MultiObjectHeader),
            if n > 0 || n == length then [OnObjectPayload(c.buffer[..n], n == length)] else [])
  }

  function Min(a: nat, b: nat): nat { if a < b then a else b }

  // ---------------------------------------------------------------- the loop and the call

  predicate Running(c: Codec) { c.error.None? && c.buffer != [] }

  function Rank(c: Codec): nat { if c.state.ObjectPayload? then 1 else 0 }

  /** A pass that does not fail consumes input, or at least leaves the payload state. */
  lemma StepProgress(c: Codec, fin: bool)
    requires Running(c)
    ensures var c' := Step(c, fin).codec;
      c'.error.None? ==> |c'.buffer| < |c.buffer| || (|c'.buffer| == |c.buffer| && Rank(c') < Rank(c))
    ensures |Step(c, fin).events| <= 1
  {
    hide ReadVarint, ParseSubgroupHeader, FetchObjects.ParseItem, SubgroupObjects.ParseObject, StepObject, StepPayload;
    match c.state
    case MultiObjectHeader =>
      if c.streamType.FetchStream? {
        var r := FetchObjects.ParseItem(c.buffer, c.context, c.order, c.current);
        if r.Ok? && r.value.item.Object? {
          ObjectShrinks(c.(context := r.value.context, buffer := r.rest), r.value.item.header, fin);
        }
      } else {
        var r := SubgroupObjects.ParseObject(c.buffer, c.context.objectId, c.current, c.options.hasExtensions);
        if r.Ok? {
          ObjectShrinks(c.(context := c.context.(objectId := Some(r.value.id)), buffer := r.rest), r.value, fin);
        }
      }
    case ObjectPayload =>
      PayloadShrinks(c, fin);
    case _ =>
  }

  lemma ObjectShrinks(c: Codec, h: ObjectHeader, fin: bool)
    ensures var s := StepObject(c, h, fin); |s.codec.buffer| <= |c.buffer| && |s.events| <= 1
  {
  }

  lemma PayloadShrinks(c: Codec, fin: bool)
    requires c.state.ObjectPayload?
    ensures var s := StepPayload(c, fin);
      && |s.codec.buffer| <= |c.buffer| && |s.events| <= 1
      && (s.codec.error.None? && c.buffer != [] ==> |s.codec.buffer| < |c.buffer| || Rank(s.codec) < Rank(c))
  {
  }

  function Drain(c: Codec, fin: bool): Trace
    decreases |c.buffer|, Rank(c)
  {
    if !Running(c) then Trace(c, [])
    else
      var s := Step(c, fin);
      if s.codec.error.Some? then s
      else
        StepProgress(c, fin);
        var d := Drain(s.codec, fin);
        Trace(d.codec, s.events + d.events)
  }

  /** The end of onIngress: end of stream, then either keep waiting, or report the error and drop the input. */
  function Finish(c: Codec, fin: bool): Trace {
    var c1 := if fin && c.state.Padding? && c.error.None? then c.(state := FinDelivered) else c;
    if c1.error.None? then
      Trace(c1.(buffer := []), if fin && !c1.state.FinDelivered? then [OnEndOfStream] else [])
    else if c1.error == Some(ParseUnderflow) && !fin then Trace(c1.(error := None), [])
    else Trace(c1.(buffer := []), [OnConnectionError(c1.error.value)])
  }

  function Ingress(c: Codec, data: bytes, fin: bool): Trace {
    var d := Drain(c.(buffer := c.buffer + data), fin);
    var f := Finish(d.codec, fin);
    Trace(f.codec, d.events + f.events)
  }

  /** The read loop: feed chunk after chunk until one call reports an error. */
  function IngressAll(c: Codec, chunks: seq<bytes>): Trace
    decreases |chunks|
  {
    if chunks == [] then Trace(c, [])
    else
      var first := Ingress(c, chunks[0], false);
      if first.codec.error.Some? then first
      else
        var rest := IngressAll(first.codec, chunks[1..]);
        Trace(rest.codec, first.events + rest.events)
  }

  function Concat(chunks: seq<bytes>): bytes {
    if chunks == [] then [] else chunks[0] + Concat(chunks[1..])
  }

  // ---------------------------------------------------------------- what a receiver can observe

  /** Payload as a byte stream between a begin and an end mark, so piece boundaries disappear. */
  datatype Atom =
    | Callback(event: Event)
    | Begin(header: ObjectHeader)
    | PayloadByte(value: byte)
    | End
    | StreamEnd

  function PayloadAtoms(p: bytes): (r: seq<Atom>)
    ensures |r| == |p|
  {
    seq(|p|, i requires 0 <= i < |p| => PayloadByte(p[i]))
  }

  function Mark(present: bool, a: Atom): seq<Atom> { if present then [a] else [] }

  function Atoms(e: Event): seq<Atom> {
    match e
    case OnObjectBegin(h, p, complete, last) =>
      [Begin(h)] + PayloadAtoms(p) + Mark(complete, End) + Mark(last, StreamEnd)
    case OnObjectPayload(p, complete) => PayloadAtoms(p) + Mark(complete, End)
    case OnEndOfStream => [StreamEnd]
    case _ => [Callback(e)]
  }

  function Observed(events: seq<Event>): seq<Atom> {
    if events == [] then [] else Atoms(events[0]) + Observed(events[1..])
  }

  lemma {:induction false} ObservedConcat(a: seq<Event>, b: seq<Event>)
    ensures Observed(a + b) == Observed(a) + Observed(b)
  {
    if a == [] {
      assert a + b == b;
    } else {
      assert (a + b)[0] == a[0] && (a + b)[1..] == a[1..] + b;
      ObservedConcat(a[1..], b);
    }
  }

  lemma PayloadAtomsConcat(p: bytes, q: bytes)
    ensures PayloadAtoms(p + q) == PayloadAtoms(p) + PayloadAtoms(q)
  {
  }
}
