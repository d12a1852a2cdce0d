/**
  The control-frame parser (MoQControlCodec) over arbitrarily chunked input: type, 16-bit length, payload. What the
  payload parsers do with a complete payload is a parameter.
 */
module ControlFrames {
  import opened Bytes
  import opened Wire
  import opened FrameGate
  import Varint

  datatype Error = ParseUnderflow | ProtocolViolation | OtherError(code: nat)

  /** What a payload parser says; requests report their id. */
  datatype BodyResult = Parsed(requestId: u64) | ShortBody | BadBody(error: Error)

  /** A payload parser with its own state, such as the token cache. */
  type BodyParser<!S> = (S, FrameType, bytes) -> (S, BodyResult)

  datatype Frame = Frame(typ: FrameType, body: bytes)

  datatype Event = OnFrame(typ: FrameType) | Dispatched(frame: Frame, requestId: Option<u64>)

  datatype Phase = HeaderType | Length | Payload

  /** parseState_, curFrameType_, curFrameLength_, seenSetup_, connError_ and ingress_, with the gate and the parser. */
  datatype Codec<S> = Codec(
    phase: Phase, typ: FrameType, length: nat, seenSetup: bool, error: Option<Error>, buffer: bytes, gate: Gate, parser: S)

  function Fresh<S>(gate: Gate, parser: S): Codec<S> {
    Codec(HeaderType, 0, 0, gate.BidiStream?, None, [], gate, parser)
  }

  // ---------------------------------------------------------------- one phase

  datatype Outcome<S> = Moved(codec: Codec<S>, events: seq<Event>) | Starved | Broken(error: Error)

  function AdvanceType<S>(c: Codec<S>): (r: Outcome<S>)
    ensures r.Moved? ==> |r.codec.buffer| < |c.buffer|
  {
    match ReadVarint(c.buffer)
    case None => Starved
    case Some((f, rest)) =>
      if !Allows(c.gate, f) then Broken(ProtocolViolation)
      else Moved(c.(phase := Length, typ := f, gate := Pass(c.gate), buffer := rest), [OnFrame(f)])
  }

  function AdvanceLength<S>(c: Codec<S>): (r: Outcome<S>)
    ensures r.Moved? ==> |r.codec.buffer| < |c.buffer|
  {
    if |c.buffer| < 2 then Starved
    else Moved(c.(phase := Payload, length := FromBigEndian(c.buffer[..2]), buffer := c.buffer[2..]), [])
  }

  /** parseFrame on a complete payload. */
  function AdvancePayload<S>(c: Codec<S>, parse: BodyParser<S>): (r: Outcome<S>)
    ensures r.Moved? ==> |r.codec.buffer| <= |c.buffer| && r.codec.phase.HeaderType?
  {
    if |c.buffer| < c.length then Starved
    else if !c.seenSetup && c.typ != SETUP then Broken(ProtocolViolation)
    else if c.seenSetup && c.typ in {SETUP, CLIENT_SETUP, SERVER_SETUP, PUBLISH_OK, SUBSCRIBE_NAMESPACE_OK, UNSUBSCRIBE_NAMESPACE}
      then Broken(ProtocolViolation)
    else
      var body := c.buffer[..c.length];
      var (parser, result) := parse(c.parser, c.typ, body);
      match result
      case ShortBody => Broken(ProtocolViolation)
      case BadBody(e) => Broken(if e.ParseUnderflow? then ProtocolViolation else e)
      case Parsed(requestId) =>
        var (gate, id) := Attach(c.gate, c.typ, requestId);
        Moved(c.(phase := HeaderType, seenSetup := true, gate := gate, parser := parser, buffer := c.buffer[c.length..]),
              [Dispatched(Frame(c.typ, body), id)])
  }

  function Advance<S>(c: Codec<S>, parse: BodyParser<S>): (r: Outcome<S>)
    ensures r.Moved? ==> |r.codec.buffer| < |c.buffer| || (|r.codec.buffer| == |c.buffer| && c.phase.Payload? && r.codec.phase.HeaderType?)
  {
    match c.phase
    case HeaderType => AdvanceType(c)
    case Length => AdvanceLength(c)
    case Payload => AdvancePayload(c, parse)
  }

  /** The parse loop. An error drops the input. */
  function Drain<S>(c: Codec<S>, parse: BodyParser<S>): (Codec<S>, seq<Event>)
    decreases |c.buffer|, if c.phase.Payload? then 1 else 0
  {
    if c.error.Some? then (c, [])
    else
      match Advance(c, parse)
      case Starved => (c, [])
      case Broken(e) => (c.(error := Some(e), buffer := []), [])
      case Moved(c', events) =>
        var (c'', more) := Drain(c', parse);
        (c'', events + more)
  }

  /** onIngress without FIN. */
  function Ingress<S>(c: Codec<S>, data: bytes, parse: BodyParser<S>): (Codec<S>, seq<Event>) {
    if c.error.Some? then (c, []) else Drain(More(c, data), parse)
  }

  function More<S>(c: Codec<S>, t: bytes): Codec<S> { c.(buffer := c.buffer + t) }

  function IngressAll<S>(c: Codec<S>, chunks: seq<bytes>, parse: BodyParser<S>): (Codec<S>, seq<Event>)
    decreases |chunks|
  {
    if chunks == [] then (c, [])
    else
      var (c1, events) := Ingress(c, chunks[0], parse);
      var (c2, more) := IngressAll(c1, chunks[1..], parse);
      (c2, events + more)
  }

  function Concat(chunks: seq<bytes>): bytes {
    if chunks == [] then [] else chunks[0] + Concat(chunks[1..])
  }

  // ---------------------------------------------------------------- chunking

  /** Bytes that come later change nothing about a step that did not ask for them. */
  lemma AdvanceStable<S>(c: Codec<S>, t: bytes, parse: BodyParser<S>)
    requires !Advance(c, parse).Starved?
    ensures Advance(More(c, t), parse)
      == match Advance(c, parse)
         case Broken(e) => Broken(e)
         case Moved(c', events) => Moved(More(c', t), events)
         case Starved => Starved
  {
    match c.phase
    case HeaderType =>
      ReadStable(c.buffer, t);
    case Length =>
      assert (c.buffer + t)[..2] == c.buffer[..2];
      assert (c.buffer + t)[2..] == c.buffer[2..] + t;
    case Payload =>
      assert (c.buffer + t)[..c.length] == c.buffer[..c.length];
      assert (c.buffer + t)[c.length..] == c.buffer[c.length..] + t;
  }

  lemma {:induction false} DrainSplit<S>(c: Codec<S>, t: bytes, parse: BodyParser<S>)
    requires c.error.None?
    ensures var (c1, e1) := Drain(c, parse);
      Drain(More(c, t), parse)
      == if c1.error.Some? then (c1, e1) else (Drain(More(c1, t), parse).0, e1 + Drain(More(c1, t), parse).1)
    decreases |c.buffer|, if c.phase.Payload? then 1 else 0
  {
    hide Advance;
    match Advance(c, parse)
    case Starved =>
      assert [] + Drain(More(c, t), parse).1 == Drain(More(c, t), parse).1;
    case Broken(e) =>
      AdvanceStable(c, t, parse);
      var b := c.(error := Some(e), buffer := []);
      assert More(c, t).(error := Some(e), buffer := []) == b;
    case Moved(c', events) =>
      AdvanceStable(c, t, parse);
      ErrorKept(c, parse);
      DrainSplit(c', t, parse);
      var (c1, e1) := Drain(c', parse);
      assert Drain(c, parse) == (c1, events + e1);
      var (c2, e2) := Drain(More(c1, t), parse);
      assert (events + e1) + e2 == events + (e1 + e2);
  }

  lemma ErrorKept<S>(c: Codec<S>, parse: BodyParser<S>)
    requires c.error.None? && Advance(c, parse).Moved?
    ensures Advance(c, parse).codec.error.None?
  {
  }

  /** Between calls the codec waits for bytes, or has failed. */
  predicate AtRest<S>(c: Codec<S>, parse: BodyParser<S>) { c.error.Some? || Advance(c, parse).Starved? }

  lemma {:induction false} DrainRests<S>(c: Codec<S>, parse: BodyParser<S>)
    ensures AtRest(Drain(c, parse).0, parse)
    decreases |c.buffer|, if c.phase.Payload? then 1 else 0
  {
    hide Advance;
    if c.error.None? && Advance(c, parse).Moved? {
      DrainRests(Advance(c, parse).codec, parse);
    }
  }

  lemma {:induction false} Resting<S>(c: Codec<S>, parse: BodyParser<S>)
    requires AtRest(c, parse)
    ensures Drain(c, parse) == (c, [])
  {
    hide Advance;
  }

  /** However the bytes are split, the same frames are announced and dispatched and the same error, if any, ends it. */
  lemma {:induction false} ChunkingIsIrrelevant<S>(c: Codec<S>, chunks: seq<bytes>, parse: BodyParser<S>)
    requires AtRest(c, parse)
    ensures IngressAll(c, chunks, parse) == Ingress(c, Concat(chunks), parse)
    decreases |chunks|
  {
    hide Advance, Drain;
    if chunks == [] {
      assert c.buffer + [] == c.buffer;
      Resting(c, parse);
    } else if c.error.Some? {
      ChunkingIsIrrelevant(c, chunks[1..], parse);
      var none: seq<Event> := [];
      assert none + none == none;
    } else {
      var rest := Concat(chunks[1..]);
      var a := More(c, chunks[0]);
      DrainSplit(a, rest, parse);
      assert More(a, rest) == More(c, Concat(chunks)) by {
        assert (c.buffer + chunks[0]) + rest == c.buffer + (chunks[0] + rest);
      }
      DrainRests(a, parse);
      var (c1, e1) := Drain(a, parse);
      ChunkingIsIrrelevant(c1, chunks[1..], parse);
      assert e1 + [] == e1;
    }
  }

  /** Between frames with nothing buffered. */
  predicate AtBoundary<S>(c: Codec<S>) { c.phase.HeaderType? && c.buffer == [] }

  lemma NoBytesNoVarint()
    ensures ReadVarint([]) == None
  {
  }

  // ---------------------------------------------------------------- what is dispatched

  /** The complete frames at the front of a byte string, by the format alone. */
  function Frames(s: bytes): seq<Frame>
    decreases |s|
  {
    match ReadVarint(s)
    case None => []
    case Some((f, r)) =>
      if |r| < 2 || |r| - 2 < FromBigEndian(r[..2]) then []
      else
        var n := FromBigEndian(r[..2]);
        [Frame(f, r[2..2 + n])] + Frames(r[2 + n..])
  }

  /** What follows the complete frames. */
  function Leftover(s: bytes): bytes
    decreases |s|
  {
    match ReadVarint(s)
    case None => s
    case Some((_, r)) =>
      if |r| < 2 || |r| - 2 < FromBigEndian(r[..2]) then s else Leftover(r[2 + FromBigEndian(r[..2])..])
  }

  function DispatchedOf(events: seq<Event>): seq<Frame> {
    if events == [] then []
    else (if events[0].Dispatched? then [events[0].frame] else []) + DispatchedOf(events[1..])
  }

  lemma {:induction false} DispatchedConcat(a: seq<Event>, b: seq<Event>)
    ensures DispatchedOf(a + b) == DispatchedOf(a) + DispatchedOf(b)
  {
    if a == [] {
      assert a + b == b;
    } else {
      assert (a + b)[0] == a[0] && (a + b)[1..] == a[1..] + b;
      DispatchedConcat(a[1..], b);
    }
  }

  /** Every frame is announced once, then dispatched once, before the next is announced. */
  predicate Paired(events: seq<Event>, announced: Option<FrameType>) {
    events == [] ||
    (match events[0]
     case OnFrame(f) => announced.None? && Paired(events[1..], Some(f))
     case Dispatched(frame, _) => announced == Some(frame.typ) && Paired(events[1..], None))
  }

  lemma {:induction false} DrainPaired<S>(c: Codec<S>, parse: BodyParser<S>)
    ensures Paired(Drain(c, parse).1, if c.phase.HeaderType? then None else Some(c.typ))
    decreases |c.buffer|, if c.phase.Payload? then 1 else 0
  {
    if c.error.None? && Advance(c, parse).Moved? {
      var c' := Advance(c, parse).codec;
      DrainPaired(c', parse);
      var events, more := Advance(c, parse).events, Drain(c', parse).1;
      if events != [] {
        assert |events| == 1;
        assert (events + more)[0] == events[0] && (events + more)[1..] == more;
      } else {
        assert events + more == more;
      }
    }
  }

  /** The codec one frame later. */
  predicate IsNext<S>(c: Codec<S>, next: Codec<S>) {
    && next.error.None?
    && next.phase.HeaderType?
    && |next.buffer| < |c.buffer|
    && Frames(c.buffer) != []
    && Frames(next.buffer) == Frames(c.buffer)[1..]
    && Leftover(next.buffer) == Leftover(c.buffer)
  }

  /** A whole frame at the front of the buffer goes through the three phases. */
  lemma {:induction false} FrameStep<S>(c: Codec<S>, parse: BodyParser<S>)
    requires c.error.None? && c.phase.HeaderType? && Frames(c.buffer) != []
    ensures var fs := Frames(c.buffer);
      var (c', events) := Drain(c, parse);
      c'.error.Some?
      || exists next: Codec<S> :: IsNext(c, next) && Drain(next, parse).0 == c'
           && DispatchedOf(events) == [fs[0]] + DispatchedOf(Drain(next, parse).1)
  {
    hide ReadVarint, Allows, Attach, DispatchedOf;
    var fs := Frames(c.buffer);
    var (f, r) := ReadVarint(c.buffer).value;
    if Allows(c.gate, f) {
      var c1 := Advance(c, parse).codec;
      var c2 := Advance(c1, parse).codec;
      assert c1.buffer == r && c2.buffer == r[2..];
      assert Drain(c, parse) == (Drain(c1, parse).0, [OnFrame(f)] + Drain(c1, parse).1);
      assert Drain(c1, parse) == (Drain(c2, parse).0, [] + Drain(c2, parse).1);
      var o := Advance(c2, parse);
      if o.Moved? {
        var next := o.codec;
        assert r[2..][..c2.length] == r[2..2 + c2.length] && r[2..][c2.length..] == r[2 + c2.length..];
        assert Drain(c2, parse) == (Drain(next, parse).0, o.events + Drain(next, parse).1);
        DispatchedOnce(f, o.events, Drain(next, parse).1);
        assert IsNext(c, next);
      }
    }
  }

  lemma {:induction false} DispatchedOnce(f: FrameType, events: seq<Event>, more: seq<Event>)
    requires |events| == 1 && events[0].Dispatched?
    ensures DispatchedOf([OnFrame(f)] + ([] + (events + more))) == [events[0].frame] + DispatchedOf(more)
  {
    DispatchedConcat([OnFrame(f)], [] + (events + more));
    DispatchedConcat([], events + more);
    DispatchedConcat(events, more);
    assert [OnFrame(f)][1..] == [] && events[1..] == [];
  }

  /** Until an error, the frames dispatched are exactly the complete frames in the bytes. */
  lemma {:induction false} DispatchesFrames<S>(c: Codec<S>, parse: BodyParser<S>)
    requires c.error.None? && c.phase.HeaderType?
    ensures Drain(c, parse).0.error.None? ==>
      && DispatchedOf(Drain(c, parse).1) == Frames(c.buffer)
      && (AtBoundary(Drain(c, parse).0) <==> Leftover(c.buffer) == [])
    decreases |c.buffer|
  {
    hide Drain, DispatchedOf;
    if Frames(c.buffer) == [] {
      NothingComplete(c, parse);
    } else {
      FrameStep(c, parse);
      if Drain(c, parse).0.error.None? {
        var next: Codec<S> :| IsNext(c, next) && Drain(next, parse).0 == Drain(c, parse).0
          && DispatchedOf(Drain(c, parse).1) == [Frames(c.buffer)[0]] + DispatchedOf(Drain(next, parse).1);
        DispatchesFrames(next, parse);
      }
    }
  }

  lemma {:induction false} NothingComplete<S>(c: Codec<S>, parse: BodyParser<S>)
    requires c.error.None? && c.phase.HeaderType? && Frames(c.buffer) == []
    ensures DispatchedOf(Drain(c, parse).1) == []
    ensures Leftover(c.buffer) == c.buffer
    ensures Drain(c, parse).0.error.None? ==> (AtBoundary(Drain(c, parse).0) <==> c.buffer == [])
  {
    hide ReadVarint, Allows, Attach;
    NoBytesNoVarint();
    if ReadVarint(c.buffer).Some? && Allows(c.gate, ReadVarint(c.buffer).value.0) {
      var (f, r) := ReadVarint(c.buffer).value;
      var c1 := Advance(c, parse).codec;
      assert c1.buffer == r;
      assert Drain(c, parse).1 == [OnFrame(f)] + Drain(c1, parse).1;
      if |r| >= 2 {
        var c2 := Advance(c1, parse).codec;
        assert Drain(c1, parse).1 == [] + Drain(c2, parse).1;
        assert Drain(c2, parse).1 == [];
      } else {
        assert Drain(c1, parse).1 == [];
      }
      assert Drain(c, parse).1 == [OnFrame(f)];
      assert [OnFrame(f)][1..] == [];
    }
  }

  // ---------------------------------------------------------------- written frames

  /** writeFrameHeader, the body, writeSize. */
  function WriteFrame(f: Frame): bytes
    requires |f.body| < 0x1_0000
  {
    Varint.Encode(f.typ) + (BigEndian(|f.body|, 2) + f.body)
  }

  predicate Sendable(fs: seq<Frame>) { forall f :: f in fs ==> |f.body| < 0x1_0000 }

  function WriteAll(fs: seq<Frame>): bytes
    requires Sendable(fs)
  {
    if fs == [] then [] else WriteFrame(fs[0]) + WriteAll(fs[1..])
  }

  lemma {:induction false} FramesOfWritten(fs: seq<Frame>)
    requires Sendable(fs)
    ensures Frames(WriteAll(fs)) == fs
  {
    hide Varint.Encode, ReadVarint, BigEndian, FromBigEndian;
    if fs == [] {
      NoBytesNoVarint();
    } else {
      var f, rest := fs[0], WriteAll(fs[1..]);
      var size := BigEndian(|f.body|, 2);
      var tail := size + f.body + rest;
      assert WriteAll(fs) == Varint.Encode(f.typ) + tail;
      ReadWritten(f.typ, tail);
      SizeFits(|f.body|);
      assert tail[..2] == size && tail[2..2 + |f.body|] == f.body && tail[2 + |f.body|..] == rest;
      FramesOfWritten(fs[1..]);
    }
  }

  lemma {:induction false} SizeFits(n: nat)
    requires n < 0x1_0000
    ensures |BigEndian(n, 2)| == 2 && FromBigEndian(BigEndian(n, 2)) == n
  {
    assert Pow256(1) == 256 * Pow256(0);
    assert Pow256(2) == 0x1_0000;
    BigEndianRoundTrip(n, 2);
  }

  /** Frames written to a stream and fed in any chunks come out as they went in, unless one is refused. */
  lemma {:induction false} FramesDelivered<S>(gate: Gate, parser: S, fs: seq<Frame>, chunks: seq<bytes>, parse: BodyParser<S>)
    requires Sendable(fs) && Concat(chunks) == WriteAll(fs)
    ensures var (c, events) := IngressAll(Fresh(gate, parser), chunks, parse);
      && Paired(events, None)
      && (c.error.None? ==> DispatchedOf(events) == fs)
  {
    hide Drain, Advance, Frames, WriteAll;
    var c := Fresh(gate, parser);
    FreshRests(gate, parser, parse);
    ChunkingIsIrrelevant(c, chunks, parse);
    assert c.buffer + Concat(chunks) == Concat(chunks);
    DispatchesFrames(More(c, Concat(chunks)), parse);
    DrainPaired(More(c, Concat(chunks)), parse);
    FramesOfWritten(fs);
  }

  lemma FreshRests<S>(gate: Gate, parser: S, parse: BodyParser<S>)
    ensures AtRest(Fresh(gate, parser), parse)
  {
    NoBytesNoVarint();
  }

  // ---------------------------------------------------------------- setup

  /** A SETUP first, and no other. */
  predicate SetupOnce(frames: seq<Frame>, seen: bool) {
    if seen then forall f :: f in frames ==> f.typ != SETUP
    else frames == [] || (frames[0].typ == SETUP && forall f :: f in frames[1..] ==> f.typ != SETUP)
  }

  lemma {:induction false} DrainSetup<S>(c: Codec<S>, parse: BodyParser<S>)
    ensures SetupOnce(DispatchedOf(Drain(c, parse).1), c.seenSetup)
    decreases |c.buffer|, if c.phase.Payload? then 1 else 0
  {
    hide ReadVarint, Allows, Attach;
    if c.error.None? && Advance(c, parse).Moved? {
      var c', events := Advance(c, parse).codec, Advance(c, parse).events;
      DrainSetup(c', parse);
      var more := Drain(c', parse).1;
      DispatchedConcat(events, more);
      if events != [] {
        assert events[1..] == [];
      }
      if c.phase.Payload? {
        var first := events[0].frame;
        assert DispatchedOf(events) == [first];
        var all := [first] + DispatchedOf(more);
        assert all[1..] == DispatchedOf(more);
        assert forall f :: f in all ==> f == first || f in DispatchedOf(more);
      } else {
        assert DispatchedOf(events) == [];
        assert [] + DispatchedOf(more) == DispatchedOf(more);
      }
    }
  }

  /** On a control stream, whatever arrives in whatever chunks, the first frame dispatched is SETUP and no later one is. */
  lemma {:induction false} SetupComesFirst<S>(parser: S, chunks: seq<bytes>, parse: BodyParser<S>)
    ensures SetupOnce(DispatchedOf(IngressAll(Fresh(ControlStream, parser), chunks, parse).1), false)
  {
    hide Drain, Advance;
    var c := Fresh(ControlStream, parser);
    FreshRests(ControlStream, parser, parse);
    ChunkingIsIrrelevant(c, chunks, parse);
    DrainSetup(More(c, Concat(chunks)), parse);
  }

  // ---------------------------------------------------------------- FIN

  /** onIngress with FIN: the codec, the events and the error reported. The loop is not entered without bytes. */
  function IngressFin<S>(c: Codec<S>, data: bytes, parse: BodyParser<S>): (Codec<S>, seq<Event>, Option<Error>) {
    if c.error.Some? || c.buffer + data == [] then (c, [], c.error)
    else
      var (c', events) := Drain(More(c, data), parse);
      (c', events, if c'.error.Some? then c'.error else if AtBoundary(c') then None else Some(ParseUnderflow))
  }

  /**
    For every stream and every way it is cut: the FIN reports a stream that ends inside a frame, exactly unless it
    comes alone when the codec has nothing buffered.
   */
  lemma {:induction false} TruncationNoticed<S>(gate: Gate, parser: S, chunks: seq<bytes>, last: bytes, parse: BodyParser<S>)
    ensures var (c, _) := IngressAll(Fresh(gate, parser), chunks, parse);
      var (c', _, reported) := IngressFin(c, last, parse);
      c'.error.None? ==>
        (reported.Some? <==> Leftover(Concat(chunks) + last) != [] && !(c.buffer == [] && last == []))
  {
    hide Drain, Advance, Leftover;
    var f := Fresh(gate, parser);
    FreshRests(gate, parser, parse);
    ChunkingIsIrrelevant(f, chunks, parse);
    var s := Concat(chunks);
    assert f.buffer + s == s && f.buffer + (s + last) == s + last;
    var (c, _) := Drain(More(f, s), parse);
    if c.error.None? {
      DrainSplit(More(f, s), last, parse);
      assert More(More(f, s), last) == More(f, s + last);
      DispatchesFrames(More(f, s + last), parse);
      if c.buffer + last == [] {
        assert c.buffer == [] && last == [];
      }
    }
  }

  /** The case that is missed: a frame announced and measured, its payload never sent, and then a lone FIN. */
  lemma TruncationMissed<S>(parser: S, parse: BodyParser<S>)
    ensures var header := Varint.Encode(GOAWAY) + BigEndian(1, 2);
      var (c, _) := Ingress(Fresh(ControlStream, parser), header, parse);
      && c.error.None? && !AtBoundary(c)
      && IngressFin(c, [], parse).2 == None
      && IngressFin(Fresh(ControlStream, parser), header, parse).2 == Some(ParseUnderflow)
  {
    hide Varint.Encode, ReadVarint, BigEndian, FromBigEndian;
    var size := BigEndian(1, 2);
    var header := Varint.Encode(GOAWAY) + size;
    ReadWritten(GOAWAY, size);
    SizeFits(1);
    var c0 := Fresh(ControlStream, parser);
    assert c0.buffer + header == header;
    var c1 := Advance(More(c0, header), parse).codec;
    var c2 := Advance(c1, parse).codec;
    assert size[..2] == size && size[2..] == [];
    assert Drain(c2, parse) == (c2, []);
    assert Drain(c1, parse).0 == c2;
    assert Drain(More(c0, header), parse).0 == c2;
    assert c2.buffer + [] == [];
    assert header != [];
  }
}
