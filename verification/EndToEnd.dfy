/** Whole data streams: what a writer sends is what a receiver observes, however the bytes are cut. */
module EndToEnd {
  import opened Bytes
  import opened Wire
  import opened Extensions
  import opened ObjectWire
  import opened StreamCodec
  import opened Chunking
  import opened StreamEnd
  import SubgroupObjects
  import FetchObjects
  import Varint

  datatype SentObject = SentObject(header: ObjectHeader, payload: bytes)

  /** All reads of a stream, the last of them with the FIN. */
  function ReadToFin(c: Codec, chunks: seq<bytes>, last: bytes): Trace {
    var before := IngressAll(c, chunks);
    if before.codec.error.Some? then before
    else
      var after := Ingress(before.codec, last, true);
      Trace(after.codec, before.events + after.events)
  }

  lemma {:induction false} ReadWholeStream(c: Codec, chunks: seq<bytes>, last: bytes)
    requires c.error.None? && WellFormed(c) && c.buffer == []
    requires AtBoundary(Drain(c.(buffer := Concat(chunks) + last), false).codec)
    ensures var d := Drain(c.(buffer := Concat(chunks) + last), false);
      var r := ReadToFin(c, chunks, last);
      r.codec.error.None? && Observed(r.events) == Observed(d.events) + EndMark(d.codec)
  {
    hide Drain, Observed;
    var a := Concat(chunks);
    assert More(c, a + last) == c.(buffer := a + last);
    FinPlacementIsIrrelevant(c, a, last);
    var f := Ingress(c, a, false);
    var g := Ingress(f.codec, last, true);
    if chunks == [] {
      QuietIngress(c);
      assert [] + g.events == g.events;
    } else {
      ChunkingIsIrrelevant(c, chunks);
      ObservedConcat(f.events, g.events);
      ObservedConcat(IngressAll(c, chunks).events, g.events);
    }
  }

  /** The same reads under given callback answers, the FIN repeated until its callbacks no longer block. */
  function ReadToFinWith(c: Codec, chunks: seq<bytes>, last: bytes, answers: seq<Answer>): Run {
    var before := ReadAll(c, chunks, answers);
    if !before.outcome.Done? || before.codec.error.Some? then before
    else
      var after := Resumed(More(before.codec, last), true, before.answers);
      Run(after.codec, before.events + after.events, after.outcome, after.answers)
  }

  /** A stream read to its end, blocked or not on the way, is observed the same. */
  lemma {:induction false} BlockedStreamAgrees(c: Codec, chunks: seq<bytes>, last: bytes, answers: seq<Answer>)
    requires c.error.None? && ReadToFinWith(c, chunks, last, answers).outcome.Done?
    ensures var r, u := ReadToFinWith(c, chunks, last, answers), ReadToFin(c, chunks, last);
      r.codec == u.codec && Observed(r.events) == Observed(u.events)
  {
    hide Ingress, Uninterrupted, Observed, Resumed, ReadAll;
    var before, plain := ReadAll(c, chunks, answers), IngressAll(c, chunks);
    ReadsAgree(c, chunks, answers);
    if plain.codec.error.None? {
      BlockingIsTransparent(More(plain.codec, last), true, before.answers);
      IsUninterrupted(plain.codec, last);
      var after := Ingress(plain.codec, last, true);
      ObservedConcat(before.events, after.events);
      ObservedConcat(plain.events, after.events);
    }
  }

  lemma {:induction false} IsUninterrupted(c: Codec, last: bytes)
    ensures Uninterrupted(More(c, last), true) == Ingress(c, last, true)
  {
    hide Drain;
  }

  lemma {:induction false} ReadsAgree(c: Codec, chunks: seq<bytes>, answers: seq<Answer>)
    requires c.error.None? && ReadAll(c, chunks, answers).outcome.Done?
    ensures var r, u := ReadAll(c, chunks, answers), IngressAll(c, chunks);
      r.codec == u.codec && Observed(r.events) == Observed(u.events)
  {
    hide Ingress, Observed, Read;
    if chunks != [] {
      BlockedReadsAgree(c, chunks, answers);
      ChunkingIsIrrelevant(c, chunks);
    }
  }

  lemma QuietIngress(c: Codec)
    requires c.error.None? && c.buffer == []
    ensures Ingress(c, [], false) == Trace(c, [])
  {
    assert c.(buffer := c.buffer + []) == c;
    var none: seq<Event> := [];
    assert none + [] == none;
  }

  // ---------------------------------------------------------------- subgroup streams

  /** What the stream header fixes for every object. */
  datatype Stamp = Stamp(group: u64, subgroup: u64, priority: Option<byte>)

  function Stamped(h: ObjectHeader, st: Stamp): ObjectHeader {
    Received(h).(group := st.group, subgroup := st.subgroup, priority := st.priority, datagram := false)
  }

  /** Strictly increasing objects, each within the wire limits, none after a status that ends the stream. */
  predicate Sendable(objects: seq<SentObject>, previous: Option<u64>, hasExtensions: bool) {
    objects == [] ||
    (var o := objects[0];
     && Writable(o.header, hasExtensions, true) && |o.payload| == Length(o.header)
     && SubgroupObjects.Advances(previous, o.header.id)
     && (EndsStream(SubgroupStream, o.header.status) ==> objects[1..] == [])
     && Sendable(objects[1..], Some(o.header.id), hasExtensions))
  }

  function WriteObjects(objects: seq<SentObject>, previous: Option<u64>, hasExtensions: bool): bytes
    requires Sendable(objects, previous, hasExtensions)
  {
    if objects == [] then []
    else
      var o := objects[0];
      SubgroupObjects.WriteObject(previous, o.header, hasExtensions).value +
      (o.payload + WriteObjects(objects[1..], Some(o.header.id), hasExtensions))
  }

  function ExpectedObject(h: ObjectHeader, payload: bytes): seq<Atom> {
    if h.status == NORMAL then [Begin(h)] + PayloadAtoms(payload) + [End] else [Callback(OnObjectStatus(h))]
  }

  function Expected(objects: seq<SentObject>, st: Stamp): seq<Atom> {
    if objects == [] then []
    else ExpectedObject(Stamped(objects[0].header, st), objects[0].payload) + Expected(objects[1..], st)
  }

  predicate Ended(objects: seq<SentObject>) {
    objects != [] && EndsStream(SubgroupStream, objects[|objects| - 1].header.status)
  }

  predicate ReadyForObjects(c: Codec, st: Stamp) {
    && c.state.MultiObjectHeader? && c.streamType.SubgroupStream? && c.error.None?
    && c.current.extensions == NO_EXTENSIONS && !c.current.datagram
    && Stamp(c.current.group, c.current.subgroup, c.current.priority) == st
  }

  /** A complete object in front of the buffer is delivered whole in one pass. */
  lemma WholeObject(c: Codec, h: ObjectHeader, payload: bytes, tail: bytes)
    requires c.error.None? && c.buffer == payload + tail
    requires h.length == Some(|payload|) && (h.status != NORMAL ==> payload == [] && h.extensions.Empty())
    ensures var s := StepObject(c, h, false);
      && s.codec == c.(buffer := tail, state := s.codec.state, current := s.codec.current)
      && s.codec.state == (if h.status != NORMAL && EndsStream(c.streamType, h.status) then FinDelivered else MultiObjectHeader)
      && s.codec.current == h.(extensions := NO_EXTENSIONS, length := Some(0))
      && Observed(s.events) == ExpectedObject(h, payload)
  {
    hide Observed, PayloadAtoms;
    var s := StepObject(c, h, false);
    assert (payload + tail)[..|payload|] == payload;
    assert (payload + tail)[|payload|..] == tail;
    SingleObserved(s.events[0]);
  }

  /** One pass over the first of the objects delivers it and stops in front of the others. */
  lemma {:induction false} FirstDelivered(c: Codec, objects: seq<SentObject>, st: Stamp)
    requires ReadyForObjects(c, st) && objects != []
    requires Sendable(objects, c.context.objectId, c.options.hasExtensions)
    requires c.buffer == WriteObjects(objects, c.context.objectId, c.options.hasExtensions)
    ensures Running(c)
    ensures var o, s := objects[0], Step(c, false);
      && s.codec.error.None? && s.codec.streamType.SubgroupStream?
      && s.codec.options == c.options && s.codec.context.objectId == Some(o.header.id)
      && s.codec.buffer == WriteObjects(objects[1..], Some(o.header.id), c.options.hasExtensions)
      && s.codec.state == (if EndsStream(SubgroupStream, o.header.status) then FinDelivered else MultiObjectHeader)
      && s.codec.current == Stamped(o.header, st).(extensions := NO_EXTENSIONS, length := Some(0))
      && Observed(s.events) == ExpectedObject(Stamped(o.header, st), o.payload)
  {
    hide SubgroupObjects.ParseObject, SubgroupObjects.WriteObject, Writable, StepObject, Observed, ExpectedObject;
    var o := objects[0];
    var ext := c.options.hasExtensions;
    var tail := WriteObjects(objects[1..], Some(o.header.id), ext);
    var h := Stamped(o.header, st);
    assert o.header.status != NORMAL ==> o.payload == [] && h.extensions.Empty() by { StatusIsBare(o, ext); }
    SubgroupObjects.ObjectRoundTrip(c.context.objectId, o.header, c.current, ext, o.payload + tail);
    var c1 := c.(context := c.context.(objectId := Some(o.header.id)), buffer := o.payload + tail);
    WholeObject(c1, h, o.payload, tail);
    assert Running(c) by { WritableFits(o.header, ext, true); WrittenIsNonEmpty(c.context.objectId, o.header, ext); }
    assert Step(c, false) == StepObject(c1, h, false);
  }

  lemma {:induction false} ObjectsDelivered(c: Codec, objects: seq<SentObject>, st: Stamp)
    requires ReadyForObjects(c, st)
    requires Sendable(objects, c.context.objectId, c.options.hasExtensions)
    requires c.buffer == WriteObjects(objects, c.context.objectId, c.options.hasExtensions)
    ensures var d := Drain(c, false);
      && AtBoundary(d.codec) && d.codec.streamType.SubgroupStream?
      && (d.codec.state.FinDelivered? <==> Ended(objects))
      && Observed(d.events) == Expected(objects, st)
    decreases |objects|
  {
    hide SubgroupObjects.ParseObject, SubgroupObjects.WriteObject, Writable, Step, Observed, ExpectedObject;
    ObservedNil();
    if objects != [] {
      var o := objects[0];
      FirstDelivered(c, objects, st);
      var s := Step(c, false);
      StepProgress(c, false);
      ObservedConcat(s.events, Drain(s.codec, false).events);
      if EndsStream(SubgroupStream, o.header.status) {
        assert s.codec.buffer == [];
        assert Drain(s.codec, false) == Trace(s.codec, []);
      } else {
        ObjectsDelivered(s.codec, objects[1..], st);
      }
    }
  }

  lemma StatusIsBare(o: SentObject, hasExtensions: bool)
    requires Writable(o.header, hasExtensions, true) && |o.payload| == Length(o.header)
    ensures o.header.status != NORMAL ==> o.payload == [] && Received(o.header).extensions.Empty()
  {
  }

  lemma WrittenIsNonEmpty(previous: Option<u64>, h: ObjectHeader, hasExtensions: bool)
    requires BlockFits(h.extensions.mutableExts, h.extensions.immutableExts)
    requires SubgroupObjects.Advances(previous, h.id)
    ensures SubgroupObjects.WriteObject(previous, h, hasExtensions).Some?
    ensures |SubgroupObjects.WriteObject(previous, h, hasExtensions).value| > 0
  {
  }

  /** A subgroup stream as its publisher writes it. */
  datatype SubgroupSent = SubgroupSent(alias: u64, header: ObjectHeader, options: SubgroupOptions, objects: seq<SentObject>) {
    function Sent(): SubgroupOptions { SentOptions(header, options) }

    /** The ID formats are honest: Zero for subgroup 0, FirstObject for the ID of the first object. */
    predicate Valid() {
      && Sendable(objects, None, options.hasExtensions)
      && (Sent().idFormat.Zero? ==> header.subgroup == 0)
      && (Sent().idFormat.FirstObject? ==> objects != [] && objects[0].header.id == header.subgroup)
    }

    function Bytes(): bytes
      requires Valid()
    {
      Varint.Encode(SubgroupStreamType(Sent())) +
      (WriteSubgroupHeader(alias, header, options) + WriteObjects(objects, None, options.hasExtensions))
    }

    function Observation(): seq<Atom> {
      [Callback(OnSubgroup(alias, header.group, header.subgroup, header.priority, Sent()))] +
      Expected(objects, Stamp(header.group, header.subgroup, header.priority))
    }
  }

  lemma {:induction false} FirstIdIsPeekable(objects: seq<SentObject>, hasExtensions: bool)
    requires objects != [] && Sendable(objects, None, hasExtensions)
    ensures var s := WriteObjects(objects, None, hasExtensions);
      ReadVarint(s).Some? && ReadVarint(s).value.0 == objects[0].header.id
  {
    hide Varint.Encode, ReadVarint, WriteTail, Writable;
    var h := objects[0].header;
    assert BlockFits(h.extensions.mutableExts, h.extensions.immutableExts) by { WritableFits(h, hasExtensions, true); }
    var tail := WriteTail(h, hasExtensions, true);
    var rest := objects[0].payload + WriteObjects(objects[1..], Some(h.id), hasExtensions);
    assert (Varint.Encode(h.id) + tail) + rest == Varint.Encode(h.id) + (tail + rest);
    ReadWritten(h.id, tail + rest);
  }

  lemma WritableFits(h: ObjectHeader, hasExtensions: bool, hasStatus: bool)
    requires Writable(h, hasExtensions, hasStatus)
    ensures BlockFits(h.extensions.mutableExts, h.extensions.immutableExts)
  {
  }

  lemma SubgroupDrain(order: GroupOrder, w: SubgroupSent)
    requires w.Valid()
    ensures var d := Drain(Fresh(order).(buffer := w.Bytes()), false);
      && AtBoundary(d.codec) && !d.codec.streamType.PaddingStream?
      && (d.codec.state.FinDelivered? <==> Ended(w.objects))
      && Observed(d.events) == w.Observation()
  {
    hide Varint.Encode, ReadVarint, ParseSubgroupHeader, WriteSubgroupHeader, Observed, Sendable, WriteObjects, Expected;
    hide SubgroupStreamType, ValidSubgroupType, OptionsOf;
    var st := Stamp(w.header.group, w.header.subgroup, w.header.priority);
    var body := WriteObjects(w.objects, None, w.options.hasExtensions);
    var rest := WriteSubgroupHeader(w.alias, w.header, w.options) + body;
    var c0 := Fresh(order).(buffer := w.Bytes());
    StreamTypeRoundTrip(w.Sent());
    ReadWritten(SubgroupStreamType(w.Sent()), rest);
    EncodedIsNonEmpty(SubgroupStreamType(w.Sent()));
    var s0 := Step(c0, false);
    var c1 := c0.(state := SubgroupHeaderState, options := w.Sent(), buffer := rest);
    assert s0 == Trace(c1, []);
    if w.Sent().idFormat.FirstObject? {
      FirstIdIsPeekable(w.objects, w.options.hasExtensions);
    }
    SubgroupHeaderRoundTrip(w.alias, w.header, w.options, w.header.subgroup, body);
    HeaderIsNonEmpty(w.alias, w.header, w.options);
    var s1 := Step(c1, false);
    var e := OnSubgroup(w.alias, w.header.group, w.header.subgroup, w.header.priority, w.Sent());
    assert s1.events == [e] && s1.codec.buffer == body;
    HeaderIsPlain(rest, w.Sent());
    ObjectsDelivered(s1.codec, w.objects, st);
    StepProgress(c0, false);
    StepProgress(c1, false);
    var d := Drain(s1.codec, false);
    assert Drain(c1, false) == Trace(d.codec, [e] + d.events);
    assert [] + ([e] + d.events) == [e] + d.events;
    ObservedConcat([e], d.events);
    SingleObserved(e);
  }

  lemma HeaderIsNonEmpty(alias: u64, h: ObjectHeader, o: SubgroupOptions)
    ensures |WriteSubgroupHeader(alias, h, o)| > 0
  {
  }

  lemma HeaderIsPlain(s: bytes, o: SubgroupOptions)
    requires ParseSubgroupHeader(s, o).Ok?
    ensures !ParseSubgroupHeader(s, o).value.header.datagram
  {
    hide ReadVarint;
  }

  /**
    A header and any strictly increasing list of objects, written and then read in any chunks with the FIN
    on the last of them, are observed as exactly that header, those objects and one end of stream,
    in all three subgroup-ID formats.
   */
  lemma {:induction false} SubgroupStreamDelivered(order: GroupOrder, w: SubgroupSent, chunks: seq<bytes>, last: bytes)
    requires w.Valid() && Concat(chunks) + last == w.Bytes()
    ensures var r := ReadToFin(Fresh(order), chunks, last);
      r.codec.error.None? && Observed(r.events) == w.Observation() + Mark(!Ended(w.objects), StreamEnd)
  {
    hide Drain, Observed;
    SubgroupDrain(order, w);
    ReadWholeStream(Fresh(order), chunks, last);
  }

  // ---------------------------------------------------------------- FETCH streams

  /** Objects that a FETCH in this group order may send one after the other, within the parser's limits. */
  predicate Fetchable(objects: seq<SentObject>, c: Context, order: GroupOrder) {
    objects == [] ||
    (var h := objects[0].header;
     && Writable(h, !h.extensions.Empty(), false) && h.priority.Some? && h.status == NORMAL
     && |objects[0].payload| == Length(h)
     && FetchObjects.Follows(h.group, h.id, c, order)
     && Fetchable(objects[1..], FetchObjects.NextContext(h), order))
  }

  function WriteFetched(objects: seq<SentObject>, c: Context, order: GroupOrder): bytes
    requires FetchObjects.Paired(c) && Fetchable(objects, c, order)
  {
    if objects == [] then []
    else
      var h := objects[0].header;
      FetchObjects.WriterAccepts(h, c, order);
      FetchObjects.WriteObject(h, c, order).value +
      (objects[0].payload + WriteFetched(objects[1..], FetchObjects.NextContext(h), order))
  }

  /** The parser's context after the last object: the writer's, but for the subgroup p it remembers. */
  function FinalContext(objects: seq<SentObject>, c: Context, p: Option<u64>): Context {
    if objects == [] then c.(subgroup := p)
    else
      var h := objects[0].header;
      FinalContext(objects[1..], FetchObjects.NextContext(h), Some(FetchObjects.ReadSubgroup(h, c, p)))
  }

  /** What is observed of the objects, each with the subgroup that is read for it. */
  function ExpectedFetch(objects: seq<SentObject>, c: Context, p: Option<u64>): seq<Atom> {
    if objects == [] then []
    else
      var h := objects[0].header;
      var subgroup := FetchObjects.ReadSubgroup(h, c, p);
      ExpectedObject(Received(h).(subgroup := subgroup), objects[0].payload)
      + ExpectedFetch(objects[1..], FetchObjects.NextContext(h), Some(subgroup))
  }

  /** What should be observed of them. */
  function SentFetch(objects: seq<SentObject>): seq<Atom> {
    if objects == [] then []
    else ExpectedObject(FetchObjects.Delivered(objects[0].header), objects[0].payload) + SentFetch(objects[1..])
  }

  /** No object refers back to a subgroup that the parser remembers differently. */
  predicate Unconfused(objects: seq<SentObject>, c: Context, p: Option<u64>) {
    objects == [] ||
    (var h := objects[0].header;
     && (FetchObjects.RefersBack(h, c) ==> p == c.subgroup)
     && Unconfused(objects[1..], FetchObjects.NextContext(h), Some(FetchObjects.ReadSubgroup(h, c, p))))
  }

  lemma {:induction false} SplitEqual(a: seq<Atom>, b: seq<Atom>, c: seq<Atom>, d: seq<Atom>)
    requires |a| == |c|
    ensures a + b == c + d <==> a == c && b == d
  {
    if a + b == c + d {
      assert a == (a + b)[..|a|] && c == (c + d)[..|c|];
      assert b == (a + b)[|a|..] && d == (c + d)[|c|..];
    }
  }

  /** The objects are observed as they were sent exactly if none is confused. */
  lemma {:induction false} ObservedAsSent(objects: seq<SentObject>, c: Context, p: Option<u64>)
    requires p.Some? <==> c.subgroup.Some?
    requires forall i :: 0 <= i < |objects| ==> objects[i].header.status == NORMAL
    ensures ExpectedFetch(objects, c, p) == SentFetch(objects) <==> Unconfused(objects, c, p)
    decreases |objects|
  {
    hide FetchObjects.ReadSubgroup, FetchObjects.RefersBack;
    if objects != [] {
      var h, payload := objects[0].header, objects[0].payload;
      var subgroup := FetchObjects.ReadSubgroup(h, c, p);
      FetchObjects.ReadCorrectly(h, c, p);
      var read, sent := Received(h).(subgroup := subgroup), FetchObjects.Delivered(h);
      assert ExpectedObject(read, payload)[0] == Begin(read) && ExpectedObject(sent, payload)[0] == Begin(sent);
      SplitEqual(ExpectedObject(read, payload), ExpectedFetch(objects[1..], FetchObjects.NextContext(h), Some(subgroup)),
                 ExpectedObject(sent, payload), SentFetch(objects[1..]));
      ObservedAsSent(objects[1..], FetchObjects.NextContext(h), Some(subgroup));
    }
  }

  /** One pass over the first of the objects delivers it and stops in front of the others. */
  lemma {:induction false} FirstFetched(c: Codec, w: Context, objects: seq<SentObject>)
    requires c.state.MultiObjectHeader? && c.streamType.FetchStream? && c.error.None?
    requires c.current.extensions == NO_EXTENSIONS && FetchObjects.Paired(w)
    requires c.context == w.(subgroup := c.context.subgroup) && (c.context.subgroup.Some? <==> w.subgroup.Some?)
    requires objects != [] && Fetchable(objects, w, c.order) && c.buffer == WriteFetched(objects, w, c.order)
    ensures Running(c)
    ensures var o, s := objects[0], Step(c, false);
      var subgroup := FetchObjects.ReadSubgroup(o.header, w, c.context.subgroup);
      && s.codec.state.MultiObjectHeader? && s.codec.streamType.FetchStream? && s.codec.error.None?
      && s.codec.current.extensions == NO_EXTENSIONS && s.codec.order == c.order
      && s.codec.context == FetchObjects.NextContext(o.header).(subgroup := Some(subgroup))
      && s.codec.buffer == WriteFetched(objects[1..], FetchObjects.NextContext(o.header), c.order)
      && Observed(s.events) == ExpectedObject(Received(o.header).(subgroup := subgroup), o.payload)
  {
    hide FetchObjects.ParseItem, FetchObjects.WriteObject, FetchObjects.Follows, FetchObjects.ReadSubgroup;
    hide Writable, StepObject, Observed, ExpectedObject;
    var o := objects[0];
    var h, p := o.header, c.context.subgroup;
    var next := FetchObjects.NextContext(h);
    var tail := WriteFetched(objects[1..], next, c.order);
    assert BlockFits(h.extensions.mutableExts, h.extensions.immutableExts) by { WritableFits(h, !h.extensions.Empty(), false); }
    FetchObjects.WriterAccepts(h, w, c.order);
    FetchObjects.ObjectReadBack(h, w, p, c.order, c.current, o.payload + tail);
    var subgroup := FetchObjects.ReadSubgroup(h, w, p);
    var c1 := c.(context := next.(subgroup := Some(subgroup)), buffer := o.payload + tail);
    var read := Received(h).(subgroup := subgroup);
    WholeObject(c1, read, o.payload, tail);
    assert Running(c) by { FetchWrittenIsNonEmpty(h, w, c.order); }
    assert Step(c, false) == StepObject(c1, read, false);
  }

  lemma {:induction false} FetchedDelivered(c: Codec, w: Context, objects: seq<SentObject>)
    requires c.state.MultiObjectHeader? && c.streamType.FetchStream? && c.error.None?
    requires c.current.extensions == NO_EXTENSIONS && FetchObjects.Paired(w)
    requires c.context == w.(subgroup := c.context.subgroup) && (c.context.subgroup.Some? <==> w.subgroup.Some?)
    requires Fetchable(objects, w, c.order) && c.buffer == WriteFetched(objects, w, c.order)
    ensures var d := Drain(c, false);
      && AtBoundary(d.codec) && d.codec.streamType.FetchStream? && !d.codec.state.FinDelivered?
      && d.codec.context == FinalContext(objects, w, c.context.subgroup)
      && Observed(d.events) == ExpectedFetch(objects, w, c.context.subgroup)
    decreases |objects|
  {
    hide Step, Writable, Observed, ExpectedObject, FetchObjects.Follows, FetchObjects.ReadSubgroup, FetchObjects.WriteObject;
    ObservedNil();
    if objects != [] {
      FirstFetched(c, w, objects);
      var s := Step(c, false);
      StepProgress(c, false);
      ObservedConcat(s.events, Drain(s.codec, false).events);
      FetchedDelivered(s.codec, FetchObjects.NextContext(objects[0].header), objects[1..]);
    }
  }

  lemma FetchWrittenIsNonEmpty(h: ObjectHeader, c: Context, order: GroupOrder)
    requires h.priority.Some? && BlockFits(h.extensions.mutableExts, h.extensions.immutableExts)
    requires FetchObjects.WriteObject(h, c, order).Some?
    ensures |FetchObjects.WriteObject(h, c, order).value| > 0
  {
  }

  function FetchBytes(requestId: u64, objects: seq<SentObject>, order: GroupOrder): bytes
    requires Fetchable(objects, EMPTY_CONTEXT, order)
  {
    Varint.Encode(FETCH_TYPE) + (Varint.Encode(requestId) + WriteFetched(objects, EMPTY_CONTEXT, order))
  }

  lemma {:induction false} FetchDrain(requestId: u64, objects: seq<SentObject>, order: GroupOrder)
    requires Fetchable(objects, EMPTY_CONTEXT, order)
    ensures var d := Drain(Fresh(order).(buffer := FetchBytes(requestId, objects, order)), false);
      && AtBoundary(d.codec) && d.codec.streamType.FetchStream? && !d.codec.state.FinDelivered?
      && d.codec.context == FinalContext(objects, EMPTY_CONTEXT, None)
      && Observed(d.events) == [Callback(OnFetchHeader(requestId))] + ExpectedFetch(objects, EMPTY_CONTEXT, None)
  {
    hide Varint.Encode, ReadVarint, Observed, Fetchable, WriteFetched, ExpectedFetch;
    var body := WriteFetched(objects, EMPTY_CONTEXT, order);
    var rest := Varint.Encode(requestId) + body;
    var c0 := Fresh(order).(buffer := FetchBytes(requestId, objects, order));
    ReadWritten(FETCH_TYPE, rest);
    ReadWritten(requestId, body);
    EncodedIsNonEmpty(FETCH_TYPE);
    EncodedIsNonEmpty(requestId);
    var c1 := c0.(streamType := FetchStream, state := FetchHeaderState, buffer := rest);
    assert Step(c0, false) == Trace(c1, []);
    var c2 := c1.(state := MultiObjectHeader, order := order, buffer := body);
    var e := OnFetchHeader(requestId);
    assert Step(c1, false) == Trace(c2, [e]);
    FetchedDelivered(c2, EMPTY_CONTEXT, objects);
    StepProgress(c0, false);
    StepProgress(c1, false);
    var d := Drain(c2, false);
    assert Drain(c1, false) == Trace(d.codec, [e] + d.events);
    assert [] + ([e] + d.events) == [e] + d.events;
    ObservedConcat([e], d.events);
    SingleObserved(e);
  }

  /**
    Every object list the writer accepts within the parser's limits, in either group order, read in any chunks with
    the FIN on the last of them, is observed in order, followed by one end of stream. It is observed as it was sent
    exactly if no object refers back to a subgroup that the two ends remember differently.
   */
  lemma {:induction false} FetchStreamDelivered(requestId: u64, objects: seq<SentObject>, order: GroupOrder, chunks: seq<bytes>, last: bytes)
    requires Fetchable(objects, EMPTY_CONTEXT, order)
    requires Concat(chunks) + last == FetchBytes(requestId, objects, order)
    ensures var r := ReadToFin(Fresh(order), chunks, last);
      var header := [Callback(OnFetchHeader(requestId))];
      && r.codec.error.None?
      && Observed(r.events) == header + ExpectedFetch(objects, EMPTY_CONTEXT, None) + [StreamEnd]
      && (Observed(r.events) == header + SentFetch(objects) + [StreamEnd] <==> Unconfused(objects, EMPTY_CONTEXT, None))
  {
    hide Drain, Observed, Fetchable, ExpectedFetch, SentFetch, Unconfused;
    FetchDrain(requestId, objects, order);
    ReadWholeStream(Fresh(order), chunks, last);
    AllNormal(objects, EMPTY_CONTEXT, order);
    ObservedAsSent(objects, EMPTY_CONTEXT, None);
    BetweenEqual([Callback(OnFetchHeader(requestId))], ExpectedFetch(objects, EMPTY_CONTEXT, None), SentFetch(objects), [StreamEnd]);
  }

  lemma {:induction false} AllNormal(objects: seq<SentObject>, c: Context, order: GroupOrder)
    requires Fetchable(objects, c, order)
    ensures forall i :: 0 <= i < |objects| ==> objects[i].header.status == NORMAL
    decreases |objects|
  {
    hide Writable;
    if objects != [] {
      AllNormal(objects[1..], FetchObjects.NextContext(objects[0].header), order);
      assert forall i :: 1 <= i < |objects| ==> objects[i] == objects[1..][i - 1];
    }
  }

  lemma {:induction false} BetweenEqual(a: seq<Atom>, b: seq<Atom>, c: seq<Atom>, d: seq<Atom>)
    ensures a + b + d == a + c + d <==> b == c
  {
    if a + b + d == a + c + d {
      assert |b| == |c|;
      assert b == (a + b + d)[|a|..|a| + |b|] && c == (a + c + d)[|a|..|a| + |c|];
    }
  }

  /** Without a datagram object of a subgroup other than 0 nothing is confused. */
  lemma {:induction false} NeverConfused(objects: seq<SentObject>, c: Context)
    requires forall i :: 0 <= i < |objects| ==> !(objects[i].header.datagram && objects[i].header.subgroup != 0)
    ensures Unconfused(objects, c, c.subgroup)
    decreases |objects|
  {
    hide FetchObjects.ReadSubgroup, FetchObjects.RefersBack;
    if objects != [] {
      var h := objects[0].header;
      FetchObjects.ReadCorrectly(h, c, c.subgroup);
      NeverConfused(objects[1..], FetchObjects.NextContext(h));
    }
  }

  /** Read without a FIN, the parser's delta context ends up as the writer's, but for the subgroup it remembers. */
  lemma {:induction false} FetchContextsInStep(requestId: u64, objects: seq<SentObject>, order: GroupOrder, chunks: seq<bytes>)
    requires Fetchable(objects, EMPTY_CONTEXT, order) && chunks != []
    requires Concat(chunks) == FetchBytes(requestId, objects, order)
    ensures IngressAll(Fresh(order), chunks).codec.context == FinalContext(objects, EMPTY_CONTEXT, None)
    ensures objects != [] ==>
      var h, c := objects[|objects| - 1].header, FinalContext(objects, EMPTY_CONTEXT, None);
      c.group == Some(h.group) && c.objectId == Some(h.id) && c.priority == h.priority
  {
    hide Drain, Observed, Fetchable;
    FetchDrain(requestId, objects, order);
    ChunkingIsIrrelevant(Fresh(order), chunks);
    var s := Concat(chunks);
    assert Fresh(order).(buffer := [] + s) == Fresh(order).(buffer := s);
    LastContext(objects, EMPTY_CONTEXT, None);
  }

  lemma {:induction false} LastContext(objects: seq<SentObject>, c: Context, p: Option<u64>)
    ensures objects != [] ==>
      var h, e := objects[|objects| - 1].header, FinalContext(objects, c, p);
      e.group == Some(h.group) && e.objectId == Some(h.id) && e.priority == h.priority
    decreases |objects|
  {
    hide FetchObjects.ReadSubgroup;
    if |objects| > 1 {
      var h := objects[0].header;
      LastContext(objects[1..], FetchObjects.NextContext(h), Some(FetchObjects.ReadSubgroup(h, c, p)));
    } else if objects != [] {
      var h := objects[0].header;
      assert FinalContext(objects[1..], FetchObjects.NextContext(h), Some(FetchObjects.ReadSubgroup(h, c, p)))
          == FetchObjects.NextContext(h).(subgroup := Some(FetchObjects.ReadSubgroup(h, c, p)));
    }
  }
}
