/** Chunking does not matter: any split of a byte string into reads is observed as one read of all of it. */
module Chunking {
  import opened Bytes
  import opened Wire
  import opened Extensions
  import opened ObjectWire
  import opened StreamCodec
  import SubgroupObjects
  import FetchObjects

  function More(c: Codec, t: bytes): Codec { c.(buffer := c.buffer + t) }

  /** A failed codec is about to drop its input, so what is left of it does not count. */
  function Settled(c: Codec): Codec {
    if c.error == Some(ProtocolViolation) then c.(buffer := []) else c
  }

  lemma SubgroupHeaderStable(s: bytes, t: bytes, o: SubgroupOptions)
    ensures var r := ParseSubgroupHeader(s, o);
      var r' := ParseSubgroupHeader(s + t, o);
      (r.Ok? ==> r' == Ok(r.value, r.rest + t)) && (r.Violation? ==> r'.Violation?)
  {
    hide ReadVarint;
    if ParseSubgroupHeader(s, o).Ok? {
      ReadStable(s, t);
      var s1 := ReadVarint(s).value.1;
      ReadStable(s1, t);
      var s2 := ReadVarint(s1).value.1;
      if o.idFormat.Present? {
        ReadStable(s2, t);
      }
      var s3 := ReadSubgroupId(s2, o.idFormat).value.1;
      var s4 := if o.priorityPresent then s3[1..] else s3;
      assert o.priorityPresent ==> (s3 + t)[1..] == s3[1..] + t;
      if o.idFormat.FirstObject? {
        ReadStable(s4, t);
      }
    }
  }

  /** An underflow leaves every field alone, the delta context included; only the error marks it. */
  lemma UnderflowKeepsContext(c: Codec, fin: bool)
    requires Running(c) && Step(c, fin).codec.error == Some(ParseUnderflow)
    ensures Step(c, fin) == Trace(c.(error := Some(ParseUnderflow)), [])
  {
    hide ReadVarint, ParseSubgroupHeader, FetchObjects.ParseItem, SubgroupObjects.ParseObject;
  }

  /** One pass with more input behind it: same failure, same progress, or the same object with more payload. */
  lemma ObjectWithMore(c: Codec, h: ObjectHeader, t: bytes)
    requires c.error.None?
    ensures var s := StepObject(c, h, false);
      var s' := StepObject(More(c, t), h, false);
      && s.codec.error.None? && s'.codec.error.None?
      && (!s.codec.state.ObjectPayload? ==> s' == Trace(More(s.codec, t), s.events))
      && (s.codec.state.ObjectPayload? ==> s.codec.buffer == [])
  {
    var n := Min(Length(h), |c.buffer|);
    if h.status == NORMAL && n == Length(h) {
      assert (c.buffer + t)[..n] == c.buffer[..n];
      assert (c.buffer + t)[n..] == c.buffer[n..] + t;
    }
  }

  lemma PayloadWithMore(c: Codec, t: bytes)
    requires c.error.None?
    ensures var s := StepPayload(c, false);
      var s' := StepPayload(More(c, t), false);
      && s.codec.error.None? && s'.codec.error.None?
      && (!s.codec.state.ObjectPayload? ==> s' == Trace(More(s.codec, t), s.events))
      && (s.codec.state.ObjectPayload? ==> s.codec.buffer == [])
  {
    var n := Min(Length(c.current), |c.buffer|);
    if n == Length(c.current) {
      assert (c.buffer + t)[..n] == c.buffer[..n];
      assert (c.buffer + t)[n..] == c.buffer[n..] + t;
    }
  }

  lemma StepWithMore(c: Codec, t: bytes)
    requires Running(c) && !c.state.Padding?
    ensures var s := Step(c, false);
      var s' := Step(More(c, t), false);
      && (s.codec.error == Some(ProtocolViolation) ==> Settled(s'.codec) == Settled(s.codec) && s'.events == s.events == [])
      && (s.codec.error.None? ==> s'.codec.error.None?)
      && (s.codec.error.None? && !s.codec.state.ObjectPayload? ==> s' == Trace(More(s.codec, t), s.events))
      && (s.codec.error.None? && s.codec.state.ObjectPayload? ==> s.codec.buffer == [])
  {
    hide ReadVarint, ParseSubgroupHeader, FetchObjects.ParseItem, SubgroupObjects.ParseObject, StepObject, StepPayload;
    match c.state
    case StreamHeaderType =>
      if ReadVarint(c.buffer).Some? { ReadStable(c.buffer, t); }
    case FetchHeaderState =>
      if ReadVarint(c.buffer).Some? { ReadStable(c.buffer, t); }
    case SubgroupHeaderState =>
      SubgroupHeaderStable(c.buffer, t, c.options);
    case MultiObjectHeader =>
      if c.streamType.FetchStream? {
        FetchObjects.ItemStable(c.buffer, t, c.context, c.order, c.current);
        var r := FetchObjects.ParseItem(c.buffer, c.context, c.order, c.current);
        if r.Ok? && r.value.item.Object? {
          ObjectWithMore(c.(context := r.value.context, buffer := r.rest), r.value.item.header, t);
        }
      } else {
        SubgroupObjects.ObjectStable(c.buffer, t, c.context.objectId, c.current, c.options.hasExtensions);
        var r := SubgroupObjects.ParseObject(c.buffer, c.context.objectId, c.current, c.options.hasExtensions);
        if r.Ok? {
          ObjectWithMore(c.(context := c.context.(objectId := Some(r.value.id)), buffer := r.rest), r.value, t);
        }
      }
    case ObjectPayload =>
      PayloadWithMore(c, t);
    case FinDelivered =>
  }

  /** Cutting an object's payload adds a callback but no observable difference. */
  lemma PieceJoin(c: Codec, t: bytes)
    requires c.error.None? && c.buffer != [] && t != []
    requires Step(c, false).codec.error.None? && Step(c, false).codec.state.ObjectPayload?
    ensures var s := Step(c, false);
      var s2 := StepPayload(More(s.codec, t), false);
      var s' := Step(More(c, t), false);
      s'.codec == s2.codec && Observed(s'.events) == Observed(s.events) + Observed(s2.events)
  {
    hide ReadVarint, ParseSubgroupHeader, FetchObjects.ParseItem, SubgroupObjects.ParseObject, StepObject, StepPayload, Observed;
    match c.state
    case MultiObjectHeader =>
      if c.streamType.FetchStream? {
        FetchObjects.ItemStable(c.buffer, t, c.context, c.order, c.current);
        var r := FetchObjects.ParseItem(c.buffer, c.context, c.order, c.current);
        BeginJoin(c.(context := r.value.context, buffer := r.rest), r.value.item.header, t);
      } else {
        SubgroupObjects.ObjectStable(c.buffer, t, c.context.objectId, c.current, c.options.hasExtensions);
        var r := SubgroupObjects.ParseObject(c.buffer, c.context.objectId, c.current, c.options.hasExtensions);
        BeginJoin(c.(context := c.context.(objectId := Some(r.value.id)), buffer := r.rest), r.value, t);
      }
    case ObjectPayload =>
      PayloadJoin(c, t);
  }

  /** StepObject on a normal object whose payload is not all there. */
  lemma BeginShort(c: Codec, h: ObjectHeader)
    requires StepObject(c, h, false).codec.state.ObjectPayload?
    requires c.error.None?
    ensures h.status == NORMAL && |c.buffer| < Length(h)
    ensures StepObject(c, h, false) == Trace(
      c.(current := h.(extensions := NO_EXTENSIONS, length := Some(Length(h) - |c.buffer|)), buffer := [], state := ObjectPayload),
      [OnObjectBegin(h, c.buffer, false, false)])
  {
    if h.status == NORMAL {
      assert c.buffer[..|c.buffer|] == c.buffer && c.buffer[|c.buffer|..] == [];
    }
  }

  lemma BeginJoin(c: Codec, h: ObjectHeader, t: bytes)
    requires c.error.None? && t != [] && StepObject(c, h, false).codec.state.ObjectPayload?
    ensures var s := StepObject(c, h, false);
      var s2 := StepPayload(More(s.codec, t), false);
      var s' := StepObject(More(c, t), h, false);
      s'.codec == s2.codec && Observed(s'.events) == Observed(s.events) + Observed(s2.events)
  {
    hide Observed;
    var length := Length(h);
    var n := |c.buffer|;
    BeginShort(c, h);
    var k := Min(length - n, |t|);
    assert [] + t == t;
    assert (c.buffer + t)[..n + k] == c.buffer + t[..k];
    assert (c.buffer + t)[n + k..] == t[k..];
    JoinObserved(Some(h), c.buffer, t[..k], n + k == length);
  }

  lemma PayloadJoin(c: Codec, t: bytes)
    requires c.error.None? && c.buffer != [] && t != [] && StepPayload(c, false).codec.state.ObjectPayload?
    ensures var s := StepPayload(c, false);
      var s2 := StepPayload(More(s.codec, t), false);
      var s' := StepPayload(More(c, t), false);
      s'.codec == s2.codec && Observed(s'.events) == Observed(s.events) + Observed(s2.events)
  {
    hide Observed;
    var length := Length(c.current);
    var n := |c.buffer|;
    var k := Min(length - n, |t|);
    var s := StepPayload(c, false);
    assert More(s.codec, t).buffer == t;
    assert c.buffer[..n] == c.buffer;
    assert (c.buffer + t)[..n + k] == c.buffer + t[..k];
    assert (c.buffer + t)[n + k..] == t[k..];
    JoinObserved(None, c.buffer, t[..k], n + k == length);
  }

  function Carrying(h: Option<ObjectHeader>, p: bytes, complete: bool): Event {
    if h.Some? then OnObjectBegin(h.value, p, complete, false) else OnObjectPayload(p, complete)
  }

  lemma JoinObserved(h: Option<ObjectHeader>, p: bytes, q: bytes, complete: bool)
    ensures Observed([Carrying(h, p + q, complete)])
         == Observed([Carrying(h, p, false)]) + Observed([OnObjectPayload(q, complete)])
  {
    hide Observed, PayloadAtoms;
    PayloadAtomsConcat(p, q);
    SingleObserved(Carrying(h, p + q, complete));
    SingleObserved(Carrying(h, p, false));
    SingleObserved(OnObjectPayload(q, complete));
  }

  lemma SingleObserved(e: Event)
    ensures Observed([e]) == Atoms(e)
  {
    assert [e][1..] == [];
    assert Observed([e]) == Atoms(e) + Observed([]);
  }

  // ---------------------------------------------------------------- the loop

  ghost predicate SplitAgrees(d: Trace, whole: Trace, t: bytes) {
    if d.codec.error == Some(ProtocolViolation) then
      Settled(whole.codec) == Settled(d.codec) && Observed(whole.events) == Observed(d.events)
    else
      var r := Drain(More(d.codec.(error := None), t), false);
      && Settled(whole.codec) == Settled(r.codec)
      && Observed(whole.events) == Observed(d.events) + Observed(r.events)
  }

  /** Draining a prefix and then the rest is draining everything at once. */
  lemma {:induction false} DrainSplit(c: Codec, t: bytes)
    requires c.error.None?
    ensures SplitAgrees(Drain(c, false), Drain(More(c, t), false), t)
    decreases |c.buffer|, Rank(c)
  {
    hide Step, StepObject, StepPayload, Observed;
    assert Observed([]) == [] by { ObservedNil(); }
    if c.buffer == [] {
      assert More(c, t).buffer == t;
    } else {
      var s := Step(c, false);
      if s.codec.error == Some(ParseUnderflow) {
        UnderflowKeepsContext(c, false);
        assert s.codec.(error := None) == c;
      } else if c.state.Padding? {
        PaddingSplit(c, t);
      } else {
        StepWithMore(c, t);
        assert Running(More(c, t));
        assert s.codec.error.None? || s.codec.error == Some(ProtocolViolation) by { TwoErrors(s.codec.error); }
        if s.codec.error.None? {
          StepProgress(c, false);
          if s.codec.state.ObjectPayload? {
            PayloadSplit(c, t);
          } else {
            DrainSplit(s.codec, t);
            ObservedConcat(s.events, Drain(s.codec, false).events);
            ObservedConcat(s.events, Drain(More(s.codec, t), false).events);
          }
        }
      }
    }
  }

  lemma ObservedNil()
    ensures Observed([]) == []
  {
  }

  lemma PaddingStep(c: Codec)
    requires c.state.Padding?
    ensures Step(c, false) == if AllZero(c.buffer) then Trace(c.(buffer := []), []) else Fail(c, ProtocolViolation)
  {
  }

  predicate AllZero(s: bytes) { forall b :: b in s ==> b == 0 }

  lemma AllZeroConcat(s: bytes, t: bytes)
    ensures AllZero(s + t) <==> AllZero(s) && AllZero(t)
  {
    assert forall b :: b in s + t <==> b in s || b in t;
  }

  lemma {:induction false} PaddingSplit(c: Codec, t: bytes)
    requires Running(c) && c.state.Padding?
    ensures SplitAgrees(Drain(c, false), Drain(More(c, t), false), t)
  {
    hide Step, Observed, AllZero;
    PaddingStep(c);
    PaddingStep(More(c, t));
    PaddingStep(More(c.(buffer := []), t));
    AllZeroConcat(c.buffer, t);
    ObservedNil();
    StepProgress(c, false);
    StepProgress(More(c, t), false);
    var idle := c.(buffer := []);
    assert More(idle, t).buffer == t;
    assert Drain(idle, false) == Trace(idle, []);
    if t == [] {
      assert More(c, t) == c && More(idle, t) == idle;
    } else if AllZero(c.buffer) {
      assert Drain(c, false) == Trace(idle, []);
      assert idle.(error := None) == idle;
      if AllZero(t) {
        StepProgress(More(idle, t), false);
        assert Drain(More(c, t), false) == Trace(idle, []);
        assert Drain(More(idle, t), false) == Trace(idle, []);
      }
    }
  }

  lemma {:induction false} PayloadSplit(c: Codec, t: bytes)
    requires Running(c) && !c.state.Padding?
    requires Step(c, false).codec.error.None? && Step(c, false).codec.state.ObjectPayload?
    ensures SplitAgrees(Drain(c, false), Drain(More(c, t), false), t)
  {
    hide Step, StepObject, StepPayload, Observed;
    var s := Step(c, false);
    StepWithMore(c, t);
    StepProgress(c, false);
    assert s.events + [] == s.events;
    assert Drain(c, false) == s;
    ObservedNil();
    if t == [] {
      assert More(c, t) == c && More(s.codec, t) == s.codec;
    } else {
      PieceJoin(c, t);
      var c2 := More(s.codec, t);
      assert c2.buffer == t;
      assert Step(c2, false) == StepPayload(c2, false) by { StepOfPayload(c2); }
      PayloadWithMore(c2, []);
      var s2 := Step(c2, false);
      var s' := Step(More(c, t), false);
      StepProgress(c2, false);
      StepProgress(More(c, t), false);
      ObservedConcat(s2.events, Drain(s2.codec, false).events);
      ObservedConcat(s'.events, Drain(s2.codec, false).events);
    }
  }

  lemma StepOfPayload(c: Codec)
    requires c.state.ObjectPayload?
    ensures Step(c, false) == StepPayload(c, false)
  {
  }

  // ---------------------------------------------------------------- calls

  lemma IngressSplit(c: Codec, a: bytes, b: bytes)
    requires c.error.None?
    ensures var f := Ingress(c, a, false);
      var whole := Ingress(c, a + b, false);
      if f.codec.error.Some? then whole.codec == f.codec && Observed(whole.events) == Observed(f.events)
      else
        var r := Ingress(f.codec, b, false);
        whole.codec == r.codec && Observed(whole.events) == Observed(f.events) + Observed(r.events)
  {
    hide Drain, Step, Observed;
    var d := Drain(More(c, a), false);
    var w := Drain(More(c, a + b), false);
    assert More(More(c, a), b) == More(c, a + b);
    DrainSplit(More(c, a), b);
    DrainOutcome(More(c, a), false);
    DrainOutcome(More(c, a + b), false);
    ObservedConcat(d.events, Finish(d.codec, false).events);
    ObservedConcat(w.events, Finish(w.codec, false).events);
    ObservedNil();
    if d.codec.error != Some(ProtocolViolation) {
      var k := More(d.codec.(error := None), b);
      var f := Ingress(c, a, false);
      TwoErrors(d.codec.error);
      FinishWaits(d.codec);
      assert d.events + [] == d.events;
      assert f.codec == d.codec.(error := None) && More(f.codec, b) == k;
      var r := Drain(k, false);
      ObservedConcat(r.events, Finish(r.codec, false).events);
    }
  }

  lemma TwoErrors(e: Option<Error>)
    ensures e.None? || e == Some(ParseUnderflow) || e == Some(ProtocolViolation)
  {
    if e.Some? {
      match e.value
      case ParseUnderflow =>
      case ProtocolViolation =>
    }
  }

  lemma FinishWaits(c: Codec)
    requires c.error == Some(ParseUnderflow) || (c.error.None? && c.buffer == [])
    ensures Finish(c, false) == Trace(c.(error := None), [])
  {
  }

  /** The loop ends with an empty buffer or with an error. */
  lemma {:induction false} DrainOutcome(c: Codec, fin: bool)
    ensures var d := Drain(c, fin).codec; d.error.Some? || d.buffer == []
    decreases |c.buffer|, Rank(c)
  {
    hide Step;
    if Running(c) {
      var s := Step(c, fin);
      if s.codec.error.None? {
        StepProgress(c, fin);
        DrainOutcome(s.codec, fin);
      }
    }
  }

  /**
    For every byte string and every split of it into reads, the codec ends in the same state, and the
    receiver observes the same callbacks and the same first error, as in one read of the whole string.
   */
  lemma {:induction false} ChunkingIsIrrelevant(c: Codec, chunks: seq<bytes>)
    requires c.error.None? && chunks != []
    ensures IngressAll(c, chunks).codec == Ingress(c, Concat(chunks), false).codec
    ensures Observed(IngressAll(c, chunks).events) == Observed(Ingress(c, Concat(chunks), false).events)
    decreases |chunks|
  {
    hide Ingress, Observed;
    var first := Ingress(c, chunks[0], false);
    var tail := chunks[1..];
    if tail == [] {
      assert Concat(chunks) == chunks[0];
      assert first.events + [] == first.events;
    } else {
      IngressSplit(c, chunks[0], Concat(tail));
      if first.codec.error.None? {
        ChunkingIsIrrelevant(first.codec, tail);
        ObservedConcat(first.events, IngressAll(first.codec, tail).events);
      }
    }
  }
}
