/** Blocking callbacks, and the end of a data stream. */
module StreamEnd {
  import opened Bytes
  import opened Wire
  import opened Extensions
  import opened ObjectWire
  import opened StreamCodec
  import opened Chunking
  import SubgroupObjects
  import FetchObjects
  import Varint

  // ---------------------------------------------------------------- callbacks that answer

  datatype Answer = Continue | Blocked | Terminate

  datatype Outcome = Done | Paused | Stopped

  /** A run of the loop under given callback answers; `answers` are those not yet used up. */
  datatype Run = Run(codec: Codec, events: seq<Event>, outcome: Outcome, answers: seq<Answer>)

  /** Only these callbacks may hold the stream; a BLOCKED from the others is ignored. */
  predicate Blockable(e: Event) {
    e.OnSubgroup? || e.OnObjectBegin? || e.OnObjectPayload? || e.OnObjectStatus?
  }

  function Next(answers: seq<Answer>): Answer { if answers == [] then Continue else answers[0] }
  function Later(answers: seq<Answer>): seq<Answer> { if answers == [] then [] else answers[1..] }

  function DrainWith(c: Codec, fin: bool, answers: seq<Answer>): (r: Run)
    ensures r.outcome.Paused? ==> |r.answers| < |answers|
    ensures |r.answers| <= |answers|
    decreases |c.buffer|, Rank(c)
  {
    if !Running(c) then Run(c, [], Done, answers)
    else
      var s := Step(c, fin);
      if s.codec.error.Some? then Run(s.codec, s.events, Done, answers)
      else
        StepProgress(c, fin);
        if s.events == [] then DrainWith(s.codec, fin, answers)
        else if Next(answers).Terminate? then Run(s.codec, s.events, Stopped, Later(answers))
        else if Next(answers).Blocked? && Blockable(s.events[0]) then Run(s.codec, s.events, Paused, Later(answers))
        else
          var d := DrainWith(s.codec, fin, Later(answers));
          Run(d.codec, s.events + d.events, d.outcome, d.answers)
  }

  /** One onIngress call and, after each BLOCKED, another with no data and the same FIN flag. */
  function Resumed(c: Codec, fin: bool, answers: seq<Answer>): Run
    decreases |answers|
  {
    var d := DrainWith(c, fin, answers);
    match d.outcome
    case Stopped => d
    case Done =>
      var f := Finish(d.codec, fin);
      Run(f.codec, d.events + f.events, Done, d.answers)
    case Paused =>
      var r := Resumed(d.codec, fin, d.answers);
      Run(r.codec, d.events + r.events, r.outcome, r.answers)
  }

  /** The pieces of a run that paused, together with the rest of the loop, are the run that never paused. */
  lemma {:induction false} DrainWithAgrees(c: Codec, fin: bool, answers: seq<Answer>)
    requires c.error.None?
    ensures var r := DrainWith(c, fin, answers);
      var d := Drain(c, fin);
      && (r.outcome.Done? ==> r.codec == d.codec && r.events == d.events)
      && (!r.outcome.Done? ==>
            && r.codec.error.None?
            && Drain(r.codec, fin).codec == d.codec
            && r.events + Drain(r.codec, fin).events == d.events)
      && (r.outcome.Stopped? ==> Terminate in answers)
      && (Terminate in r.answers ==> Terminate in answers)
    decreases |c.buffer|, Rank(c)
  {
    hide Step, Running, Blockable, Rank;
    if Running(c) {
      var s := Step(c, fin);
      if s.codec.error.None? {
        StepProgress(c, fin);
        var d := Drain(s.codec, fin);
        if s.events == [] {
          assert [] + d.events == d.events;
          DrainWithAgrees(s.codec, fin, answers);
        } else {
          DrainWithAgrees(s.codec, fin, Later(answers));
          var r := DrainWith(s.codec, fin, Later(answers));
          hide Drain;
          assert (s.events + r.events) + Drain(r.codec, fin).events == s.events + (r.events + Drain(r.codec, fin).events);
        }
      }
    }
  }

  function Uninterrupted(c: Codec, fin: bool): Trace {
    var d := Drain(c, fin);
    var f := Finish(d.codec, fin);
    Trace(f.codec, d.events + f.events)
  }

  /**
    Whichever callbacks answer BLOCKED, resuming with empty data and the same FIN flag gives exactly the
    callbacks and the codec of the run that never blocked. A TERMINATE only cuts that run short.
   */
  lemma {:induction false} BlockingIsTransparent(c: Codec, fin: bool, answers: seq<Answer>)
    requires c.error.None?
    ensures var r := Resumed(c, fin, answers);
      var u := Uninterrupted(c, fin);
      && (r.outcome.Done? ==> r.codec == u.codec && r.events == u.events)
      && (Terminate !in answers ==> r.outcome.Done?)
      && r.events <= u.events
    decreases |answers|
  {
    hide DrainWith, Drain;
    DrainWithAgrees(c, fin, answers);
    var d := DrainWith(c, fin, answers);
    var u := Uninterrupted(c, fin);
    match d.outcome
    case Done =>
    case Stopped =>
      assert u.events == d.events + (Drain(d.codec, fin).events + Finish(Drain(c, fin).codec, fin).events);
    case Paused =>
      BlockingIsTransparent(d.codec, fin, d.answers);
      var r := Resumed(d.codec, fin, d.answers);
      assert u.events == d.events + Uninterrupted(d.codec, fin).events;
  }

  // ---------------------------------------------------------------- reads that block

  /** One onIngress call, not the last of its stream. */
  function Read(c: Codec, data: bytes, answers: seq<Answer>): Run {
    var d := DrainWith(More(c, data), false, answers);
    if !d.outcome.Done? then d
    else
      var f := Finish(d.codec, false);
      Run(f.codec, d.events + f.events, Done, d.answers)
  }

  /**
    A list of onIngress calls under given callback answers. A call that blocks leaves its bytes to the next one, which
    may bring more or none. The outcome is that of the last call made.
   */
  function ReadAll(c: Codec, chunks: seq<bytes>, answers: seq<Answer>): Run
    decreases |chunks|
  {
    if chunks == [] then Run(c, [], Done, answers)
    else
      var r := Read(c, chunks[0], answers);
      if r.outcome.Stopped? || r.codec.error.Some? || |chunks| == 1 then r
      else
        var rest := ReadAll(r.codec, chunks[1..], r.answers);
        Run(rest.codec, r.events + rest.events, rest.outcome, rest.answers)
  }

  /** A call that was held up has done a part of what it would have done, and an empty one does the rest. */
  lemma {:induction false} ReadAgrees(c: Codec, data: bytes, answers: seq<Answer>)
    requires c.error.None?
    ensures var r := Read(c, data, answers);
      var u := Ingress(c, data, false);
      && (r.outcome.Done? ==> r.codec == u.codec && r.events == u.events)
      && (!r.outcome.Done? ==>
            && r.codec.error.None?
            && Ingress(r.codec, [], false).codec == u.codec
            && r.events + Ingress(r.codec, [], false).events == u.events)
      && (r.outcome.Stopped? ==> Terminate in answers)
      && (Terminate in r.answers ==> Terminate in answers)
  {
    hide DrainWith, Drain;
    DrainWithAgrees(More(c, data), false, answers);
    var d := DrainWith(More(c, data), false, answers);
    if !d.outcome.Done? {
      assert d.codec.(buffer := d.codec.buffer + []) == d.codec;
      var rest := Drain(d.codec, false);
      var f := Finish(rest.codec, false);
      assert d.events + (rest.events + f.events) == (d.events + rest.events) + f.events;
    }
  }

  /** Whatever a call has not done yet, the bytes of the calls after it can be read together with it. */
  lemma {:induction false} ReadSplit(c: Codec, data: bytes, answers: seq<Answer>, t: bytes)
    requires c.error.None?
    ensures var r := Read(c, data, answers);
      var whole := Ingress(c, data + t, false);
      if r.codec.error.Some? then whole.codec == r.codec && Observed(whole.events) == Observed(r.events)
      else
        var rest := Ingress(r.codec, t, false);
        whole.codec == rest.codec && Observed(whole.events) == Observed(r.events) + Observed(rest.events)
  {
    hide Read, Ingress, Observed;
    ReadAgrees(c, data, answers);
    IngressSplit(c, data, t);
    var r := Read(c, data, answers);
    if !r.outcome.Done? {
      assert [] + t == t;
      IngressSplit(r.codec, [], t);
      ObservedConcat(r.events, Ingress(r.codec, [], false).events);
    }
  }

  /**
    For every byte string, every split of it into reads and every BLOCKED that callbacks answer, a run that does not end
    blocked leaves the codec as one read of the whole string does, and the receiver observes the same; after one that
    does, a call without data does the rest. A TERMINATE only cuts the observation short.
   */
  lemma {:induction false} BlockedReadsAgree(c: Codec, chunks: seq<bytes>, answers: seq<Answer>)
    requires c.error.None? && chunks != []
    ensures var r := ReadAll(c, chunks, answers);
      var whole := Ingress(c, Concat(chunks), false);
      && (r.outcome.Done? ==> r.codec == whole.codec && Observed(r.events) == Observed(whole.events))
      && (r.outcome.Paused? ==>
            && r.codec.error.None?
            && Ingress(r.codec, [], false).codec == whole.codec
            && Observed(r.events) + Observed(Ingress(r.codec, [], false).events) == Observed(whole.events))
      && (r.outcome.Stopped? ==> Terminate in answers)
      && Observed(r.events) <= Observed(whole.events)
    decreases |chunks|
  {
    hide Read, Ingress, Observed;
    var r, tail := Read(c, chunks[0], answers), chunks[1..];
    ReadAgrees(c, chunks[0], answers);
    ReadSplit(c, chunks[0], answers, Concat(tail));
    if tail == [] {
      assert Concat(tail) == [] && Concat(chunks) == chunks[0] + [] == chunks[0];
      ObservedConcat(r.events, Ingress(r.codec, [], false).events);
    } else if !r.outcome.Stopped? && r.codec.error.None? {
      BlockedReadsAgree(r.codec, tail, r.answers);
      ObservedConcat(r.events, ReadAll(r.codec, tail, r.answers).events);
    }
  }

  // ---------------------------------------------------------------- exactly one end signal

  predicate EndSignal(e: Event) {
    match e
    case OnObjectBegin(_, _, _, last) => last
    case OnObjectStatus(h) => h.status == END_OF_GROUP || h.status == END_OF_TRACK
    case OnEndOfStream => true
    case _ => false
  }

  function EndSignals(events: seq<Event>): nat {
    if events == [] then 0 else (if EndSignal(events[0]) then 1 else 0) + EndSignals(events[1..])
  }

  lemma {:induction false} EndSignalsConcat(a: seq<Event>, b: seq<Event>)
    ensures EndSignals(a + b) == EndSignals(a) + EndSignals(b)
  {
    if a == [] {
      assert a + b == b;
    } else {
      assert (a + b)[0] == a[0] && (a + b)[1..] == a[1..] + b;
      EndSignalsConcat(a[1..], b);
    }
  }

  /** How many end signals a codec in this state has already given. */
  function Given(c: Codec): nat {
    if c.state.FinDelivered? && !c.streamType.PaddingStream? then 1 else 0
  }

  predicate WellFormed(c: Codec) {
    && (c.streamType.PaddingStream? ==> c.state.Padding? || c.state.FinDelivered?)
    && (c.state.Padding? ==> c.streamType.PaddingStream?)
  }

  lemma {:induction false} OneSignal(e: Event)
    ensures EndSignals([e]) == if EndSignal(e) then 1 else 0
  {
    assert [e][1..] == [];
    assert EndSignals([]) == 0;
  }

  lemma {:induction false} ObjectSignals(c: Codec, h: ObjectHeader, fin: bool)
    requires c.error.None? && c.state.MultiObjectHeader? && !c.streamType.PaddingStream?
    requires c.streamType.FetchStream? ==> h.status == NORMAL
    ensures var s := StepObject(c, h, fin);
      s.codec.error.None? ==> WellFormed(s.codec) && EndSignals(s.events) == Given(s.codec)
  {
    hide EndSignals;
    var s := StepObject(c, h, fin);
    if s.codec.error.None? {
      OneSignal(s.events[0]);
      assert s.events == [s.events[0]];
    }
  }

  lemma StepSignals(c: Codec, fin: bool)
    requires Running(c) && WellFormed(c)
    ensures var s := Step(c, fin);
      s.codec.error.None? ==>
        WellFormed(s.codec) && EndSignals(s.events) + Given(c) == Given(s.codec)
  {
    hide ReadVarint, ParseSubgroupHeader, FetchObjects.ParseItem, SubgroupObjects.ParseObject, StepObject, EndSignals;
    EndSignalsNil();
    var events := Step(c, fin).events;
    if c.state.MultiObjectHeader? {
      if c.streamType.FetchStream? {
        var r := FetchObjects.ParseItem(c.buffer, c.context, c.order, c.current);
        if r.Ok? {
          match r.value.item
          case Object(h) => ObjectSignals(c.(context := r.value.context, buffer := r.rest), h, fin);
          case EndOfRange(g, o, u) => OneSignal(OnEndOfRange(g, o, u));
        }
      } else {
        var r := SubgroupObjects.ParseObject(c.buffer, c.context.objectId, c.current, c.options.hasExtensions);
        if r.Ok? {
          ObjectSignals(c.(context := c.context.(objectId := Some(r.value.id)), buffer := r.rest), r.value, fin);
        }
      }
    } else if events != [] {
      StepProgress(c, fin);
      OneSignal(events[0]);
      assert events == [events[0]];
    }
  }

  lemma {:induction false} DrainSignals(c: Codec, fin: bool)
    requires c.error.None? && WellFormed(c)
    ensures var d := Drain(c, fin);
      d.codec.error != Some(ProtocolViolation) ==>
        WellFormed(d.codec) && EndSignals(d.events) + Given(c) == Given(d.codec)
    decreases |c.buffer|, Rank(c)
  {
    hide Step;
    if Running(c) {
      var s := Step(c, fin);
      TwoErrors(s.codec.error);
      if s.codec.error.None? {
        StepSignals(c, fin);
        StepProgress(c, fin);
        DrainSignals(s.codec, fin);
        EndSignalsConcat(s.events, Drain(s.codec, fin).events);
      } else if s.codec.error == Some(ParseUnderflow) {
        UnderflowKeepsContext(c, fin);
      }
    }
  }

  lemma {:induction false} ChunksSignal(c: Codec, chunks: seq<bytes>)
    requires c.error.None? && WellFormed(c)
    ensures var r := IngressAll(c, chunks);
      r.codec.error.None? ==> WellFormed(r.codec) && EndSignals(r.events) + Given(c) == Given(r.codec)
    decreases |chunks|
  {
    hide Drain, EndSignals;
    assert EndSignals([]) == 0 by { EndSignalsNil(); }
    if chunks != [] {
      var d := Drain(More(c, chunks[0]), false);
      DrainSignals(More(c, chunks[0]), false);
      var first := Ingress(c, chunks[0], false);
      if first.codec.error.None? {
        TwoErrors(d.codec.error);
        EndSignalsConcat(d.events, Finish(d.codec, false).events);
        ChunksSignal(first.codec, chunks[1..]);
        EndSignalsConcat(first.events, IngressAll(first.codec, chunks[1..]).events);
      }
    }
  }

  lemma EndSignalsNil()
    ensures EndSignals([]) == 0 && EndSignals([OnEndOfStream]) == 1
  {
    assert [OnEndOfStream][1..] == [];
  }

  /**
    A stream read to its FIN without error gives exactly one end signal among subgroupComplete, an END
    status and onEndOfStream, wherever the reads cut it; a padding stream gives none.
   */
  lemma {:induction false} ExactlyOneEnd(order: GroupOrder, chunks: seq<bytes>, last: bytes)
    requires IngressAll(Fresh(order), chunks).codec.error.None?
    requires Ingress(IngressAll(Fresh(order), chunks).codec, last, true).codec.error.None?
    ensures var before := IngressAll(Fresh(order), chunks);
      var after := Ingress(before.codec, last, true);
      EndSignals(before.events + after.events) == if after.codec.streamType.PaddingStream? then 0 else 1
  {
    hide Drain, EndSignals;
    var before := IngressAll(Fresh(order), chunks);
    ChunksSignal(Fresh(order), chunks);
    var d := Drain(More(before.codec, last), true);
    DrainSignals(More(before.codec, last), true);
    EndSignalsConcat(d.events, Finish(d.codec, true).events);
    EndSignalsConcat(before.events, Ingress(before.codec, last, true).events);
    EndSignalsNil();
  }

  /**
    A FIN that cuts an object short is reported as a violation exactly when it arrives with data; an empty
    FIN in the middle of an object passes for a clean end of stream.
   */
  lemma TruncationNoticed(c: Codec, data: bytes)
    requires c.error.None? && c.state.ObjectPayload? && c.buffer == [] && |data| < Length(c.current)
    ensures var f := Ingress(c, data, true);
      && (f.events == [OnConnectionError(ProtocolViolation)] <==> data != [])
      && (data == [] ==> f.codec.error.None? && f.events == [OnEndOfStream])
  {
    var c1 := More(c, data);
    assert c1.buffer == data;
    if data != [] {
      assert Drain(c1, true) == Step(c1, true);
      assert [] + [OnConnectionError(ProtocolViolation)] == [OnConnectionError(ProtocolViolation)];
    } else {
      assert [] + [OnEndOfStream] == [OnEndOfStream];
      assert [OnEndOfStream][0] != [OnConnectionError(ProtocolViolation)][0];
    }
  }

  // ---------------------------------------------------------------- FIN placement

  function EndMark(c: Codec): seq<Atom> {
    Mark(!c.state.FinDelivered? && !c.streamType.PaddingStream?, StreamEnd)
  }

  predicate AtBoundary(c: Codec) {
    c.error.None? && c.buffer == [] && !c.state.ObjectPayload?
  }

  /** One pass with the FIN flag on: the same, or the last object now carrying the end of the stream. */
  predicate FinAgrees(s: Trace, f: Trace) {
    && f.codec.error.None?
    && (s.codec.buffer != [] ==> f == s)
    && (s.codec.buffer == [] ==>
          && f.codec.buffer == []
          && Observed(f.events) + Observed(Finish(f.codec, true).events) == Observed(s.events) + EndMark(s.codec))
  }

  lemma ObjectFin(c: Codec, h: ObjectHeader)
    requires c.error.None? && !c.streamType.PaddingStream?
    requires !StepObject(c, h, false).codec.state.ObjectPayload?
    ensures FinAgrees(StepObject(c, h, false), StepObject(c, h, true))
  {
    hide Observed, PayloadAtoms;
    var s := StepObject(c, h, false);
    var f := StepObject(c, h, true);
    ObservedNil();
    SingleObserved(OnEndOfStream);
    if h.status == NORMAL {
      SingleObserved(s.events[0]);
      SingleObserved(f.events[0]);
    }
  }

  lemma SameFin(s: Trace)
    requires s.codec.error.None? && !s.codec.streamType.PaddingStream? && !s.codec.state.Padding?
    ensures FinAgrees(s, s)
  {
    hide Observed;
    ObservedNil();
    SingleObserved(OnEndOfStream);
  }

  lemma StepFin(c: Codec)
    requires Running(c) && WellFormed(c) && Step(c, false).codec.error.None?
    requires !Step(c, false).codec.state.ObjectPayload?
    ensures FinAgrees(Step(c, false), Step(c, true))
  {
    hide ReadVarint, ParseSubgroupHeader, FetchObjects.ParseItem, SubgroupObjects.ParseObject, Observed, StepObject;
    var s := Step(c, false);
    match c.state
    case MultiObjectHeader =>
      if c.streamType.FetchStream? {
        var r := FetchObjects.ParseItem(c.buffer, c.context, c.order, c.current);
        match r.value.item
        case Object(h) => ObjectFin(c.(context := r.value.context, buffer := r.rest), h);
        case EndOfRange(_, _, _) => SameFin(s);
      } else {
        var r := SubgroupObjects.ParseObject(c.buffer, c.context.objectId, c.current, c.options.hasExtensions);
        ObjectFin(c.(context := c.context.(objectId := Some(r.value.id)), buffer := r.rest), r.value);
      }
    case Padding =>
      ObservedNil();
    case StreamHeaderType =>
      if s.codec.streamType.PaddingStream? {
        ObservedNil();
      } else {
        SameFin(s);
      }
    case _ =>
      SameFin(s);
  }

  /** A pass that leaves an object unfinished has used up the input, so the loop would end there. */
  lemma StepNotShort(c: Codec)
    requires Running(c) && Step(c, false).codec.error.None? && AtBoundary(Drain(Step(c, false).codec, false).codec)
    ensures !Step(c, false).codec.state.ObjectPayload?
  {
    hide Step;
    if Step(c, false).codec.state.ObjectPayload? {
      if c.state.Padding? {
        PaddingStays(c);
      }
      StepWithMore(c, []);
    }
  }

  lemma PaddingStays(c: Codec)
    requires c.state.Padding?
    ensures !Step(c, false).codec.state.ObjectPayload?
  {
  }

  lemma {:induction false} DrainFin(c: Codec)
    requires c.error.None? && WellFormed(c) && AtBoundary(Drain(c, false).codec)
    ensures Uninterrupted(c, true).codec.error.None?
    ensures Observed(Uninterrupted(c, true).events) == Observed(Drain(c, false).events) + EndMark(Drain(c, false).codec)
    decreases |c.buffer|, Rank(c)
  {
    hide Step, Observed;
    var u := Drain(c, true);
    ObservedConcat(u.events, Finish(u.codec, true).events);
    ObservedNil();
    SingleObserved(OnEndOfStream);
    if Running(c) {
      var s := Step(c, false);
      StepProgress(c, false);
      StepProgress(c, true);
      StepSignals(c, false);
      var d := Drain(s.codec, false);
      StepNotShort(c);
      StepFin(c);
      var f := Step(c, true);
      ObservedConcat(s.events, d.events);
      if s.codec.buffer == [] {
        assert f.events + [] == f.events && s.events + [] == s.events;
        assert Drain(f.codec, true) == Trace(f.codec, []) && Drain(s.codec, false) == Trace(s.codec, []);
        assert u == Trace(f.codec, f.events) && Drain(c, false) == Trace(s.codec, s.events);
      } else {
        DrainFin(s.codec);
        var v := Drain(s.codec, true);
        assert u == Trace(v.codec, s.events + v.events);
        ObservedConcat(v.events, Finish(v.codec, true).events);
        ObservedConcat(s.events, v.events);
        var end := Observed(Finish(v.codec, true).events);
        assert (Observed(s.events) + Observed(v.events)) + end == Observed(s.events) + (Observed(v.events) + end);
        assert (Observed(s.events) + Observed(d.events)) + EndMark(d.codec)
          == Observed(s.events) + (Observed(d.events) + EndMark(d.codec));
      }
    }
  }

  // ---------------------------------------------------------------- when a FIN is reported as an error

  lemma {:induction false} ObjectCutShort(c: Codec, h: ObjectHeader)
    requires c.error.None? && StepObject(c, h, false).codec.state.ObjectPayload?
    ensures StepObject(c, h, true).codec.error == Some(ProtocolViolation)
  {
  }

  /** A pass that leaves an object unfinished fails with the FIN flag on; one that fails, fails the same way. */
  lemma {:induction false} StepCutShort(c: Codec)
    requires Running(c)
    ensures Step(c, false).codec.error.Some? ==> Step(c, true) == Step(c, false)
    ensures Step(c, false).codec.error.None? && Step(c, false).codec.state.ObjectPayload? ==>
      Step(c, true).codec.error == Some(ProtocolViolation)
  {
    hide ReadVarint, ParseSubgroupHeader, FetchObjects.ParseItem, SubgroupObjects.ParseObject, StepObject;
    if c.state.MultiObjectHeader? {
      if c.streamType.FetchStream? {
        var r := FetchObjects.ParseItem(c.buffer, c.context, c.order, c.current);
        if r.Ok? && r.value.item.Object? {
          ObjectEnds(c.(context := r.value.context, buffer := r.rest), r.value.item.header);
        }
      } else {
        var r := SubgroupObjects.ParseObject(c.buffer, c.context.objectId, c.current, c.options.hasExtensions);
        if r.Ok? {
          ObjectEnds(c.(context := c.context.(objectId := Some(r.value.id)), buffer := r.rest), r.value);
        }
      }
    }
  }

  lemma {:induction false} ObjectEnds(c: Codec, h: ObjectHeader)
    requires c.error.None?
    ensures StepObject(c, h, false).codec.error.None?
    ensures StepObject(c, h, false).codec.state.ObjectPayload? ==> StepObject(c, h, true).codec.error == Some(ProtocolViolation)
  {
    if StepObject(c, h, false).codec.state.ObjectPayload? {
      ObjectCutShort(c, h);
    }
  }

  /** The error the loop ends with when the FIN flag is on. */
  function FinError(before: Codec, drained: Codec): Option<Error> {
    if drained.error.Some? then drained.error
    else if before.buffer != [] && drained.state.ObjectPayload? then Some(ProtocolViolation)
    else None
  }

  lemma {:induction false} DrainFinError(c: Codec)
    requires c.error.None? && WellFormed(c)
    ensures Drain(c, true).codec.error == FinError(c, Drain(c, false).codec)
    decreases |c.buffer|, Rank(c)
  {
    hide Step, FinAgrees, WellFormed;
    if Running(c) {
      var s, f := Step(c, false), Step(c, true);
      StepCutShort(c);
      if s.codec.error.None? {
        StepProgress(c, false);
        StepSignals(c, false);
        if s.codec.state.ObjectPayload? {
          if c.state.Padding? {
            PaddingStays(c);
          }
          StepWithMore(c, []);
        } else {
          StepFin(c);
          StepProgress(c, true);
          FinGoesOn(s, f);
          if s.codec.buffer != [] {
            DrainFinError(s.codec);
          }
        }
      }
    }
  }

  lemma {:induction false} FinGoesOn(s: Trace, f: Trace)
    requires FinAgrees(s, f)
    ensures f.codec.error.None? && (s.codec.buffer != [] ==> f == s) && (s.codec.buffer == [] ==> f.codec.buffer == [])
  {
    hide Observed;
  }

  /**
    A call with the FIN flag reports an error exactly if what it has to read is malformed or ends inside a header, or
    if it has something to read and ends inside a payload. In particular a FIN with nothing to read never reports one,
    and a stream cut right behind its type or its header passes for a clean end.
   */
  lemma {:induction false} FinReportsExactly(c: Codec, data: bytes)
    requires c.error.None? && WellFormed(c)
    ensures var f := Ingress(c, data, true);
      var e := FinError(More(c, data), Drain(More(c, data), false).codec);
      && f.codec.error == e
      && (e.Some? ==> f.events != [] && f.events[|f.events| - 1] == OnConnectionError(e.value))
  {
    hide Drain, Step;
    DrainFinError(More(c, data));
  }

  /**
    A subgroup object whose extension block is there but ends inside an entry: whatever comes, nothing is reported and
    everything is kept, until a FIN turns it into an underflow.
   */
  lemma {:induction false} StuckUntilFin(c: Codec, t: bytes)
    requires c.error.None? && c.state.MultiObjectHeader? && c.streamType.SubgroupStream? && c.options.hasExtensions
    requires ReadVarint(c.buffer).Some?
    requires var (delta, block) := ReadVarint(c.buffer).value;
      SubgroupObjects.ResolveId(c.context.objectId, delta).Some? && ParseBlock(block).Underflow? && BlockComplete(block)
    ensures Ingress(c, t, false) == Trace(More(c, t), [])
    ensures Ingress(c, t, true).codec.error == Some(ParseUnderflow)
    ensures Ingress(c, t, true).events == [OnConnectionError(ParseUnderflow)]
  {
    hide ReadVarint, ParseBlock, BlockComplete;
    var (delta, block) := ReadVarint(c.buffer).value;
    ReadStable(c.buffer, t);
    BlockStuck(block, t);
    var k := More(c, t);
    assert SubgroupObjects.ParseObject(k.buffer, k.context.objectId, k.current, true).Underflow?;
    assert k.buffer != [];
    assert Step(k, false) == Trace(k.(error := Some(ParseUnderflow)), []) == Step(k, true);
    assert Drain(k, false) == Step(k, false) && Drain(k, true) == Step(k, true);
    assert [] + [OnConnectionError(ParseUnderflow)] == [OnConnectionError(ParseUnderflow)];
  }

  /** The type of a FETCH stream and a FIN, and nothing else: a clean end, with the data in the same call. */
  lemma {:induction false} CutAfterType(order: GroupOrder)
    ensures var f := Ingress(Fresh(order), Varint.Encode(FETCH_TYPE), true);
      f.codec.error.None? && f.events == [OnEndOfStream]
  {
    hide Varint.Encode, ReadVarint;
    ReadWritten(FETCH_TYPE, []);
    var data := Varint.Encode(FETCH_TYPE);
    assert data + [] == data == [] + data;
    var c := More(Fresh(order), data);
    assert data != [];
    var s := Step(c, true);
    assert Drain(s.codec, true) == Trace(s.codec, []);
    assert Drain(c, true) == Trace(s.codec, [] + []);
    assert [] + [OnEndOfStream] == [OnEndOfStream];
  }

  /**
    If the bytes of a stream end at an object boundary, the FIN may come with any tail of them, or alone:
    the receiver observes the same callbacks and the same end, and no error.
   */
  lemma FinPlacementIsIrrelevant(c: Codec, a: bytes, b: bytes)
    requires c.error.None? && WellFormed(c)
    requires AtBoundary(Drain(More(c, a + b), false).codec)
    ensures var f := Ingress(c, a, false);
      && f.codec.error.None?
      && var g := Ingress(f.codec, b, true);
      && g.codec.error.None?
      && Observed(f.events + g.events)
           == Observed(Drain(More(c, a + b), false).events) + EndMark(Drain(More(c, a + b), false).codec)
  {
    hide Drain, Step, Observed;
    var d := Drain(More(c, a), false);
    var w := Drain(More(c, a + b), false);
    assert More(More(c, a), b) == More(c, a + b);
    DrainSplit(More(c, a), b);
    DrainOutcome(More(c, a), false);
    TwoErrors(d.codec.error);
    ObservedNil();
    FinishWaits(d.codec);
    assert d.events + [] == d.events;
    var f := Ingress(c, a, false);
    DrainSignals(More(c, a), false);
    var k := More(f.codec, b);
    assert k == More(d.codec.(error := None), b);
    DrainFin(k);
    ObservedConcat(f.events, Ingress(f.codec, b, true).events);
  }
}
