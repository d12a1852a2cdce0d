/** MoQControlCodec as an object: the parse loop with its fall-through phases, working on its fields in place. */
module ControlCodec {
  import opened Bytes
  import opened Wire
  import opened FrameGate
  import opened ControlFrames

  class MoQControlCodec<!S> {
    const parse: BodyParser<S>
    var parseState: Phase
    var curFrameType: FrameType
    var curFrameLength: nat
    var seenSetup: bool
    var connError: Option<Error>
    var ingress: bytes
    var gate: Gate
    var parser: S
    var callbacks: seq<Event>

    function Model(): Codec<S>
      reads this
    {
      Codec(parseState, curFrameType, curFrameLength, seenSetup, connError, ingress, gate, parser)
    }

    constructor (gate: Gate, parser: S, parse: BodyParser<S>)
      ensures Model() == Fresh(gate, parser) && AtRest(Model(), parse) && callbacks == [] && this.parse == parse
    {
      this.parse, this.gate, this.parser := parse, gate, parser;
      parseState, curFrameType, curFrameLength := HeaderType, 0, 0;
      seenSetup, connError, ingress, callbacks := gate.BidiStream?, None, [], [];
      new;
      FreshRests(gate, parser, parse);
    }

    /** What a phase leaves behind, given the outcome it must have. */
    ghost predicate After(o: Outcome<S>, was: Codec<S>, told: seq<Event>, error: Option<Error>)
      reads this
    {
      match o
      case Starved => error == Some(ParseUnderflow) && Model() == was && callbacks == told
      case Broken(e) => error == Some(e) && connError.None? && callbacks == told
      case Moved(c, events) => error.None? && Model() == c && callbacks == told + events
    }

    method ParseFrameHeaderType() returns (error: Option<Error>)
      requires parseState.HeaderType? && connError.None?
      modifies this
      ensures After(Advance(old(Model()), parse), old(Model()), old(callbacks), error)
    {
      hide ReadVarint;
      var typ := ReadVarint(ingress);
      if typ.None? {
        return Some(ParseUnderflow);
      }
      curFrameType := typ.value.0;
      if !Allows(gate, curFrameType) {
        return Some(ProtocolViolation);
      }
      ingress := typ.value.1;
      gate := Pass(gate);
      callbacks := callbacks + [OnFrame(curFrameType)];
      parseState := Length;
      return None;
    }

    method ParseFrameLength() returns (error: Option<Error>)
      requires parseState.Length? && connError.None?
      modifies this
      ensures After(Advance(old(Model()), parse), old(Model()), old(callbacks), error)
    {
      if |ingress| < 2 {
        return Some(ParseUnderflow);
      }
      curFrameLength := FromBigEndian(ingress[..2]);
      ingress := ingress[2..];
      parseState := Payload;
      assert callbacks + [] == callbacks;
      return None;
    }

    method ParseFrame() returns (error: Option<Error>)
      requires parseState.Payload? && connError.None?
      modifies this
      ensures After(Advance(old(Model()), parse), old(Model()), old(callbacks), error)
    {
      hide Attach;
      if |ingress| < curFrameLength {
        return Some(ParseUnderflow);
      }
      if !seenSetup && curFrameType != SETUP {
        return Some(ProtocolViolation);
      }
      if seenSetup && curFrameType in
        {SETUP, CLIENT_SETUP, SERVER_SETUP, PUBLISH_OK, SUBSCRIBE_NAMESPACE_OK, UNSUBSCRIBE_NAMESPACE} {
        return Some(ProtocolViolation);
      }
      seenSetup := true;
      var body := ingress[..curFrameLength];
      var (next, result) := parse(parser, curFrameType, body);
      match result
      case ShortBody => error := Some(ProtocolViolation);
      case BadBody(e) => error := Some(if e.ParseUnderflow? then ProtocolViolation else e);
      case Parsed(requestId) =>
        parser := next;
        var (g, id) := Attach(gate, curFrameType, requestId);
        gate := g;
        callbacks := callbacks + [Dispatched(Frame(curFrameType, body), id)];
        parseState := HeaderType;
        ingress := ingress[curFrameLength..];
        error := None;
    }

    /** How far the loop is: the whole call comes to `goal`, having made the callbacks after `start`. */
    ghost predicate Progress(goal: (Codec<S>, seq<Event>), start: seq<Event>)
      reads this
    {
      match connError
      case None =>
        && goal == (Drain(Model(), parse).0, goal.1)
        && start + goal.1 == callbacks + Drain(Model(), parse).1
      case Some(e) =>
        && start + goal.1 == callbacks
        && if e.ParseUnderflow? then
             goal.0 == Model().(error := None) && Advance(goal.0, parse).Starved? && !AtBoundary(goal.0)
           else goal.0.error == Some(e)
    }

    /** One phase seen from the loop. */
    lemma {:induction false} PhaseDone(goal: (Codec<S>, seq<Event>), start: seq<Event>, told: seq<Event>, was: Codec<S>, error: Option<Error>)
      requires was.error.None? && (was.phase.HeaderType? ==> was.buffer != [])
      requires goal == (Drain(was, parse).0, goal.1) && start + goal.1 == told + Drain(was, parse).1
      requires NoUnderflowFrom(was)
      requires After(Advance(was, parse), was, told, error)
      ensures error.None? ==> connError.None? && Progress(goal, start)
      ensures error.Some? && error.value.ParseUnderflow? ==>
        start + goal.1 == callbacks && goal.0 == Model() && Advance(goal.0, parse).Starved? && !AtBoundary(goal.0)
      ensures error.Some? && !error.value.ParseUnderflow? ==> start + goal.1 == callbacks && goal.0.error == error
    {
      hide Advance;
      match Advance(was, parse)
      case Starved => assert told + [] == told;
      case Broken(e) => assert told + [] == told;
      case Moved(c, events) =>
        StaysClean(was);
        assert told + (events + Drain(c, parse).1) == (told + events) + Drain(c, parse).1;
    }

    lemma StaysClean(c: Codec<S>)
      requires c.error.None? && Advance(c, parse).Moved?
      ensures Advance(c, parse).codec.error.None?
    {
      ErrorKept(c, parse);
    }

    /** A payload parser's own underflow is turned into a violation. */
    predicate NoUnderflowFrom(c: Codec<S>) {
      Advance(c, parse).Broken? ==> !Advance(c, parse).error.ParseUnderflow?
    }

    lemma NeverUnderflows(c: Codec<S>)
      ensures NoUnderflowFrom(c)
    {
    }

    /** onIngress and onIngressEnd; the result is the error reported through onConnectionError. */
    method OnIngress(data: bytes, eom: bool) returns (reported: Option<Error>)
      requires connError.None? && AtRest(Model(), parse)
      modifies this
      ensures !eom ==>
        var (c, events) := Ingress(old(Model()), data, parse);
        && callbacks == old(callbacks) + events
        && reported == c.error
        && if c.error.None? then Model() == c && AtRest(c, parse) else connError == c.error
      ensures eom ==>
        var (_, events, error) := IngressFin(old(Model()), data, parse);
        callbacks == old(callbacks) + events && reported == error
    {
      hide Advance, Drain;
      ghost var start, rest := callbacks, Model();
      ingress := ingress + data;
      ghost var goal := Drain(Model(), parse);
      if ingress == [] {
        Resting(rest, parse);
        assert callbacks + [] == callbacks && Model() == rest;
        return None;
      }
      while connError.None? && ingress != []
        invariant Progress(goal, start)
        invariant connError.None? && ingress == [] ==> AtBoundary(Model())
        decreases if connError.None? then 1 else 0, |ingress|, if parseState.Payload? then 1 else 0
      {
        connError := OnePass(goal, start);
      }
      if connError.None? {
        BoundaryRests(Model());
        Resting(Model(), parse);
        assert callbacks + [] == callbacks;
        return None;
      }
      if connError.value.ParseUnderflow? && !eom {
        connError := None;
        return None;
      }
      reported := connError;
      ingress := [];
    }

    /** One round of the switch, falling through from phase to phase. */
    method OnePass(ghost goal: (Codec<S>, seq<Event>), ghost start: seq<Event>) returns (error: Option<Error>)
      requires connError.None? && ingress != [] && Progress(goal, start)
      modifies this
      ensures connError.None?
      ensures error.None? ==> Progress(goal, start) && parseState.HeaderType?
      ensures error.None? ==> |ingress| < old(|ingress|) || (|ingress| == old(|ingress|) && old(parseState).Payload?)
      ensures error.Some? ==>
        && start + goal.1 == callbacks
        && if error.value.ParseUnderflow? then goal.0 == Model() && Advance(goal.0, parse).Starved? && !AtBoundary(goal.0)
           else goal.0.error == error
    {
      hide Advance, Drain;
      error := None;
      if parseState.HeaderType? {
        ghost var was, told := Model(), callbacks;
        NeverUnderflows(was);
        error := ParseFrameHeaderType();
        PhaseDone(goal, start, told, was, error);
        Consumes(was);
      }
      if error.None? && parseState.Length? {
        ghost var was, told := Model(), callbacks;
        NeverUnderflows(was);
        error := ParseFrameLength();
        PhaseDone(goal, start, told, was, error);
        Consumes(was);
      }
      if error.None? && parseState.Payload? {
        ghost var was, told := Model(), callbacks;
        NeverUnderflows(was);
        error := ParseFrame();
        PhaseDone(goal, start, told, was, error);
        Consumes(was);
      }
    }

    lemma Consumes(c: Codec<S>)
      ensures var o := Advance(c, parse);
        o.Moved? ==>
          && o.codec.phase == (match c.phase case HeaderType => Length case Length => Payload case Payload => HeaderType)
          && (if c.phase.Payload? then |o.codec.buffer| <= |c.buffer| else |o.codec.buffer| < |c.buffer|)
    {
    }

    lemma BoundaryRests(c: Codec<S>)
      requires AtBoundary(c)
      ensures AtRest(c, parse)
    {
      NoBytesNoVarint();
    }
  }
}
