/**
  MoQObjectStreamCodec itself: fields updated in place by one loop over the buffered input. The answers that
  the callbacks will give are an argument of the call; the callbacks made are recorded in `calls`.
 */
module ObjectStreamCodec {
  import opened Bytes
  import opened Wire
  import opened Extensions
  import opened ObjectWire
  import opened StreamCodec
  import opened StreamEnd
  import Chunking
  import Varint
  import FrameParser
  import SubgroupObjects
  import FetchObjects

  datatype ParseResult = CONTINUE | BLOCKED | ERROR_TERMINATE

  /** One onIngress call under given answers, over the state machine. */
  function IngressWith(c: Codec, data: bytes, fin: bool, answers: seq<Answer>): Run {
    var d := DrainWith(Chunking.More(c, data), fin, answers);
    if !d.outcome.Done? then d
    else
      var f := Finish(d.codec, fin);
      Run(f.codec, d.events + f.events, Done, d.answers)
  }

  /** A run with earlier callbacks in front. */
  function After(made: seq<Event>, r: Run): Run { r.(events := made + r.events) }

  lemma NothingBefore(r: Run)
    ensures After([], r) == r
  {
    assert [] + r.events == r.events;
  }

  lemma AfterAfter(a: seq<Event>, b: seq<Event>, r: Run)
    ensures After(a, After(b, r)) == After(a + b, r)
  {
    assert a + (b + r.events) == (a + b) + r.events;
  }

  lemma {:induction false} NotRunning(c: Codec, fin: bool, answers: seq<Answer>)
    requires !Running(c)
    ensures DrainWith(c, fin, answers) == Run(c, [], Done, answers)
  {
  }

  /** How one pass decides the rest of the run. */
  lemma {:induction false} PassOutcome(c: Codec, fin: bool, answers: seq<Answer>)
    requires Running(c)
    ensures var s := Step(c, fin);
      DrainWith(c, fin, answers) ==
        if s.codec.error.Some? then After(s.events, DrainWith(s.codec, fin, answers))
        else if s.events == [] then After(s.events, DrainWith(s.codec, fin, answers))
        else if Next(answers).Terminate? then Run(s.codec, s.events, Stopped, Later(answers))
        else if Next(answers).Blocked? && Blockable(s.events[0]) then Run(s.codec, s.events, Paused, Later(answers))
        else After(s.events, DrainWith(s.codec, fin, Later(answers)))
  {
    hide Step;
    var s := Step(c, fin);
    if s.codec.error.Some? {
      NotRunning(s.codec, fin, answers);
      assert s.events + [] == s.events;
    } else if s.events == [] {
      NothingBefore(DrainWith(s.codec, fin, answers));
    }
  }

  class MoQObjectStreamCodec {
    var parseState: ParseState
    var streamType: StreamType
    var subgroupOptions: SubgroupOptions
    var curObjectHeader: ObjectHeader
    var ingress: bytes
    var connError: Option<Error>
    const parser: FrameParser.MoQFrameParser
    const requestOrder: GroupOrder
    var calls: seq<Event>

    /** The state machine's view, when the loop has read `consumed` bytes that are not trimmed yet. */
    function State(consumed: nat): Codec
      requires consumed <= |ingress|
      reads this, parser
    {
      Codec(parseState, streamType, subgroupOptions, curObjectHeader, parser.Ctx(), parser.fetchGroupOrder,
            requestOrder, ingress[consumed..], connError)
    }

    constructor (order: GroupOrder)
      ensures fresh(parser) && State(0) == Fresh(order) && calls == []
    {
      parseState, streamType, subgroupOptions := StreamHeaderType, SubgroupStream, NO_OPTIONS;
      curObjectHeader, ingress, connError, calls := DEFAULT_HEADER, [], None, [];
      requestOrder := order;
      parser := new FrameParser.MoQFrameParser();
    }

    method TrimStart(consumed: nat)
      requires consumed <= |ingress|
      modifies this`ingress
      ensures State(0) == old(State(consumed)) && ingress == old(ingress[consumed..])
    {
      ingress := ingress[consumed..];
    }

    method OnStreamType(consumed: nat) returns (pos: nat)
      requires consumed < |ingress| && connError.None? && parseState.StreamHeaderType?
      modifies this, parser
      ensures pos <= |ingress| && calls == old(calls)
      ensures Trace(State(pos), []) == Step(old(State(consumed)), false)
      ensures Trace(State(pos), []) == Step(old(State(consumed)), true)
    {
      hide ReadVarint, ValidSubgroupType, OptionsOf;
      pos := consumed;
      var typeRead := ReadVarint(ingress[consumed..]);
      if typeRead.None? {
        connError := Some(ParseUnderflow);
        return;
      }
      var (t, rest) := typeRead.value;
      RestIsSuffix(ingress[consumed..]);
      pos := |ingress| - |rest|;
      assert ingress[pos..] == rest;
      if t == FETCH_TYPE {
        streamType, parseState := FetchStream, FetchHeaderState;
      } else if t == PADDING_TYPE {
        streamType, parseState := PaddingStream, Padding;
      } else if ValidSubgroupType(t) {
        parseState, subgroupOptions, streamType := SubgroupHeaderState, OptionsOf(t), SubgroupStream;
      } else {
        connError := Some(ProtocolViolation);
      }
    }

    method OnPadding(consumed: nat, endOfStream: bool) returns (pos: nat)
      requires consumed < |ingress| && connError.None? && parseState.Padding?
      modifies this, parser
      ensures pos <= |ingress| && calls == old(calls)
      ensures Trace(State(pos), []) == Step(old(State(consumed)), endOfStream)
    {
      pos := consumed;
      var ok := FrameParser.ParsePaddingData(ingress[consumed..]);
      if !ok {
        connError := Some(ProtocolViolation);
        return;
      }
      pos := |ingress|;
      if endOfStream {
        parseState := FinDelivered;
      }
    }

    method OnFetchHeaderState(consumed: nat, endOfStream: bool) returns (pos: nat)
      requires consumed < |ingress| && connError.None? && parseState.FetchHeaderState?
      modifies this, parser
      ensures pos <= |ingress| && old(calls) <= calls
      ensures Trace(State(pos), calls[|old(calls)|..]) == Step(old(State(consumed)), endOfStream)
    {
      hide ReadVarint;
      pos := consumed;
      var idRead := ReadVarint(ingress[consumed..]);
      if idRead.None? {
        connError := Some(ParseUnderflow);
        return;
      }
      RestIsSuffix(ingress[consumed..]);
      pos := |ingress| - |idRead.value.1|;
      assert ingress[pos..] == idRead.value.1;
      parser.ResetFetchContext();
      calls := calls + [OnFetchHeader(idRead.value.0)];
      // The session learns the request's group order here and sets it from inside the callback.
      parser.fetchGroupOrder := requestOrder;
      parseState := MultiObjectHeader;
    }

    method OnSubgroupHeaderState(consumed: nat, endOfStream: bool) returns (pos: nat)
      requires consumed < |ingress| && connError.None? && parseState.SubgroupHeaderState?
      modifies this, parser
      ensures pos <= |ingress| && old(calls) <= calls
      ensures Trace(State(pos), calls[|old(calls)|..]) == Step(old(State(consumed)), endOfStream)
    {
      hide ReadVarint, ParseSubgroupHeader;
      pos := consumed;
      var res := ParseSubgroupHeader(ingress[consumed..], subgroupOptions);
      match res
      case Underflow => connError := Some(ParseUnderflow);
      case Violation => connError := Some(ProtocolViolation);
      case Ok(h, rest) =>
        HeaderRestIsSuffix(ingress[consumed..], subgroupOptions);
        pos := |ingress| - |rest|;
        assert ingress[pos..] == rest;
        curObjectHeader := h.header;
        parseState := MultiObjectHeader;
        calls := calls + [OnSubgroup(h.alias, h.header.group, h.header.subgroup, h.header.priority, subgroupOptions)];
    }

    /** The MULTI_OBJECT_HEADER case: an object header or, on a FETCH stream, an end-of-range marker. */
    method OnMultiObjectHeader(consumed: nat, endOfStream: bool) returns (pos: nat)
      requires consumed < |ingress| && connError.None? && parseState.MultiObjectHeader?
      modifies this, parser
      ensures pos <= |ingress| && old(calls) <= calls
      ensures Trace(State(pos), calls[|old(calls)|..]) == Step(old(State(consumed)), endOfStream)
    {
      hide ReadVarint, FetchObjects.ParseItem, SubgroupObjects.ParseObject, StepObject;
      pos := consumed;
      ghost var c := State(consumed);
      if streamType.FetchStream? {
        var res := parser.ParseFetchObjectHeader(ingress[consumed..], curObjectHeader);
        match res
        case Underflow => connError := Some(ParseUnderflow);
        case Violation => connError := Some(ProtocolViolation);
        case Ok(s, rest) =>
          FetchRestIsSuffix(ingress[consumed..], c.context, c.order, curObjectHeader);
          pos := |ingress| - |rest|;
          assert ingress[pos..] == rest;
          match s.item {
            case EndOfRange(g, o, u) => calls := calls + [OnEndOfRange(g, o, u)];
            case Object(h) => pos := OnObject(pos, h, endOfStream);
          }
      } else {
        var res := parser.ParseSubgroupObjectHeader(ingress[consumed..], curObjectHeader, subgroupOptions.hasExtensions);
        match res
        case Underflow => connError := Some(ParseUnderflow);
        case Violation => connError := Some(ProtocolViolation);
        case Ok(h, rest) =>
          SubgroupRestIsSuffix(ingress[consumed..], c.context.objectId, curObjectHeader, subgroupOptions.hasExtensions);
          pos := |ingress| - |rest|;
          assert ingress[pos..] == rest;
          pos := OnObject(pos, h, endOfStream);
      }
    }

    /** The rest of the case: a status, or the payload at hand, falling through to OBJECT_PAYLOAD when short. */
    method OnObject(consumed: nat, h: ObjectHeader, endOfStream: bool) returns (pos: nat)
      requires consumed <= |ingress| && connError.None? && parseState.MultiObjectHeader?
      modifies this, parser
      ensures pos <= |ingress| && old(calls) <= calls
      ensures Trace(State(pos), calls[|old(calls)|..]) == StepObject(old(State(consumed)), h, endOfStream)
    {
      curObjectHeader := h;
      if h.status != NORMAL {
        calls := calls + [OnObjectStatus(h)];
        if h.status == END_OF_TRACK || (streamType.SubgroupStream? && h.status == END_OF_GROUP) {
          parseState := FinDelivered;
        }
        return consumed;
      }
      TrimStart(consumed);
      pos := 0;
      var length := Length(h);
      var chunkLen := Min(length, |ingress|);
      var payload := ingress[..chunkLen];
      ingress := ingress[chunkLen..];
      var endOfObject := chunkLen == length;
      if endOfStream && !endOfObject {
        connError := Some(ProtocolViolation);
        return;
      }
      calls := calls + [OnObjectBegin(h, payload, endOfObject, endOfStream && ingress == [])];
      curObjectHeader := h.(extensions := NO_EXTENSIONS, length := Some(length - chunkLen));
      if endOfObject {
        parseState := if endOfStream && ingress == [] then FinDelivered else MultiObjectHeader;
      } else {
        parseState := ObjectPayload;
        // The buffer is empty here, so the fall-through pass does nothing.
        pos := OnPayloadState(0, endOfStream);
      }
    }

    method OnPayloadState(consumed: nat, endOfStream: bool) returns (pos: nat)
      requires consumed <= |ingress| && connError.None? && parseState.ObjectPayload?
      modifies this, parser
      ensures pos <= |ingress| && old(calls) <= calls
      ensures Trace(State(pos), calls[|old(calls)|..]) == StepPayload(old(State(consumed)), endOfStream)
    {
      ghost var buffer := ingress[consumed..];
      TrimStart(consumed);
      assert ingress == buffer;
      pos := 0;
      var length := Length(curObjectHeader);
      var chunkLen := Min(length, |ingress|);
      var payload := ingress[..chunkLen];
      ingress := ingress[chunkLen..];
      assert ingress[0..] == buffer[chunkLen..];
      curObjectHeader := curObjectHeader.(length := Some(length - chunkLen));
      var endOfObject := chunkLen == length;
      if endOfStream && !endOfObject {
        connError := Some(ProtocolViolation);
        return;
      }
      if chunkLen > 0 || endOfObject {
        calls := calls + [OnObjectPayload(payload, endOfObject)];
      }
      if endOfObject {
        parseState := MultiObjectHeader;
      }
    }

    /** One pass of the switch. */
    method Pass(consumed: nat, endOfStream: bool) returns (pos: nat)
      requires consumed < |ingress| && connError.None?
      modifies this, parser
      ensures pos <= |ingress| && old(calls) <= calls
      ensures Trace(State(pos), calls[|old(calls)|..]) == Step(old(State(consumed)), endOfStream)
    {
      hide StepStreamType, StepFetchItem, StepSubgroupObject, StepPayload, ReadVarint, ParseSubgroupHeader;
      match parseState
      case StreamHeaderType => pos := OnStreamType(consumed);
      case Padding => pos := OnPadding(consumed, endOfStream);
      case FetchHeaderState => pos := OnFetchHeaderState(consumed, endOfStream);
      case SubgroupHeaderState => pos := OnSubgroupHeaderState(consumed, endOfStream);
      case MultiObjectHeader => pos := OnMultiObjectHeader(consumed, endOfStream);
      case ObjectPayload => pos := OnPayloadState(consumed, endOfStream);
      case FinDelivered =>
        connError := Some(ProtocolViolation);
        pos := consumed;
    }

    /**
      onIngress refines the state machine: the same callbacks, the same result, the same answers used, and the
      same state afterwards. A TERMINATE ends the stream, so nothing is said of the state it leaves.
     */
    method OnIngress(data: bytes, endOfStream: bool, answers: seq<Answer>) returns (result: ParseResult, left: seq<Answer>)
      modifies this, parser
      ensures var r := IngressWith(old(State(0)), data, endOfStream, answers);
        && calls == old(calls) + r.events && left == r.answers
        && (!r.outcome.Stopped? ==> State(0) == r.codec)
        && result == (if r.outcome.Paused? then BLOCKED
                      else if r.outcome.Stopped? || r.codec.error.Some? then ERROR_TERMINATE else CONTINUE)
    {
      hide DrainWith, Finish;
      ghost var start := State(0);
      ingress := ingress + data;
      assert State(0) == Chunking.More(start, data);
      var outcome;
      outcome, left := ParseLoop(endOfStream, answers);
      match outcome
      case Stopped => result := ERROR_TERMINATE;
      case Paused => result := BLOCKED;
      case Done =>
        OnIngressEnd(endOfStream);
        result := if connError.Some? then ERROR_TERMINATE else CONTINUE;
    }

    /** The while loop of onIngress; the bytes it reads are trimmed when it is left. */
    method ParseLoop(endOfStream: bool, answers: seq<Answer>) returns (outcome: Outcome, left: seq<Answer>)
      modifies this, parser
      ensures var r := DrainWith(old(State(0)), endOfStream, answers);
        && calls == old(calls) + r.events && left == r.answers && outcome == r.outcome
        && (!outcome.Stopped? ==> State(0) == r.codec)
    {
      hide Step, DrainWith;
      var totalBytesConsumed: nat := 0;
      left := answers;
      ghost var goal := DrainWith(State(0), endOfStream, answers);
      ghost var made: seq<Event> := [];
      NothingBefore(goal);
      while connError.None? && |ingress| > totalBytesConsumed
        invariant totalBytesConsumed <= |ingress| && calls == old(calls) + made
        invariant goal == After(made, DrainWith(State(totalBytesConsumed), endOfStream, left))
        decreases connError.None?, |State(totalBytesConsumed).buffer|, Rank(State(totalBytesConsumed))
      {
        ghost var c := State(totalBytesConsumed);
        ghost var s := Step(c, endOfStream);
        StepProgress(c, endOfStream);
        PassOutcome(c, endOfStream, left);
        var before := |calls|;
        totalBytesConsumed := Pass(totalBytesConsumed, endOfStream);
        AfterAfter(made, s.events, DrainWith(s.codec, endOfStream, left));
        AfterAfter(made, s.events, DrainWith(s.codec, endOfStream, Later(left)));
        assert calls == (old(calls) + made) + s.events;
        made := made + s.events;
        if connError.None? && |calls| > before {
          assert calls[before] == s.events[0];
          var answer := Next(left);
          left := Later(left);
          if answer.Terminate? {
            return Stopped, left;
          }
          if answer.Blocked? && Blockable(calls[before]) {
            TrimStart(totalBytesConsumed);
            return Paused, left;
          }
        }
      }
      NotRunning(State(totalBytesConsumed), endOfStream, left);
      TrimStart(totalBytesConsumed);
      return Done, left;
    }

    method OnIngressEnd(endOfStream: bool)
      modifies this
      ensures old(calls) <= calls
      ensures Trace(State(0), calls[|old(calls)|..]) == Finish(old(State(0)), endOfStream)
    {
      if endOfStream && parseState.Padding? && connError.None? {
        parseState := FinDelivered;
      }
      if endOfStream && !parseState.FinDelivered? && connError.None? {
        calls := calls + [OnEndOfStream];
      }
      if connError.Some? {
        if connError.value.ParseUnderflow? && !endOfStream {
          connError := None;
          return;
        }
        calls := calls + [OnConnectionError(connError.value)];
      }
      ingress := [];
    }
  }

  // ---------------------------------------------------------------- consumed bytes

  /** What a parser leaves unread is a suffix of what it was given, so a byte count describes it. */
  predicate SuffixOf(rest: bytes, s: bytes) {
    |rest| <= |s| && rest == s[|s| - |rest|..]
  }

  lemma Suffixes()
    ensures forall s: bytes :: SuffixOf(s, s)
    ensures forall s: bytes :: s != [] ==> SuffixOf(s[1..], s)
    ensures forall a: bytes, b: bytes, c: bytes {:trigger SuffixOf(a, b), SuffixOf(b, c)} ::
      SuffixOf(a, b) && SuffixOf(b, c) ==> SuffixOf(a, c)
  {
    forall a: bytes, b: bytes, c: bytes | SuffixOf(a, b) && SuffixOf(b, c)
      ensures SuffixOf(a, c)
    {
      assert c[|c| - |b|..][|b| - |a|..] == c[|c| - |a|..];
    }
  }

  lemma RestIsSuffix(s: bytes)
    ensures ReadVarint(s).Some? ==> SuffixOf(ReadVarint(s).value.1, s)
  {
    hide Varint.Decode;
  }

  lemma RestsAreSuffixes()
    ensures forall s: bytes :: ReadVarint(s).Some? ==> SuffixOf(ReadVarint(s).value.1, s)
    ensures forall s: bytes :: ParseBlock(s).Ok? ==> SuffixOf(ParseBlock(s).rest, s)
  {
    forall s: bytes
      ensures ReadVarint(s).Some? ==> SuffixOf(ReadVarint(s).value.1, s)
    {
      RestIsSuffix(s);
    }
    forall s: bytes | ParseBlock(s).Ok?
      ensures SuffixOf(ParseBlock(s).rest, s)
    {
      BlockRestIsSuffix(s);
    }
  }

  lemma BlockRestIsSuffix(s: bytes)
    requires ParseBlock(s).Ok?
    ensures SuffixOf(ParseBlock(s).rest, s)
  {
    hide ReadVarint, ParsePairs;
    RestIsSuffix(s);
    var (n, s1) := ReadVarint(s).value;
    Suffixes();
    assert SuffixOf(s1[n..], s1);
  }

  lemma HeaderRestIsSuffix(s: bytes, o: SubgroupOptions)
    requires ParseSubgroupHeader(s, o).Ok?
    ensures SuffixOf(ParseSubgroupHeader(s, o).rest, s)
  {
    hide ReadVarint, ParseBlock, SuffixOf;
    Suffixes();
    RestsAreSuffixes();
  }

  lemma TailRestIsSuffix(s: bytes, h: ObjectHeader, hasExtensions: bool, hasStatus: bool)
    requires ParseTail(s, h, hasExtensions, hasStatus).Ok?
    ensures SuffixOf(ParseTail(s, h, hasExtensions, hasStatus).rest, s)
  {
    hide ReadVarint, ParseBlock, SuffixOf;
    Suffixes();
    RestsAreSuffixes();
  }

  lemma SubgroupRestIsSuffix(s: bytes, previous: Option<u64>, template: ObjectHeader, hasExtensions: bool)
    requires SubgroupObjects.ParseObject(s, previous, template, hasExtensions).Ok?
    ensures SuffixOf(SubgroupObjects.ParseObject(s, previous, template, hasExtensions).rest, s)
  {
    hide ReadVarint, ParseTail, SuffixOf;
    Suffixes();
    RestsAreSuffixes();
    var (delta, s1) := ReadVarint(s).value;
    TailRestIsSuffix(s1, template.(id := SubgroupObjects.ResolveId(previous, delta).value), hasExtensions, true);
  }

  lemma IdRestIsSuffix(s: bytes, f: FetchObjects.Flags, c: Context, h: ObjectHeader)
    requires FetchObjects.ParseId(s, f, c, h).Ok?
    ensures SuffixOf(FetchObjects.ParseId(s, f, c, h).rest, s)
  {
    hide ReadVarint, ParseTail, SuffixOf;
    Suffixes();
    RestsAreSuffixes();
    var (field, s1) := FetchObjects.ReadIf(f.hasId, s).value;
    var h1 := h.(id := FetchObjects.ResolveObject(field, f.hasGroup, c.objectId).value);
    if f.hasPriority {
      TailRestIsSuffix(s1[1..], h1.(priority := Some(s1[0])), f.hasExtensions, false);
    } else {
      TailRestIsSuffix(s1, h1.(priority := c.priority), f.hasExtensions, false);
    }
  }

  lemma GroupRestIsSuffix(s: bytes, f: FetchObjects.Flags, c: Context, order: GroupOrder, h: ObjectHeader)
    requires FetchObjects.ParseGroup(s, f, c, order, h).Ok?
    ensures SuffixOf(FetchObjects.ParseGroup(s, f, c, order, h).rest, s)
  {
    hide ReadVarint, FetchObjects.ParseId, SuffixOf;
    Suffixes();
    RestsAreSuffixes();
    var (field, s1) := FetchObjects.ReadIf(f.hasGroup, s).value;
    var h1 := h.(group := FetchObjects.ResolveGroup(field, c.group, order).value);
    if f.datagram || f.mode == 0 {
      IdRestIsSuffix(s1, f, c, h1.(subgroup := 0));
    } else if f.mode == 3 {
      var (subgroup, s2) := ReadVarint(s1).value;
      IdRestIsSuffix(s2, f, c, h1.(subgroup := subgroup));
    } else if f.mode == 1 {
      IdRestIsSuffix(s1, f, c, h1.(subgroup := c.subgroup.value));
    } else {
      IdRestIsSuffix(s1, f, c, h1.(subgroup := (c.subgroup.value + 1) % U64_LIMIT));
    }
  }

  lemma FetchRestIsSuffix(s: bytes, c: Context, order: GroupOrder, template: ObjectHeader)
    requires FetchObjects.ParseItem(s, c, order, template).Ok?
    ensures SuffixOf(FetchObjects.ParseItem(s, c, order, template).rest, s)
  {
    hide ReadVarint, FetchObjects.ParseGroup, SuffixOf;
    Suffixes();
    RestsAreSuffixes();
    var (flags, s1) := ReadVarint(s).value;
    if flags != FetchObjects.END_OF_NON_EXISTENT_RANGE && flags != FetchObjects.END_OF_UNKNOWN_RANGE {
      GroupRestIsSuffix(s1, FetchObjects.FlagsOf(flags), c, order, template);
    }
  }
}
