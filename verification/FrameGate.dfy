/** Which frames a stream accepts, and which request a reply belongs to (MoQBidiStreamCodec), for draft 18. */
module FrameGate {
  import opened Bytes

  type FrameType = u64

  const SUBSCRIBE: FrameType := 3
  const SUBSCRIBE_OK: FrameType := 4
  const REQUEST_ERROR: FrameType := 5
  const PUBLISH_NAMESPACE: FrameType := 6
  const REQUEST_OK: FrameType := 7
  const TRACK_STATUS: FrameType := 0xD
  const GOAWAY: FrameType := 0x10
  const LEGACY_SUBSCRIBE_NAMESPACE: FrameType := 0x11
  const SUBSCRIBE_NAMESPACE_OK: FrameType := 0x12
  const UNSUBSCRIBE_NAMESPACE: FrameType := 0x14
  const FETCH: FrameType := 0x16
  const FETCH_OK: FrameType := 0x18
  const PUBLISH: FrameType := 0x1D
  const PUBLISH_OK: FrameType := 0x1E
  const CLIENT_SETUP: FrameType := 0x20
  const SERVER_SETUP: FrameType := 0x21
  const SUBSCRIBE_NAMESPACE: FrameType := 0x50
  const SUBSCRIBE_TRACKS: FrameType := 0x51
  const SETUP: FrameType := 0x2F00

  predicate InitiatesRequest(f: FrameType) {
    f in {SUBSCRIBE, FETCH, PUBLISH, TRACK_STATUS, PUBLISH_NAMESPACE, LEGACY_SUBSCRIBE_NAMESPACE, SUBSCRIBE_NAMESPACE,
          SUBSCRIBE_TRACKS}
  }

  /** The frames that get their request id from the stream. */
  predicate IsReply(f: FrameType) { f in {SUBSCRIBE_OK, FETCH_OK, REQUEST_OK, REQUEST_ERROR} }

  /** The fields of MoQBidiStreamCodec; `queue` is the response id queue the sender of updates appends to. */
  datatype Gate =
    | ControlStream
    | BidiStream(allowed: seq<FrameType>, okType: Option<FrameType>, requestId: Option<u64>, queue: seq<u64>,
                 primaryTaken: bool, firstSeen: bool)

  /** The constructor: a response-side stream also admits its OK and REQUEST_ERROR. */
  function NewGate(allowed: seq<FrameType>, requestId: Option<u64>, okType: Option<FrameType>): Gate {
    BidiStream(if okType.Some? then allowed + [okType.value, REQUEST_ERROR] else allowed,
               okType, requestId, [], okType.None?, false)
  }

  predicate Allows(g: Gate, f: FrameType) {
    match g
    case ControlStream => f == GOAWAY || f == SETUP
    case BidiStream(allowed, okType, _, queue, _, firstSeen) =>
      && f in allowed
      && if !firstSeen then okType.Some? ==> f == okType.value || f == REQUEST_ERROR
         else
           && !InitiatesRequest(f)
           && !(okType.Some? && okType.value != REQUEST_OK && f == okType.value)
           && (f == REQUEST_OK || f == REQUEST_ERROR ==> queue != [])
  }

  /** checkFrameAllowed when it returns true. */
  function Pass(g: Gate): Gate { if g.ControlStream? then g else g.(firstSeen := true) }

  /** takeNextResponseRequestID. */
  function TakeNext(g: Gate): (Gate, Option<u64>) {
    if g.ControlStream? then (g, None)
    else if !g.primaryTaken && g.requestId.Some? then (g.(primaryTaken := true), g.requestId)
    else if g.queue == [] then (g.(primaryTaken := true), None)
    else (g.(primaryTaken := true, queue := g.queue[1..]), Some(g.queue[0]))
  }

  /** What a parsed frame does to the gate: replies take an id, requests set the stream's. */
  function Attach(g: Gate, f: FrameType, requestId: u64): (Gate, Option<u64>) {
    if IsReply(f) then TakeNext(g)
    else if InitiatesRequest(f) && g.BidiStream? then (g.(requestId := Some(requestId)), None)
    else (g, None)
  }

  class MoQBidiStreamCodec {
    const okType: Option<FrameType>
    var allowedFrames: seq<FrameType>
    var streamRequestId: Option<u64>
    var responseIdQueue: seq<u64>
    var primaryResponseIdConsumed: bool
    var firstFrameSeen: bool

    function Model(): Gate
      reads this
    {
      BidiStream(allowedFrames, okType, streamRequestId, responseIdQueue, primaryResponseIdConsumed, firstFrameSeen)
    }

    constructor (allowed: seq<FrameType>, requestId: Option<u64>, okType: Option<FrameType>)
      ensures Model() == NewGate(allowed, requestId, okType)
    {
      allowedFrames, streamRequestId, this.okType := allowed, requestId, okType;
      responseIdQueue, primaryResponseIdConsumed, firstFrameSeen := [], okType.None?, false;
      new;
      if okType.Some? {
        allowedFrames := allowedFrames + [okType.value];
        allowedFrames := allowedFrames + [REQUEST_ERROR];
        assert allowedFrames == allowed + [okType.value, REQUEST_ERROR];
      }
    }

    method CheckFrameAllowed(f: FrameType) returns (allowed: bool)
      modifies this
      ensures allowed <==> Allows(old(Model()), f)
      ensures Model() == if allowed then Pass(old(Model())) else old(Model())
    {
      if f !in allowedFrames {
        return false;
      }
      if !firstFrameSeen {
        if okType.Some? && f != okType.value && f != REQUEST_ERROR {
          return false;
        }
      } else {
        if InitiatesRequest(f) {
          return false;
        }
        if okType.Some? && okType.value != REQUEST_OK && f == okType.value {
          return false;
        }
        if (f == REQUEST_OK || f == REQUEST_ERROR) && responseIdQueue == [] {
          return false;
        }
      }
      firstFrameSeen := true;
      return true;
    }

    method TakeNextResponseRequestId() returns (id: Option<u64>)
      modifies this
      ensures (Model(), id) == TakeNext(old(Model()))
    {
      if !primaryResponseIdConsumed {
        primaryResponseIdConsumed := true;
        if streamRequestId.Some? {
          return streamRequestId;
        }
      }
      if responseIdQueue == [] {
        return None;
      }
      id := Some(responseIdQueue[0]);
      responseIdQueue := responseIdQueue[1..];
    }
  }

  // ---------------------------------------------------------------- response correlation

  /** On a response-side stream: an update is sent, a frame type arrives, the frame's body has arrived. */
  datatype Happening = SendUpdate(id: u64) | Header(frame: FrameType) | Body(requestId: u64, good: bool)

  /**
    The gate, the frame under way, whether the stream has failed; then what was sent, and for each accepted reply
    the id attached to it.
   */
  datatype Exchange = Exchange(gate: Gate, frame: Option<FrameType>, failed: bool, sent: seq<u64>, attached: seq<Option<u64>>)

  function Happen(x: Exchange, e: Happening): Exchange {
    match e
    case SendUpdate(id) =>
      if x.gate.ControlStream? then x else x.(gate := x.gate.(queue := x.gate.queue + [id]), sent := x.sent + [id])
    case Header(f) =>
      if x.failed || x.frame.Some? then x
      else if Allows(x.gate, f) then x.(gate := Pass(x.gate), frame := Some(f))
      else x.(failed := true)
    case Body(requestId, good) =>
      if x.failed || x.frame.None? then x
      else if !good then x.(failed := true)
      else
        var (g, id) := Attach(x.gate, x.frame.value, requestId);
        x.(gate := g, frame := None, attached := if IsReply(x.frame.value) then x.attached + [id] else x.attached)
  }

  function HappenAll(x: Exchange, es: seq<Happening>): Exchange
    decreases |es|
  {
    if es == [] then x else HappenAll(Happen(x, es[0]), es[1..])
  }

  /** The follow-up frames of a response-side stream contain no other kind of OK. */
  predicate FollowUpsOnly(allowed: seq<FrameType>, okType: FrameType) {
    forall f :: f in allowed && (f == SUBSCRIBE_OK || f == FETCH_OK) ==> f == okType
  }

  function Somes(ids: seq<u64>): seq<Option<u64>> { seq(|ids|, i requires 0 <= i < |ids| => Some(ids[i])) }

  /** The ids in the order in which replies must come. */
  function Expected(primary: u64, sent: seq<u64>): seq<u64> { [primary] + sent }

  /** How many of the updates sent have been answered when n replies have come. */
  function Answered(n: nat): nat { if n == 0 then 0 else n - 1 }

  /**
    The stream's primary id, then the updates: attached so far is a prefix, and the queue is what is left of the
    updates. A reply whose body is still to come has an id waiting.
   */
  predicate Correlated(x: Exchange, primary: u64, okType: FrameType) {
    var n := |x.attached|;
    && x.gate.BidiStream?
    && x.gate.okType == Some(okType)
    && x.gate.requestId == Some(primary)
    && FollowUpsOnly(x.gate.allowed, okType)
    && (x.gate.primaryTaken <==> n > 0)
    && n <= 1 + |x.sent|
    && x.gate.queue == x.sent[Answered(n)..]
    && x.attached == Somes(Expected(primary, x.sent)[..n])
    && (!x.gate.firstSeen ==> x.frame.None? && n == 0)
    && (x.gate.firstSeen && !x.failed ==> n > 0 || (x.frame.Some? && IsReply(x.frame.value)))
    && (x.frame.Some? && !x.failed ==> !InitiatesRequest(x.frame.value))
    && (x.frame.Some? && !x.failed && IsReply(x.frame.value) ==> n == 0 || x.gate.queue != [])
  }

  lemma SendKeeps(x: Exchange, id: u64, primary: u64, okType: FrameType)
    requires Correlated(x, primary, okType)
    ensures Correlated(Happen(x, SendUpdate(id)), primary, okType)
  {
    var n := |x.attached|;
    var sent := x.sent + [id];
    assert sent[Answered(n)..] == x.sent[Answered(n)..] + [id];
    assert Expected(primary, sent)[..n] == Expected(primary, x.sent)[..n];
  }

  lemma HeaderKeeps(x: Exchange, f: FrameType, primary: u64, okType: FrameType)
    requires Correlated(x, primary, okType) && IsReply(okType)
    ensures Correlated(Happen(x, Header(f)), primary, okType)
  {
  }

  lemma BodyKeeps(x: Exchange, requestId: u64, good: bool, primary: u64, okType: FrameType)
    requires Correlated(x, primary, okType)
    ensures Correlated(Happen(x, Body(requestId, good)), primary, okType)
  {
    if !x.failed && x.frame.Some? && good && IsReply(x.frame.value) {
      var n := |x.attached|;
      var expected := Expected(primary, x.sent);
      assert expected[..n + 1] == expected[..n] + [expected[n]];
      assert Somes(expected[..n + 1]) == Somes(expected[..n]) + [Some(expected[n])];
    }
  }

  lemma {:induction false} HappenAllKeeps(x: Exchange, es: seq<Happening>, primary: u64, okType: FrameType)
    requires Correlated(x, primary, okType) && IsReply(okType)
    ensures Correlated(HappenAll(x, es), primary, okType)
    decreases |es|
  {
    hide Correlated, Happen;
    if es != [] {
      match es[0] {
        case SendUpdate(id) => SendKeeps(x, id, primary, okType);
        case Header(f) => HeaderKeeps(x, f, primary, okType);
        case Body(requestId, good) => BodyKeeps(x, requestId, good, primary, okType);
      }
      HappenAllKeeps(Happen(x, es[0]), es[1..], primary, okType);
    }
  }

  function Start(allowed: seq<FrameType>, primary: u64, okType: FrameType): Exchange {
    Exchange(NewGate(allowed, Some(primary), Some(okType)), None, false, [], [])
  }

  lemma StartCorrelated(allowed: seq<FrameType>, primary: u64, okType: FrameType)
    requires FollowUpsOnly(allowed, okType)
    ensures Correlated(Start(allowed, primary, okType), primary, okType)
  {
  }

  /**
    Over every interleaving of sent updates and received frames: the ids attached to the accepted replies are the
    primary request id followed by the update ids in the order sent, as far as replies have come.
   */
  lemma {:induction false} RepliesInSendOrder(allowed: seq<FrameType>, primary: u64, okType: FrameType, es: seq<Happening>)
    requires IsReply(okType) && FollowUpsOnly(allowed, okType)
    ensures var x := HappenAll(Start(allowed, primary, okType), es);
      |x.attached| <= 1 + |x.sent| && x.attached == Somes(Expected(primary, x.sent)[..|x.attached|])
  {
    hide HappenAll;
    StartCorrelated(allowed, primary, okType);
    HappenAllKeeps(Start(allowed, primary, okType), es, primary, okType);
  }

  ghost predicate NoReplyWithoutId(allowed: seq<FrameType>, primary: u64, okType: FrameType) {
    forall es :: None !in HappenAll(Start(allowed, primary, okType), es).attached
  }

  lemma StrayOk(allowed: seq<FrameType>, primary: u64, okType: FrameType, f: FrameType)
    requires IsReply(okType) && f in allowed && (f == SUBSCRIBE_OK || f == FETCH_OK) && f != okType
    ensures var es := [Header(okType), Body(0, true), Header(f), Body(0, true)];
      HappenAll(Start(allowed, primary, okType), es).attached == [Some(primary), None]
  {
    var x0 := Start(allowed, primary, okType);
    var x1 := Happen(x0, Header(okType));
    var x2 := Happen(x1, Body(0, true));
    var x3 := Happen(x2, Header(f));
    var x4 := Happen(x3, Body(0, true));
    assert x4.attached == [Some(primary), None];
    FourHappen(x0, Header(okType), Body(0, true), Header(f), Body(0, true));
  }

  lemma {:induction false} FourHappen(x: Exchange, a: Happening, b: Happening, c: Happening, d: Happening)
    ensures HappenAll(x, [a, b, c, d]) == Happen(Happen(Happen(Happen(x, a), b), c), d)
  {
    hide Happen;
    assert [a, b, c, d][1..] == [b, c, d] && [b, c, d][1..] == [c, d] && [c, d][1..] == [d] && [d][1..] == [];
    var y := Happen(Happen(x, a), b);
    assert HappenAll(Happen(y, c), [d]) == HappenAll(Happen(Happen(y, c), d), []);
    assert HappenAll(y, [c, d]) == HappenAll(Happen(y, c), [d]);
  }

  /** No accepted reply ever lacks its request id, exactly when the follow-up frames name no other kind of OK. */
  lemma ReplyIdsNeverMissing(allowed: seq<FrameType>, primary: u64, okType: FrameType)
    requires IsReply(okType)
    ensures NoReplyWithoutId(allowed, primary, okType) <==> FollowUpsOnly(allowed, okType)
  {
    hide HappenAll;
    if FollowUpsOnly(allowed, okType) {
      forall es ensures None !in HappenAll(Start(allowed, primary, okType), es).attached {
        RepliesInSendOrder(allowed, primary, okType, es);
      }
    } else {
      var f :| f in allowed && (f == SUBSCRIBE_OK || f == FETCH_OK) && f != okType;
      StrayOk(allowed, primary, okType, f);
    }
  }
}
