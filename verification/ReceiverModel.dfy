/**
  StreamingObjectReceiver and its subgroup receivers. Every callback into the application may call back into the
  receiver before it returns; what the callbacks do is the list of replies still to come.
 */
module ReceiverModel {
  import opened Bytes
  import opened ObjectWire
  import opened Locations

  // ---------------------------------------------------------------- data

  datatype ResetCode = CANCELLED | TOO_FAR_BEHIND | MALFORMED_TRACK | INTERNAL_ERROR | OtherCode(code: nat)

  datatype PublishError = Cancelled | TooFarBehind | MalformedTrack | OtherError

  function ResetErrorFor(e: PublishError): ResetCode {
    match e
    case Cancelled => CANCELLED
    case TooFarBehind => TOO_FAR_BEHIND
    case MalformedTrack => MALFORMED_TRACK
    case OtherError => INTERNAL_ERROR
  }

  /** What one object's payload consumer has been told. */
  datatype ObjectEvent = Payload(bytes: nat, endOfObject: bool) | Failed(code: ResetCode)

  function Got(log: seq<ObjectEvent>): nat {
    if log == [] then 0
    else Got(log[..|log| - 1]) + (if log[|log| - 1].Payload? then log[|log| - 1].bytes else 0)
  }

  /** endOfObject has been set. */
  predicate Ended(log: seq<ObjectEvent>) {
    log != [] && ((log[|log| - 1].Payload? && log[|log| - 1].endOfObject) || Ended(log[..|log| - 1]))
  }

  predicate Errored(log: seq<ObjectEvent>) { log != [] && log[|log| - 1].Failed? }

  predicate Settled(log: seq<ObjectEvent>) { Ended(log) || Errored(log) }

  /** An object announced by onObjectBegin; `admitted` once the application has returned a consumer. */
  datatype Object = Object(subgroup: nat, id: u64, declared: nat, admitted: bool, log: seq<ObjectEvent>)

  /** The callback that ended a subgroup. */
  datatype Terminal = EndOfStream | SubgroupError(code: ResetCode) | EndStatus(id: u64, endOfTrack: bool)

  /**
    The fields of StreamingObjectSubgroupReceiver (`attached`: parent_ is set; `current`: index of the object whose
    consumer is currentObject_), the terminal callbacks made, and whether a frame that ends it is on the stack.
    `owes` while that frame holds the parent it still has to notify.
   */
  datatype Subgroup = Subgroup(
    finished: bool, current: Option<nat>, remaining: nat, last: Option<u64>, code: Option<ResetCode>, group: u64,
    attached: bool, owes: bool, terminals: seq<Terminal>, ending: bool)

  function NewSubgroup(group: u64, attached: bool): Subgroup {
    Subgroup(false, None, 0, None, None, group, attached, false, [], false)
  }

  datatype Kind = Subscribe | Fetch(order: GroupOrder)

  /** How a callback answers, and the calls it makes before that. */
  datatype Answer = Accept | NoConsumer | Refuse(error: PublishError)
  datatype Reply = Reply(calls: seq<Call>, answer: Answer)

  datatype Call =
    // on one subgroup of a subscription
    | PutObject(s: nat, id: u64, bytes: nat, fin: bool)
    | BeginObject(s: nat, id: u64, length: nat, initial: nat)
    | ObjectPayload(s: nat, bytes: nat, fin: bool)
    | PutStatus(s: nat, id: u64, endOfTrack: bool)
    | EndSubgroup(s: nat)
    | Reset(s: nat, code: ResetCode)
    | Drop(s: nat)  // the subgroup receiver's destructor
    // on a subscription
    | BeginSubgroup(group: u64)
    | PublishDone
    // on a fetch
    | FetchObject(location: Location, bytes: nat, fin: bool)
    | FetchBegin(location: Location, length: nat, initial: nat)
    | FetchPayload(bytes: nat, fin: bool)
    | FetchStatus(location: Location, endOfTrack: bool, fin: bool)
    | FetchUnknown(location: Location, fin: bool)
    | EndFetch
    | ResetFetch(code: ResetCode)

  /**
    The receiver's fields and its subgroup receivers; then the objects announced, the FETCH locations delivered and
    how often onAllDataReceived was called; then the history the exact conditions are about:

    - `slipped`: an object in flight lost its place to another (Displaces below), or an empty payload was handed in
      when nothing was left (Repeats below): the object was complete, or a whole object had come in between;
    - `exposed`: a callback of a delivery is on the stack, whose frame fails the fetch if it finds it over;
    - `early`: onAllDataReceived was called while exposed.

    `closing` while publishDone runs; `replies` is what the callbacks to come do.
   */
  datatype Receiver = Receiver(
    kind: Kind, subs: seq<Subgroup>, open: nat, done: bool, sent: bool,
    lastFetch: Option<Location>, terminal: bool, failed: bool,
    objects: seq<Object>, delivered: seq<Location>, allData: nat,
    slipped: bool, exposed: bool, early: bool, closing: bool, replies: seq<Reply>)

  function NewReceiver(kind: Kind, replies: seq<Reply>): Receiver {
    Receiver(kind, if kind.Fetch? then [NewSubgroup(0, false)] else [], 0, false, false, None, false, false,
             [], [], 0, false, false, false, false, replies)
  }

  function WithSub(w: Receiver, s: nat, sub: Subgroup): (r: Receiver)
    requires s < |w.subs|
    ensures |r.subs| == |w.subs|
  {
    w.(subs := w.subs[s := sub])
  }

  function Log(w: Receiver, k: nat, e: ObjectEvent): (r: Receiver)
    requires k < |w.objects|
    ensures |r.objects| == |w.objects|
  {
    w.(objects := w.objects[k := w.objects[k].(log := w.objects[k].log + [e])])
  }

  /** Replies are used up; subgroups and objects are only added. */
  predicate Grows(w: Receiver, r: Receiver) {
    |r.replies| <= |w.replies| && |w.subs| <= |r.subs| && |w.objects| <= |r.objects|
  }

  // ---------------------------------------------------------------- callbacks

  /** A callback makes its calls, which may be any, and answers. */
  function Callback(w: Receiver): (r: (Receiver, Answer))
    ensures Grows(w, r.0)
    decreases |w.replies|, 0, 0
  {
    hide Run;
    if w.replies == [] then (w, Accept)
    else (Run(w.(replies := w.replies[1..]), w.replies[0].calls), w.replies[0].answer)
  }

  /** A callback from inside a delivery. */
  function Expose(w: Receiver): (r: (Receiver, Answer))
    ensures Grows(w, r.0)
    decreases |w.replies|, 0, 1
  {
    hide Callback;
    var (w', answer) := Callback(w.(exposed := true));
    (w'.(exposed := w.exposed), answer)
  }

  function Run(w: Receiver, calls: seq<Call>): (r: Receiver)
    ensures Grows(w, r)
    decreases |w.replies|, 6, |calls|
  {
    hide Run, Apply;
    if calls == [] then w else Run(Apply(w, calls[0]), calls[1..])
  }

  // ---------------------------------------------------------------- subgroup receiver

  /** Stores x as subgroup s and tells the consumer of object k, current until then, of the error. */
  function Failing(w: Receiver, s: nat, x: Subgroup, k: nat, code: ResetCode): (r: Receiver)
    requires s < |w.subs| && k < |w.objects|
    ensures |r.subs| == |w.subs| && |r.objects| == |w.objects| && r.replies == w.replies && r.subs[s] == x
  {
    Log(WithSub(w, s, x), k, Failed(code))
  }

  /** failCurrentObject, together with the fields its caller sets before it. */
  function FailCurrent(w: Receiver, s: nat, x: Subgroup, code: ResetCode): (r: Receiver)
    requires s < |w.subs|
    ensures Grows(w, r)
    decreases |w.replies|, 1, 0
  {
    hide Expose;
    var k := w.subs[s].current;
    if k.None? || k.value >= |w.objects| then WithSub(w, s, x) else Expose(Failing(w, s, x, k.value, code)).0
  }

  /** The state in which onAllDataReceived is called. */
  function Firing(w: Receiver): Receiver {
    w.(sent := true, allData := w.allData + 1, early := w.early || w.exposed)
  }

  function Fire(w: Receiver): (r: Receiver)
    ensures Grows(w, r)
    decreases |w.replies|, 1, 0
  {
    hide Callback;
    if w.sent then w else Callback(Firing(w)).0
  }

  function SubgroupFinished(w: Receiver): (r: Receiver)
    ensures Grows(w, r)
    decreases |w.replies|, 2, 0
  {
    hide Fire;
    var w' := w.(open := if w.open > 0 then w.open - 1 else 0);
    if w'.done && w'.open == 0 then Fire(w') else w'
  }

  /** notifyParentFinished() and the end of the frame that ended the subgroup. */
  function Notify(w: Receiver, s: nat): (r: Receiver)
    requires s < |w.subs|
    ensures Grows(w, r)
    decreases |w.replies|, 3, 0
  {
    hide SubgroupFinished;
    var sub := w.subs[s];
    var w' := WithSub(w, s, sub.(finished := true, attached := false, owes := false, ending := false));
    if sub.attached || sub.owes then SubgroupFinished(w') else w'
  }

  function Terminated(sub: Subgroup, code: ResetCode): Subgroup {
    sub.(finished := true, code := Some(code), ending := true, current := None, remaining := 0)
  }

  /** The state in which a subgroup's terminal callback is made. */
  function AtTerminal(w: Receiver, s: nat, t: Terminal): (r: Receiver)
    requires s < |w.subs|
    ensures |r.subs| == |w.subs| && r.objects == w.objects && r.replies == w.replies
    ensures r.subs[s] == w.subs[s].(terminals := w.subs[s].terminals + [t])
  {
    WithSub(w, s, w.subs[s].(terminals := w.subs[s].terminals + [t]))
  }

  function Terminate(w: Receiver, s: nat, code: ResetCode): (r: Receiver)
    requires s < |w.subs|
    ensures Grows(w, r)
    decreases |w.replies|, 4, 0
  {
    hide Expose, FailCurrent, Notify;
    if w.subs[s].finished then w
    else
      var w1 := FailCurrent(w, s, Terminated(w.subs[s], code), code);
      Notify(Expose(AtTerminal(w1, s, SubgroupError(code))).0, s)
  }

  /** The subgroup's record once finishAtEndOfStream or a finishing deliverStatus has taken the parent. */
  function EndedBy(kind: Kind, sub: Subgroup, t: Terminal): Subgroup {
    sub.(finished := true, owes := sub.attached, attached := false, ending := true,
         terminals := if kind.Fetch? then sub.terminals else sub.terminals + [t])
  }

  /** The common part of the two; a FETCH has no subgroup terminal. */
  function EndWith(w: Receiver, s: nat, t: Terminal, callback: bool): (r: Receiver)
    requires s < |w.subs|
    ensures Grows(w, r)
    decreases |w.replies|, 4, 0
  {
    hide Callback, Notify;
    var w1 := WithSub(w, s, EndedBy(w.kind, w.subs[s], t));
    Notify(if callback then Callback(w1).0 else w1, s)
  }

  function FinishAtEnd(w: Receiver, s: nat): (r: Receiver)
    requires s < |w.subs|
    ensures Grows(w, r)
    decreases |w.replies|, 4, 1
  {
    hide EndWith;
    EndWith(w, s, EndOfStream, w.kind.Subscribe?)
  }

  function Prepare(w: Receiver, s: nat, id: u64): (r: (Receiver, bool))
    requires s < |w.subs|
    ensures Grows(w, r.0)
    ensures r.1 ==> !w.subs[s].finished && w.subs[s].current.None? && r.0 == WithSub(w, s, w.subs[s].(last := Some(id)))
    decreases |w.replies|, 4, 1
  {
    hide Terminate;
    var sub := w.subs[s];
    if sub.finished then (w, false)
    else if sub.current.Some? then (Terminate(w, s, MALFORMED_TRACK), false)
    else if w.kind.Subscribe? && sub.last.Some? && id <= sub.last.value then (Terminate(w, s, MALFORMED_TRACK), false)
    else (WithSub(w, s, sub.(last := Some(id))), true)
  }

  /** The state in which onObjectBegin is called. */
  function Announce(w: Receiver, s: nat, id: u64, length: nat): (r: Receiver)
    requires s < |w.subs|
    ensures Grows(w, r) && |r.objects| == |w.objects| + 1
  {
    WithSub(w, s, w.subs[s].(remaining := length)).(
      objects := w.objects + [Object(s, id, length, false, [])],
      delivered := if w.kind.Fetch? then w.delivered + [Location(w.subs[s].group, id)] else w.delivered)
  }

  /** The consumer about to become current would displace one whose object is unfinished. */
  predicate Displaces(w: Receiver, s: nat)
    requires s < |w.subs|
  {
    && w.subs[s].current.Some?
    && w.subs[s].current.value < |w.objects|
    && !Settled(w.objects[w.subs[s].current.value].log)
  }

  /** Object k's consumer becomes current. */
  function TakeOver(w: Receiver, s: nat, k: nat): (r: Receiver)
    requires s < |w.subs| && k < |w.objects|
    ensures Grows(w, r) && |r.subs| == |w.subs| && r.subs[s].current == Some(k)
  {
    WithSub(w, s, w.subs[s].(current := Some(k))).(
      objects := w.objects[k := w.objects[k].(admitted := true)],
      slipped := w.slipped || Displaces(w, s))
  }

  /** A consumer that comes back when its subgroup is over is told so. */
  function Late(w: Receiver, s: nat, k: nat): (r: Receiver)
    requires s < |w.subs| && k < |w.objects|
    ensures Grows(w, r)
  {
    var code := if w.subs[s].code.Some? then w.subs[s].code.value else MALFORMED_TRACK;
    w.(objects := w.objects[k := w.objects[k].(admitted := true, log := [Failed(code)])])
  }

  /** The error for an onObjectBegin that fails or returns no consumer. */
  function RefusalCode(answer: Answer): ResetCode {
    if answer.Refuse? then ResetErrorFor(answer.error) else MALFORMED_TRACK
  }

  /** Without a consumer the subgroup is terminated, unless it is over already. */
  function Refused(w: Receiver, s: nat, answer: Answer): (r: Receiver)
    requires s < |w.subs|
    ensures Grows(w, r)
    decreases |w.replies|, 4, 1
  {
    hide Terminate, RefusalCode;
    if w.subs[s].finished then w else Terminate(w, s, RefusalCode(answer))
  }

  /** admitObject once onObjectBegin has returned. */
  function Admitted(w: Receiver, s: nat, k: nat, answer: Answer): (r: (Receiver, bool))
    requires s < |w.subs| && k < |w.objects|
    ensures Grows(w, r.0)
    ensures r.1 ==> r.0.subs[s].current == Some(k)
    decreases |w.replies|, 4, 2
  {
    hide Expose, Refused, Late, TakeOver;
    if !answer.Accept? then (Refused(w, s, answer), false)
    else if w.subs[s].finished then (Expose(Late(w, s, k)).0, false)
    else (TakeOver(w, s, k), true)
  }

  function Admit(w: Receiver, s: nat, id: u64, length: nat): (r: (Receiver, bool))
    requires s < |w.subs|
    ensures Grows(w, r.0)
    ensures r.1 ==> r.0.subs[s].current == Some(|w.objects|) && |w.objects| < |r.0.objects|
    decreases |w.replies|, 4, 3
  {
    hide Expose, Admitted;
    var (w1, answer) := Expose(Announce(w, s, id, length));
    Admitted(w1, s, |w.objects|, answer)
  }

  datatype Progress = Error | Done | InProgress

  /** Nothing is left to deliver, and this is not the one payload of an empty object. */
  predicate Repeats(w: Receiver, s: nat, o: Object)
    requires s < |w.subs|
  {
    w.subs[s].remaining == 0 && !(o.log == [] && o.declared == 0)
  }

  /** The state in which onPayload is called. */
  function Pay(w: Receiver, s: nat, n: nat): (r: Receiver)
    requires s < |w.subs| && w.subs[s].current.Some? && w.subs[s].current.value < |w.objects| && n <= w.subs[s].remaining
    ensures Grows(w, r)
  {
    var sub, k := w.subs[s], w.subs[s].current.value;
    Log(WithSub(w, s, sub.(remaining := sub.remaining - n)), k, Payload(n, n == sub.remaining)).(
      slipped := w.slipped || Repeats(w, s, w.objects[k]))
  }

  /** The object is complete and its consumer let go. */
  function Released(w: Receiver, s: nat): (r: Receiver)
    requires s < |w.subs|
    ensures Grows(w, r) && |r.subs| == |w.subs|
  {
    WithSub(w, s, w.subs[s].(current := None))
  }

  /** deliverPayload once onPayload has returned. */
  function Paid(w: Receiver, s: nat, complete: bool, fin: bool, answer: Answer): (r: (Receiver, Progress))
    requires s < |w.subs|
    ensures Grows(w, r.0)
    decreases |w.replies|, 4, 2
  {
    hide Terminate, FinishAtEnd;
    if w.subs[s].finished then (w, Error)
    else if answer.Refuse? then (Terminate(w, s, ResetErrorFor(answer.error)), Error)
    else if complete then (if fin then FinishAtEnd(Released(w, s), s) else Released(w, s), Done)
    else if fin then (Terminate(w, s, MALFORMED_TRACK), Error)
    else (w, InProgress)
  }

  /** Bytes that fit go to the consumer. */
  function HandIn(w: Receiver, s: nat, n: nat, fin: bool): (r: (Receiver, Progress))
    requires s < |w.subs| && w.subs[s].current.Some? && w.subs[s].current.value < |w.objects| && n <= w.subs[s].remaining
    ensures Grows(w, r.0)
    decreases |w.replies|, 4, 3
  {
    hide Expose, Paid;
    var after := Expose(Pay(w, s, n));
    Paid(after.0, s, n == w.subs[s].remaining, fin, after.1)
  }

  function Deliver(w: Receiver, s: nat, n: nat, fin: bool): (r: (Receiver, Progress))
    requires s < |w.subs| && w.subs[s].current.Some? && w.subs[s].current.value < |w.objects|
    ensures Grows(w, r.0)
    decreases |w.replies|, 4, 4
  {
    hide Terminate, HandIn;
    var left := w.subs[s].remaining;
    if n > left || (n == 0 && left > 0 && fin) then (Terminate(w, s, MALFORMED_TRACK), Error)
    else if n == 0 && left > 0 then (w, InProgress)
    else HandIn(w, s, n, fin)
  }

  function SubObject(w: Receiver, s: nat, id: u64, n: nat, fin: bool): (r: (Receiver, Progress))
    requires s < |w.subs|
    ensures Grows(w, r.0)
    decreases |w.replies|, 4, 5
  {
    hide Prepare, Admit, Deliver;
    var (w1, prepared) := Prepare(w, s, id);
    if !prepared then (w1, Error)
    else
      var (w2, admitted) := Admit(w1, s, id, n);
      if !admitted then (w2, Error) else Deliver(w2, s, n, fin)
  }

  function SubBegin(w: Receiver, s: nat, id: u64, length: nat, initial: nat): (r: (Receiver, Progress))
    requires s < |w.subs|
    ensures Grows(w, r.0)
    decreases |w.replies|, 4, 5
  {
    hide Terminate, Prepare, Admit, Deliver;
    var (w1, prepared) := Prepare(w, s, id);
    if !prepared then (w1, Error)
    else if initial > length then (Terminate(w1, s, MALFORMED_TRACK), Error)
    else
      var (w2, admitted) := Admit(w1, s, id, length);
      if !admitted then (w2, Error) else Deliver(w2, s, initial, false)
  }

  function SubPayload(w: Receiver, s: nat, n: nat, fin: bool): (r: (Receiver, Progress))
    requires s < |w.subs|
    ensures Grows(w, r.0)
    decreases |w.replies|, 4, 5
  {
    hide Terminate, Deliver;
    var sub := w.subs[s];
    if sub.finished then (w, Error)
    else if sub.current.None? || sub.current.value >= |w.objects| then (Terminate(w, s, MALFORMED_TRACK), Error)
    else Deliver(w, s, n, fin)
  }

  function SubStatus(w: Receiver, s: nat, id: u64, endOfTrack: bool, finish: bool): (r: (Receiver, Progress))
    requires s < |w.subs|
    ensures Grows(w, r.0)
    decreases |w.replies|, 4, 4
  {
    hide Callback, EndWith, Prepare;
    var (w1, prepared) := Prepare(w, s, id);
    if !prepared then (w1, Error)
    else
      var w2 := if w.kind.Fetch? then w1.(delivered := w1.delivered + [Location(w1.subs[s].group, id)]) else w1;
      (if finish then EndWith(w2, s, EndStatus(id, endOfTrack), true) else Callback(w2).0, Done)
  }

  function SubEnd(w: Receiver, s: nat): (r: (Receiver, Progress))
    requires s < |w.subs|
    ensures Grows(w, r.0)
    decreases |w.replies|, 4, 4
  {
    hide Terminate, FinishAtEnd;
    if w.subs[s].finished then (w, Done)
    else if w.subs[s].current.Some? then (Terminate(w, s, MALFORMED_TRACK), Error)
    else (FinishAtEnd(w, s), Done)
  }

  /** The destructor of a subscription's subgroup receiver. */
  function SubDrop(w: Receiver, s: nat): (r: Receiver)
    requires s < |w.subs|
    ensures Grows(w, r)
    decreases |w.replies|, 4, 4
  {
    hide Terminate, FailCurrent;
    if w.subs[s].attached then Terminate(w, s, CANCELLED)
    else if w.subs[s].current.Some? then FailCurrent(w, s, w.subs[s].(current := None, remaining := 0), CANCELLED)
    else w
  }

  // ---------------------------------------------------------------- subscription

  /** PUBLISH_DONE handed to the application. */
  function TellDone(w: Receiver): (r: Receiver)
    ensures Grows(w, r)
    decreases |w.replies|, 4, 3
  {
    hide Callback;
    Callback(w.(done := true, closing := true)).0.(closing := false)
  }

  function FinishSubscription(w: Receiver): (r: Receiver)
    ensures Grows(w, r)
    decreases |w.replies|, 4, 4
  {
    hide Fire, TellDone;
    if w.done then w else if TellDone(w).open == 0 then Fire(TellDone(w)) else TellDone(w)
  }

  // ---------------------------------------------------------------- fetch

  predicate Advances(order: GroupOrder, a: Location, b: Location) {
    if b.group == a.group then b.objectId > a.objectId
    else if order.NewestFirst? then b.group < a.group
    else b.group > a.group
  }

  function FailFetch(w: Receiver): (r: Receiver)
    requires |w.subs| > 0
    ensures Grows(w, r)
    decreases |w.replies|, 4, 5
  {
    hide Terminate;
    if w.terminal then w else Terminate(w.(failed := true, terminal := true), 0, MALFORMED_TRACK)
  }

  function PrepareFetch(w: Receiver, at: Location): (r: (Receiver, bool))
    requires |w.subs| > 0
    ensures Grows(w, r.0)
    decreases |w.replies|, 4, 6
  {
    hide FailFetch;
    if w.terminal then (w, false)
    else
      var w1 := WithSub(w, 0, w.subs[0].(group := at.group));
      if w.kind.Fetch? && w.lastFetch.Some? && !Advances(w.kind.order, w.lastFetch.value, at) then (FailFetch(w1), false)
      else (w1.(lastFetch := Some(at)), true)
  }

  function FinishFetch(w: Receiver): (r: Receiver)
    requires |w.subs| > 0
    ensures Grows(w, r)
    decreases |w.replies|, 4, 5
  {
    hide Fire;
    if w.terminal then w
    else Fire(WithSub(w.(terminal := true), 0, w.subs[0].(finished := true)))
  }

  /** What an operation on the fetch's receiver means for the fetch; `fin` asks to finish it. */
  function Settle(r: (Receiver, Progress), fin: bool): (s: Receiver)
    requires |r.0.subs| > 0
    ensures Grows(r.0, s)
    decreases |r.0.replies|, 4, 6
  {
    hide FinishFetch;
    if r.1.Error? then r.0.(failed := true, terminal := true)
    else if fin then FinishFetch(r.0)
    else r.0
  }

  function PutFetchObject(w: Receiver, at: Location, n: nat, fin: bool): (r: Receiver)
    requires |w.subs| > 0
    ensures Grows(w, r)
    decreases |w.replies|, 4, 7
  {
    hide SubObject, PrepareFetch, Settle;
    var (w1, ok) := PrepareFetch(w, at);
    if ok then Settle(SubObject(w1, 0, at.objectId, n, fin), fin) else w1
  }

  function BeginFetchObject(w: Receiver, at: Location, length: nat, initial: nat): (r: Receiver)
    requires |w.subs| > 0
    ensures Grows(w, r)
    decreases |w.replies|, 4, 7
  {
    hide SubBegin, PrepareFetch, Settle;
    var (w1, ok) := PrepareFetch(w, at);
    if ok then Settle(SubBegin(w1, 0, at.objectId, length, initial), false) else w1
  }

  function PutFetchPayload(w: Receiver, n: nat, fin: bool): (r: Receiver)
    requires |w.subs| > 0
    ensures Grows(w, r)
    decreases |w.replies|, 4, 7
  {
    hide SubPayload, Settle;
    if w.terminal then w
    else
      var r := SubPayload(w, 0, n, fin);
      Settle(r, fin && r.1.Done?)
  }

  function SettleStatus(r: (Receiver, Progress), fin: bool): (s: Receiver)
    ensures Grows(r.0, s)
    decreases |r.0.replies|, 4, 6
  {
    hide Fire;
    if r.1.Error? then r.0.(failed := true, terminal := true) else if fin then Fire(r.0) else r.0
  }

  function PutFetchStatus(w: Receiver, at: Location, endOfTrack: bool, fin: bool): (r: Receiver)
    requires |w.subs| > 0
    ensures Grows(w, r)
    decreases |w.replies|, 4, 7
  {
    hide SubStatus, PrepareFetch, SettleStatus;
    var (w1, ok) := PrepareFetch(w, at);
    if ok then SettleStatus(SubStatus(w1.(terminal := fin), 0, at.objectId, endOfTrack, fin), fin) else w1
  }

  function PutFetchUnknown(w: Receiver, at: Location, fin: bool): (r: Receiver)
    requires |w.subs| > 0
    ensures Grows(w, r)
    decreases |w.replies|, 4, 7
  {
    hide Callback, FailFetch, PrepareFetch, FinishFetch;
    var (w1, ok) := PrepareFetch(w, at);
    if !ok then w1
    else if w1.subs[0].current.Some? then FailFetch(w1)
    else
      var w2 := Callback(w1.(delivered := w1.delivered + [at])).0;
      if fin then FinishFetch(w2) else w2
  }

  function EndTheFetch(w: Receiver): (r: Receiver)
    requires |w.subs| > 0
    ensures Grows(w, r)
    decreases |w.replies|, 4, 7
  {
    hide Fire, SubEnd;
    if w.terminal then w
    else
      var (w1, progress) := SubEnd(w.(terminal := true), 0);
      if progress.Error? then w1.(failed := true) else Fire(w1)
  }

  function ResetTheFetch(w: Receiver, code: ResetCode): (r: Receiver)
    requires |w.subs| > 0
    ensures Grows(w, r)
    decreases |w.replies|, 4, 7
  {
    hide Terminate;
    if w.terminal then w else Terminate(w.(failed := true, terminal := true), 0, code)
  }

  function ApplyFetch(w: Receiver, c: Call): (r: Receiver)
    requires |w.subs| > 0
    ensures Grows(w, r)
    decreases |w.replies|, 4, 8
  {
    hide PutFetchObject, BeginFetchObject, PutFetchPayload, PutFetchStatus, PutFetchUnknown, EndTheFetch, ResetTheFetch;
    match c
    case FetchObject(at, n, fin) => PutFetchObject(w, at, n, fin)
    case FetchBegin(at, length, initial) => BeginFetchObject(w, at, length, initial)
    case FetchPayload(n, fin) => PutFetchPayload(w, n, fin)
    case FetchStatus(at, endOfTrack, fin) => PutFetchStatus(w, at, endOfTrack, fin)
    case FetchUnknown(at, fin) => PutFetchUnknown(w, at, fin)
    case EndFetch => EndTheFetch(w)
    case ResetFetch(code) => ResetTheFetch(w, code)
    case _ => w
  }

  /** One call. Calls that the receiver's kind does not take, or on a subgroup that does not exist, do nothing. */
  function Apply(w: Receiver, c: Call): (r: Receiver)
    ensures Grows(w, r)
    decreases |w.replies|, 5, 0
  {
    hide Terminate, SubObject, SubBegin, SubPayload, SubStatus, SubEnd, SubDrop, FinishSubscription, ApplyFetch;
    if w.kind.Fetch? then if |w.subs| > 0 then ApplyFetch(w, c) else w
    else
      match c
      case PutObject(s, id, n, fin) => if s < |w.subs| then SubObject(w, s, id, n, fin).0 else w
      case BeginObject(s, id, length, initial) => if s < |w.subs| then SubBegin(w, s, id, length, initial).0 else w
      case ObjectPayload(s, n, fin) => if s < |w.subs| then SubPayload(w, s, n, fin).0 else w
      case PutStatus(s, id, endOfTrack) => if s < |w.subs| then SubStatus(w, s, id, endOfTrack, true).0 else w
      case EndSubgroup(s) => if s < |w.subs| then SubEnd(w, s).0 else w
      case Reset(s, code) => if s < |w.subs| then Terminate(w, s, code) else w
      case Drop(s) => if s < |w.subs| then SubDrop(w, s) else w
      case BeginSubgroup(group) =>
        if w.done then w else w.(subs := w.subs + [NewSubgroup(group, true)], open := w.open + 1)
      case PublishDone => FinishSubscription(w)
      case _ => w
  }

  /**
    The destructor of a FETCH receiver: no method of it is running and none is called after it, so the consumer in
    flight is told of the end and cannot call back.
   */
  function DestroyFetch(w: Receiver): Receiver {
    if |w.subs| > 0 && w.subs[0].current.Some? && w.subs[0].current.value < |w.objects| then
      Failing(w, 0, w.subs[0].(current := None, remaining := 0), w.subs[0].current.value, CANCELLED)
    else w
  }
}
