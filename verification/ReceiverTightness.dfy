/** For every kind of call that the rules of ReceiverRules exclude, a run that breaks the promise with it alone. */
module ReceiverTightness {
  import opened Bytes
  import opened ObjectWire
  import opened Locations
  import opened ReceiverModel
  import opened ReceiverInvariant
  import opened ReceiverClaims
  import opened ReceiverRules
  import opened ReceiverLimits

  /** The callbacks make no other call. */
  predicate Only(replies: seq<Reply>, c: Call) { forall r :: r in replies ==> forall d :: d in r.calls ==> d == c }

  /** With c alone some run leaves an object that is not accounted for. */
  ghost predicate LosesAnObject(c: Call) {
    exists kind, replies, calls, k ::
      && Only(replies, c)
      && var w := RunAll(NewReceiver(kind, replies), calls); 0 <= k < |w.objects| && !Accounted(w, k)
  }

  /** With c alone some fetch fails and reports that all data came. */
  ghost predicate CompletesFailed(c: Call) {
    exists order, replies, calls ::
      && Only(replies, c)
      && var w := RunAll(NewReceiver(Fetch(order), replies), calls); w.failed && w.allData == 1
  }

  lemma {:induction false} Loses(kind: Kind, replies: seq<Reply>, calls: seq<Call>, c: Call)
    requires Only(replies, c) && RunAll(NewReceiver(kind, replies), calls).slipped
    ensures LosesAnObject(c)
  {
    hide RunAll, Accounted, Quiet, Only;
    var w := RunAll(NewReceiver(kind, replies), calls);
    NewIsQuiet(kind, replies);
    RunAllQuiet(NewReceiver(kind, replies), calls);
    QuietAccounts(w);
    var k :| 0 <= k < |w.objects| && !Accounted(w, k);
  }

  lemma {:induction false} Completed(order: GroupOrder, replies: seq<Reply>, calls: seq<Call>, c: Call)
    requires Only(replies, c)
    requires var w := RunAll(NewReceiver(Fetch(order), replies), calls); w.failed && w.allData == 1
    ensures CompletesFailed(c)
  {
    hide RunAll, Only;
  }

  // ---------------------------------------------------------------- single operations without callbacks

  /** One subgroup with nothing in flight, whose callbacks are over. */
  predicate Idle(w: Receiver) {
    && |w.subs| == 1 && w.replies == [] && !w.subs[0].finished && w.subs[0].current.None?
    && (w.kind.Fetch? ==> !Counted(w.subs[0]))
  }

  predicate Fresh(w: Receiver, id: u64) {
    Idle(w) && (w.kind.Subscribe? && w.subs[0].last.Some? ==> w.subs[0].last.value < id)
  }

  /** What beginObject leaves when the first bytes have not come. */
  function BeginsAlone(w: Receiver, id: u64, length: nat): Receiver
    requires |w.subs| == 1
  {
    TakeOver(Announce(WithSub(w, 0, w.subs[0].(last := Some(id))), 0, id, length), 0, |w.objects|)
  }

  lemma {:induction false} BeginAlone(w: Receiver, id: u64, length: nat)
    requires Fresh(w, id) && length > 0
    ensures SubBegin(w, 0, id, length, 0) == (BeginsAlone(w, id, length), InProgress)
  {
    hide Callback, Expose;
    AdmitAlone(w, id, length);
    var d := BeginsAlone(w, id, length);
    hide Admit, Prepare;
    assert Deliver(d, 0, 0, false) == (d, InProgress);
  }

  lemma {:induction false} AdmitAlone(w: Receiver, id: u64, length: nat)
    requires Fresh(w, id)
    ensures var w1 := WithSub(w, 0, w.subs[0].(last := Some(id)));
      Prepare(w, 0, id) == (w1, true) && Admit(w1, 0, id, length) == (BeginsAlone(w, id, length), true)
  {
    hide Callback, Expose;
    var w1 := WithSub(w, 0, w.subs[0].(last := Some(id)));
    var a := Announce(w1, 0, id, length);
    NoReplies(a);
    assert Admitted(a, 0, |w.objects|, Accept) == (TakeOver(a, 0, |w.objects|), true);
  }

  /** object() with all its bytes, not the last of its stream. */
  lemma {:induction false} ObjectAlone(w: Receiver, id: u64, n: nat, fin: bool)
    requires Fresh(w, id)
    ensures var p := Released(Pay(BeginsAlone(w, id, n), 0, n), 0);
      SubObject(w, 0, id, n, fin) == (if fin then FinishAtEnd(p, 0) else p, Done)
  {
    hide Callback, Expose, FinishAtEnd;
    AdmitAlone(w, id, n);
    var d := BeginsAlone(w, id, n);
    hide Admit, Prepare;
    DeliverAlone(d, n, fin);
    hide BeginsAlone, Deliver;
  }

  /** All that is left of the object in flight, when no callback is left to answer. */
  lemma {:induction false} DeliverAlone(d: Receiver, n: nat, fin: bool)
    requires |d.subs| == 1 && d.replies == [] && !d.subs[0].finished && d.subs[0].current.Some?
    requires d.subs[0].current.value < |d.objects| && d.subs[0].remaining == n
    ensures var p := Released(Pay(d, 0, n), 0);
      Deliver(d, 0, n, fin) == (if fin then FinishAtEnd(p, 0) else p, Done)
  {
    hide Callback, Expose, FinishAtEnd;
    var p := Pay(d, 0, n);
    NoReplies(p);
    assert Paid(p, 0, true, fin, Accept) == (if fin then FinishAtEnd(Released(p, 0), 0) else Released(p, 0), Done);
    assert HandIn(d, 0, n, fin) == Paid(p, 0, true, fin, Accept);
  }

  /** The fetch once prepareFetchObject has let a location through. */
  function At(w: Receiver, at: Location): Receiver
    requires |w.subs| == 1
  {
    WithSub(w, 0, w.subs[0].(group := at.group)).(lastFetch := Some(at))
  }

  /** A fetch that lets a location through. */
  predicate Next(w: Receiver, at: Location) {
    w.kind.Fetch? && |w.subs| == 1 && !w.terminal && (w.lastFetch.Some? ==> Advances(w.kind.order, w.lastFetch.value, at))
  }

  lemma {:induction false} NextLocation(w: Receiver, at: Location)
    requires Next(w, at)
    ensures PrepareFetch(w, at) == (At(w, at), true)
  {
    hide FailFetch;
  }

  lemma {:induction false} BeginIs(w: Receiver, at: Location, length: nat, initial: nat)
    requires Next(w, at)
    ensures Apply(w, FetchBegin(at, length, initial)) == Settle(SubBegin(At(w, at), 0, at.objectId, length, initial), false)
  {
    hide Apply, PrepareFetch, SubBegin, Settle, At;
    NextLocation(w, at);
    FetchCall(w, FetchBegin(at, length, initial));
    assert BeginFetchObject(w, at, length, initial) == Settle(SubBegin(At(w, at), 0, at.objectId, length, initial), false);
  }

  lemma {:induction false} ObjectIs(w: Receiver, at: Location, n: nat, fin: bool)
    requires Next(w, at)
    ensures Apply(w, FetchObject(at, n, fin)) == Settle(SubObject(At(w, at), 0, at.objectId, n, fin), fin)
  {
    hide Apply, PrepareFetch, SubObject, Settle, At;
    NextLocation(w, at);
    FetchCall(w, FetchObject(at, n, fin));
    assert PutFetchObject(w, at, n, fin) == Settle(SubObject(At(w, at), 0, at.objectId, n, fin), fin);
  }

  lemma {:induction false} PayloadIs(w: Receiver, n: nat, fin: bool)
    requires w.kind.Fetch? && |w.subs| == 1 && !w.terminal && !w.subs[0].finished
    requires w.subs[0].current.Some? && w.subs[0].current.value < |w.objects|
    ensures var r := Deliver(w, 0, n, fin);
      Apply(w, FetchPayload(n, fin)) == Settle(r, fin && r.1.Done?)
  {
    hide Apply, Deliver, Settle;
    FetchCall(w, FetchPayload(n, fin));
    assert SubPayload(w, 0, n, fin) == Deliver(w, 0, n, fin);
    hide SubPayload;
    assert PutFetchPayload(w, n, fin) == ApplyFetch(w, FetchPayload(n, fin));
  }

  lemma {:induction false} StatusIs(w: Receiver, at: Location)
    requires Next(w, at)
    ensures Apply(w, FetchStatus(at, false, true))
         == SettleStatus(SubStatus(At(w, at).(terminal := true), 0, at.objectId, false, true), true)
  {
    hide Apply, PrepareFetch, SubStatus, SettleStatus, At;
    NextLocation(w, at);
    FetchCall(w, FetchStatus(at, false, true));
    assert PutFetchStatus(w, at, false, true)
        == SettleStatus(SubStatus(At(w, at).(terminal := true), 0, at.objectId, false, true), true);
  }

  /** Without an error the fetch goes on as the operation left it. */
  lemma {:induction false} Settles(r: (Receiver, Progress))
    requires |r.0.subs| > 0
    ensures Settle(r, false) == if r.1.Error? then r.0.(failed := true, terminal := true) else r.0
  {
  }

  // ---------------------------------------------------------------- an object whose onObjectBegin makes a call

  /** The state in which the onObjectBegin of a first object is called. */
  function Announced(w: Receiver, length: nat): Receiver
    requires |w.subs| == 1
  {
    Announce(WithSub(w, 0, w.subs[0].(last := Some(0))), 0, 0, length)
  }

  /** The outer object takes its place once the inner call has returned. */
  lemma {:induction false} OuterBegin(w: Receiver, length: nat, c: Call)
    requires Fresh(w.(replies := []), 0) && w.objects == [] && w.replies == [Reply([c], Accept)]
    requires var a := Announced(w, length);
      var r := Apply(a.(replies := [], exposed := true), c);
      |r.subs| == 1 && !r.subs[0].finished && |r.objects| > 0
    ensures var a := Announced(w, length);
      var d := TakeOver(Apply(a.(replies := [], exposed := true), c).(exposed := w.exposed), 0, 0);
      SubBegin(w, 0, 0, length, 0) == Deliver(d, 0, 0, false)
  {
    hide Callback, Expose, Apply, Deliver;
    var w1 := WithSub(w, 0, w.subs[0].(last := Some(0)));
    assert Prepare(w, 0, 0) == (w1, true);
    var a := Announced(w, length);
    OneExposedCall(a, c, Accept);
    var r := Expose(a).0;
    assert Admitted(r, 0, 0, Accept) == (TakeOver(r, 0, 0), true);
    assert Admit(w1, 0, 0, length) == (TakeOver(r, 0, 0), true);
  }

  /** The inner call has ended the subgroup: the outer consumer is told so. */
  lemma {:induction false} OuterLate(w: Receiver, length: nat, c: Call)
    requires Fresh(w.(replies := []), 0) && w.objects == [] && w.replies == [Reply([c], Accept)]
    requires var a := Announced(w, length);
      var r := Apply(a.(replies := [], exposed := true), c);
      |r.subs| == 1 && r.subs[0].finished && |r.objects| > 0 && r.replies == []
    ensures var a := Announced(w, length);
      var r := Apply(a.(replies := [], exposed := true), c).(exposed := w.exposed);
      SubBegin(w, 0, 0, length, 0) == (Late(r, 0, 0), Error)
  {
    hide Callback, Expose, Apply, Deliver;
    var w1 := WithSub(w, 0, w.subs[0].(last := Some(0)));
    assert Prepare(w, 0, 0) == (w1, true);
    var a := Announced(w, length);
    OneExposedCall(a, c, Accept);
    var r := Expose(a).0;
    NoReplies(Late(r, 0, 0));
    assert Admitted(r, 0, 0, Accept) == (Late(r, 0, 0), false);
    assert Admit(w1, 0, 0, length) == (Late(r, 0, 0), false);
  }

  // ---------------------------------------------------------------- objects that slip

  /** Nothing is left, but the object in flight has had nothing: it is told of its end all the same. */
  lemma {:induction false} EndsUnread(d: Receiver)
    requires |d.subs| == 1 && d.replies == [] && !d.subs[0].finished
    requires d.subs[0].current == Some(0) && d.subs[0].remaining == 0
    requires |d.objects| > 0 && d.objects[0].log == [] && d.objects[0].declared > 0
    ensures var (r, progress) := Deliver(d, 0, 0, false);
      && r.slipped && progress.Done? && |r.objects| == |d.objects|
      && r.objects[0] == d.objects[0].(log := [Payload(0, true)])
  {
    hide Deliver;
    DeliverAlone(d, 0, false);
    assert [] + [Payload(0, true)] == [Payload(0, true)];
  }

  /** A whole object from inside the onObjectBegin of another: the outer one ends after none of its five bytes. */
  lemma {:induction false} PuttingInsideEndsUnread()
    ensures var w := RunAll(NewReceiver(Subscribe, [Reply([PutObject(0, 1, 3, false)], Accept)]),
                            [BeginSubgroup(0), BeginObject(0, 0, 5, 0)]);
      |w.objects| > 0 && w.objects[0] == Object(0, 0, 5, true, [Payload(0, true)]) && w.slipped
  {
    hide Callback, Expose, SubBegin, SubObject, Deliver;
    var c, begin := PutObject(0, 1, 3, false), BeginObject(0, 0, 5, 0);
    var replies := [Reply([c], Accept)];
    assert [BeginSubgroup(0), begin] == [BeginSubgroup(0)] + [begin];
    FirstSubgroup(replies, [begin]);
    var w := OneSubgroup(replies);
    var x := Announced(w, 5).(replies := [], exposed := true);
    ObjectAlone(x, 1, 3, false);
    OuterBegin(w, 5, c);
    EndsUnread(TakeOver(Apply(x, c).(exposed := false), 0, 0));
    RunOne(w, begin);
  }

  /** The same on a fetch. */
  lemma {:induction false} FetchingInsideEndsUnread(order: GroupOrder)
    ensures var w := RunAll(NewReceiver(Fetch(order), [Reply([FetchObject(Location(0, 1), 3, false)], Accept)]),
                            [FetchBegin(Location(0, 0), 5, 0)]);
      w.slipped
  {
    hide Callback, Expose, SubBegin, SubObject, Deliver, Settle, Apply;
    var c, at := FetchObject(Location(0, 1), 3, false), Location(0, 0);
    var w := NewReceiver(Fetch(order), [Reply([c], Accept)]);
    var w1 := At(w, at);
    var x := Announced(w1, 5).(replies := [], exposed := true);
    ObjectIs(x, Location(0, 1), 3, false);
    var x1 := At(x, Location(0, 1));
    ObjectAlone(x1, 1, 3, false);
    Settles(SubObject(x1, 0, 1, 3, false));
    OuterBegin(w1, 5, c);
    var d := TakeOver(Apply(x, c).(exposed := false), 0, 0);
    EndsUnread(d);
    BeginIs(w, at, 5, 0);
    Settles(SubBegin(w1, 0, 0, 5, 0));
    RunOne(w, FetchBegin(at, 5, 0));
  }

  /** An object begun on a fetch from inside the onObjectBegin of another. */
  lemma {:induction false} FetchBeginningInsideLosesAnObject(order: GroupOrder)
    ensures var w := RunAll(NewReceiver(Fetch(order), [Reply([FetchBegin(Location(0, 1), 1, 0)], Accept)]),
                            [FetchBegin(Location(0, 0), 1, 0)]);
      w.slipped
  {
    hide Callback, Expose, SubBegin, Settle, Apply, HandIn;
    var c, at := FetchBegin(Location(0, 1), 1, 0), Location(0, 0);
    var w := NewReceiver(Fetch(order), [Reply([c], Accept)]);
    var w1 := At(w, at);
    var x := Announced(w1, 1).(replies := [], exposed := true);
    BeginIs(x, Location(0, 1), 1, 0);
    var x1 := At(x, Location(0, 1));
    BeginAlone(x1, 1, 1);
    Settles(SubBegin(x1, 0, 1, 1, 0));
    OuterBegin(w1, 1, c);
    var d := TakeOver(Apply(x, c).(exposed := false), 0, 0);
    assert Deliver(d, 0, 0, false) == (d, InProgress);
    BeginIs(w, at, 1, 0);
    Settles((d, InProgress));
    RunOne(w, FetchBegin(at, 1, 0));
  }

  /** onObjectBegin answers without a call; `next` is left for the callbacks after it. */
  lemma {:induction false} AdmitThen(w: Receiver, id: u64, length: nat, next: seq<Reply>)
    requires Fresh(w.(replies := []), id) && w.replies == [Reply([], Accept)] + next
    ensures var w1 := WithSub(w, 0, w.subs[0].(last := Some(id)));
      Prepare(w, 0, id) == (w1, true) && Admit(w1, 0, id, length) == (BeginsAlone(w.(replies := next), id, length), true)
  {
    hide Callback, Expose;
    var w1 := WithSub(w, 0, w.subs[0].(last := Some(id)));
    var a := Announce(w1, 0, id, length);
    EmptyReply(a, next);
    var b := a.(replies := next);
    assert Admitted(b, 0, |w.objects|, Accept) == (TakeOver(b, 0, |w.objects|), true);
  }

  /** Bytes delivered from an onPayload that makes a call. */
  lemma {:induction false} PaidAfter(d: Receiver, p: Receiver, n: nat, c: Call)
    requires |d.subs| == 1 && d.subs[0].current.Some? && d.subs[0].current.value < |d.objects|
    requires 0 < n <= d.subs[0].remaining
    requires p == Pay(d, 0, n) && p.replies == [Reply([c], Accept)]
    requires |Apply(p.(replies := [], exposed := true), c).subs| == 1
    ensures var v := Apply(p.(replies := [], exposed := true), c).(exposed := p.exposed);
      Deliver(d, 0, n, false) == Paid(v, 0, n == d.subs[0].remaining, false, Accept)
  {
    hide Callback, Expose, Apply, Paid, Pay;
    OneExposedCall(p, c, Accept);
    var v := Apply(p.(replies := [], exposed := true), c).(exposed := p.exposed);
    assert HandIn(d, 0, n, false) == Paid(v, 0, n == d.subs[0].remaining, false, Accept);
  }

  /** The first object of a fetch, whose first byte's onPayload makes the call c. */
  lemma {:induction false} CallInPayload(order: GroupOrder, length: nat, c: Call, d: Receiver)
    requires length > 0 && d == Halfway(order, length, c)
    requires |Apply(Pay(d, 0, 1).(replies := [], exposed := true), c).subs| == 1
    ensures var v := Apply(Pay(d, 0, 1).(replies := [], exposed := true), c).(exposed := false);
      RunAll(NewReceiver(Fetch(order), [Reply([], Accept)] + [Reply([c], Accept)]), [FetchBegin(Location(0, 0), length, 1)])
      == Settle(Paid(v, 0, length == 1, false, Accept), false)
  {
    hide Callback, Expose, Deliver, Prepare, Admit, Apply, Settle, Paid, SubBegin;
    var next, at := [Reply([c], Accept)], Location(0, 0);
    var w := NewReceiver(Fetch(order), [Reply([], Accept)] + next);
    var w1 := At(w, at);
    AdmitThen(w1, 0, length, next);
    assert BeginsAlone(w1.(replies := next), 0, length) == d;
    PaidAfter(d, Pay(d, 0, 1), 1, c);
    hide Pay, BeginsAlone, Halfway;
    BeginsWithByte(w1, length, d);
    BeginIs(w, at, length, 1);
    RunOne(w, FetchBegin(at, length, 1));
  }

  lemma {:induction false} BeginsWithByte(w: Receiver, length: nat, d: Receiver)
    requires |w.subs| == 1 && length > 0 && |d.subs| == 1 && d.subs[0].current.Some? && d.subs[0].current.value < |d.objects|
    requires var w1 := WithSub(w, 0, w.subs[0].(last := Some(0)));
      Prepare(w, 0, 0) == (w1, true) && Admit(w1, 0, 0, length) == (d, true)
    ensures SubBegin(w, 0, 0, length, 1) == Deliver(d, 0, 1, false)
  {
    hide Prepare, Admit, Deliver;
  }

  /** The first object of a fetch admitted; c is for the next callback. */
  function Halfway(order: GroupOrder, length: nat, c: Call): Receiver {
    BeginsAlone(At(NewReceiver(Fetch(order), [Reply([c], Accept)]), Location(0, 0)), 0, length)
  }

  /** An empty payload from inside the onPayload that completes an object of a fetch. */
  lemma {:induction false} FetchPayingInsideBreaksCompletion(order: GroupOrder)
    ensures var w := RunAll(NewReceiver(Fetch(order), [Reply([], Accept)] + [Reply([FetchPayload(0, false)], Accept)]),
                            [FetchBegin(Location(0, 0), 1, 1)]);
      w.slipped
  {
    hide Callback, Expose, Deliver, Settle, Apply, Terminate, FinishAtEnd, RunAll;
    var c := FetchPayload(0, false);
    var d := Halfway(order, 1, c);
    var x := Pay(d, 0, 1).(replies := [], exposed := true);
    DeliverAlone(x, 0, false);
    PayloadIs(x, 0, false);
    Settles(Deliver(x, 0, 0, false));
    CallInPayload(order, 1, c, d);
    var v := Apply(x, c).(exposed := false);
    assert v.slipped;
    Settles(Paid(v, 0, true, false, Accept));
  }

  // ---------------------------------------------------------------- fetches that complete and fail

  lemma {:induction false} FiresAlone(w: Receiver)
    requires w.replies == [] && !w.sent
    ensures Fire(w) == Firing(w)
  {
    hide Callback;
    NoReplies(Firing(w));
  }

  /** The subgroup of a fetch has no parent to notify. */
  lemma {:induction false} EndsAlone(w: Receiver, t: Terminal, callback: bool)
    requires w.kind.Fetch? && |w.subs| == 1 && w.replies == [] && !Counted(w.subs[0])
    ensures var r := EndWith(w, 0, t, callback);
      && r == w.(subs := r.subs) && |r.subs| == 1 && r.subs[0].finished && !Counted(r.subs[0])
  {
    hide Callback, Notify;
    var v := WithSub(w, 0, EndedBy(w.kind, w.subs[0], t));
    NoReplies(v);
    assert EndWith(w, 0, t, callback) == Notify(v, 0);
    ClosesAlone(v);
  }

  lemma {:induction false} ClosesAlone(v: Receiver)
    requires |v.subs| == 1 && !Counted(v.subs[0])
    ensures var r := Notify(v, 0); r == v.(subs := r.subs) && |r.subs| == 1 && r.subs[0].finished && !Counted(r.subs[0])
  {
    hide SubgroupFinished;
  }

  /** A fetch inside the onObjectBegin of its first object, whose callbacks are over. */
  function Begun(order: GroupOrder): Receiver {
    Announced(At(NewReceiver(Fetch(order), []), Location(0, 0)), 1).(exposed := true)
  }

  /** A call that completes the fetch from inside onObjectBegin. */
  lemma {:induction false} CompletingInside(order: GroupOrder, c: Call)
    requires var r := Apply(Begun(order), c);
      |r.subs| == 1 && r.subs[0].finished && |r.objects| > 0 && r.replies == [] && r.allData == 1
    ensures CompletesFailed(c)
  {
    hide Callback, Expose, SubBegin, Apply, Settle, CompletesFailed, RunAll;
    var at, replies := Location(0, 0), [Reply([c], Accept)];
    var w := NewReceiver(Fetch(order), replies);
    var w1 := At(w, at);
    assert Announced(w1, 1).(replies := [], exposed := true) == Begun(order);
    OuterLate(w1, 1, c);
    BeginIs(w, at, 1, 0);
    Settles(SubBegin(w1, 0, 0, 1, 0));
    RunOne(w, FetchBegin(at, 1, 0));
    Completed(order, replies, [FetchBegin(at, 1, 0)], c);
  }

  lemma {:induction false} StatusInside(order: GroupOrder)
    ensures CompletesFailed(FetchStatus(Location(0, 1), false, true))
  {
    hide Callback, EndWith, Fire, CompletesFailed, Apply, SubStatus, Prepare;
    var c, at, x := FetchStatus(Location(0, 1), false, true), Location(0, 1), Begun(order);
    StatusIs(x, at);
    var v := At(x, at).(terminal := true);
    StatusEnds(v, 1);
    var e := SubStatus(v, 0, 1, false, true).0;
    FiresAlone(e);
    assert Apply(x, c) == Firing(e);
    CompletingInside(order, c);
  }

  /** A final status on a fetch. */
  lemma {:induction false} StatusEnds(v: Receiver, id: u64)
    requires v.kind.Fetch? && Idle(v)
    ensures var (e, progress) := SubStatus(v, 0, id, false, true);
      && progress.Done? && |e.subs| == 1 && e.subs[0].finished
      && e.objects == v.objects && e.replies == [] && e.allData == v.allData && e.sent == v.sent
  {
    hide Callback, EndWith;
    var w1 := WithSub(v, 0, v.subs[0].(last := Some(id)));
    assert Prepare(v, 0, id) == (w1, true);
    hide Prepare;
    var w2 := w1.(delivered := w1.delivered + [Location(w1.subs[0].group, id)]);
    EndsAlone(w2, EndStatus(id, false), true);
    assert SubStatus(v, 0, id, false, true) == (EndWith(w2, 0, EndStatus(id, false), true), Done);
  }

  lemma {:induction false} UnknownInside(order: GroupOrder)
    ensures CompletesFailed(FetchUnknown(Location(0, 1), true))
  {
    hide Callback, Fire, PrepareFetch, CompletesFailed, Apply;
    var c, at, x := FetchUnknown(Location(0, 1), true), Location(0, 1), Begun(order);
    NextLocation(x, at);
    var w1 := At(x, at);
    var w2 := w1.(delivered := w1.delivered + [at]);
    NoReplies(w2);
    var v := WithSub(w2.(terminal := true), 0, w2.subs[0].(finished := true));
    FiresAlone(v);
    assert FinishFetch(w2) == Firing(v);
    hide FinishFetch;
    assert PutFetchUnknown(x, at, true) == Firing(v);
    FetchCall(x, c);
    CompletingInside(order, c);
  }

  /** The end of a fetch after its last object. */
  lemma {:induction false} FinishesAlone(w: Receiver)
    requires w.kind.Fetch? && |w.subs| == 1 && w.replies == [] && !Counted(w.subs[0]) && !w.terminal && !w.sent
    ensures var r := Settle((FinishAtEnd(w, 0), Done), true);
      |r.subs| == 1 && r.subs[0].finished && r.objects == w.objects && r.replies == [] && r.allData == w.allData + 1
  {
    hide Fire, EndWith;
    EndsAlone(w, EndOfStream, false);
    var e := FinishAtEnd(w, 0);
    assert e == EndWith(w, 0, EndOfStream, false);
    hide FinishAtEnd;
    var v := WithSub(e.(terminal := true), 0, e.subs[0].(finished := true));
    FiresAlone(v);
    assert FinishFetch(e) == Firing(v);
  }

  lemma {:induction false} ObjectInside(order: GroupOrder)
    ensures CompletesFailed(FetchObject(Location(0, 1), 1, true))
  {
    hide Callback, FinishAtEnd, Settle, SubObject, CompletesFailed, Apply;
    var c, at, x := FetchObject(Location(0, 1), 1, true), Location(0, 1), Begun(order);
    ObjectIs(x, at, 1, true);
    var x1 := At(x, at);
    ObjectAlone(x1, 1, 1, true);
    FinishesAlone(Released(Pay(BeginsAlone(x1, 1, 1), 0, 1), 0));
    CompletingInside(order, c);
  }

  /** The last byte with the FIN ends the fetch. */
  lemma {:induction false} LastByte(x: Receiver)
    requires x.kind.Fetch? && |x.subs| == 1 && x.replies == [] && !Counted(x.subs[0]) && !x.terminal && !x.sent
    requires !x.subs[0].finished && x.subs[0].current.Some? && x.subs[0].current.value < |x.objects|
    requires x.subs[0].remaining == 1
    ensures var r := Apply(x, FetchPayload(1, true));
      |r.subs| == 1 && r.subs[0].finished && r.allData == x.allData + 1
  {
    hide Deliver, FinishAtEnd, Settle, Apply;
    DeliverAlone(x, 1, true);
    PayloadIs(x, 1, true);
    FinishesAlone(Released(Pay(x, 0, 1), 0));
  }

  /** The first of two bytes handed in. */
  lemma {:induction false} FirstByte(order: GroupOrder, c: Call)
    ensures var d := Halfway(order, 2, c);
      |d.subs| == 1 && d.subs[0].current == Some(0) && |d.objects| == 1 && d.subs[0].remaining == 2
    ensures var d := Halfway(order, 2, c);
      var x := Pay(d, 0, 1).(replies := [], exposed := true);
      && x.kind.Fetch? && |x.subs| == 1 && !Counted(x.subs[0]) && !x.terminal && !x.sent && x.allData == 0
      && !x.subs[0].finished && x.subs[0].current == Some(0) && |x.objects| == 1 && x.subs[0].remaining == 1
  {
  }

  /** The last byte with the FIN from inside the onPayload of the first. */
  lemma {:induction false} PayloadInside(order: GroupOrder)
    ensures CompletesFailed(FetchPayload(1, true))
  {
    hide Settle, Apply, CompletesFailed, Terminate, RunAll, Halfway, Pay, Counted;
    var c := FetchPayload(1, true);
    FirstByte(order, c);
    var d := Halfway(order, 2, c);
    var x := Pay(d, 0, 1).(replies := [], exposed := true);
    LastByte(x);
    CallInPayload(order, 2, c, d);
    var v := Apply(x, c).(exposed := false);
    assert Paid(v, 0, false, false, Accept) == (v, Error);
    Settles((v, Error));
    Completed(order, [Reply([], Accept)] + [Reply([c], Accept)], [FetchBegin(Location(0, 0), 2, 1)], c);
  }

  // ---------------------------------------------------------------- the rules

  /** Each kind of call that begins something, from inside a callback and alone, loses an object in some run. */
  lemma {:induction false} NoBeginIsTight(order: GroupOrder)
    ensures LosesAnObject(PutObject(0, 1, 3, false)) && LosesAnObject(BeginObject(0, 1, 1, 0))
    ensures LosesAnObject(ObjectPayload(0, 0, false)) && LosesAnObject(FetchPayload(0, false))
    ensures LosesAnObject(FetchObject(Location(0, 1), 3, false)) && LosesAnObject(FetchBegin(Location(0, 1), 1, 0))
  {
    hide LosesAnObject;
    SubscriptionsLose();
    FetchesLose(order);
  }

  lemma {:induction false} SubscriptionsLose()
    ensures LosesAnObject(PutObject(0, 1, 3, false)) && LosesAnObject(BeginObject(0, 1, 1, 0))
    ensures LosesAnObject(ObjectPayload(0, 0, false))
  {
    hide RunAll, LosesAnObject;
    PuttingInsideEndsUnread();
    Loses(Subscribe, [Reply([PutObject(0, 1, 3, false)], Accept)], [BeginSubgroup(0), BeginObject(0, 0, 5, 0)],
          PutObject(0, 1, 3, false));
    BeginningInsideLosesAnObject();
    Loses(Subscribe, [Reply([BeginObject(0, 1, 1, 0)], Accept)],
          [BeginSubgroup(0), BeginObject(0, 0, 1, 0), Reset(0, CANCELLED)], BeginObject(0, 1, 1, 0));
    PayingInsideBreaksCompletion();
    Loses(Subscribe, [Reply([], Accept), Reply([ObjectPayload(0, 0, false)], Accept)],
          [BeginSubgroup(0), PutObject(0, 0, 1, false)], ObjectPayload(0, 0, false));
  }

  lemma {:induction false} FetchesLose(order: GroupOrder)
    ensures LosesAnObject(FetchPayload(0, false))
    ensures LosesAnObject(FetchObject(Location(0, 1), 3, false)) && LosesAnObject(FetchBegin(Location(0, 1), 1, 0))
  {
    hide RunAll, LosesAnObject;
    FetchPayingInsideBreaksCompletion(order);
    Loses(Fetch(order), [Reply([], Accept)] + [Reply([FetchPayload(0, false)], Accept)], [FetchBegin(Location(0, 0), 1, 1)],
          FetchPayload(0, false));
    FetchingInsideEndsUnread(order);
    Loses(Fetch(order), [Reply([FetchObject(Location(0, 1), 3, false)], Accept)], [FetchBegin(Location(0, 0), 5, 0)],
          FetchObject(Location(0, 1), 3, false));
    FetchBeginningInsideLosesAnObject(order);
    Loses(Fetch(order), [Reply([FetchBegin(Location(0, 1), 1, 0)], Accept)], [FetchBegin(Location(0, 0), 1, 0)],
          FetchBegin(Location(0, 1), 1, 0));
  }

  /** Each kind of call that ends a fetch makes one fail and report that all data came in some run, alone. */
  lemma {:induction false} NoEndIsTight(order: GroupOrder)
    ensures CompletesFailed(EndFetch) && CompletesFailed(FetchPayload(1, true))
    ensures CompletesFailed(FetchObject(Location(0, 1), 1, true))
    ensures CompletesFailed(FetchStatus(Location(0, 1), false, true)) && CompletesFailed(FetchUnknown(Location(0, 1), true))
  {
    hide RunAll, CompletesFailed;
    EndingInsideBreaksCompletion(order);
    Completed(order, [Reply([EndFetch], Accept)], [FetchObject(Location(0, 0), 1, false)], EndFetch);
    PayloadInside(order);
    ObjectInside(order);
    StatusInside(order);
    UnknownInside(order);
  }
}
