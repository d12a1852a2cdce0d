/**
  Runs whose callbacks call back at the wrong moment: the promises that ReceiverClaims ties to `early` and `slipped`
  do fail, and a call from inside a callback is harmless otherwise.
 */
module ReceiverLimits {
  import opened Bytes
  import opened ObjectWire
  import opened Locations
  import opened ReceiverModel
  import opened ReceiverInvariant
  import opened ReceiverClaims

  lemma {:induction false} NoReplies(w: Receiver)
    requires w.replies == []
    ensures Callback(w) == (w, Accept) && Expose(w) == (w, Accept)
  {
    assert Callback(w.(exposed := true)) == (w.(exposed := true), Accept);
  }

  /** A callback that makes no call. */
  lemma {:induction false} EmptyReply(w: Receiver, next: seq<Reply>)
    requires w.replies == [Reply([], Accept)] + next
    ensures Callback(w) == (w.(replies := next), Accept) && Expose(w) == (w.(replies := next), Accept)
  {
    assert w.replies[1..] == next;
    var v := w.(exposed := true);
    assert Run(w.(replies := next), []) == w.(replies := next);
    assert Run(v.(replies := next), []) == v.(replies := next);
    assert Callback(v) == (v.(replies := next), Accept);
  }

  /** A callback whose only call is c, when there are no further replies. */
  lemma {:induction false} OneCall(w: Receiver, c: Call, answer: Answer)
    requires w.replies == [Reply([c], answer)]
    ensures Callback(w) == (Apply(w.(replies := []), c), answer)
  {
    hide Apply;
    var r := Apply(w.(replies := []), c);
    assert w.replies[1..] == [];
    assert Run(w.(replies := []), [c]) == Run(r, [c][1..]);
    assert [c][1..] == [];
    assert Run(r, []) == r;
  }

  lemma {:induction false} OneExposedCall(w: Receiver, c: Call, answer: Answer)
    requires w.replies == [Reply([c], answer)]
    ensures Expose(w) == (Apply(w.(replies := [], exposed := true), c).(exposed := w.exposed), answer)
  {
    hide Apply, Callback;
    OneCall(w.(exposed := true), c, answer);
  }

  lemma {:induction false} RunOne(w: Receiver, c: Call)
    ensures RunAll(w, [c]) == Apply(w, c)
  {
    hide Apply;
    assert [c][1..] == [];
    assert RunAll(Apply(w, c), []) == Apply(w, c);
  }

  lemma {:induction false} RunTwo(w: Receiver, c: Call, d: Call)
    ensures RunAll(w, [c, d]) == Apply(Apply(w, c), d)
  {
    hide Apply;
    assert [c, d][1..] == [d];
    RunOne(Apply(w, c), d);
  }

  // ---------------------------------------------------------------- a fetch that completes and fails

  /** endOfFetch when the application's callbacks are over. */
  lemma {:induction false} Completes(w: Receiver)
    requires w.kind.Fetch? && |w.subs| == 1 && !w.terminal && !w.sent && w.replies == [] && w.exposed
    requires w.subs[0].finished || (w.subs[0].current.None? && !w.subs[0].attached && !w.subs[0].owes)
    ensures var r := Apply(w, EndFetch);
      && r.allData == w.allData + 1 && r.early && r.terminal && r.subs[0].finished && |r.subs| == 1
      && |r.objects| == |w.objects| && r.replies == [] && r.kind == w.kind && r.subs[0].code == w.subs[0].code
      && r.subs[0].attached == w.subs[0].attached && r.subs[0].owes == w.subs[0].owes
  {
    hide Callback;
    var v := w.(terminal := true);
    var n := if v.subs[0].finished then v else Notify(WithSub(v, 0, EndedBy(v.kind, v.subs[0], EndOfStream)), 0);
    if !v.subs[0].finished {
      assert EndWith(v, 0, EndOfStream, false) == n;
      assert FinishAtEnd(v, 0) == n;
    }
    assert SubEnd(v, 0) == (n, Done);
    NoReplies(Firing(n));
    assert Fire(n) == Firing(n);
    assert EndTheFetch(w) == Fire(n);
    assert ApplyFetch(w, EndFetch) == Fire(n);
  }

  /** Ending the fetch from inside onObjectBegin: the application is told all data came, and the fetch then fails. */
  lemma EndingInsideBreaksCompletion(order: GroupOrder)
    ensures var w := RunAll(NewReceiver(Fetch(order), [Reply([EndFetch], Accept)]), [FetchObject(Location(0, 0), 1, false)]);
      w.failed && w.allData == 1 && w.early
  {
    hide Callback, Expose, Apply;
    var at := Location(0, 0);
    var w := NewReceiver(Fetch(order), [Reply([EndFetch], Accept)]);
    var c := FetchObject(at, 1, false);
    var w1 := WithSub(w, 0, w.subs[0].(group := 0)).(lastFetch := Some(at));
    assert PrepareFetch(w, at) == (w1, true);
    var w2 := WithSub(w1, 0, w1.subs[0].(last := Some(0)));
    assert Prepare(w1, 0, 0) == (w2, true);
    var a := Announce(w2, 0, 0, 1);
    Completes(a.(replies := [], exposed := true));
    OneExposedCall(a, EndFetch, Accept);
    var r := Expose(a).0;
    var told := Late(r, 0, 0);
    NoReplies(told);
    assert Admitted(r, 0, 0, Accept) == (told, false);
    assert Admit(w2, 0, 0, 1) == (told, false);
    assert SubObject(w1, 0, 0, 1, false) == (told, Error);
    assert PutFetchObject(w, at, 1, false) == told.(failed := true, terminal := true);
    FetchCall(w, c);
    RunOne(w, c);
  }

  lemma {:induction false} FetchCall(w: Receiver, c: Call)
    requires w.kind.Fetch? && |w.subs| > 0
    ensures Apply(w, c) == ApplyFetch(w, c)
  {
    hide ApplyFetch;
  }

  /** A fetch in the middle of its first object. */
  predicate Midway(w: Receiver, order: GroupOrder) {
    && w.kind == Fetch(order) && |w.subs| == 1 && |w.objects| == 1 && !w.terminal && !w.sent && !w.failed && !w.exposed
    && w.subs[0] == NewSubgroup(0, false).(current := Some(0), remaining := 2, last := Some(0))
    && w.lastFetch == Some(Location(0, 0)) && w.allData == 0
  }

  lemma BeginFirst(order: GroupOrder, next: seq<Reply>)
    ensures var r := Apply(NewReceiver(Fetch(order), [Reply([], Accept)] + next), FetchBegin(Location(0, 0), 2, 0));
      Midway(r, order) && r.replies == next
  {
    hide Callback, Expose;
    var at := Location(0, 0);
    var w := NewReceiver(Fetch(order), [Reply([], Accept)] + next);
    var w1 := WithSub(w, 0, w.subs[0].(group := 0)).(lastFetch := Some(at));
    assert PrepareFetch(w, at) == (w1, true);
    var w2 := WithSub(w1, 0, w1.subs[0].(last := Some(0)));
    assert Prepare(w1, 0, 0) == (w2, true);
    var a := Announce(w2, 0, 0, 2);
    EmptyReply(a, next);
    var b := a.(replies := next);
    assert Admitted(b, 0, 0, Accept) == (TakeOver(b, 0, 0), true);
    assert Admit(w2, 0, 0, 2) == (TakeOver(b, 0, 0), true);
    assert Deliver(TakeOver(b, 0, 0), 0, 0, false) == (TakeOver(b, 0, 0), InProgress);
    assert SubBegin(w1, 0, 0, 2, 0) == (TakeOver(b, 0, 0), InProgress);
    assert BeginFetchObject(w, at, 2, 0) == TakeOver(b, 0, 0);
    assert ApplyFetch(w, FetchBegin(at, 2, 0)) == TakeOver(b, 0, 0);
  }

  /** terminateWithError on a fetch whose consumer ends the fetch when told. */
  lemma {:induction false} ErrorThatEnds(w: Receiver)
    requires w.kind.Fetch? && |w.subs| == 1 && |w.objects| == 1 && !w.terminal && !w.sent && w.allData == 0
    requires !w.subs[0].finished && w.subs[0].current == Some(0) && !w.subs[0].attached && !w.subs[0].owes
    requires w.replies == [Reply([EndFetch], Accept)]
    ensures var r := Terminate(w, 0, MALFORMED_TRACK); r.allData == 1 && r.early
  {
    hide Callback, Expose, Apply;
    var x := Terminated(w.subs[0], MALFORMED_TRACK);
    var f := Failing(w, 0, x, 0, MALFORMED_TRACK);
    Completes(f.(replies := [], exposed := true));
    OneExposedCall(f, EndFetch, Accept);
    var w1 := Expose(f).0;
    assert FailCurrent(w, 0, x, MALFORMED_TRACK) == w1;
    var w2 := AtTerminal(w1, 0, SubgroupError(MALFORMED_TRACK));
    NoReplies(w2);
    assert Terminate(w, 0, MALFORMED_TRACK) == Notify(w2, 0);
  }

  /**
    Ending the fetch from inside a consumer's onError, when an object arrived in the middle of another: again all data
    is reported and the fetch fails.
   */
  lemma EndingInsideErrorBreaksCompletion(order: GroupOrder)
    ensures var w := RunAll(NewReceiver(Fetch(order), [Reply([], Accept), Reply([EndFetch], Accept)]),
                            [FetchBegin(Location(0, 0), 2, 0), FetchObject(Location(0, 1), 1, false)]);
      w.failed && w.allData == 1 && w.early
  {
    hide Callback, Expose, Apply, Terminate;
    var next := [Reply([EndFetch], Accept)];
    var c, d := FetchBegin(Location(0, 0), 2, 0), FetchObject(Location(0, 1), 1, false);
    assert [Reply([], Accept), Reply([EndFetch], Accept)] == [Reply([], Accept)] + next;
    var start := NewReceiver(Fetch(order), [Reply([], Accept)] + next);
    BeginFirst(order, next);
    var w := Apply(start, c);
    var at := Location(0, 1);
    var w1 := WithSub(w, 0, w.subs[0].(group := 0)).(lastFetch := Some(at));
    assert PrepareFetch(w, at) == (w1, true);
    ErrorThatEnds(w1);
    var r := Terminate(w1, 0, MALFORMED_TRACK);
    assert Prepare(w1, 0, 1) == (r, false);
    assert SubObject(w1, 0, 1, 1, false) == (r, Error);
    assert PutFetchObject(w, at, 1, false) == r.(failed := true, terminal := true);
    FetchCall(w, d);
    RunTwo(start, c, d);
  }

  /**
    An object begun from inside the onUnknownRange of the last range is harmless: the fetch completes and does not
    fail. The object stays in flight until the destructor tells its consumer.
   */
  lemma BeginningInsideUnknownRange(order: GroupOrder)
    ensures var w := RunAll(NewReceiver(Fetch(order), [Reply([FetchBegin(Location(0, 1), 2, 0)], Accept)]),
                            [FetchUnknown(Location(0, 0), true)]);
      && w.allData == 1 && !w.failed && !w.early && !w.slipped
      && |w.subs| == 1 && w.subs[0].finished && w.subs[0].current == Some(0)
      && |w.objects| == 1 && w.objects[0].log == []
      && DestroyFetch(w).objects[0].log == [Failed(CANCELLED)]
  {
    hide Callback, Expose, Apply;
    var at, c := Location(0, 0), FetchUnknown(Location(0, 0), true);
    var w := NewReceiver(Fetch(order), [Reply([FetchBegin(Location(0, 1), 2, 0)], Accept)]);
    var w1 := WithSub(w, 0, w.subs[0].(group := 0)).(lastFetch := Some(at));
    assert PrepareFetch(w, at) == (w1, true);
    var w2 := w1.(delivered := [at]);
    assert w1.delivered + [at] == [at];
    OneCall(w2, FetchBegin(Location(0, 1), 2, 0), Accept);
    SecondObject(w2.(replies := []));
    var w3 := Callback(w2).0;
    var v := WithSub(w3.(terminal := true), 0, w3.subs[0].(finished := true));
    NoReplies(Firing(v));
    assert Fire(v) == Firing(v);
    assert FinishFetch(w3) == Firing(v);
    assert PutFetchUnknown(w, at, true) == Firing(v);
    FetchCall(w, c);
    RunOne(w, c);
    assert [] + [Failed(CANCELLED)] == [Failed(CANCELLED)];
  }

  lemma {:induction false} SecondObject(w: Receiver)
    requires w.kind.Fetch? && |w.subs| == 1 && w.objects == [] && !w.terminal && !w.sent && !w.failed && !w.exposed
    requires w.subs[0] == NewSubgroup(0, false) && w.lastFetch == Some(Location(0, 0)) && w.allData == 0
    requires w.replies == [] && !w.early && !w.slipped
    ensures var r := Apply(w, FetchBegin(Location(0, 1), 2, 0));
      && r.kind == w.kind && |r.subs| == 1 && |r.objects| == 1 && r.objects[0].log == [] && r.subs[0].current == Some(0)
      && !r.terminal && !r.sent && !r.failed && !r.exposed && r.allData == 0 && !r.early && !r.slipped && r.replies == []
  {
    hide Callback, Expose;
    var at := Location(0, 1);
    var w1 := WithSub(w, 0, w.subs[0].(group := 0)).(lastFetch := Some(at));
    assert PrepareFetch(w, at) == (w1, true);
    var w2 := WithSub(w1, 0, w1.subs[0].(last := Some(1)));
    assert Prepare(w1, 0, 1) == (w2, true);
    var a := Announce(w2, 0, 1, 2);
    NoReplies(a);
    assert Admitted(a, 0, 0, Accept) == (TakeOver(a, 0, 0), true);
    assert Admit(w2, 0, 1, 2) == (TakeOver(a, 0, 0), true);
    assert Deliver(TakeOver(a, 0, 0), 0, 0, false) == (TakeOver(a, 0, 0), InProgress);
    assert SubBegin(w1, 0, 1, 2, 0) == (TakeOver(a, 0, 0), InProgress);
    assert BeginFetchObject(w, at, 2, 0) == TakeOver(a, 0, 0);
    assert ApplyFetch(w, FetchBegin(at, 2, 0)) == TakeOver(a, 0, 0);
  }

  // ---------------------------------------------------------------- objects that slip

  /** A fresh subscription with one open subgroup. */
  function OneSubgroup(replies: seq<Reply>): Receiver {
    NewReceiver(Subscribe, replies).(subs := [NewSubgroup(0, true)], open := 1)
  }

  lemma {:induction false} FirstSubgroup(replies: seq<Reply>, calls: seq<Call>)
    ensures RunAll(NewReceiver(Subscribe, replies), [BeginSubgroup(0)] + calls) == RunAll(OneSubgroup(replies), calls)
  {
    var w := NewReceiver(Subscribe, replies);
    assert w.subs + [NewSubgroup(0, true)] == [NewSubgroup(0, true)];
    assert Apply(w, BeginSubgroup(0)) == OneSubgroup(replies);
    assert ([BeginSubgroup(0)] + calls)[1..] == calls;
  }

  /** An empty payload for an object that has had all its bytes. */
  lemma {:induction false} EmptyPayloadAgain(w: Receiver)
    requires w.kind.Subscribe? && |w.subs| == 1 && |w.objects| == 1 && w.replies == []
    requires !w.subs[0].finished && w.subs[0].current == Some(0) && w.subs[0].remaining == 0
    ensures var r := Apply(w, ObjectPayload(0, 0, false));
      && |r.subs| == 1 && |r.objects| == 1 && !r.subs[0].finished && r.replies == [] && r.kind == w.kind
      && r.objects[0].log == w.objects[0].log + [Payload(0, true)]
      && r.slipped == (w.slipped || Repeats(w, 0, w.objects[0]))
  {
    hide Callback, Expose;
    var p := Pay(w, 0, 0);
    NoReplies(p);
    assert Paid(p, 0, true, false, Accept) == (Released(p, 0), Done);
    assert HandIn(w, 0, 0, false) == (Released(p, 0), Done);
    assert Deliver(w, 0, 0, false) == (Released(p, 0), Done);
    assert SubPayload(w, 0, 0, false) == Deliver(w, 0, 0, false);
  }

  /** Delivering a byte whose acknowledgement delivers an empty payload. */
  lemma {:induction false} AcknowledgedTwice(w: Receiver)
    requires w.kind.Subscribe? && |w.subs| == 1 && |w.objects| == 1 && !w.subs[0].finished
    requires w.subs[0].current == Some(0) && w.subs[0].remaining == 1 && w.objects[0].log == []
    requires w.replies == [Reply([ObjectPayload(0, 0, false)], Accept)]
    ensures var r := Deliver(w, 0, 1, false).0;
      |r.objects| == 1 && r.objects[0].log == [Payload(1, true), Payload(0, true)] && r.slipped
  {
    hide Callback, Expose, Apply;
    var p := Pay(w, 0, 1);
    assert p.objects[0].log == [Payload(1, true)];
    EmptyPayloadAgain(p.(replies := [], exposed := true));
    OneExposedCall(p, ObjectPayload(0, 0, false), Accept);
    var r := Expose(p).0;
    assert Paid(r, 0, true, false, Accept) == (Released(r, 0), Done);
    assert HandIn(w, 0, 1, false) == (Released(r, 0), Done);
    assert [Payload(1, true)] + [Payload(0, true)] == [Payload(1, true), Payload(0, true)];
  }

  /** An empty payload from inside the onPayload that completes an object: endOfObject is set twice. */
  lemma PayingInsideBreaksCompletion()
    ensures var w := RunAll(NewReceiver(Subscribe, [Reply([], Accept), Reply([ObjectPayload(0, 0, false)], Accept)]),
                            [BeginSubgroup(0), PutObject(0, 0, 1, false)]);
      |w.objects| > 0 && w.objects[0].log == [Payload(1, true), Payload(0, true)] && w.slipped
  {
    hide Callback, Expose, Deliver;
    var last := [Reply([ObjectPayload(0, 0, false)], Accept)];
    var c := PutObject(0, 0, 1, false);
    assert [Reply([], Accept), Reply([ObjectPayload(0, 0, false)], Accept)] == [Reply([], Accept)] + last;
    assert [BeginSubgroup(0), c] == [BeginSubgroup(0)] + [c];
    FirstSubgroup([Reply([], Accept)] + last, [c]);
    var w := OneSubgroup([Reply([], Accept)] + last);
    var w1 := WithSub(w, 0, w.subs[0].(last := Some(0)));
    assert Prepare(w, 0, 0) == (w1, true);
    var a := Announce(w1, 0, 0, 1);
    EmptyReply(a, last);
    var b := a.(replies := last);
    var d := TakeOver(b, 0, 0);
    assert Admitted(b, 0, 0, Accept) == (d, true);
    assert Admit(w1, 0, 0, 1) == (d, true);
    AcknowledgedTwice(d);
    assert SubObject(w, 0, 0, 1, false) == Deliver(d, 0, 1, false);
    assert Apply(w, c) == Deliver(d, 0, 1, false).0;
    RunOne(w, c);
  }

  /** beginObject for a one-byte object whose first bytes have not come, when no callback is left to answer. */
  lemma {:induction false} PlainBegin(w: Receiver, id: u64)
    requires w.kind.Subscribe? && |w.subs| == 1 && w.replies == []
    requires !w.subs[0].finished && w.subs[0].current.None? && (w.subs[0].last.Some? ==> w.subs[0].last.value < id)
    ensures var r := Apply(w, BeginObject(0, id, 1, 0));
      && |r.subs| == 1 && r.kind == w.kind && r.replies == []
      && !r.subs[0].finished && r.subs[0].remaining == 1 && r.subs[0].current == Some(|w.objects|)
      && r.objects == w.objects + [Object(0, id, 1, true, [])]
  {
    hide Callback, Expose;
    var w1 := WithSub(w, 0, w.subs[0].(last := Some(id)));
    assert Prepare(w, 0, id) == (w1, true);
    var a := Announce(w1, 0, id, 1);
    NoReplies(a);
    var d := TakeOver(a, 0, |w.objects|);
    assert Admitted(a, 0, |w.objects|, Accept) == (d, true);
    assert Admit(w1, 0, id, 1) == (d, true);
    assert Deliver(d, 0, 0, false) == (d, InProgress);
    assert SubBegin(w, 0, id, 1, 0) == (d, InProgress);
  }

  /** Opening object 1 from inside the onObjectBegin of object 0. */
  lemma BeginInside()
    ensures var r := Apply(OneSubgroup([Reply([BeginObject(0, 1, 1, 0)], Accept)]), BeginObject(0, 0, 1, 0));
      && r.kind.Subscribe? && |r.subs| == 1 && !r.subs[0].finished && r.subs[0].current == Some(0) && r.replies == []
      && r.objects == [Object(0, 0, 1, true, []), Object(0, 1, 1, true, [])] && r.slipped
  {
    hide Callback, Expose, Apply;
    var c := BeginObject(0, 1, 1, 0);
    var w := OneSubgroup([Reply([c], Accept)]);
    var w1 := WithSub(w, 0, w.subs[0].(last := Some(0)));
    assert Prepare(w, 0, 0) == (w1, true);
    var a := Announce(w1, 0, 0, 1);
    PlainBegin(a.(replies := [], exposed := true), 1);
    OneExposedCall(a, c, Accept);
    var r := Expose(a).0;
    var d := TakeOver(r, 0, 0);
    assert Admitted(r, 0, 0, Accept) == (d, true);
    assert Admit(w1, 0, 0, 1) == (d, true);
    assert Deliver(d, 0, 0, false) == (d, InProgress);
    assert SubBegin(w, 0, 0, 1, 0) == (d, InProgress);
    ApplyBegin(w, 0, 1, 0);
  }

  lemma {:induction false} ApplyBegin(w: Receiver, id: u64, length: nat, initial: nat)
    requires w.kind.Subscribe? && |w.subs| > 0
    ensures Apply(w, BeginObject(0, id, length, initial)) == SubBegin(w, 0, id, length, initial).0
  {
    hide SubBegin;
  }

  /** A new object from inside onObjectBegin: the inner object's consumer is dropped without a word. */
  lemma BeginningInsideLosesAnObject()
    ensures var w := RunAll(NewReceiver(Subscribe, [Reply([BeginObject(0, 1, 1, 0)], Accept)]),
                            [BeginSubgroup(0), BeginObject(0, 0, 1, 0), Reset(0, CANCELLED)]);
      |w.subs| == 1 && w.subs[0].finished && |w.objects| == 2 && w.objects[1] == Object(0, 1, 1, true, []) && w.slipped
  {
    hide Apply;
    var c, reset := BeginObject(0, 0, 1, 0), Reset(0, CANCELLED);
    var replies := [Reply([BeginObject(0, 1, 1, 0)], Accept)];
    assert [BeginSubgroup(0), c, reset] == [BeginSubgroup(0)] + [c, reset];
    FirstSubgroup(replies, [c, reset]);
    BeginInside();
    var w := OneSubgroup(replies);
    ResetFailsCurrent(Apply(w, c));
    RunTwo(w, c, reset);
  }

  lemma {:induction false} FireAlone(w: Receiver)
    requires w.replies == []
    ensures Fire(w).subs == w.subs && Fire(w).objects == w.objects && Fire(w).slipped == w.slipped
  {
    hide Callback;
    NoReplies(Firing(w));
  }

  lemma {:induction false} FinishedAlone(w: Receiver)
    requires w.replies == []
    ensures var r := SubgroupFinished(w); r.subs == w.subs && r.objects == w.objects && r.slipped == w.slipped
  {
    hide Fire;
    FireAlone(w.(open := if w.open > 0 then w.open - 1 else 0));
  }

  lemma {:induction false} NotifyAlone(w: Receiver)
    requires |w.subs| == 1 && w.replies == []
    ensures var r := Notify(w, 0);
      |r.subs| == 1 && r.subs[0].finished && r.objects == w.objects && r.slipped == w.slipped
  {
    hide SubgroupFinished;
    FinishedAlone(WithSub(w, 0, w.subs[0].(finished := true, attached := false, owes := false, ending := false)));
  }

  lemma {:induction false} ResetFailsCurrent(w: Receiver)
    requires w.kind.Subscribe? && |w.subs| == 1 && |w.objects| == 2 && w.replies == []
    requires !w.subs[0].finished && w.subs[0].current == Some(0)
    ensures var r := Apply(w, Reset(0, CANCELLED));
      |r.subs| == 1 && r.subs[0].finished && |r.objects| == 2 && r.objects[1] == w.objects[1] && r.slipped == w.slipped
  {
    hide Callback, Expose, Notify;
    var x := Terminated(w.subs[0], CANCELLED);
    var w1 := Failing(w, 0, x, 0, CANCELLED);
    NoReplies(w1);
    assert FailCurrent(w, 0, x, CANCELLED) == w1;
    hide FailCurrent;
    var w2 := AtTerminal(w1, 0, SubgroupError(CANCELLED));
    NoReplies(w2);
    NotifyAlone(w2);
    assert Terminate(w, 0, CANCELLED) == Notify(w2, 0);
  }
}
