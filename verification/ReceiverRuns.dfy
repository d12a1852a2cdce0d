/** Every call on a streaming receiver, with whatever its callbacks call in turn, keeps the invariant. */
module ReceiverRuns {
  import opened Bytes
  import opened ObjectWire
  import opened Locations
  import opened ReceiverModel
  import opened ReceiverInvariant

  // ---------------------------------------------------------------- relations

  /** Unless the fetch was exposed already, completing it early ends with failing it. */
  predicate Blamed(w: Receiver, r: Receiver) {
    w.kind.Fetch? ==> (r.early && !r.failed && !w.exposed ==> w.early && !w.failed)
  }

  /** A fetch that completed under this operation did so under one of its callbacks. */
  predicate Exposing(w: Receiver, r: Receiver) { w.kind.Fetch? ==> (r.sent && !w.sent ==> r.early) }

  /** The effect of a whole call. */
  ghost predicate Keeps(w: Receiver, r: Receiver) { Inv(r) && Held(w, r) && Blamed(w, r) }

  /** The effect of a part of a delivery. */
  ghost predicate Kept(w: Receiver, r: Receiver) { Inv(r) && Held(w, r) && Exposing(w, r) }

  /** The same, for a frame of subgroup s that knows about s itself. */
  ghost predicate KeptBut(w: Receiver, r: Receiver, s: nat) { Inv(r) && HeldBut(w, r, s) && Exposing(w, r) }

  lemma KindHeld(a: Receiver, b: Receiver, s: int)
    requires HeldBut(a, b, s)
    ensures a.kind == b.kind && a.exposed == b.exposed && (a.early ==> b.early) && (a.slipped ==> b.slipped) && Grows(a, b)
    ensures HeldFetch(a, b)
  {
    hide HeldFetch;
  }

  lemma KeepsRefl(w: Receiver)
    requires Inv(w)
    ensures Keeps(w, w) && Kept(w, w)
  {
    hide Inv;
  }

  lemma KeepsInv(a: Receiver, b: Receiver)
    requires Keeps(a, b)
    ensures Inv(b)
  {
    hide Inv;
  }

  lemma KeepsTrans(a: Receiver, b: Receiver, c: Receiver)
    requires Keeps(a, b) && Keeps(b, c)
    ensures Keeps(a, c)
  {
    hide Inv, HeldBut, HeldFetch;
    KindHeld(a, b, -1);
    HeldTrans(a, b, c, -1);
  }

  lemma KeptTrans(a: Receiver, b: Receiver, c: Receiver)
    requires Kept(a, b) && Kept(b, c)
    ensures Kept(a, c)
  {
    hide Inv, HeldBut, HeldFetch;
    KindHeld(a, b, -1);
    KindHeld(b, c, -1);
    HeldTrans(a, b, c, -1);
  }

  lemma KeptButTrans(a: Receiver, b: Receiver, c: Receiver, s: nat)
    requires s < |a.subs| && KeptBut(a, b, s) && KeptBut(b, c, s)
    ensures KeptBut(a, c, s)
  {
    hide Inv, HeldBut, HeldFetch;
    KindHeld(a, b, s);
    KindHeld(b, c, s);
    HeldTrans(a, b, c, s);
  }

  lemma Weaker(w: Receiver, r: Receiver, s: nat)
    requires Kept(w, r)
    ensures KeptBut(w, r, s)
  {
    hide Inv, HeldFetch;
  }

  lemma Joined(w: Receiver, r: Receiver, s: nat)
    requires KeptBut(w, r, s) && s < |w.subs| <= |r.subs|
    requires HeldSub(w.subs[s], r.subs[s]) && HeldFull(w.objects, w.subs[s], r.subs[s], r.slipped)
    ensures Kept(w, r)
  {
    hide Inv, HeldBut;
    HeldAll(w, r, s);
  }

  /** A subgroup that this frame has finished. */
  lemma JoinedFinished(w: Receiver, r: Receiver, s: nat)
    requires KeptBut(w, r, s) && s < |w.subs| <= |r.subs| && !w.subs[s].finished && r.subs[s].finished
    requires w.subs[s].ending == r.subs[s].ending
    ensures Kept(w, r)
  {
    hide Inv, HeldBut;
    Joined(w, r, s);
  }

  lemma FlagsHeld(w: Receiver, r: Receiver, s: nat)
    requires Held(w, r) && s < |w.subs|
    ensures |w.subs| <= |r.subs|
    ensures HeldSub(w.subs[s], r.subs[s]) && HeldFull(w.objects, w.subs[s], r.subs[s], r.slipped)
  {
    hide HeldFetch;
    assert HeldSub(w.subs[s], r.subs[s]);
  }

  lemma ObjectHeld(w: Receiver, r: Receiver, s: int, k: nat)
    requires HeldBut(w, r, s) && k < |w.objects|
    ensures |w.objects| <= |r.objects| && HeldObject(w.subs, r.subs, w.objects[k], r.objects[k], k)
  {
    hide HeldFetch;
  }

  // ---------------------------------------------------------------- callbacks

  /** The invariant is not about the environment. */
  lemma InvAt(w: Receiver, replies: seq<Reply>, exposed: bool)
    requires Inv(w)
    ensures Inv(w.(replies := replies, exposed := exposed))
  {
    hide SubOk, ObjectOk, CountOpen, Ascending, UpTo, Numbered, AccountOk, SomeBroken;
  }

  lemma HeldAt(w: Receiver, r: Receiver, replies: seq<Reply>)
    requires Held(w.(replies := replies), r) && |replies| <= |w.replies|
    ensures Held(w, r)
  {
  }

  lemma {:induction false} CallbackKeeps(w: Receiver)
    requires Inv(w)
    ensures Keeps(w, Callback(w).0)
    decreases |w.replies|, 0, 0
  {
    hide Run, Inv, HeldBut;
    KeepsRefl(w);
    if w.replies != [] {
      InvAt(w, w.replies[1..], w.exposed);
      var inner := w.(replies := w.replies[1..]);
      assert inner == w.(replies := w.replies[1..], exposed := w.exposed);
      RunKeeps(inner, w.replies[0].calls);
      HeldAt(w, Run(inner, w.replies[0].calls), w.replies[1..]);
    }
  }

  lemma HeldExposed(w: Receiver, r: Receiver)
    requires Held(w.(exposed := true), r)
    ensures var r' := r.(exposed := w.exposed); Held(w, r') && Exposing(w, r')
  {
  }

  lemma {:induction false} ExposeKeeps(w: Receiver)
    requires Inv(w)
    ensures Kept(w, Expose(w).0)
    decreases |w.replies|, 0, 1
  {
    hide Callback, Inv, HeldBut;
    InvAt(w, w.replies, true);
    var w' := w.(exposed := true);
    assert w' == w.(replies := w.replies, exposed := true);
    CallbackKeeps(w');
    var r := Callback(w').0;
    HeldExposed(w, r);
    InvAt(r, r.replies, w.exposed);
    assert r.(exposed := w.exposed) == r.(replies := r.replies, exposed := w.exposed);
  }

  /** A plain callback is as good where no fetch can complete unseen. */
  lemma {:induction false} CallbackKept(w: Receiver)
    requires Inv(w) && (w.kind.Fetch? ==> w.terminal)
    ensures Kept(w, Callback(w).0)
    decreases |w.replies|, 0, 1
  {
    hide Callback, Inv, HeldBut;
    CallbackKeeps(w);
    KindHeld(w, Callback(w).0, -1);
  }

  lemma {:induction false} RunKeeps(w: Receiver, calls: seq<Call>)
    requires Inv(w)
    ensures Keeps(w, Run(w, calls))
    decreases |w.replies|, 6, |calls|
  {
    hide Inv, Apply, HeldBut, Keeps;
    KeepsRefl(w);
    if calls != [] {
      var w' := Apply(w, calls[0]);
      ApplyKeeps(w, calls[0]);
      KeepsInv(w, w');
      RunKeeps(w', calls[1..]);
      KeepsTrans(w, w', Run(w', calls[1..]));
    }
  }

  /** A callback while a frame of the finished subgroup s is on the stack. */
  lemma {:induction false} ExposeBut(w: Receiver, s: nat)
    requires Inv(w) && s < |w.subs| && w.subs[s].finished
    ensures KeptBut(w, Expose(w).0, s) && Same(w.subs[s], Expose(w).0.subs[s])
    decreases |w.replies|, 0, 2
  {
    hide Inv, Expose, HeldBut;
    ExposeKeeps(w);
    var r := Expose(w).0;
    FlagsHeld(w, r, s);
    Weaker(w, r, s);
  }

  lemma {:induction false} CallbackBut(w: Receiver, s: nat)
    requires Inv(w) && s < |w.subs| && w.subs[s].finished && (w.kind.Fetch? ==> w.terminal)
    ensures KeptBut(w, Callback(w).0, s) && Same(w.subs[s], Callback(w).0.subs[s])
    decreases |w.replies|, 0, 2
  {
    hide Inv, Callback, HeldBut;
    CallbackKept(w);
    var r := Callback(w).0;
    FlagsHeld(w, r, s);
    Weaker(w, r, s);
  }

  // ---------------------------------------------------------------- ending a subgroup

  lemma CheckSub(w: Receiver, s: nat)
    requires Inv(w) && s < |w.subs|
    ensures SubOk(w.kind, w.objects, w.subs[s], s)
  {
    hide SubOk, ObjectsOk, Books, OwnOk;
  }

  lemma CheckObject(w: Receiver, k: nat)
    requires Inv(w) && k < |w.objects|
    ensures ObjectOk(w.subs, w.objects[k]) && (!w.slipped ==> AccountOk(w.subs, w.objects[k], k))
  {
    hide ObjectOk, SubsOk, OwnOk, AccountOk;
  }

  lemma Swapped(w: Receiver, s: nat, x: Subgroup)
    requires s < |w.subs| && (x.current == w.subs[s].current || x.current.None?)
    ensures var r := WithSub(w, s, x); HeldBut(w, r, s) && Exposing(w, r)
  {
  }

  /** A subgroup whose frame is about to notify the parent. */
  predicate Closing(w: Receiver, s: nat) {
    && s < |w.subs|
    && w.subs[s].finished
    && w.subs[s].ending
    && w.subs[s].current.None?
    && (w.kind.Subscribe? ==> |w.subs[s].terminals| == 1)
  }

  function Closed(sub: Subgroup): Subgroup { sub.(finished := true, attached := false, owes := false, ending := false) }

  /** The state in which onAllDataReceived is called, or in which Notify returns without calling it. */
  function Told(w: Receiver, s: nat): (r: Receiver)
    requires s < |w.subs|
    ensures |r.subs| == |w.subs|
  {
    var n := WithSub(w, s, Closed(w.subs[s])).(open := if w.open > 0 then w.open - 1 else 0);
    if n.done && n.open == 0 then Firing(n) else n
  }

  lemma {:induction false} NotifyUnfolds(w: Receiver, s: nat)
    requires s < |w.subs| && !w.sent
    ensures Counted(w.subs[s]) ==>
      Notify(w, s) == if Told(w, s).done && Told(w, s).open == 0 then Callback(Told(w, s)).0 else Told(w, s)
    ensures !Counted(w.subs[s]) ==> Notify(w, s) == WithSub(w, s, Closed(w.subs[s]))
  {
    hide Callback;
    var v := WithSub(w, s, Closed(w.subs[s]));
    var n := v.(open := if w.open > 0 then w.open - 1 else 0);
    assert SubgroupFinished(v) == if n.done && n.open == 0 then Fire(n) else n;
    assert Fire(n) == Callback(Firing(n)).0;
  }

  lemma {:induction false} NotifyKeeps(w: Receiver, s: nat)
    requires Inv(w) && Closing(w, s)
    ensures KeptBut(w, Notify(w, s), s) && Same(Closed(w.subs[s]), Notify(w, s).subs[s])
    decreases |w.replies|, 3, 0
  {
    hide Callback, Notify, HeldBut, Inv;
    if Counted(w.subs[s]) {
      Notified(w, s);
      NotifyUnfolds(w, s);
      var u := Told(w, s);
      if u.done && u.open == 0 {
        CallbackBut(u, s);
        KeptButTrans(w, u, Callback(u).0, s);
      }
    } else {
      NobodyToNotify(w, s);
    }
  }

  lemma {:induction false} NobodyToNotify(w: Receiver, s: nat)
    requires Inv(w) && Closing(w, s) && !Counted(w.subs[s])
    ensures KeptBut(w, Notify(w, s), s) && Notify(w, s).subs[s] == Closed(w.subs[s])
  {
    hide Inv, HeldBut, InFlight, SubgroupFinished;
    CheckSub(w, s);
    SubUpdated(w, s, Closed(w.subs[s]));
    Swapped(w, s, Closed(w.subs[s]));
  }

  lemma Notified(w: Receiver, s: nat)
    requires Inv(w) && Closing(w, s) && Counted(w.subs[s])
    ensures KeptBut(w, Told(w, s), s) && !w.sent && w.kind.Subscribe?
  {
    hide CountOpen, Numbered, SubsOk, ObjectsOk, Books, SubOk, HeldBut;
    CheckSub(w, s);
    CountedIsSubscribed(w.kind, w.objects, w.subs[s], s);
    CountUpdate(w.subs, s, Closed(w.subs[s]));
    StaysNumbered(w.subs, s, Closed(w.subs[s]), w.objects);
    ToldParts(w, s);
    ToldHeld(w, s);
  }

  lemma CountedIsSubscribed(kind: Kind, objects: seq<Object>, sub: Subgroup, s: nat)
    requires SubOk(kind, objects, sub, s) && Counted(sub)
    ensures kind.Subscribe? && !Counted(Closed(sub))
  {
    hide InFlight;
  }

  lemma ToldParts(w: Receiver, s: nat)
    requires Inv(w) && Closing(w, s)
    ensures var u := Told(w, s); SubsOk(u) && ObjectsOk(u) && Books(u)
  {
    hide Books, SubOk, ObjectOk, OwnOk;
    var v := WithSub(w, s, Closed(w.subs[s]));
    CheckSub(w, s);
    ClosedSub(w.kind, w.objects, w.subs[s], s);
    SubLawful(w, s, Closed(w.subs[s]));
    var u := Told(w, s);
    ToldObjects(w, s);
    SubBooks(w, s, Closed(w.subs[s]));
    SameBooks(v, u);
  }

  lemma ClosedSub(kind: Kind, objects: seq<Object>, sub: Subgroup, s: nat)
    requires SubOk(kind, objects, sub, s) && sub.finished && sub.current.None? && (kind.Subscribe? ==> |sub.terminals| == 1)
    ensures SubOk(kind, objects, Closed(sub), s)
  {
  }

  lemma ToldObjects(w: Receiver, s: nat)
    requires ObjectsOk(w) && Closing(w, s)
    ensures ObjectsOk(Told(w, s)) && forall k :: 0 <= k < |w.objects| ==> w.objects[k].subgroup < |w.subs|
  {
    hide ErrorLast;
    var u := Told(w, s);
    forall k | 0 <= k < |w.objects| ensures w.objects[k].subgroup < |w.subs| && ObjectOk(u.subs, u.objects[k]) {
      assert ObjectOk(w.subs, w.objects[k]);
    }
  }

  lemma SameBooks(a: Receiver, b: Receiver)
    requires Books(a) && a.subs == b.subs && a.objects == b.objects && a.slipped == b.slipped
    ensures Books(b)
  {
    hide AccountOk, SomeBroken;
  }

  lemma ToldHeld(w: Receiver, s: nat)
    requires s < |w.subs| && w.kind.Subscribe?
    ensures HeldBut(w, Told(w, s), s) && Exposing(w, Told(w, s))
  {
    hide HeldBut;
    Swapped(w, s, Closed(w.subs[s]));
    OwnHeld(w, WithSub(w, s, Closed(w.subs[s])), Told(w, s), s);
  }

  /** The rest of the receiver changes. */
  lemma OwnHeld(w: Receiver, v: Receiver, u: Receiver, s: int)
    requires HeldBut(w, v, s) && w.kind.Subscribe?
    requires u == v.(open := u.open, sent := u.sent, allData := u.allData, early := u.early) && (v.early ==> u.early)
    ensures HeldBut(w, u, s)
  {
    hide HeldSub, HeldFull, HeldObject;
  }

  // ---------------------------------------------------------------- terminateWithError

  lemma CurrentObject(w: Receiver, s: nat)
    requires Inv(w) && s < |w.subs| && w.subs[s].current.Some?
    ensures var k := w.subs[s].current.value;
      && k < |w.objects|
      && InFlight(w.objects[k], s)
      && ErrorLast(w.objects[k].log)
      && (!w.slipped ==> LogOk(w.objects[k].declared, w.objects[k].log) && Balanced(w.objects[k], w.subs[s]))
  {
    hide LogOk, Inv, ErrorLast, Got, Balanced;
    CheckSub(w, s);
    CheckObject(w, w.subs[s].current.value);
  }

  lemma FailingInv(w: Receiver, s: nat, code: ResetCode)
    requires Inv(w) && s < |w.subs| && w.subs[s].current.Some? && !w.subs[s].finished
    ensures var k := w.subs[s].current.value;
      k < |w.objects| && Inv(Failing(w, s, Terminated(w.subs[s], code), k, code))
  {
    hide LogOk, Ended, Got, Inv, ErrorLast, Books, Balanced;
    var k := w.subs[s].current.value;
    CheckSub(w, s);
    CurrentObject(w, s);
    var o, x := w.objects[k], Terminated(w.subs[s], code);
    var o' := o.(log := o.log + [Failed(code)]);
    LogSnoc(o.log, Failed(code), o.declared);
    if !w.slipped {
      CheckObject(w, k);
    }
    BothBooks(w, s, x, k, o');
    BothUpdated(w, s, x, k, o', w.slipped);
    assert WithSub(w, s, x).(objects := w.objects[k := o'], slipped := w.slipped) == Failing(w, s, x, k, code);
  }

  lemma FailingHeld(w: Receiver, s: nat, x: Subgroup, k: nat, code: ResetCode)
    requires s < |w.subs| && k < |w.objects| && w.subs[s].current == Some(k) && w.objects[k].subgroup == s && x.current.None?
    requires w.objects[k].admitted
    ensures var r := Failing(w, s, x, k, code); HeldBut(w, r, s) && Exposing(w, r)
  {
  }

  lemma StoppingKeeps(w: Receiver, s: nat, code: ResetCode)
    requires Inv(w) && s < |w.subs| && !w.subs[s].finished && w.subs[s].current.None?
    ensures KeptBut(w, WithSub(w, s, Terminated(w.subs[s], code)), s)
  {
    hide Inv, HeldBut, InFlight;
    CheckSub(w, s);
    SubUpdated(w, s, Terminated(w.subs[s], code));
    Swapped(w, s, Terminated(w.subs[s], code));
  }

  lemma FreshSub(w: Receiver, s: nat)
    requires Inv(w) && s < |w.subs| && !w.subs[s].finished
    ensures w.subs[s].terminals == [] && !w.subs[s].ending && !w.subs[s].owes && w.subs[s].code.None?
  {
    hide InFlight, Inv;
    CheckSub(w, s);
  }

  lemma IsTerminated(sub: Subgroup, code: ResetCode)
    ensures var x := Terminated(sub, code);
      && x.finished && x.ending && x.current.None? && x.terminals == sub.terminals && x.code == Some(code)
      && x.attached == sub.attached && x.owes == sub.owes
  {
  }

  /** terminateWithError up to its terminal callback. */
  lemma {:induction false} TerminateStart(w: Receiver, s: nat, code: ResetCode)
    requires Inv(w) && s < |w.subs| && !w.subs[s].finished
    ensures var w1 := FailCurrent(w, s, Terminated(w.subs[s], code), code);
      KeptBut(w, w1, s) && Same(Terminated(w.subs[s], code), w1.subs[s])
    decreases |w.replies|, 1, 0
  {
    hide Inv, Expose, HeldBut, Terminated, InFlight;
    var x := Terminated(w.subs[s], code);
    IsTerminated(w.subs[s], code);
    if w.subs[s].current.Some? {
      var k := w.subs[s].current.value;
      FailingInv(w, s, code);
      CurrentObject(w, s);
      ObjectOfCurrent(w, s);
      FailingHeld(w, s, x, k, code);
      var w0 := Failing(w, s, x, k, code);
      ExposeBut(w0, s);
      KeptButTrans(w, w0, Expose(w0).0, s);
    } else {
      StoppingKeeps(w, s, code);
    }
  }

  lemma ObjectOfCurrent(w: Receiver, s: nat)
    requires Inv(w) && s < |w.subs| && w.subs[s].current.Some?
    ensures var k := w.subs[s].current.value;
      k < |w.objects| && w.objects[k].subgroup == s && w.objects[k].admitted
  {
    hide Inv;
    CheckSub(w, s);
  }

  /** Replacing a finished subgroup's record in a way the frame on the stack is entitled to. */
  lemma FinishedUpdated(w: Receiver, s: nat, x: Subgroup)
    requires Inv(w) && s < |w.subs| && w.subs[s].finished && w.subs[s].current.None?
    requires x.finished && x.ending && x.current.None? && x.attached == w.subs[s].attached && x.owes == w.subs[s].owes
    requires x.last == w.subs[s].last && x.code == w.subs[s].code && ReportsCode(x)
    ensures KeptBut(w, WithSub(w, s, x), s)
  {
    hide Inv, HeldBut, InFlight;
    CheckSub(w, s);
    SubUpdated(w, s, x);
    Swapped(w, s, x);
  }

  lemma AtTerminalKeeps(w: Receiver, s: nat, code: ResetCode)
    requires Inv(w) && s < |w.subs| && w.subs[s].finished && w.subs[s].ending && w.subs[s].current.None?
    requires w.subs[s].terminals == [] && w.subs[s].code == Some(code)
    ensures KeptBut(w, AtTerminal(w, s, SubgroupError(code)), s)
  {
    hide Inv, HeldBut;
    var sub := w.subs[s];
    FinishedUpdated(w, s, sub.(terminals := sub.terminals + [SubgroupError(code)]));
  }

  /** terminateWithError leaves the subgroup finished. */
  lemma {:induction false} TerminateKeeps(w: Receiver, s: nat, code: ResetCode)
    requires Inv(w) && s < |w.subs|
    ensures Kept(w, Terminate(w, s, code)) && Terminate(w, s, code).subs[s].finished
    ensures Terminate(w, s, code).subs[s].ending == w.subs[s].ending
    decreases |w.replies|, 4, 0
  {
    hide Inv, Expose, Notify, HeldBut, FailCurrent, Terminated, AtTerminal, KeptBut, Kept;
    if w.subs[s].finished {
      KeepsRefl(w);
    } else {
      TerminateStart(w, s, code);
      TerminateEnd(w, FailCurrent(w, s, Terminated(w.subs[s], code), code), s, code);
    }
  }

  lemma {:induction false} TerminateEnd(w: Receiver, w1: Receiver, s: nat, code: ResetCode)
    requires Inv(w) && s < |w.subs| <= |w1.subs| && !w.subs[s].finished
    requires KeptBut(w, w1, s) && Same(Terminated(w.subs[s], code), w1.subs[s]) && |w1.replies| <= |w.replies|
    ensures var r := Notify(Expose(AtTerminal(w1, s, SubgroupError(code))).0, s);
      Kept(w, r) && r.subs[s].finished && r.subs[s].ending == w.subs[s].ending
    decreases |w1.replies|, 3, 2
  {
    hide Inv, Expose, Notify, HeldBut, Terminated;
    IsTerminated(w.subs[s], code);
    FreshSub(w, s);
    AtTerminalKeeps(w1, s, code);
    var w2 := AtTerminal(w1, s, SubgroupError(code));
    KeptButTrans(w, w1, w2, s);
    ExposeBut(w2, s);
    var w3 := Expose(w2).0;
    KindHeld(w2, w3, s);
    KindHeld(w1, w2, s);
    KeptButTrans(w, w2, w3, s);
    NotifyKeeps(w3, s);
    var r := Notify(w3, s);
    KeptButTrans(w, w3, r, s);
    JoinedFinished(w, r, s);
  }

  lemma {:induction false} EndWithKeeps(w: Receiver, s: nat, t: Terminal, callback: bool)
    requires Inv(w) && s < |w.subs| && !w.subs[s].finished && w.subs[s].current.None? && !t.SubgroupError?
    requires w.kind.Fetch? && callback ==> w.terminal
    ensures Kept(w, EndWith(w, s, t, callback)) && EndWith(w, s, t, callback).subs[s].finished
    ensures EndWith(w, s, t, callback).subs[s].ending == w.subs[s].ending
    ensures w.kind.Fetch? && !callback ==> EndWith(w, s, t, callback).sent == w.sent
    decreases |w.replies|, 4, 0
  {
    hide Inv, Callback, Notify, HeldBut, Kept, KeptBut, EndWith, WithSub, EndedBy;
    FreshSub(w, s);
    var x := EndedBy(w.kind, w.subs[s], t);
    IsEnded(w, s, t);
    EndUpdated(w, s, x);
    var w1 := WithSub(w, s, x);
    EndWithUnfolds(w, s, t, callback);
    if callback {
      KeptButInv(w, w1, s);
      CallbackBut(w1, s);
      var w2 := Callback(w1).0;
      KeptButInv(w1, w2, s);
      KeptButTrans(w, w1, w2, s);
      EndWithRest(w, w2, s, x);
    } else {
      KeptButInv(w, w1, s);
      EndWithRest(w, w1, s, x);
      if w.kind.Fetch? {
        FetchNotify(w1, s);
      }
    }
  }

  lemma {:induction false} EndWithUnfolds(w: Receiver, s: nat, t: Terminal, callback: bool)
    requires s < |w.subs|
    ensures var w1 := WithSub(w, s, EndedBy(w.kind, w.subs[s], t));
      EndWith(w, s, t, callback) == Notify(if callback then Callback(w1).0 else w1, s)
  {
    hide Callback, Notify;
  }

  lemma IsEnded(w: Receiver, s: nat, t: Terminal)
    requires s < |w.subs| && !t.SubgroupError? && w.subs[s].code.None? && w.subs[s].terminals == []
    ensures var x := EndedBy(w.kind, w.subs[s], t);
      && x.finished && x.ending && x.current == w.subs[s].current && !x.attached && x.owes == w.subs[s].attached
      && x.last == w.subs[s].last && ReportsCode(x) && (w.kind.Subscribe? ==> |x.terminals| == 1)
      && var r := WithSub(w, s, x);
      && r.subs[s] == x
      && r.kind == w.kind
      && r.terminal == w.terminal
      && r.sent == w.sent
      && r.replies == w.replies
  {
  }

  lemma {:induction false} EndWithRest(w: Receiver, w2: Receiver, s: nat, x: Subgroup)
    requires s < |w.subs| <= |w2.subs| && !w.subs[s].finished && !w.subs[s].ending && KeptBut(w, w2, s) && Same(x, w2.subs[s])
    requires x.finished && x.ending && x.current.None? && (w.kind.Subscribe? ==> |x.terminals| == 1)
    ensures var r := Notify(w2, s); Kept(w, r) && r.subs[s].finished && !r.subs[s].ending
    decreases |w2.replies|, 3, 1
  {
    hide Inv, Notify, HeldBut;
    KindHeld(w, w2, s);
    NotifyKeeps(w2, s);
    KeptButTrans(w, w2, Notify(w2, s), s);
    JoinedFinished(w, Notify(w2, s), s);
  }

  lemma KeptButInv(a: Receiver, b: Receiver, s: nat)
    requires KeptBut(a, b, s)
    ensures Inv(b) && a.kind == b.kind && |a.subs| <= |b.subs| && |b.replies| <= |a.replies|
  {
    hide Inv, HeldFetch;
  }

  lemma {:induction false} FetchNotify(w: Receiver, s: nat)
    requires Inv(w) && s < |w.subs| && w.kind.Fetch?
    ensures Notify(w, s).sent == w.sent
  {
    hide Inv, InFlight, SubgroupFinished;
    CheckSub(w, s);
  }

  lemma EndUpdated(w: Receiver, s: nat, x: Subgroup)
    requires Inv(w) && s < |w.subs| && !w.subs[s].finished && w.subs[s].current.None?
    requires x.finished && x.ending && x.current.None? && !x.attached && x.owes == w.subs[s].attached
    requires x.last == w.subs[s].last && ReportsCode(x)
    ensures KeptBut(w, WithSub(w, s, x), s)
  {
    hide Inv, HeldBut, InFlight;
    CheckSub(w, s);
    SubUpdated(w, s, x);
    Swapped(w, s, x);
  }

  // ---------------------------------------------------------------- beginning an object

  lemma {:induction false} PrepareKeeps(w: Receiver, s: nat, id: u64)
    requires Inv(w) && s < |w.subs|
    ensures var (r, ok) := Prepare(w, s, id);
      if ok then KeptBut(w, r, s) else Kept(w, r)
    decreases |w.replies|, 4, 1
  {
    hide Inv, HeldBut, Terminate;
    KeepsRefl(w);
    TerminateKeeps(w, s, MALFORMED_TRACK);
    if Prepare(w, s, id).1 {
      PreparedOnward(w, s, id);
      LastUpdated(w, s, id);
    }
  }

  lemma {:induction false} PreparedOnward(w: Receiver, s: nat, id: u64)
    requires s < |w.subs| && Prepare(w, s, id).1
    ensures w.kind.Subscribe? && w.subs[s].last.Some? ==> w.subs[s].last.value < id
  {
    hide Terminate;
  }

  /** No object of the subgroup has been announced under this ID or a later one. */
  predicate NewId(w: Receiver, s: nat, id: u64)
    requires s < |w.subs|
  {
    w.kind.Subscribe? ==>
      && w.subs[s].last == Some(id)
      && forall k :: 0 <= k < |w.objects| && w.objects[k].subgroup == s ==> w.objects[k].id < id
  }

  lemma {:induction false} PreparedIsNew(w: Receiver, s: nat, id: u64)
    requires Inv(w) && s < |w.subs| && Prepare(w, s, id).1
    ensures NewId(Prepare(w, s, id).0, s, id)
  {
    hide Prepare, SubsOk, ObjectsOk, Books, CountOpen;
    PreparedOnward(w, s, id);
    forall k | 0 <= k < |w.objects| && w.objects[k].subgroup == s && w.kind.Subscribe? ensures w.objects[k].id < id {
      assert UpToLast(w.subs, w.objects[k]);
    }
  }

  lemma LastUpdated(w: Receiver, s: nat, id: u64)
    requires Inv(w) && s < |w.subs|
    requires w.kind.Subscribe? && w.subs[s].last.Some? ==> w.subs[s].last.value < id
    ensures KeptBut(w, WithSub(w, s, w.subs[s].(last := Some(id))), s)
  {
    hide Inv, HeldBut, InFlight;
    CheckSub(w, s);
    SubUpdated(w, s, w.subs[s].(last := Some(id)));
    Swapped(w, s, w.subs[s].(last := Some(id)));
  }

  /** Preparing an object on a subgroup. */
  lemma {:induction false} PreparedKeeps(w: Receiver, s: nat, id: u64)
    requires Inv(w) && s < |w.subs|
    ensures Kept(w, Prepare(w, s, id).0)
    decreases |w.replies|, 4, 2
  {
    hide Inv, HeldBut, Prepare, Kept, KeptBut;
    PrepareKeeps(w, s, id);
    var (r, ok) := Prepare(w, s, id);
    if ok {
      Joined(w, r, s);
    }
  }

  /** The location at hand is the latest one and has not been delivered. */
  predicate Due(w: Receiver, at: Location) {
    w.kind.Fetch? ==>
      && !w.terminal
      && w.lastFetch == Some(at)
      && (w.delivered != [] ==> Advances(w.kind.order, w.delivered[|w.delivered| - 1], at))
  }

  lemma DeliveredOk(w: Receiver, at: Location)
    requires Inv(w) && w.kind.Fetch?
    requires w.lastFetch == Some(at)
    requires w.delivered != [] ==> Advances(w.kind.order, w.delivered[|w.delivered| - 1], at)
    ensures Inv(w.(delivered := w.delivered + [at]))
  {
    hide CountOpen, SubOk, ObjectOk, AccountOk, SomeBroken;
    var ls := w.delivered + [at];
    assert ls[..|ls| - 1] == w.delivered;
  }

  lemma AnnounceInv(w: Receiver, s: nat, id: u64, length: nat)
    requires Inv(w) && s < |w.subs| && !w.subs[s].finished && w.subs[s].current.None?
    requires Due(w, Location(w.subs[s].group, id)) && NewId(w, s, id)
    ensures Inv(Announce(w, s, id, length))
  {
    hide Inv, Announce, NewId;
    var at := Location(w.subs[s].group, id);
    var w0 := if w.kind.Fetch? then w.(delivered := w.delivered + [at]) else w;
    if w.kind.Fetch? {
      DeliveredOk(w, at);
    }
    WindowOpened(w0, s, length);
    AnnounceUnfolds(w, w0, s, id, length);
    ObjectAdded(WithSub(w0, s, w0.subs[s].(remaining := length)), s, id, length);
  }

  lemma AnnounceUnfolds(w: Receiver, w0: Receiver, s: nat, id: u64, length: nat)
    requires s < |w.subs| && NewId(w, s, id)
    requires w0 == if w.kind.Fetch? then w.(delivered := w.delivered + [Location(w.subs[s].group, id)]) else w
    ensures var v := WithSub(w0, s, w0.subs[s].(remaining := length));
      && NewId(v, s, id)
      && Announce(w, s, id, length) == v.(objects := v.objects + [Object(s, id, length, false, [])])
  {
  }

  lemma WindowOpened(w: Receiver, s: nat, length: nat)
    requires Inv(w) && s < |w.subs| && !w.subs[s].finished && w.subs[s].current.None?
    ensures Inv(WithSub(w, s, w.subs[s].(remaining := length)))
  {
    hide Inv, InFlight;
    CheckSub(w, s);
    SubUpdated(w, s, w.subs[s].(remaining := length));
  }

  lemma ObjectAdded(w: Receiver, s: nat, id: u64, length: nat)
    requires Inv(w) && s < |w.subs| && NewId(w, s, id)
    ensures Inv(w.(objects := w.objects + [Object(s, id, length, false, [])]))
  {
    hide CountOpen, Ascending, UpTo, Numbered, Books, SubsOk, ObjectsOk;
    var r := w.(objects := w.objects + [Object(s, id, length, false, [])]);
    if w.kind.Subscribe? {
      NumberAdded(w, s, id, length);
    }
    AddedParts(w, s, id, length);
    AddedBooks(w, s, id, length);
  }

  lemma AddedParts(w: Receiver, s: nat, id: u64, length: nat)
    requires SubsOk(w) && ObjectsOk(w) && s < |w.subs|
    ensures var r := w.(objects := w.objects + [Object(s, id, length, false, [])]); SubsOk(r) && ObjectsOk(r)
  {
    hide ReportsCode;
    var r := w.(objects := w.objects + [Object(s, id, length, false, [])]);
    forall t | 0 <= t < |r.subs| ensures SubOk(r.kind, r.objects, r.subs[t], t) {
      assert SubOk(w.kind, w.objects, w.subs[t], t);
    }
    forall k | 0 <= k < |r.objects| ensures ObjectOk(r.subs, r.objects[k]) {
      assert k < |w.objects| ==> ObjectOk(w.subs, w.objects[k]);
    }
  }

  lemma AddedBooks(w: Receiver, s: nat, id: u64, length: nat)
    requires Books(w) && SubsOk(w) && s < |w.subs|
    ensures Books(w.(objects := w.objects + [Object(s, id, length, false, [])]))
  {
    hide Settled, Got, ReportsCode;
    var r := w.(objects := w.objects + [Object(s, id, length, false, [])]);
    if w.slipped {
      var k :| 0 <= k < |w.objects| && Broken(w.subs, w.objects[k], k);
      assert Broken(r.subs, r.objects[k], k);
    } else {
      assert SubOk(w.kind, w.objects, w.subs[s], s);
      forall k | 0 <= k < |r.objects| ensures AccountOk(r.subs, r.objects[k], k) {
        assert k < |w.objects| ==> AccountOk(w.subs, w.objects[k], k);
      }
    }
  }

  lemma NumberAdded(w: Receiver, s: nat, id: u64, length: nat)
    requires s < |w.subs| && w.kind.Subscribe? && NewId(w, s, id) && Numbered(w.subs, w.objects)
    ensures Numbered(w.subs, w.objects + [Object(s, id, length, false, [])])
  {
    var objects := w.objects + [Object(s, id, length, false, [])];
    forall k | 0 <= k < |objects| ensures UpToLast(w.subs, objects[k]) {
      assert k < |w.objects| ==> UpToLast(w.subs, w.objects[k]);
    }
  }

  lemma AnnounceHeld(w: Receiver, s: nat, id: u64, length: nat)
    requires s < |w.subs| && (w.kind.Fetch? ==> !w.terminal)
    ensures var r := Announce(w, s, id, length); HeldBut(w, r, s) && Exposing(w, r)
  {
  }

  // ---------------------------------------------------------------- admitting it

  /** An object that is new since w changes: w's own objects are not concerned. */
  lemma NewObjectChanged(w: Receiver, r: Receiver, s: nat, k: nat, o: Object, slip: bool)
    requires HeldBut(w, r, s) && |w.objects| <= k < |r.objects| && (r.slipped ==> slip)
    ensures HeldBut(w, r.(objects := r.objects[k := o], slipped := slip), s)
  {
  }

  /** What the frame of s finds when onObjectBegin returns. */
  predicate Offered(w: Receiver, v: Receiver, s: nat, k: nat) {
    && s < |w.subs| <= |v.subs|
    && |w.objects| <= k < |v.objects|
    && !w.subs[s].finished
    && !w.subs[s].ending
    && w.subs[s].current.None?
    && !v.subs[s].ending
    && v.objects[k].subgroup == s
    && !v.objects[k].admitted
    && v.objects[k].log == []
    && (!v.slipped && !v.subs[s].finished && v.subs[s].current.None? ==>
          v.subs[s].remaining == 0 || v.subs[s].remaining == v.objects[k].declared)
  }

  lemma {:induction false} AdmittedKeeps(w: Receiver, v: Receiver, s: nat, k: nat, answer: Answer)
    requires Offered(w, v, s, k) && KeptBut(w, v, s)
    ensures Kept(w, Admitted(v, s, k, answer).0)
    decreases |v.replies|, 4, 2
  {
    hide Inv, Expose, Terminate, HeldBut, Late, TakeOver;
    if v.subs[s].finished {
      JoinedFinished(w, v, s);
      if answer.Accept? {
        LateKeeps(w, v, s, k);
        var v' := Late(v, s, k);
        ExposeKeeps(v');
        KeptTrans(w, v', Expose(v').0);
      }
    } else if answer.Accept? {
      TakeOverKeeps(w, v, s, k);
    } else {
      TerminatedAfter(w, v, s, RefusalCode(answer));
    }
  }

  /** Terminating the subgroup of the frame at hand. */
  lemma {:induction false} TerminatedAfter(w: Receiver, v: Receiver, s: nat, code: ResetCode)
    requires s < |w.subs| <= |v.subs| && KeptBut(w, v, s) && !w.subs[s].finished && w.subs[s].ending == v.subs[s].ending
    ensures Kept(w, Terminate(v, s, code))
    decreases |v.replies|, 4, 1
  {
    hide Inv, Terminate, HeldBut;
    TerminateKeeps(v, s, code);
    var r := Terminate(v, s, code);
    FlagsHeld(v, r, s);
    Weaker(v, r, s);
    KeptButTrans(w, v, r, s);
    JoinedFinished(w, r, s);
  }

  lemma LateKeeps(w: Receiver, v: Receiver, s: nat, k: nat)
    requires Offered(w, v, s, k) && Kept(w, v) && v.subs[s].finished
    ensures Kept(w, Late(v, s, k))
  {
    hide Inv, HeldBut;
    var o := v.objects[k].(admitted := true, log := [Failed(CodeOf(v.subs[s]))]);
    LateInv(v, s, k, o);
    Weaker(w, v, s);
    NewObjectChanged(w, v, s, k, o, v.slipped);
    assert v.(objects := v.objects[k := o], slipped := v.slipped) == Late(v, s, k);
    JoinedFinished(w, Late(v, s, k), s);
  }

  lemma LateInv(v: Receiver, s: nat, k: nat, o: Object)
    requires Inv(v) && s < |v.subs| && k < |v.objects| && v.subs[s].finished
    requires v.objects[k].subgroup == s && !v.objects[k].admitted && v.objects[k].log == []
    requires o == v.objects[k].(admitted := true, log := [Failed(CodeOf(v.subs[s]))])
    ensures Inv(v.(objects := v.objects[k := o]))
  {
    hide SubsOk, Books, OwnOk, CodeOf;
    assert [] + [Failed(CodeOf(v.subs[s]))] == o.log;
    LogSnoc([], Failed(CodeOf(v.subs[s])), o.declared);
    ObjectLawful(v, k, o);
    OwnObject(v, k, o);
    LateParts(v, s, k, o);
  }

  lemma LateParts(v: Receiver, s: nat, k: nat, o: Object)
    requires SubsOk(v) && ObjectsOk(v) && Books(v) && s < |v.subs| && k < |v.objects|
    requires v.objects[k].subgroup == s == o.subgroup && !v.objects[k].admitted && v.objects[k].log == []
    requires LogOk(o.declared, o.log) && Errored(o.log)
    ensures var r := v.(objects := v.objects[k := o]); SubsOk(r) && Books(r)
  {
    hide Got, ReportsCode, ErrorLast, LogOk;
    var r := v.(objects := v.objects[k := o]);
    assert SubOk(v.kind, v.objects, v.subs[s], s);
    forall t | 0 <= t < |r.subs| ensures SubOk(r.kind, r.objects, r.subs[t], t) {
      assert SubOk(v.kind, v.objects, v.subs[t], t);
    }
    if v.slipped {
      var j :| 0 <= j < |v.objects| && Broken(v.subs, v.objects[j], j);
      EmptyLog(v.objects[k].declared);
      assert Broken(r.subs, r.objects[j], j);
    } else {
      forall j | 0 <= j < |r.objects| ensures AccountOk(r.subs, r.objects[j], j) {
        assert AccountOk(v.subs, v.objects[j], j);
      }
    }
  }

  lemma {:induction false} EmptyLog(declared: nat)
    ensures LogOk(declared, [])
  {
  }

  lemma TakeOverKeeps(w: Receiver, v: Receiver, s: nat, k: nat)
    requires Offered(w, v, s, k) && KeptBut(w, v, s) && !v.subs[s].finished
    ensures Kept(w, TakeOver(v, s, k))
  {
    hide Inv, HeldBut, Displaces;
    var x := v.subs[s].(current := Some(k));
    var o := v.objects[k].(admitted := true);
    var slip := v.slipped || Displaces(v, s);
    TakeOverInv(v, s, k);
    TakeOverHeld(w, v, s, x, k);
    NewObjectChanged(w, WithSub(v, s, x), s, k, o, slip);
    KindHeld(w, v, s);
    Joined(w, TakeOver(v, s, k), s);
  }

  /** Making a new object current changes nothing for the others. */
  lemma TakeOverHeld(w: Receiver, v: Receiver, s: nat, x: Subgroup, k: nat)
    requires s < |w.subs| <= |v.subs| && HeldBut(w, v, s) && |w.objects| <= k && x == v.subs[s].(current := Some(k))
    ensures HeldBut(w, WithSub(v, s, x), s)
  {
    hide HeldFull, HeldFetch;
    var r := WithSub(v, s, x);
    forall j | 0 <= j < |w.objects| ensures HeldObject(w.subs, r.subs, w.objects[j], r.objects[j], j) {
      assert HeldObject(w.subs, v.subs, w.objects[j], v.objects[j], j);
    }
    assert HeldFetch(w, r) by { FetchSame(w, v, r); }
  }

  lemma FetchSame(w: Receiver, v: Receiver, r: Receiver)
    requires HeldFetch(w, v) && r == v.(subs := r.subs)
    ensures HeldFetch(w, r)
  {
  }

  lemma TakeOverInv(v: Receiver, s: nat, k: nat)
    requires Inv(v) && s < |v.subs| && k < |v.objects| && !v.subs[s].finished
    requires v.objects[k].subgroup == s && !v.objects[k].admitted && v.objects[k].log == []
    requires !v.slipped && v.subs[s].current.None? ==>
      v.subs[s].remaining == 0 || v.subs[s].remaining == v.objects[k].declared
    ensures Inv(TakeOver(v, s, k))
  {
    hide Inv, Books, Displaces, ReportsCode;
    CheckSub(v, s);
    CheckObject(v, k);
    var x := v.subs[s].(current := Some(k));
    var o := v.objects[k].(admitted := true);
    var slip := v.slipped || Displaces(v, s);
    TakeOverBooks(v, s, x, k, o);
    StillReports(v.subs[s], x);
    BothUpdated(v, s, x, k, o, slip);
  }

  lemma StillReports(a: Subgroup, b: Subgroup)
    requires ReportsCode(a) && b == a.(current := b.current)
    ensures ReportsCode(b)
  {
  }

  lemma TakeOverBooks(v: Receiver, s: nat, x: Subgroup, k: nat, o: Object)
    requires Inv(v) && s < |v.subs| && k < |v.objects| && !v.subs[s].finished
    requires v.objects[k].subgroup == s && !v.objects[k].admitted && v.objects[k].log == []
    requires !v.slipped && v.subs[s].current.None? ==>
      v.subs[s].remaining == 0 || v.subs[s].remaining == v.objects[k].declared
    requires x == v.subs[s].(current := Some(k)) && o == v.objects[k].(admitted := true)
    ensures Books(WithSub(v, s, x).(objects := v.objects[k := o], slipped := v.slipped || Displaces(v, s)))
  {
    hide Inv, Settled, LogOk, ErrorLast;
    var r := WithSub(v, s, x).(objects := v.objects[k := o], slipped := v.slipped || Displaces(v, s));
    if v.subs[s].current.Some? {
      CurrentObject(v, s);
    }
    if !v.slipped && Displaces(v, s) {
      var j := v.subs[s].current.value;
      assert Broken(r.subs, r.objects[j], j);
    } else {
      EmptyLog(o.declared);
      if !v.slipped && v.subs[s].current.Some? {
        NothingLeft(v, s);
      }
      BothBooks(v, s, x, k, o);
    }
  }

  /** An object in flight that is settled has had all its bytes. */
  lemma NothingLeft(v: Receiver, s: nat)
    requires Inv(v) && s < |v.subs| && v.subs[s].current.Some? && !v.slipped
    requires v.subs[s].current.value < |v.objects| && Settled(v.objects[v.subs[s].current.value].log)
    ensures v.subs[s].remaining == 0
  {
    hide Inv;
    CurrentObject(v, s);
    var o := v.objects[v.subs[s].current.value];
    EndedHasAll(o.declared, o.log);
  }

  lemma {:induction false} AdmitKeeps(w: Receiver, s: nat, id: u64, length: nat)
    requires Inv(w) && s < |w.subs| && !w.subs[s].finished && w.subs[s].current.None?
    requires Due(w, Location(w.subs[s].group, id)) && NewId(w, s, id)
    ensures Kept(w, Admit(w, s, id, length).0)
    decreases |w.replies|, 4, 3
  {
    hide Inv, Expose, HeldBut, Admitted, Due;
    FreshSub(w, s);
    AnnounceInv(w, s, id, length);
    DueIsLive(w, Location(w.subs[s].group, id));
    AnnounceHeld(w, s, id, length);
    var a := Announce(w, s, id, length);
    var k := |w.objects|;
    ExposeKeeps(a);
    var (v, answer) := Expose(a);
    FlagsHeld(a, v, s);
    ObjectHeld(a, v, -1, k);
    Weaker(a, v, s);
    KeptButTrans(w, a, v, s);
    AdmittedKeeps(w, v, s, k, answer);
  }

  lemma DueIsLive(w: Receiver, at: Location)
    requires Due(w, at)
    ensures w.kind.Fetch? ==> !w.terminal
  {
  }

  // ---------------------------------------------------------------- delivering payload

  /** A repeated payload breaks the books. */
  lemma PayBreaks(w: Receiver, s: nat, n: nat)
    requires Inv(w) && s < |w.subs| && w.subs[s].current.Some? && w.subs[s].current.value < |w.objects|
    requires n <= w.subs[s].remaining && !w.slipped && Repeats(w, s, w.objects[w.subs[s].current.value])
    ensures Books(Pay(w, s, n))
  {
    hide Inv, Settled, ErrorLast, LogOk, Got, Ended, Errored;
    CurrentObject(w, s);
    var sub, k := w.subs[s], w.subs[s].current.value;
    var o := w.objects[k];
    LogSnoc(o.log, Payload(n, n == sub.remaining), o.declared);
    RepeatIsWrong(o, sub);
    var r := Pay(w, s, n);
    assert Broken(r.subs, r.objects[k], k);
  }

  /** Any other payload keeps the account. */
  lemma PayBalances(w: Receiver, s: nat, n: nat)
    requires Inv(w) && s < |w.subs| && w.subs[s].current.Some? && w.subs[s].current.value < |w.objects|
    requires n <= w.subs[s].remaining && (w.slipped || !Repeats(w, s, w.objects[w.subs[s].current.value]))
    ensures Books(Pay(w, s, n))
  {
    hide Inv, Settled, ErrorLast, LogOk, Got, Ended, Errored, Books;
    CurrentObject(w, s);
    var sub, k := w.subs[s], w.subs[s].current.value;
    var o := w.objects[k];
    var e := Payload(n, n == sub.remaining);
    var x, o' := sub.(remaining := sub.remaining - n), o.(log := o.log + [e]);
    LogSnoc(o.log, e, o.declared);
    if !w.slipped {
      NotEnded(o, sub);
    }
    BothBooks(w, s, x, k, o');
    SameBooks(WithSub(w, s, x).(objects := w.objects[k := o']), Pay(w, s, n));
  }

  lemma RepeatIsWrong(o: Object, sub: Subgroup)
    requires LogOk(o.declared, o.log) && !Errored(o.log) && Balanced(o, sub) && sub.remaining == 0
    requires !(o.log == [] && o.declared == 0)
    ensures Ended(o.log) || Got(o.log) != o.declared
  {
    if o.log != [] {
      AllGotIsEnded(o.declared, o.log);
    }
  }

  lemma NotEnded(o: Object, sub: Subgroup)
    requires LogOk(o.declared, o.log) && Balanced(o, sub) && !(sub.remaining == 0 && !(o.log == [] && o.declared == 0))
    ensures !Ended(o.log) && Got(o.log) + sub.remaining == o.declared
  {
    if Ended(o.log) {
      EndedHasAll(o.declared, o.log);
    }
  }

  lemma PayBooks(w: Receiver, s: nat, n: nat)
    requires Inv(w) && s < |w.subs| && w.subs[s].current.Some? && w.subs[s].current.value < |w.objects|
    requires n <= w.subs[s].remaining
    ensures Books(Pay(w, s, n))
  {
    hide Inv, Books;
    if !w.slipped && Repeats(w, s, w.objects[w.subs[s].current.value]) {
      PayBreaks(w, s, n);
    } else {
      PayBalances(w, s, n);
    }
  }

  lemma PayInv(w: Receiver, s: nat, n: nat)
    requires Inv(w) && s < |w.subs| && w.subs[s].current.Some? && !w.subs[s].finished
    requires w.subs[s].current.value < |w.objects| && n <= w.subs[s].remaining
    ensures Inv(Pay(w, s, n)) && Pay(w, s, n).objects[w.subs[s].current.value].log != []
  {
    hide Inv, Books, LogOk, Ended, Got, ErrorLast, Repeats, Balanced;
    CheckSub(w, s);
    CurrentObject(w, s);
    PayBooks(w, s, n);
    var sub, k := w.subs[s], w.subs[s].current.value;
    var o := w.objects[k];
    var e := Payload(n, n == sub.remaining);
    LogSnoc(o.log, e, o.declared);
    BothUpdated(w, s, sub.(remaining := sub.remaining - n), k, o.(log := o.log + [e]), w.slipped || Repeats(w, s, o));
  }

  lemma PayHeld(w: Receiver, s: nat, n: nat)
    requires s < |w.subs| && w.subs[s].current.Some? && w.subs[s].current.value < |w.objects| && n <= w.subs[s].remaining
    requires w.objects[w.subs[s].current.value].subgroup == s && w.objects[w.subs[s].current.value].admitted
    ensures HeldBut(w, Pay(w, s, n), s) && Exposing(w, Pay(w, s, n))
  {
    hide HeldFull, Repeats;
    var r, k := Pay(w, s, n), w.subs[s].current.value;
    forall j | 0 <= j < |w.objects| ensures HeldObject(w.subs, r.subs, w.objects[j], r.objects[j], j) {
      assert j != k ==> r.objects[j] == w.objects[j];
    }
    forall t | 0 <= t < |w.subs| && t != s
      ensures HeldSub(w.subs[t], r.subs[t]) && HeldFull(w.objects, w.subs[t], r.subs[t], r.slipped)
    {
      FullRefl(w.objects, w.subs[t], r.slipped);
    }
  }

  lemma FullRefl(objects: seq<Object>, a: Subgroup, slipped: bool)
    ensures HeldFull(objects, a, a, slipped)
  {
  }

  /** The object in flight has had all its bytes. */
  predicate Full(w: Receiver, s: nat)
    requires s < |w.subs|
  {
    && w.subs[s].current.Some?
    && w.subs[s].current.value < |w.objects|
    && w.subs[s].remaining == 0
    && w.objects[w.subs[s].current.value].log != []
  }

  /** What the frame of s finds when onPayload returns. */
  predicate Acknowledged(w: Receiver, v: Receiver, s: nat, complete: bool) {
    && s < |w.subs| <= |v.subs|
    && !w.subs[s].finished
    && w.subs[s].ending == v.subs[s].ending
    && (!v.slipped && !v.subs[s].finished ==>
          && (v.subs[s].current.None? ==> v.subs[s].remaining == 0)
          && (w.subs[s].remaining == 0 ==> complete && !Full(w, s))
          && (complete ==>
                && v.subs[s].remaining == 0
                && v.subs[s].current.Some?
                && v.subs[s].current.value < |v.objects|
                && v.objects[v.subs[s].current.value].log != []))
  }

  /** Handing the bytes over, up to the end of onPayload. */
  lemma {:induction false} HandOver(w: Receiver, s: nat, n: nat)
    requires Inv(w) && s < |w.subs| && w.subs[s].current.Some? && !w.subs[s].finished && n <= w.subs[s].remaining
    ensures w.subs[s].current.value < |w.objects|
    ensures var v := Expose(Pay(w, s, n)).0;
      KeptBut(w, v, s) && Acknowledged(w, v, s, n == w.subs[s].remaining)
    decreases |w.replies|, 0, 2
  {
    hide Inv, Expose, HeldBut, LogOk, Got, Ended, Errored, Balanced, ErrorLast;
    CurrentObject(w, s);
    ObjectOfCurrent(w, s);
    PayInv(w, s, n);
    PayHeld(w, s, n);
    var p := Pay(w, s, n);
    ExposeKeeps(p);
    var v := Expose(p).0;
    FlagsHeld(p, v, s);
    KindHeld(p, v, -1);
    ObjectHeld(p, v, -1, w.subs[s].current.value);
    Weaker(p, v, s);
    KeptButTrans(w, p, v, s);
  }

  /** The object that has had all its bytes is complete. */
  lemma CompleteIsSettled(v: Receiver, s: nat)
    requires Inv(v) && s < |v.subs| && v.subs[s].current.Some? && v.subs[s].remaining == 0 && !v.slipped
    requires v.subs[s].current.value < |v.objects| && v.objects[v.subs[s].current.value].log != []
    ensures Settled(v.objects[v.subs[s].current.value].log)
  {
    hide Inv, ErrorLast;
    CurrentObject(v, s);
    var o := v.objects[v.subs[s].current.value];
    AllGotIsEnded(o.declared, o.log);
  }

  lemma ReleasedKeeps(w: Receiver, v: Receiver, s: nat)
    requires Acknowledged(w, v, s, true) && KeptBut(w, v, s) && !v.subs[s].finished
    ensures KeptBut(w, Released(v, s), s) && Inv(v)
  {
    hide Inv, HeldBut, InFlight, Settled, LogOk;
    CheckSub(v, s);
    if v.subs[s].current.Some? {
      if !v.slipped {
        CompleteIsSettled(v, s);
      }
    }
    SubUpdated(v, s, v.subs[s].(current := None));
    Swapped(v, s, v.subs[s].(current := None));
    KeptButTrans(w, v, Released(v, s), s);
  }

  lemma {:induction false} PaidKeeps(w: Receiver, v: Receiver, s: nat, complete: bool, fin: bool, answer: Answer)
    requires Acknowledged(w, v, s, complete) && KeptBut(w, v, s)
    ensures Kept(w, Paid(v, s, complete, fin, answer).0)
    decreases |v.replies|, 4, 2
  {
    hide Inv, Terminate, FinishAtEnd, HeldBut, Released;
    if v.subs[s].finished {
      JoinedFinished(w, v, s);
    } else if answer.Refuse? || (!complete && fin) {
      var code := if answer.Refuse? then ResetErrorFor(answer.error) else MALFORMED_TRACK;
      TerminatedAfter(w, v, s, code);
    } else if complete {
      ReleasedKeeps(w, v, s);
      IsReleased(v, s);
      if fin {
        FinishedAfter(w, Released(v, s), s);
      } else {
        Joined(w, Released(v, s), s);
      }
    } else {
      Joined(w, v, s);
    }
  }

  lemma IsReleased(v: Receiver, s: nat)
    requires s < |v.subs|
    ensures var r := Released(v, s);
      r.subs[s] == v.subs[s].(current := None) && r.slipped == v.slipped && r.kind == v.kind && r.replies == v.replies
  {
  }

  lemma {:induction false} FinishedAfter(w: Receiver, v: Receiver, s: nat)
    requires s < |w.subs| <= |v.subs| && KeptBut(w, v, s) && !w.subs[s].finished && w.subs[s].ending == v.subs[s].ending
    requires !v.subs[s].finished && v.subs[s].current.None?
    ensures Kept(w, FinishAtEnd(v, s))
    decreases |v.replies|, 4, 1
  {
    hide Inv, EndWith, HeldBut;
    EndWithKeeps(v, s, EndOfStream, v.kind.Subscribe?);
    var r := FinishAtEnd(v, s);
    Weaker(v, r, s);
    KeptButTrans(w, v, r, s);
    FlagsHeld(v, r, s);
    JoinedFinished(w, r, s);
  }

  lemma {:induction false} DeliverKeeps(w: Receiver, s: nat, n: nat, fin: bool)
    requires Inv(w) && s < |w.subs| && w.subs[s].current.Some? && !w.subs[s].finished
    ensures w.subs[s].current.value < |w.objects| && Kept(w, Deliver(w, s, n, fin).0)
    decreases |w.replies|, 4, 3
  {
    hide Inv, Expose, Terminate, HeldBut, Paid, Pay, KeptBut, Kept, InFlight;
    ObjectOfCurrent(w, s);
    var left := w.subs[s].remaining;
    if n > left || (n == 0 && left > 0 && fin) {
      TerminateKeeps(w, s, MALFORMED_TRACK);
    } else if n == 0 && left > 0 {
      KeepsRefl(w);
    } else {
      HandOver(w, s, n);
      var (v, answer) := Expose(Pay(w, s, n));
      PaidKeeps(w, v, s, n == left, fin, answer);
      assert HandIn(w, s, n, fin) == Paid(v, s, n == left, fin, answer);
    }
  }

  // ---------------------------------------------------------------- whole calls on a subgroup

  /** Admission followed by the object's first payload. */
  lemma {:induction false} AdmitThenDeliver(w: Receiver, s: nat, id: u64, length: nat, n: nat, fin: bool)
    requires Inv(w) && s < |w.subs| && !w.subs[s].finished && w.subs[s].current.None?
    requires Due(w, Location(w.subs[s].group, id)) && NewId(w, s, id)
    ensures var (w', ok) := Admit(w, s, id, length);
      Kept(w, if ok then Deliver(w', s, n, fin).0 else w')
    decreases |w.replies|, 4, 4
  {
    hide Inv, HeldBut, Admit, Deliver, Due, NewId;
    AdmitKeeps(w, s, id, length);
    var (w', ok) := Admit(w, s, id, length);
    if ok {
      AdmittedIsLive(w, s, id, length);
      DeliverKeeps(w', s, n, fin);
      KeptTrans(w, w', Deliver(w', s, n, fin).0);
    }
  }

  lemma {:induction false} AdmittedIsLive(w: Receiver, s: nat, id: u64, length: nat)
    requires s < |w.subs| && Admit(w, s, id, length).1
    ensures !Admit(w, s, id, length).0.subs[s].finished
  {
    hide Expose, Terminate;
  }

  lemma {:induction false} SubObjectKeeps(w: Receiver, s: nat, id: u64, n: nat, fin: bool)
    requires Inv(w) && s < |w.subs| && Due(w, Location(w.subs[s].group, id))
    ensures Kept(w, SubObject(w, s, id, n, fin).0)
    decreases |w.replies|, 4, 5
  {
    hide Inv, HeldBut, Admit, Deliver, Prepare, NewId;
    PreparedKeeps(w, s, id);
    var (w1, ok) := Prepare(w, s, id);
    if ok {
      PreparedIsNew(w, s, id);
      AdmitThenDeliver(w1, s, id, n, n, fin);
      KeptTrans(w, w1, SubObject(w, s, id, n, fin).0);
    }
  }

  lemma {:induction false} SubBeginKeeps(w: Receiver, s: nat, id: u64, length: nat, initial: nat)
    requires Inv(w) && s < |w.subs| && Due(w, Location(w.subs[s].group, id))
    ensures Kept(w, SubBegin(w, s, id, length, initial).0)
    decreases |w.replies|, 4, 5
  {
    hide Inv, HeldBut, Admit, Deliver, Prepare, Terminate, NewId;
    PreparedKeeps(w, s, id);
    var (w1, ok) := Prepare(w, s, id);
    if ok {
      if initial > length {
        TerminateKeeps(w1, s, MALFORMED_TRACK);
      } else {
        PreparedIsNew(w, s, id);
        AdmitThenDeliver(w1, s, id, length, initial, false);
      }
      KeptTrans(w, w1, SubBegin(w, s, id, length, initial).0);
    }
  }

  lemma {:induction false} SubPayloadKeeps(w: Receiver, s: nat, n: nat, fin: bool)
    requires Inv(w) && s < |w.subs|
    ensures Kept(w, SubPayload(w, s, n, fin).0)
    decreases |w.replies|, 4, 4
  {
    hide Inv, HeldBut, Deliver, Terminate;
    KeepsRefl(w);
    TerminateKeeps(w, s, MALFORMED_TRACK);
    if !w.subs[s].finished && w.subs[s].current.Some? {
      DeliverKeeps(w, s, n, fin);
    }
  }

  lemma {:induction false} SubEndKeeps(w: Receiver, s: nat)
    requires Inv(w) && s < |w.subs|
    ensures Kept(w, SubEnd(w, s).0) && (SubEnd(w, s).1.Done? ==> SubEnd(w, s).0.subs[s].finished)
    decreases |w.replies|, 4, 4
  {
    hide Inv, HeldBut, Terminate, EndWith;
    KeepsRefl(w);
    TerminateKeeps(w, s, MALFORMED_TRACK);
    if !w.subs[s].finished && w.subs[s].current.None? {
      EndWithKeeps(w, s, EndOfStream, w.kind.Subscribe?);
    }
  }

  /** A status that ends a subscription's subgroup. */
  lemma {:induction false} EndStatusKeeps(w: Receiver, s: nat, id: u64, endOfTrack: bool)
    requires Inv(w) && s < |w.subs| && w.kind.Subscribe?
    ensures Kept(w, SubStatus(w, s, id, endOfTrack, true).0)
    decreases |w.replies|, 4, 4
  {
    hide Inv, HeldBut, Prepare, EndWith;
    PreparedKeeps(w, s, id);
    var (w1, ok) := Prepare(w, s, id);
    if ok {
      EndWithKeeps(w1, s, EndStatus(id, endOfTrack), true);
      KeptTrans(w, w1, EndWith(w1, s, EndStatus(id, endOfTrack), true));
    }
  }

  lemma {:induction false} SubDropKeeps(w: Receiver, s: nat)
    requires Inv(w) && w.kind.Subscribe? && s < |w.subs|
    ensures Kept(w, SubDrop(w, s))
    decreases |w.replies|, 4, 4
  {
    hide Inv, HeldBut, Terminate, FailCurrent, InFlight;
    KeepsRefl(w);
    CheckSub(w, s);
    TerminateKeeps(w, s, CANCELLED);
  }

  // ---------------------------------------------------------------- subscription

  lemma SubgroupAdded(w: Receiver, group: u64)
    requires Inv(w) && w.kind.Subscribe? && !w.done
    ensures Kept(w, w.(subs := w.subs + [NewSubgroup(group, true)], open := w.open + 1))
  {
    hide Numbered, HeldBut, Books, SubsOk, ObjectsOk;
    var r := w.(subs := w.subs + [NewSubgroup(group, true)], open := w.open + 1);
    assert r.subs[..|r.subs| - 1] == w.subs;
    StillNumbered(w.subs, NewSubgroup(group, true), w.objects);
    AddedHeld(w, group);
    AddedSub(w, group);
  }

  lemma AddedHeld(w: Receiver, group: u64)
    requires w.kind.Subscribe? && ObjectsOk(w)
    ensures Held(w, w.(subs := w.subs + [NewSubgroup(group, true)], open := w.open + 1))
  {
    hide ErrorLast;
    assert forall k :: 0 <= k < |w.objects| ==> ObjectOk(w.subs, w.objects[k]);
  }

  lemma AddedSub(w: Receiver, group: u64)
    requires w.kind.Subscribe? && SubsOk(w) && ObjectsOk(w) && Books(w)
    ensures var r := w.(subs := w.subs + [NewSubgroup(group, true)], open := w.open + 1);
      SubsOk(r) && ObjectsOk(r) && Books(r)
  {
    hide InFlight, LogOk, Settled, Got, ErrorLast;
    var r := w.(subs := w.subs + [NewSubgroup(group, true)], open := w.open + 1);
    forall t | 0 <= t < |r.subs| ensures SubOk(r.kind, r.objects, r.subs[t], t) {
      assert t < |w.subs| ==> SubOk(w.kind, w.objects, w.subs[t], t);
    }
    forall k | 0 <= k < |r.objects| ensures ObjectOk(r.subs, r.objects[k]) {
      assert ObjectOk(w.subs, w.objects[k]);
    }
    if w.slipped {
      var k :| 0 <= k < |w.objects| && Broken(w.subs, w.objects[k], k);
      assert ObjectOk(w.subs, w.objects[k]);
      assert Broken(r.subs, r.objects[k], k);
    } else {
      forall k | 0 <= k < |r.objects| ensures AccountOk(r.subs, r.objects[k], k) {
        assert AccountOk(w.subs, w.objects[k], k) && ObjectOk(w.subs, w.objects[k]);
      }
    }
  }

  lemma StillNumbered(subs: seq<Subgroup>, x: Subgroup, objects: seq<Object>)
    requires Numbered(subs, objects)
    ensures Numbered(subs + [x], objects)
  {
    forall k | 0 <= k < |objects| ensures UpToLast(subs + [x], objects[k]) {
      assert UpToLast(subs, objects[k]);
    }
  }

  lemma {:induction false} PublishDoneKeeps(w: Receiver)
    requires Inv(w) && w.kind.Subscribe?
    ensures Kept(w, FinishSubscription(w))
    decreases |w.replies|, 4, 4
  {
    hide Inv, HeldBut, Callback, Fire;
    KeepsRefl(w);
    if !w.done {
      var w0 := w.(done := true, closing := true);
      DoneBegins(w);
      CallbackKept(w0);
      var w1 := Callback(w0).0;
      KindHeld(w0, w1, -1);
      DoneEnds(w, w1);
    }
  }

  lemma DoneBegins(w: Receiver)
    requires Inv(w) && w.kind.Subscribe? && !w.done
    ensures Inv(w.(done := true, closing := true)) && !w.closing && !w.sent
  {
    hide SubOk, ObjectOk, CountOpen, Numbered, AccountOk, SomeBroken;
  }

  lemma {:induction false} DoneEnds(w: Receiver, w1: Receiver)
    requires w.kind.Subscribe? && !w.done && !w.closing && |w1.replies| <= |w.replies|
    requires Kept(w.(done := true, closing := true), w1)
    ensures var v := w1.(closing := false);
      Kept(w, if v.open == 0 then Fire(v) else v)
    decreases |w1.replies|, 4, 3
  {
    hide Inv, HeldBut, Callback;
    var v := w1.(closing := false);
    StillDone(w.(done := true, closing := true), w1);
    if v.open == 0 && !v.sent {
      var u := Firing(v);
      DoneState(w1, u);
      DoneHeld(w, w1, u);
      CallbackKept(u);
      KeptTrans(w, u, Callback(u).0);
    } else {
      DoneState(w1, v);
      DoneHeld(w, w1, v);
    }
  }

  lemma StillDone(a: Receiver, b: Receiver)
    requires Held(a, b) && a.done
    ensures b.done && b.closing == a.closing && b.kind == a.kind
  {
    hide HeldFetch;
  }

  lemma DoneState(w1: Receiver, u: Receiver)
    requires Inv(w1) && w1.kind.Subscribe? && w1.closing
    requires var v := w1.(closing := false); u == if v.open == 0 && !v.sent then Firing(v) else v
    ensures Inv(u)
  {
    hide SubOk, ObjectOk, CountOpen, Numbered, AccountOk, SomeBroken;
  }

  lemma DoneHeld(w: Receiver, w1: Receiver, u: Receiver)
    requires w.kind.Subscribe? && !w.closing && Held(w.(done := true, closing := true), w1)
    requires var v := w1.(closing := false); u == v || u == Firing(v)
    ensures Held(w, u)
  {
    hide HeldSub, HeldFull, HeldObject;
  }

  // ---------------------------------------------------------------- fetch

  lemma FetchLive(w: Receiver)
    requires Inv(w) && w.kind.Fetch?
    ensures |w.subs| == 1
    ensures !w.terminal || !w.subs[0].finished ==> !w.sent && !w.early
    ensures !w.terminal ==> !w.failed
    ensures w.early ==> w.sent
  {
    hide SubsOk, ObjectsOk, Books, CountOpen, Ascending, UpTo;
  }

  /** A fetch's own flags and last location change. */
  lemma FetchFlags(w: Receiver, terminal: bool, failed: bool)
    requires Inv(w) && w.kind.Fetch? && (failed ==> terminal) && (w.sent ==> terminal) && (w.sent && failed ==> w.early)
    ensures Inv(w.(terminal := terminal, failed := failed))
  {
    hide SubOk, ObjectOk, CountOpen, Ascending, UpTo, AccountOk, SomeBroken;
  }

  lemma FlagsFromLive(w: Receiver, v: Receiver, r: Receiver)
    requires Held(w, v) && w.kind.Fetch? && !w.terminal && !w.sent && r == v.(terminal := r.terminal, failed := r.failed)
    ensures Held(w, r)
  {
    hide HeldSub, HeldFull, HeldObject;
  }

  /** A part of a delivery that leaves the fetch uncompleted, or failed, is a whole call. */
  lemma KeptIsKeeps(w: Receiver, r: Receiver)
    requires Kept(w, r) && (w.kind.Fetch? ==> r.failed || !r.early)
    ensures Keeps(w, r)
  {
    hide Inv, HeldBut;
  }

  lemma KeptFields(a: Receiver, b: Receiver)
    requires Kept(a, b)
    ensures Inv(b) && a.kind == b.kind && a.exposed == b.exposed && HeldFetch(a, b) && Grows(a, b)
  {
    hide Inv, HeldFetch;
  }

  /** The fetch is failed and its receiver reset. */
  lemma {:induction false} FailKeeps(w: Receiver, code: ResetCode)
    requires Inv(w) && w.kind.Fetch? && !w.terminal
    ensures |w.subs| == 1 && Keeps(w, Terminate(w.(failed := true, terminal := true), 0, code))
    decreases |w.replies|, 4, 1
  {
    hide Inv, HeldBut, Terminate, Kept, Keeps;
    FetchLive(w);
    var v := w.(failed := true, terminal := true);
    FetchFlags(w, true, true);
    assert v == w.(terminal := true, failed := true);
    KeepsRefl(w);
    HeldSelf(w);
    FlagsFromLive(w, w, v);
    TerminateKeeps(v, 0, code);
    var r := Terminate(v, 0, code);
    KeptFields(v, r);
    FetchLive(r);
    KeptAfter(w, v, r);
    KeptIsKeeps(w, r);
  }

  lemma HeldSelf(w: Receiver)
    ensures Held(w, w)
  {
  }

  lemma KeptAfter(w: Receiver, v: Receiver, r: Receiver)
    requires Held(w, v) && Kept(v, r) && w.sent == v.sent && w.kind == v.kind && (v.early ==> r.early)
    ensures Kept(w, r)
  {
    hide Inv, HeldBut;
    HeldTrans(w, v, r, -1);
  }

  lemma {:induction false} FailFetchKeeps(w: Receiver)
    requires Inv(w) && w.kind.Fetch? && |w.subs| > 0
    ensures Keeps(w, FailFetch(w))
    decreases |w.replies|, 4, 2
  {
    hide Inv, HeldBut, Terminate, Keeps, Kept;
    KeepsRefl(w);
    if !w.terminal {
      FailKeeps(w, MALFORMED_TRACK);
    }
  }

  lemma {:induction false} ResetFetchKeeps(w: Receiver, code: ResetCode)
    requires Inv(w) && w.kind.Fetch? && |w.subs| > 0
    ensures Keeps(w, ResetTheFetch(w, code))
    decreases |w.replies|, 4, 7
  {
    hide Inv, HeldBut, Terminate, Keeps, Kept;
    KeepsRefl(w);
    if !w.terminal {
      FailKeeps(w, code);
    }
  }

  lemma AdvancesTrans(order: GroupOrder, a: Location, b: Location, c: Location)
    requires Advances(order, a, b) && Advances(order, b, c)
    ensures Advances(order, a, c)
  {
  }

  lemma GroupSet(w: Receiver, group: u64)
    requires Inv(w) && |w.subs| > 0
    ensures var r := WithSub(w, 0, w.subs[0].(group := group)); Inv(r) && Held(w, r)
  {
    hide Inv, InFlight, HeldBut, SubOk, Lawful, HeldFull;
    CheckSub(w, 0);
    var x := w.subs[0].(group := group);
    GroupApart(w, group);
    SubUpdated(w, 0, x);
    Swapped(w, 0, x);
    HeldAll(w, WithSub(w, 0, x), 0);
  }

  lemma GroupApart(w: Receiver, group: u64)
    requires |w.subs| > 0 && SubOk(w.kind, w.objects, w.subs[0], 0)
    ensures var x := w.subs[0].(group := group);
      SubOk(w.kind, w.objects, x, 0) && Lawful(w, 0, x) && HeldFull(w.objects, w.subs[0], x, w.slipped)
  {
    hide InFlight;
  }

  /** A location in order becomes the latest one, not yet delivered. */
  lemma LocationTaken(w: Receiver, at: Location)
    requires Inv(w) && w.kind.Fetch? && !w.terminal
    requires w.lastFetch.Some? ==> Advances(w.kind.order, w.lastFetch.value, at)
    ensures Inv(w.(lastFetch := Some(at))) && Due(w.(lastFetch := Some(at)), at)
  {
    hide CountOpen, SubOk, ObjectOk, AccountOk, SomeBroken;
    if w.delivered != [] && w.delivered[|w.delivered| - 1] != w.lastFetch.value {
      AdvancesTrans(w.kind.order, w.delivered[|w.delivered| - 1], w.lastFetch.value, at);
    }
  }

  lemma LastHeld(w: Receiver, v: Receiver, r: Receiver)
    requires Held(w, v) && w.kind.Fetch? && !w.terminal && r == v.(lastFetch := r.lastFetch, delivered := r.delivered)
    ensures Held(w, r)
  {
    hide HeldSub, HeldFull, HeldObject;
  }

  lemma LiveIsBlameless(w: Receiver, r: Receiver)
    requires Inv(r) && Held(w, r) && (w.kind.Fetch? ==> !r.early)
    ensures Keeps(w, r)
  {
    hide Inv, HeldBut;
  }

  lemma {:induction false} PrepareFetchKeeps(w: Receiver, at: Location)
    requires Inv(w) && w.kind.Fetch? && |w.subs| > 0
    ensures var (r, ok) := PrepareFetch(w, at);
      && Keeps(w, r)
      && (ok ==> !w.terminal && Due(r, at) && |r.subs| > 0 && r.subs[0].group == at.group && r.kind == w.kind && !r.terminal)
    decreases |w.replies|, 4, 3
  {
    hide Inv, FailFetch, HeldBut, Keeps;
    KeepsRefl(w);
    if !w.terminal {
      GroupSet(w, at.group);
      var w1 := WithSub(w, 0, w.subs[0].(group := at.group));
      FetchLive(w1);
      LiveIsBlameless(w, w1);
      if w.lastFetch.Some? && !Advances(w.kind.order, w.lastFetch.value, at) {
        FailFetchKeeps(w1);
        KeepsTrans(w, w1, FailFetch(w1));
      } else {
        LocationTaken(w1, at);
        var r := w1.(lastFetch := Some(at));
        LastHeld(w, w1, r);
        FetchLive(r);
        LiveIsBlameless(w, r);
      }
    }
  }

  /** Completing the fetch; its receiver is finished and nothing has failed. */
  lemma {:induction false} FireKeeps(w: Receiver, v: Receiver)
    requires Inv(v) && Held(w, v) && w.kind.Fetch? && v.kind.Fetch? && v.exposed == w.exposed && |v.replies| <= |w.replies|
    requires !w.terminal && !w.sent && v.terminal && !v.failed && !v.sent && |v.subs| == 1 && v.subs[0].finished
    ensures Keeps(w, Fire(v))
    decreases |v.replies|, 1, 0
  {
    hide Inv, HeldBut, Callback;
    FetchLive(v);
    var u := Firing(v);
    FiringInv(v);
    FiringHeld(w, v);
    CallbackKeeps(u);
    HeldTrans(w, u, Callback(u).0, -1);
  }

  lemma FiringInv(v: Receiver)
    requires Inv(v) && v.kind.Fetch? && v.terminal && !v.failed && !v.sent && |v.subs| == 1 && v.subs[0].finished
    ensures Inv(Firing(v))
  {
    hide SubOk, ObjectOk, CountOpen, Ascending, UpTo, AccountOk, SomeBroken;
  }

  lemma FiringHeld(w: Receiver, v: Receiver)
    requires Held(w, v) && w.kind.Fetch? && !w.terminal && !w.sent && v.exposed == w.exposed
    ensures Held(w, Firing(v))
  {
    hide HeldSub, HeldFull, HeldObject;
  }

  lemma {:induction false} FinishFetchKeeps(w: Receiver)
    requires Inv(w) && w.kind.Fetch? && |w.subs| > 0
    ensures Keeps(w, FinishFetch(w))
    decreases |w.replies|, 4, 5
  {
    hide Inv, HeldBut, Fire, Keeps;
    KeepsRefl(w);
    if !w.terminal {
      FetchLive(w);
      MarkFinished(w);
      var v := WithSub(w.(terminal := true), 0, w.subs[0].(finished := true));
      FireKeeps(w, v);
    }
  }

  lemma MarkFinished(w: Receiver)
    requires Inv(w) && w.kind.Fetch? && |w.subs| == 1 && !w.terminal
    ensures var v := WithSub(w.(terminal := true), 0, w.subs[0].(finished := true)); Inv(v) && Held(w, v)
  {
    hide Inv, HeldBut, InFlight;
    FetchLive(w);
    var w' := w.(terminal := true);
    FetchFlags(w, true, false);
    assert w' == w.(terminal := true, failed := false);
    HeldSelf(w);
    FlagsFromLive(w, w, w');
    CheckSub(w', 0);
    var x := w.subs[0].(finished := true);
    SubUpdated(w', 0, x);
    Swapped(w', 0, x);
    HeldAll(w', WithSub(w', 0, x), 0);
    HeldTrans(w, w', WithSub(w', 0, x), -1);
  }

  /** A delivery that ended in an error fails the fetch. */
  lemma FailedKeeps(w: Receiver, v: Receiver, r0: Receiver)
    requires Held(w, v) && w.kind.Fetch? && v.kind.Fetch? && v.exposed == w.exposed && !w.terminal && !w.sent && !v.sent
    requires Kept(v, r0)
    ensures Keeps(w, r0.(failed := true, terminal := true))
  {
    hide Inv, HeldBut;
    KindHeld(v, r0, -1);
    HeldTrans(w, v, r0, -1);
    FetchFlags(r0, true, true);
    var r := r0.(failed := true, terminal := true);
    assert r == r0.(terminal := true, failed := true);
    FlagsFromLive(w, r0, r);
  }

  /** What an operation on the receiver means for the fetch. */
  lemma {:induction false} SettleKeeps(w: Receiver, v: Receiver, r: (Receiver, Progress), fin: bool)
    requires Keeps(w, v) && Inv(w) && w.kind.Fetch? && !w.terminal && !v.terminal && Kept(v, r.0) && |r.0.subs| > 0
    requires !r.1.Error? ==> !r.0.sent
    ensures Keeps(w, Settle(r, fin))
    decreases |r.0.replies|, 4, 6
  {
    hide Inv, HeldBut, FinishFetch;
    KindHeld(w, v, -1);
    KindHeld(v, r.0, -1);
    FetchLive(w);
    FetchLive(v);
    if r.1.Error? {
      FailedKeeps(w, v, r.0);
    } else {
      FetchLive(r.0);
      KeptIsKeeps(v, r.0);
      KeepsTrans(w, v, r.0);
      if fin {
        FinishFetchKeeps(r.0);
        KeepsTrans(w, r.0, FinishFetch(r.0));
      }
    }
  }

  // An operation that succeeds has not seen the fetch complete.

  lemma {:induction false} DeliverSent(w: Receiver, s: nat, n: nat, fin: bool)
    requires Inv(w) && w.kind.Fetch? && s < |w.subs| && w.subs[s].current.Some? && !w.subs[s].finished && !w.sent
    ensures w.subs[s].current.value < |w.objects|
    ensures !Deliver(w, s, n, fin).1.Error? ==> !Deliver(w, s, n, fin).0.sent
    decreases |w.replies|, 4, 3
  {
    hide Inv, Expose, Terminate, HeldBut, Pay, KeptBut, InFlight, FinishAtEnd;
    ObjectOfCurrent(w, s);
    FetchLive(w);
    var left := w.subs[s].remaining;
    if n <= left && !(n == 0 && left > 0) {
      HandOver(w, s, n);
      var (v, answer) := Expose(Pay(w, s, n));
      KeptButInv(w, v, s);
      FetchLive(v);
      assert HandIn(w, s, n, fin) == Paid(v, s, n == left, fin, answer);
      if !v.subs[s].finished && n == left {
        ReleasedKeeps(w, v, s);
        IsReleased(v, s);
        KeptButInv(w, Released(v, s), s);
        FinishedSent(Released(v, s), s);
      }
    }
  }

  lemma {:induction false} FinishedSent(v: Receiver, s: nat)
    requires Inv(v) && v.kind.Fetch? && s < |v.subs| && !v.subs[s].finished && v.subs[s].current.None?
    ensures FinishAtEnd(v, s).sent == v.sent
    decreases |v.replies|, 4, 1
  {
    hide Inv, EndWith;
    EndWithKeeps(v, s, EndOfStream, false);
  }

  lemma {:induction false} AdmitDeliverSent(w: Receiver, s: nat, id: u64, length: nat, n: nat, fin: bool)
    requires Inv(w) && w.kind.Fetch? && s < |w.subs| && !w.subs[s].finished && w.subs[s].current.None?
    requires Due(w, Location(w.subs[s].group, id))
    ensures var (w', ok) := Admit(w, s, id, length);
      ok && !Deliver(w', s, n, fin).1.Error? ==> !Deliver(w', s, n, fin).0.sent
    decreases |w.replies|, 4, 4
  {
    hide Inv, HeldBut, Admit, Deliver, Due, Kept;
    AdmitKeeps(w, s, id, length);
    var (w', ok) := Admit(w, s, id, length);
    if ok {
      KeptFields(w, w');
      AdmittedIsLive(w, s, id, length);
      FetchLive(w');
      DeliverSent(w', s, n, fin);
    }
  }

  lemma {:induction false} PutFetchObjectKeeps(w: Receiver, at: Location, n: nat, fin: bool)
    requires Inv(w) && w.kind.Fetch? && |w.subs| > 0
    ensures Keeps(w, PutFetchObject(w, at, n, fin))
    decreases |w.replies|, 4, 7
  {
    hide Inv, SubObject, PrepareFetch, Settle, HeldBut, Keeps, Kept;
    PrepareFetchKeeps(w, at);
    var (w1, ok) := PrepareFetch(w, at);
    if ok {
      KeepsInv(w, w1);
      SubObjectKeeps(w1, 0, at.objectId, n, fin);
      SubObjectSent(w1, at.objectId, n, fin);
      SettleKeeps(w, w1, SubObject(w1, 0, at.objectId, n, fin), fin);
    }
  }

  lemma {:induction false} SubObjectSent(w: Receiver, id: u64, n: nat, fin: bool)
    requires Inv(w) && w.kind.Fetch? && |w.subs| > 0 && Due(w, Location(w.subs[0].group, id))
    ensures !SubObject(w, 0, id, n, fin).1.Error? ==> !SubObject(w, 0, id, n, fin).0.sent
    decreases |w.replies|, 4, 5
  {
    hide Inv, Admit, Deliver, Prepare, Kept;
    PreparedKeeps(w, 0, id);
    var (w1, ok) := Prepare(w, 0, id);
    KeptFields(w, w1);
    if ok {
      AdmitDeliverSent(w1, 0, id, n, n, fin);
    }
  }

  lemma {:induction false} BeginFetchObjectKeeps(w: Receiver, at: Location, length: nat, initial: nat)
    requires Inv(w) && w.kind.Fetch? && |w.subs| > 0
    ensures Keeps(w, BeginFetchObject(w, at, length, initial))
    decreases |w.replies|, 4, 7
  {
    hide Inv, SubBegin, PrepareFetch, Settle, HeldBut, Keeps, Kept;
    PrepareFetchKeeps(w, at);
    var (w1, ok) := PrepareFetch(w, at);
    if ok {
      KeepsInv(w, w1);
      SubBeginKeeps(w1, 0, at.objectId, length, initial);
      SubBeginSent(w1, at.objectId, length, initial);
      SettleKeeps(w, w1, SubBegin(w1, 0, at.objectId, length, initial), false);
    }
  }

  lemma {:induction false} SubBeginSent(w: Receiver, id: u64, length: nat, initial: nat)
    requires Inv(w) && w.kind.Fetch? && |w.subs| > 0 && Due(w, Location(w.subs[0].group, id))
    ensures !SubBegin(w, 0, id, length, initial).1.Error? ==> !SubBegin(w, 0, id, length, initial).0.sent
    decreases |w.replies|, 4, 5
  {
    hide Inv, Admit, Deliver, Prepare, Kept, Terminate;
    PreparedKeeps(w, 0, id);
    var (w1, ok) := Prepare(w, 0, id);
    KeptFields(w, w1);
    if ok {
      AdmitDeliverSent(w1, 0, id, length, initial, false);
    }
  }

  lemma {:induction false} PutFetchPayloadKeeps(w: Receiver, n: nat, fin: bool)
    requires Inv(w) && w.kind.Fetch? && |w.subs| > 0
    ensures Keeps(w, PutFetchPayload(w, n, fin))
    decreases |w.replies|, 4, 7
  {
    hide Inv, SubPayload, Settle, HeldBut, Keeps, Kept;
    KeepsRefl(w);
    if !w.terminal {
      SubPayloadKeeps(w, 0, n, fin);
      SubPayloadSent(w, n, fin);
      var r := SubPayload(w, 0, n, fin);
      SettleKeeps(w, w, r, fin && r.1.Done?);
    }
  }

  lemma {:induction false} SubPayloadSent(w: Receiver, n: nat, fin: bool)
    requires Inv(w) && w.kind.Fetch? && |w.subs| > 0 && !w.terminal
    ensures !SubPayload(w, 0, n, fin).1.Error? ==> !SubPayload(w, 0, n, fin).0.sent
    decreases |w.replies|, 4, 5
  {
    hide Inv, Deliver, Terminate;
    FetchLive(w);
    if !w.subs[0].finished && w.subs[0].current.Some? {
      DeliverSent(w, 0, n, fin);
    }
  }

  lemma {:induction false} PutFetchStatusKeeps(w: Receiver, at: Location, endOfTrack: bool, fin: bool)
    requires Inv(w) && w.kind.Fetch? && |w.subs| > 0
    ensures Keeps(w, PutFetchStatus(w, at, endOfTrack, fin))
    decreases |w.replies|, 4, 7
  {
    hide Inv, SubStatus, PrepareFetch, SettleStatus, HeldBut, Keeps;
    PrepareFetchKeeps(w, at);
    var (w1, ok) := PrepareFetch(w, at);
    if ok {
      KeepsInv(w, w1);
      FetchLive(w);
      FetchLive(w1);
      StatusKeeps(w, w1, at, endOfTrack, fin);
    }
  }

  lemma {:induction false} StatusKeeps(w: Receiver, w1: Receiver, at: Location, endOfTrack: bool, fin: bool)
    requires Keeps(w, w1) && w.kind.Fetch? && !w.terminal && !w.sent && !w1.terminal && !w1.sent && !w1.failed && |w1.subs| > 0
    requires Due(w1, at) && w1.subs[0].group == at.group
    ensures Keeps(w, SettleStatus(SubStatus(w1.(terminal := fin), 0, at.objectId, endOfTrack, fin), fin))
    decreases |w1.replies|, 4, 6
  {
    hide Inv, Prepare, SubStatus, HeldBut, Fire, Keeps, Kept, Due;
    var v := w1.(terminal := fin);
    StatusBegins(w, w1, fin);
    PreparedKeeps(v, 0, at.objectId);
    var (w2, ok) := Prepare(v, 0, at.objectId);
    if !ok {
      FailedKeeps(w, v, w2);
      StatusRefused(v, at.objectId, endOfTrack, fin);
    } else {
      StatusMade(w, w1, v, at, endOfTrack, fin);
    }
  }

  lemma StatusBegins(w: Receiver, w1: Receiver, fin: bool)
    requires Keeps(w, w1) && w.kind.Fetch? && !w.terminal && !w.sent && !w1.terminal && !w1.sent && !w1.failed
    ensures var v := w1.(terminal := fin);
      Inv(v) && Held(w, v) && v.kind.Fetch? && v.exposed == w.exposed && |v.replies| <= |w.replies|
  {
    hide Inv, HeldBut;
    KindHeld(w, w1, -1);
    FetchFlags(w1, fin, false);
    assert w1.(terminal := fin) == w1.(terminal := fin, failed := false);
    FlagsFromLive(w, w1, w1.(terminal := fin));
  }

  lemma {:induction false} StatusRefused(v: Receiver, id: u64, endOfTrack: bool, fin: bool)
    requires |v.subs| > 0 && !Prepare(v, 0, id).1
    ensures SubStatus(v, 0, id, endOfTrack, fin) == (Prepare(v, 0, id).0, Error)
  {
    hide Prepare;
  }

  lemma {:induction false} StatusAccepted(v: Receiver, id: u64, endOfTrack: bool, fin: bool)
    requires |v.subs| > 0 && v.kind.Fetch? && Prepare(v, 0, id).1
    ensures var w2 := Prepare(v, 0, id).0;
      && |w2.subs| == |v.subs|
      && (var w3 := w2.(delivered := w2.delivered + [Location(w2.subs[0].group, id)]);
          SubStatus(v, 0, id, endOfTrack, fin)
            == (if fin then EndWith(w3, 0, EndStatus(id, endOfTrack), true) else Callback(w3).0, Done))
  {
    hide Prepare, EndWith, Callback;
  }

  lemma {:induction false} StatusMade(w: Receiver, w1: Receiver, v: Receiver, at: Location, endOfTrack: bool, fin: bool)
    requires v == w1.(terminal := fin) && w.kind.Fetch? && !w.terminal && !w.sent && !w1.sent && !w1.failed && |w1.subs| > 0
    requires Inv(v) && Held(w, v) && v.kind.Fetch? && v.exposed == w.exposed && |v.replies| <= |w.replies|
    requires Due(w1, at) && w1.subs[0].group == at.group && Prepare(v, 0, at.objectId).1
    requires Kept(v, Prepare(v, 0, at.objectId).0)
    ensures Keeps(w, SettleStatus(SubStatus(v, 0, at.objectId, endOfTrack, fin), fin))
    decreases |v.replies|, 4, 5
  {
    hide Inv, Prepare, EndWith, Callback, SubStatus, HeldBut, Fire, Keeps;
    var w2 := Prepare(v, 0, at.objectId).0;
    KeptFields(v, w2);
    HeldTrans(w, v, w2, -1);
    DeliveredOk(w2, at);
    var w3 := w2.(delivered := w2.delivered + [at]);
    LastHeld(w, w2, w3);
    StatusAccepted(v, at.objectId, endOfTrack, fin);
    StatusRest(w, w3, EndStatus(at.objectId, endOfTrack), fin);
  }

  lemma {:induction false} StatusRest(w: Receiver, v: Receiver, t: Terminal, fin: bool)
    requires Inv(v) && Held(w, v) && w.kind.Fetch? && v.kind.Fetch? && v.exposed == w.exposed && |v.replies| <= |w.replies|
    requires !w.terminal && !w.sent && !v.sent && !v.failed && v.terminal == fin && !t.SubgroupError?
    requires |v.subs| > 0 && !v.subs[0].finished && v.subs[0].current.None?
    ensures Keeps(w, if fin then Fire(EndWith(v, 0, t, true)) else Callback(v).0)
    decreases |v.replies|, 4, 4
  {
    hide Inv, EndWith, Callback, HeldBut, Fire;
    FetchLive(v);
    if fin {
      EndWithKeeps(v, 0, t, true);
      var r := EndWith(v, 0, t, true);
      KindHeld(v, r, -1);
      FetchLive(r);
      HeldTrans(w, v, r, -1);
      FireKeeps(w, r);
    } else {
      LiveIsBlameless(w, v);
      CallbackKeeps(v);
      KeepsTrans(w, v, Callback(v).0);
    }
  }

  lemma {:induction false} PutFetchUnknownKeeps(w: Receiver, at: Location, fin: bool)
    requires Inv(w) && w.kind.Fetch? && |w.subs| > 0
    ensures Keeps(w, PutFetchUnknown(w, at, fin))
    decreases |w.replies|, 4, 7
  {
    hide Inv, PrepareFetch, FailFetch, FinishFetch, Callback, HeldBut, Keeps;
    PrepareFetchKeeps(w, at);
    var (w1, ok) := PrepareFetch(w, at);
    if ok {
      KeepsInv(w, w1);
      if w1.subs[0].current.Some? {
        FailFetchKeeps(w1);
        KeepsTrans(w, w1, FailFetch(w1));
      } else {
        var w2 := w1.(delivered := w1.delivered + [at]);
        DeliveredOk(w1, at);
        HeldSelf(w1);
        LastHeld(w1, w1, w2);
        FetchLive(w2);
        LiveIsBlameless(w1, w2);
        CallbackKeeps(w2);
        var w3 := Callback(w2).0;
        KeepsTrans(w, w1, w2);
        KeepsTrans(w, w2, w3);
        if fin {
          KeepsInv(w2, w3);
          StillFetch(w2, w3);
          FinishFetchKeeps(w3);
          KeepsTrans(w, w3, FinishFetch(w3));
        }
      }
    }
  }

  lemma StillFetch(a: Receiver, b: Receiver)
    requires Keeps(a, b)
    ensures a.kind == b.kind
  {
    hide Inv, HeldFetch;
  }

  lemma {:induction false} EndFetchKeeps(w: Receiver)
    requires Inv(w) && w.kind.Fetch? && |w.subs| > 0
    ensures Keeps(w, EndTheFetch(w))
    decreases |w.replies|, 4, 7
  {
    hide Inv, SubEnd, Fire, HeldBut;
    KeepsRefl(w);
    if !w.terminal {
      FetchLive(w);
      var v := w.(terminal := true);
      FetchFlags(w, true, false);
      assert v == w.(terminal := true, failed := false);
      HeldSelf(w);
      FlagsFromLive(w, w, v);
      SubEndKeeps(v, 0);
      var (w1, progress) := SubEnd(v, 0);
      KindHeld(v, w1, -1);
      if progress.Error? {
        FailedKeeps(w, v, w1);
        assert w1.(failed := true) == w1.(failed := true, terminal := true);
      } else {
        EndIsDone(v);
        FetchLive(w1);
        HeldTrans(w, v, w1, -1);
        FireKeeps(w, w1);
      }
    }
  }

  lemma {:induction false} EndIsDone(w: Receiver)
    requires |w.subs| > 0
    ensures !SubEnd(w, 0).1.InProgress?
  {
    hide Terminate, FinishAtEnd;
  }

  // ---------------------------------------------------------------- every call

  lemma SubscribeKeeps(w: Receiver, r: Receiver)
    requires Kept(w, r) && w.kind.Subscribe?
    ensures Keeps(w, r)
  {
    hide Inv, HeldBut;
  }

  /** Every call, from outside or from inside a callback, keeps the invariant and what the frames below rely on. */
  lemma {:induction false} ApplyKeeps(w: Receiver, c: Call)
    requires Inv(w)
    ensures Keeps(w, Apply(w, c))
    decreases |w.replies|, 5, 0
  {
    hide Inv, HeldBut, Keeps, Kept;
    hide PutFetchObject, BeginFetchObject, PutFetchPayload, PutFetchStatus, PutFetchUnknown, EndTheFetch, ResetTheFetch;
    hide SubObject, SubBegin, SubPayload, SubStatus, SubEnd, Terminate, SubDrop, FinishSubscription;
    KeepsRefl(w);
    if w.kind.Fetch? {
      if |w.subs| > 0 {
        match c
        case FetchObject(at, n, fin) => PutFetchObjectKeeps(w, at, n, fin);
        case FetchBegin(at, length, initial) => BeginFetchObjectKeeps(w, at, length, initial);
        case FetchPayload(n, fin) => PutFetchPayloadKeeps(w, n, fin);
        case FetchStatus(at, endOfTrack, fin) => PutFetchStatusKeeps(w, at, endOfTrack, fin);
        case FetchUnknown(at, fin) => PutFetchUnknownKeeps(w, at, fin);
        case EndFetch => EndFetchKeeps(w);
        case ResetFetch(code) => ResetFetchKeeps(w, code);
        case _ =>
      }
    } else {
      SubscriptionKeeps(w, c);
      SubscribeKeeps(w, Apply(w, c));
    }
  }

  lemma {:induction false} SubscriptionKeeps(w: Receiver, c: Call)
    requires Inv(w) && w.kind.Subscribe?
    ensures Kept(w, Apply(w, c))
    decreases |w.replies|, 4, 9
  {
    hide Inv, HeldBut, Keeps, Kept, ApplyFetch;
    hide SubObject, SubBegin, SubPayload, SubStatus, SubEnd, Terminate, SubDrop, FinishSubscription;
    KeepsRefl(w);
    match c
    case PutObject(s, id, n, fin) =>
      if s < |w.subs| {
        SubObjectKeeps(w, s, id, n, fin);
      }
    case BeginObject(s, id, length, initial) =>
      if s < |w.subs| {
        SubBeginKeeps(w, s, id, length, initial);
      }
    case ObjectPayload(s, n, fin) =>
      if s < |w.subs| {
        SubPayloadKeeps(w, s, n, fin);
      }
    case PutStatus(s, id, endOfTrack) =>
      if s < |w.subs| {
        EndStatusKeeps(w, s, id, endOfTrack);
      }
    case EndSubgroup(s) =>
      if s < |w.subs| {
        SubEndKeeps(w, s);
      }
    case Reset(s, code) =>
      if s < |w.subs| {
        TerminateKeeps(w, s, code);
      }
    case Drop(s) =>
      if s < |w.subs| {
        SubDropKeeps(w, s);
      }
    case BeginSubgroup(group) =>
      if !w.done {
        SubgroupAdded(w, group);
      }
    case PublishDone => PublishDoneKeeps(w);
    case _ =>
  }
}
