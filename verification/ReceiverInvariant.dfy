/** What the streaming receiver keeps under every call, and what a call leaves to the frames below it. */
module ReceiverInvariant {
  import opened Bytes
  import opened ObjectWire
  import opened Locations
  import opened ReceiverModel

  // ---------------------------------------------------------------- one object's callbacks

  /** An error comes at most once, and last. */
  predicate ErrorLast(log: seq<ObjectEvent>) { forall i :: 0 <= i < |log| - 1 ==> !log[i].Failed? }

  /** Payload up to the declared length, endOfObject on exactly the call that reaches it, an error only at the end. */
  predicate LogOk(declared: nat, log: seq<ObjectEvent>) {
    log == [] ||
    (var init, last := log[..|log| - 1], log[|log| - 1];
     && LogOk(declared, init)
     && !Errored(init)
     && (last.Payload? ==>
           && !Ended(init)
           && Got(init) + last.bytes <= declared
           && (last.endOfObject <==> Got(init) + last.bytes == declared)))
  }

  lemma {:induction false} LogSnoc(log: seq<ObjectEvent>, e: ObjectEvent, declared: nat)
    ensures Got(log + [e]) == Got(log) + (if e.Payload? then e.bytes else 0)
    ensures Ended(log + [e]) <==> Ended(log) || (e.Payload? && e.endOfObject)
    ensures Errored(log + [e]) <==> e.Failed?
    ensures ErrorLast(log) && !Errored(log) ==> ErrorLast(log + [e])
    ensures LogOk(declared, log + [e]) <==>
      && LogOk(declared, log)
      && !Errored(log)
      && (e.Payload? ==>
            !Ended(log) && Got(log) + e.bytes <= declared && (e.endOfObject <==> Got(log) + e.bytes == declared))
  {
    assert (log + [e])[..|log + [e]| - 1] == log;
  }

  /** Once all the declared bytes are there, endOfObject has been set. */
  lemma {:induction false} AllGotIsEnded(declared: nat, log: seq<ObjectEvent>)
    requires LogOk(declared, log) && log != [] && Got(log) == declared && !Errored(log)
    ensures Ended(log)
  {
  }

  /** endOfObject is set only once all the declared bytes are there. */
  lemma {:induction false} EndedHasAll(declared: nat, log: seq<ObjectEvent>)
    requires LogOk(declared, log) && Ended(log)
    ensures Got(log) == declared
  {
    var n := |log| - 1;
    if !(log[n].Payload? && log[n].endOfObject) {
      EndedHasAll(declared, log[..n]);
    }
  }

  /** A log that has gone wrong stays wrong. */
  lemma {:induction false} WrongForGood(declared: nat, a: seq<ObjectEvent>, b: seq<ObjectEvent>)
    requires a <= b && LogOk(declared, b)
    ensures LogOk(declared, a)
  {
    if |a| < |b| {
      WrongForGood(declared, a, b[..|b| - 1]);
    } else {
      assert a == b;
    }
  }

  // ---------------------------------------------------------------- the invariant

  /** The error a subgroup's objects are failed with. */
  function CodeOf(sub: Subgroup): ResetCode { if sub.code.Some? then sub.code.value else MALFORMED_TRACK }

  /** The terminal callback reports the error the subgroup ended with, if it did. */
  predicate ReportsCode(sub: Subgroup) {
    && (!sub.finished ==> sub.code.None?)
    && (sub.terminals != [] ==>
          sub.code == if sub.terminals[0].SubgroupError? then Some(sub.terminals[0].code) else None)
  }

  predicate InFlight(o: Object, s: nat) { o.subgroup == s && o.admitted && !Errored(o.log) }

  predicate SubOk(kind: Kind, objects: seq<Object>, sub: Subgroup, s: nat) {
    && (sub.current.Some? ==>
          && (kind.Subscribe? ==> !sub.finished)
          && sub.current.value < |objects|
          && InFlight(objects[sub.current.value], s))
    && ReportsCode(sub)
    && (!sub.finished ==> !sub.ending && !sub.owes && sub.terminals == [] && sub.attached == kind.Subscribe?)
    && (sub.finished && !sub.ending ==> !sub.attached && !sub.owes && (kind.Subscribe? ==> |sub.terminals| == 1))
    && !(sub.attached && sub.owes)
    && (kind.Fetch? ==> !sub.attached && !sub.owes)
  }

  /** The failure an object was told of is its subgroup's. */
  predicate FailedWith(log: seq<ObjectEvent>, sub: Subgroup)
    requires Errored(log)
  {
    sub.finished && log[|log| - 1].code == CodeOf(sub)
  }

  predicate ObjectOk(subs: seq<Subgroup>, o: Object) {
    && o.subgroup < |subs|
    && ErrorLast(o.log)
    && (!o.admitted ==> o.log == [])
    && (Errored(o.log) ==> FailedWith(o.log, subs[o.subgroup]))
  }

  predicate IsCurrent(subs: seq<Subgroup>, o: Object, k: nat) {
    o.subgroup < |subs| && subs[o.subgroup].current == Some(k)
  }

  /** What is left of the object in flight; all of it is waived when a whole object came in between. */
  predicate Balanced(o: Object, sub: Subgroup) {
    Got(o.log) + sub.remaining == o.declared || (o.log == [] && sub.remaining == 0)
  }

  /** The callbacks of object k are in order, and it is in flight, complete or failed. */
  predicate AccountOk(subs: seq<Subgroup>, o: Object, k: nat) {
    && LogOk(o.declared, o.log)
    && (o.admitted ==> IsCurrent(subs, o, k) || Settled(o.log))
    && (IsCurrent(subs, o, k) ==> Balanced(o, subs[o.subgroup]))
  }

  /** They are not, and never will be. */
  predicate Broken(subs: seq<Subgroup>, o: Object, k: nat) {
    !LogOk(o.declared, o.log) || (o.admitted && !IsCurrent(subs, o, k) && !Settled(o.log))
  }

  ghost predicate SomeBroken(subs: seq<Subgroup>, objects: seq<Object>) {
    exists k :: 0 <= k < |objects| && Broken(subs, objects[k], k)
  }

  /** The books balance exactly until the receiver slips. */
  ghost predicate Books(w: Receiver) {
    if w.slipped then SomeBroken(w.subs, w.objects)
    else forall k :: 0 <= k < |w.objects| ==> AccountOk(w.subs, w.objects[k], k)
  }

  /** Within a subgroup of a subscription the IDs announced increase, up to the last one seen. */
  predicate Numbered(subs: seq<Subgroup>, objects: seq<Object>) {
    && (forall k :: 0 <= k < |objects| ==> UpToLast(subs, objects[k]))
    && (forall j, k :: 0 <= j < k < |objects| && objects[j].subgroup == objects[k].subgroup ==> objects[j].id < objects[k].id)
  }

  predicate UpToLast(subs: seq<Subgroup>, o: Object) {
    o.subgroup < |subs| && subs[o.subgroup].last.Some? && o.id <= subs[o.subgroup].last.value
  }

  predicate Counted(sub: Subgroup) { sub.attached || sub.owes }

  /** The subgroups whose end the receiver has not been told of. */
  function CountOpen(subs: seq<Subgroup>): nat {
    if subs == [] then 0 else CountOpen(subs[..|subs| - 1]) + (if Counted(subs[|subs| - 1]) then 1 else 0)
  }

  predicate DoneOk(w: Receiver) {
    && (w.sent ==> w.done && w.open == 0)
    && (w.done && w.open == 0 && !w.closing ==> w.sent)
    && (w.closing ==> w.done)
  }

  predicate Ascending(order: GroupOrder, ls: seq<Location>) {
    ls == [] || (Ascending(order, ls[..|ls| - 1]) && (|ls| > 1 ==> Advances(order, ls[|ls| - 2], ls[|ls| - 1])))
  }

  predicate UpTo(order: GroupOrder, ls: seq<Location>, last: Option<Location>) {
    ls != [] ==> last.Some? && (ls[|ls| - 1] == last.value || Advances(order, ls[|ls| - 1], last.value))
  }

  predicate FetchOk(w: Receiver)
    requires w.kind.Fetch?
  {
    && |w.subs| == 1
    && w.open == 0
    && (w.failed ==> w.terminal)
    && (w.sent ==> w.terminal && w.subs[0].finished)
    && (w.early ==> w.sent)
    && (w.sent && w.failed ==> w.early)
    && Ascending(w.kind.order, w.delivered)
    && UpTo(w.kind.order, w.delivered, w.lastFetch)
  }

  predicate SubsOk(w: Receiver) { forall s :: 0 <= s < |w.subs| ==> SubOk(w.kind, w.objects, w.subs[s], s) }

  predicate ObjectsOk(w: Receiver) { forall k :: 0 <= k < |w.objects| ==> ObjectOk(w.subs, w.objects[k]) }

  /** The receiver's own counts and flags. */
  predicate OwnOk(w: Receiver) {
    && w.open == CountOpen(w.subs)
    && w.allData == (if w.sent then 1 else 0)
    && (if w.kind.Fetch? then FetchOk(w) else DoneOk(w) && Numbered(w.subs, w.objects))
  }

  ghost predicate Inv(w: Receiver) { SubsOk(w) && ObjectsOk(w) && Books(w) && OwnOk(w) }

  // ---------------------------------------------------------------- what a frame can rely on across a callback

  predicate Same(a: Subgroup, b: Subgroup) { b == a.(group := b.group) }

  /** A finished subgroup is left alone, but for the group a fetch notes. */
  predicate HeldSub(a: Subgroup, b: Subgroup) { (a.finished ==> Same(a, b)) && a.ending == b.ending }

  /**
    Unless the receiver slips, what is left of an object is used up or kept, and an object that has had all its bytes
    stays current until its frame lets it go.
   */
  predicate HeldFull(objects: seq<Object>, a: Subgroup, b: Subgroup, slipped: bool) {
    !slipped && !b.finished ==>
      && (b.current.None? ==> b.remaining == 0 || (a.current.None? && b.remaining == a.remaining))
      && (a.current.Some? && a.current.value < |objects| && a.remaining == 0 && objects[a.current.value].log != [] ==>
            b.current == a.current && b.remaining == 0)
  }

  /** An object not in flight is left alone. */
  predicate HeldObject(subs: seq<Subgroup>, subs': seq<Subgroup>, a: Object, b: Object, k: nat) {
    && a.subgroup == b.subgroup
    && a.id == b.id
    && a.declared == b.declared
    && a.log <= b.log
    && (a.admitted ==> b.admitted)
    && (!a.admitted ==> a == b)
    && (a.admitted && !IsCurrent(subs, a, k) ==> a == b && !IsCurrent(subs', b, k))
  }

  /** A fetch that is over stays as it is, and one that completes under a delivery does so early. */
  predicate HeldFetch(w: Receiver, r: Receiver) {
    w.kind.Fetch? ==>
      && (w.terminal ==>
            && r.terminal
            && r.failed == w.failed
            && r.sent == w.sent
            && r.lastFetch == w.lastFetch
            && r.delivered == w.delivered)
      && (w.sent ==> r.sent)
      && (r.early && !w.early ==> !w.sent)
      && (w.exposed && r.sent && !w.sent ==> r.early)
  }

  /** Everything but subgroup s. */
  predicate HeldBut(w: Receiver, r: Receiver, s: int) {
    && r.kind == w.kind
    && r.exposed == w.exposed
    && r.closing == w.closing
    && (w.done ==> r.done)
    && (w.slipped ==> r.slipped)
    && (w.early ==> r.early)
    && Grows(w, r)
    && (forall t {:trigger w.subs[t]} {:trigger r.subs[t]} :: 0 <= t < |w.subs| && t != s ==>
          HeldSub(w.subs[t], r.subs[t]) && HeldFull(w.objects, w.subs[t], r.subs[t], r.slipped))
    && (forall t :: |w.subs| <= t < |r.subs| ==> !r.subs[t].ending)
    && (forall k {:trigger w.objects[k]} {:trigger r.objects[k]} :: 0 <= k < |w.objects| ==>
          HeldObject(w.subs, r.subs, w.objects[k], r.objects[k], k))
    && HeldFetch(w, r)
  }

  predicate Held(w: Receiver, r: Receiver) { HeldBut(w, r, -1) }

  lemma FullTrans(objects: seq<Object>, objects': seq<Object>, a: Subgroup, b: Subgroup, c: Subgroup, m: bool, slipped: bool)
    requires |objects| <= |objects'| && forall k :: 0 <= k < |objects| ==> objects[k].log <= objects'[k].log
    requires HeldSub(b, c) && HeldFull(objects, a, b, m) && HeldFull(objects', b, c, slipped) && (m ==> slipped)
    ensures HeldFull(objects, a, c, slipped)
  {
  }

  lemma FetchTrans(a: Receiver, b: Receiver, c: Receiver)
    requires a.kind == b.kind && a.exposed == b.exposed && (b.early ==> c.early) && HeldFetch(a, b) && HeldFetch(b, c)
    ensures HeldFetch(a, c)
  {
  }

  lemma HeldTrans(a: Receiver, b: Receiver, c: Receiver, s: int)
    requires s < |a.subs| && HeldBut(a, b, s) && HeldBut(b, c, s)
    ensures HeldBut(a, c, s)
  {
    hide HeldFetch;
    FetchTrans(a, b, c);
    forall k | 0 <= k < |a.objects|
      ensures HeldObject(a.subs, c.subs, a.objects[k], c.objects[k], k) && a.objects[k].log <= b.objects[k].log
    {
      assert HeldObject(a.subs, b.subs, a.objects[k], b.objects[k], k);
      assert HeldObject(b.subs, c.subs, b.objects[k], c.objects[k], k);
    }
    forall t | 0 <= t < |a.subs| && t != s
      ensures HeldSub(a.subs[t], c.subs[t]) && HeldFull(a.objects, a.subs[t], c.subs[t], c.slipped)
    {
      assert HeldSub(a.subs[t], b.subs[t]) && HeldSub(b.subs[t], c.subs[t]);
      FullTrans(a.objects, b.objects, a.subs[t], b.subs[t], c.subs[t], b.slipped, c.slipped);
    }
    forall t | |a.subs| <= t < |c.subs| ensures !c.subs[t].ending {
      if t < |b.subs| {
        assert HeldSub(b.subs[t], c.subs[t]);
      }
    }
  }

  lemma HeldAll(a: Receiver, b: Receiver, s: nat)
    requires HeldBut(a, b, s) && s < |a.subs| <= |b.subs|
    requires HeldSub(a.subs[s], b.subs[s]) && HeldFull(a.objects, a.subs[s], b.subs[s], b.slipped)
    ensures Held(a, b)
  {
    hide HeldFetch, HeldFull;
  }

  // ---------------------------------------------------------------- single updates

  lemma {:induction false} CountUpdate(subs: seq<Subgroup>, s: nat, x: Subgroup)
    requires s < |subs|
    ensures CountOpen(subs[s := x]) + (if Counted(subs[s]) then 1 else 0) == CountOpen(subs) + (if Counted(x) then 1 else 0)
  {
    var n := |subs| - 1;
    if s < n {
      CountUpdate(subs[..n], s, x);
      assert subs[s := x][..n] == subs[..n][s := x];
    } else {
      assert subs[s := x][..n] == subs[..n];
    }
  }

  /** The last object ID seen does not go back. */
  predicate Onward(a: Subgroup, b: Subgroup) { a.last.Some? ==> b.last.Some? && a.last.value <= b.last.value }

  lemma StaysNumbered(subs: seq<Subgroup>, s: nat, x: Subgroup, objects: seq<Object>)
    requires s < |subs| && Onward(subs[s], x) && Numbered(subs, objects)
    ensures Numbered(subs[s := x], objects)
  {
    forall k | 0 <= k < |objects| ensures UpToLast(subs[s := x], objects[k]) {
      assert UpToLast(subs, objects[k]);
    }
  }

  lemma SameNumbers(subs: seq<Subgroup>, objects: seq<Object>, k: nat, o: Object)
    requires k < |objects| && o.id == objects[k].id && o.subgroup == objects[k].subgroup && Numbered(subs, objects)
    ensures Numbered(subs, objects[k := o])
  {
    var after := objects[k := o];
    forall j | 0 <= j < |after| ensures UpToLast(subs, after[j]) {
      assert UpToLast(subs, objects[j]);
    }
  }

  /** What any update of subgroup s must respect, apart from the books. */
  predicate Lawful(w: Receiver, s: nat, x: Subgroup)
    requires s < |w.subs|
  {
    && Counted(x) == Counted(w.subs[s])
    && (w.kind.Subscribe? ==> Onward(w.subs[s], x))
    && (w.subs[s].finished ==> x.finished && x.code == w.subs[s].code)
  }

  lemma SubsLawful(w: Receiver, s: nat, x: Subgroup, k: nat, o: Object)
    requires SubsOk(w) && s < |w.subs| && k < |w.objects| && o.subgroup == s == w.objects[k].subgroup
    requires SubOk(w.kind, w.objects[k := o], x, s)
    ensures SubsOk(WithSub(w, s, x).(objects := w.objects[k := o]))
  {
    hide Errored, ReportsCode;
    var r := WithSub(w, s, x).(objects := w.objects[k := o]);
    forall t | 0 <= t < |w.subs| ensures SubOk(r.kind, r.objects, r.subs[t], t) {
      assert SubOk(w.kind, w.objects, w.subs[t], t);
    }
  }

  lemma SubLawful(w: Receiver, s: nat, x: Subgroup)
    requires SubsOk(w) && s < |w.subs| && SubOk(w.kind, w.objects, x, s)
    ensures SubsOk(WithSub(w, s, x))
  {
    hide SubOk;
    var r := WithSub(w, s, x);
    forall t | 0 <= t < |w.subs| ensures SubOk(r.kind, r.objects, r.subs[t], t) {
      assert SubOk(w.kind, w.objects, w.subs[t], t);
    }
  }

  lemma ObjectsLawful(w: Receiver, s: nat, x: Subgroup)
    requires ObjectsOk(w) && s < |w.subs| && Lawful(w, s, x)
    ensures ObjectsOk(WithSub(w, s, x))
    ensures forall k :: 0 <= k < |w.objects| ==> w.objects[k].subgroup < |w.subs|
  {
    hide ErrorLast;
    var r := WithSub(w, s, x);
    forall k | 0 <= k < |w.objects| ensures w.objects[k].subgroup < |w.subs| && ObjectOk(r.subs, r.objects[k]) {
      assert ObjectOk(w.subs, w.objects[k]);
    }
  }

  lemma ObjectLawful(w: Receiver, k: nat, o: Object)
    requires ObjectsOk(w) && k < |w.objects| && ObjectOk(w.subs, o)
    ensures ObjectsOk(w.(objects := w.objects[k := o]))
  {
    hide ObjectOk;
    var r := w.(objects := w.objects[k := o]);
    forall j | 0 <= j < |r.objects| ensures ObjectOk(r.subs, r.objects[j]) {
      assert j != k ==> ObjectOk(w.subs, w.objects[j]);
    }
  }

  lemma OwnLawful(w: Receiver, s: nat, x: Subgroup)
    requires OwnOk(w) && s < |w.subs| && Lawful(w, s, x)
    ensures OwnOk(WithSub(w, s, x))
  {
    hide CountOpen, Numbered, Ascending, UpTo, Counted, Onward;
    CountUpdate(w.subs, s, x);
    if w.kind.Subscribe? {
      StaysNumbered(w.subs, s, x, w.objects);
    } else {
      assert FetchOk(WithSub(w, s, x));
    }
  }

  lemma OwnObject(w: Receiver, k: nat, o: Object)
    requires OwnOk(w) && k < |w.objects| && o.id == w.objects[k].id && o.subgroup == w.objects[k].subgroup
    ensures OwnOk(w.(objects := w.objects[k := o]))
  {
    hide CountOpen, Numbered, Ascending, UpTo;
    if w.kind.Subscribe? {
      SameNumbers(w.subs, w.objects, k, o);
    }
  }

  /** A change to one subgroup together with one object of it. */
  lemma BothUpdated(w: Receiver, s: nat, x: Subgroup, k: nat, o: Object, slip: bool)
    requires Inv(w) && s < |w.subs| && k < |w.objects| && Lawful(w, s, x)
    requires o.subgroup == s == w.objects[k].subgroup && o.id == w.objects[k].id
    requires SubOk(w.kind, w.objects[k := o], x, s) && ObjectOk(w.subs[s := x], o)
    requires Books(WithSub(w, s, x).(objects := w.objects[k := o], slipped := slip))
    ensures Inv(WithSub(w, s, x).(objects := w.objects[k := o], slipped := slip))
  {
    hide SubOk, ObjectOk, Books, Lawful;
    var v := WithSub(w, s, x);
    SubsLawful(w, s, x, k, o);
    ObjectsLawful(w, s, x);
    ObjectLawful(v, k, o);
    OwnLawful(w, s, x);
    OwnObject(v, k, o);
    SlipApart(v.(objects := w.objects[k := o]), slip);
  }

  /** Only the books are about slipping. */
  lemma SlipApart(w: Receiver, slip: bool)
    requires SubsOk(w) && ObjectsOk(w) && OwnOk(w)
    ensures var r := w.(slipped := slip); SubsOk(r) && ObjectsOk(r) && OwnOk(r)
  {
    hide SubOk, ObjectOk, CountOpen, Numbered, Ascending, UpTo;
  }

  /** What x may do to the object in flight: keep it, or let it go when it is settled or the books are broken anyway. */
  predicate LetsGo(w: Receiver, s: nat, x: Subgroup)
    requires s < |w.subs|
  {
    var sub := w.subs[s];
    if x.current == sub.current then x.current.None? || x.remaining == sub.remaining
    else x.current.None? && sub.current.value < |w.objects| && (w.slipped || Settled(w.objects[sub.current.value].log))
  }

  /** Replacing one subgroup. */
  lemma SubUpdated(w: Receiver, s: nat, x: Subgroup)
    requires Inv(w) && s < |w.subs| && Lawful(w, s, x) && SubOk(w.kind, w.objects, x, s) && LetsGo(w, s, x)
    ensures Inv(WithSub(w, s, x))
  {
    hide SubsOk, ObjectsOk, OwnOk, Books, Lawful, LetsGo, SubOk;
    SubLawful(w, s, x);
    ObjectsLawful(w, s, x);
    OwnLawful(w, s, x);
    SubBooks(w, s, x);
  }

  lemma SubBooks(w: Receiver, s: nat, x: Subgroup)
    requires Books(w) && s < |w.subs| && LetsGo(w, s, x)
    requires forall k :: 0 <= k < |w.objects| ==> w.objects[k].subgroup < |w.subs|
    ensures Books(WithSub(w, s, x))
  {
    hide LogOk, Got, Settled;
    var r := WithSub(w, s, x);
    if w.slipped {
      var k :| 0 <= k < |w.objects| && Broken(w.subs, w.objects[k], k);
      assert Broken(r.subs, r.objects[k], k);
    } else {
      forall k | 0 <= k < |w.objects| ensures AccountOk(r.subs, r.objects[k], k) {
        assert AccountOk(w.subs, w.objects[k], k);
      }
    }
  }

  /** Books after object k has changed while it was, or as it became, the one in flight of subgroup s. */
  lemma BothBooks(w: Receiver, s: nat, x: Subgroup, k: nat, o: Object)
    requires Inv(w) && s < |w.subs| && k < |w.objects| && w.objects[k].subgroup == s == o.subgroup
    requires o.declared == w.objects[k].declared && w.objects[k].log <= o.log
    requires w.subs[s].current == Some(k) || !w.objects[k].admitted
    requires x.current == Some(k) || x.current.None?
    requires !w.slipped ==> AccountOk(w.subs[s := x], o, k)
    requires !w.slipped && w.subs[s].current.Some? && w.subs[s].current != Some(k) ==>
      w.subs[s].current.value < |w.objects| && Settled(w.objects[w.subs[s].current.value].log)
    ensures Books(WithSub(w, s, x).(objects := w.objects[k := o]))
  {
    hide Got, Settled, SubsOk, OwnOk, ErrorLast;
    var r := WithSub(w, s, x).(objects := w.objects[k := o]);
    assert forall j :: 0 <= j < |w.objects| ==> ObjectOk(w.subs, w.objects[j]);
    if w.slipped {
      var j :| 0 <= j < |w.objects| && Broken(w.subs, w.objects[j], j);
      if j == k {
        assert !LogOk(w.objects[k].declared, w.objects[k].log);
        if LogOk(o.declared, o.log) {
          WrongForGood(o.declared, w.objects[k].log, o.log);
        }
      }
      assert Broken(r.subs, r.objects[j], j);
    } else {
      forall j | 0 <= j < |w.objects| ensures AccountOk(r.subs, r.objects[j], j) {
        assert AccountOk(w.subs, w.objects[j], j);
      }
    }
  }
}
