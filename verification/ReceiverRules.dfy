/**
  What callbacks may call without breaking the two promises that calling back can break. The rules are on the calls in
  the replies; calls from outside are never restricted.
 */
module ReceiverRules {
  import opened Bytes
  import opened ObjectWire
  import opened Locations
  import opened ReceiverModel
  import opened ReceiverInvariant
  import opened ReceiverRuns
  import opened ReceiverClaims

  // ---------------------------------------------------------------- the rules

  /** Callbacks begin no object and hand in no empty payload; or they do not end a fetch. */
  datatype Rule = NoBegin | NoEnd

  predicate Begins(c: Call) {
    || c.PutObject? || c.BeginObject? || c.FetchObject? || c.FetchBegin?
    || ((c.ObjectPayload? || c.FetchPayload?) && c.bytes == 0)
  }

  predicate Ends(c: Call) {
    c.EndFetch? || ((c.FetchObject? || c.FetchPayload? || c.FetchStatus? || c.FetchUnknown?) && c.fin)
  }

  predicate Mild(rule: Rule, c: Call) { if rule.NoBegin? then !Begins(c) else !Ends(c) }

  predicate MildCalls(rule: Rule, calls: seq<Call>) { forall c :: c in calls ==> Mild(rule, c) }

  predicate Obeys(rule: Rule, replies: seq<Reply>) { forall r :: r in replies ==> MildCalls(rule, r.calls) }

  // ---------------------------------------------------------------- what a call keeps under a rule

  /** The callbacks to come obey the rule; a fetch has no subgroup to count. */
  predicate Ready(rule: Rule, w: Receiver) {
    Obeys(rule, w.replies) && (w.kind.Fetch? ==> forall s :: 0 <= s < |w.subs| ==> !Counted(w.subs[s]))
  }

  /** Something is left of the object in flight, if there is one. */
  predicate Open(sub: Subgroup) { sub.current.Some? && !sub.finished ==> sub.remaining > 0 }

  /** No object came into flight, and none lost all its bytes without being let go. */
  predicate Calm(a: Subgroup, b: Subgroup) {
    && (a.finished ==> b.finished)
    && (a.current.None? && !b.finished ==> b.current.None? && b.remaining == a.remaining)
    && (Open(b) || (a.current == b.current && a.remaining == 0))
  }

  predicate CalmBut(a: seq<Subgroup>, b: seq<Subgroup>, t: int) {
    && |a| <= |b|
    && (forall s {:trigger a[s]} {:trigger b[s]} :: 0 <= s < |a| && s != t ==> Calm(a[s], b[s]))
    && (forall s :: |a| <= s < |b| ==> Open(b[s]))
  }

  /** Apart from subgroup t: nothing slips under the one rule, and no fetch completes early under the other. */
  predicate GentleBut(rule: Rule, w: Receiver, r: Receiver, t: int) {
    && Ready(rule, r)
    && r.kind == w.kind
    && r.exposed == w.exposed
    && (if rule.NoBegin? then r.slipped == w.slipped && CalmBut(w.subs, r.subs, t) else w.kind.Fetch? ==> r.early == w.early)
  }

  predicate Gentle(rule: Rule, w: Receiver, r: Receiver) { GentleBut(rule, w, r, -1) }

  lemma {:induction false} CalmTrans(a: Subgroup, b: Subgroup, c: Subgroup)
    requires Calm(a, b) && Calm(b, c)
    ensures Calm(a, c)
  {
  }

  lemma {:induction false} CalmButTrans(a: seq<Subgroup>, b: seq<Subgroup>, c: seq<Subgroup>, t: int)
    requires t < |a| && CalmBut(a, b, t) && CalmBut(b, c, t)
    ensures CalmBut(a, c, t)
  {
    hide Calm, Open;
    forall s | 0 <= s < |a| && s != t ensures Calm(a[s], c[s]) {
      assert Calm(a[s], b[s]) && Calm(b[s], c[s]);
      CalmTrans(a[s], b[s], c[s]);
    }
    forall s | |a| <= s < |c| ensures Open(c[s]) {
      if s < |b| {
        assert Calm(b[s], c[s]);
        OpenStays(b[s], c[s]);
      }
    }
  }

  lemma {:induction false} OpenStays(a: Subgroup, b: Subgroup)
    requires Open(a) && Calm(a, b)
    ensures Open(b)
  {
  }

  lemma {:induction false} ButTrans(rule: Rule, a: Receiver, b: Receiver, c: Receiver, t: int)
    requires t < |a.subs| && GentleBut(rule, a, b, t) && GentleBut(rule, b, c, t)
    ensures GentleBut(rule, a, c, t)
  {
    hide CalmBut, Ready;
    if rule.NoBegin? {
      CalmButTrans(a.subs, b.subs, c.subs, t);
    }
  }

  lemma {:induction false} Trans(rule: Rule, a: Receiver, b: Receiver, c: Receiver)
    requires Gentle(rule, a, b) && Gentle(rule, b, c)
    ensures Gentle(rule, a, c)
  {
    hide GentleBut;
    ButTrans(rule, a, b, c, -1);
  }

  lemma {:induction false} Weaken(rule: Rule, a: Receiver, b: Receiver, t: int)
    requires Gentle(rule, a, b)
    ensures GentleBut(rule, a, b, t)
  {
    hide Calm, Open, Ready;
  }

  lemma {:induction false} Join(rule: Rule, a: Receiver, b: Receiver, t: nat)
    requires GentleBut(rule, a, b, t) && t < |a.subs| <= |b.subs| && (rule.NoBegin? ==> Calm(a.subs[t], b.subs[t]))
    ensures Gentle(rule, a, b)
  {
    hide Calm, Open, Ready;
  }

  lemma {:induction false} IsReady(rule: Rule, a: Receiver, b: Receiver, t: int)
    requires GentleBut(rule, a, b, t)
    ensures Ready(rule, b) && b.kind == a.kind && b.exposed == a.exposed
    ensures rule.NoBegin? ==> b.slipped == a.slipped && |a.subs| <= |b.subs|
  {
    hide Calm, Open, Ready;
  }

  lemma {:induction false} SubIsCalm(a: Receiver, b: Receiver, s: nat)
    requires Gentle(NoBegin, a, b) && s < |a.subs|
    ensures |a.subs| <= |b.subs| && Calm(a.subs[s], b.subs[s])
  {
    hide Calm, Open, Ready;
  }

  /** The rest of the receiver changes. */
  lemma {:induction false} Elsewhere(rule: Rule, w: Receiver, r: Receiver)
    requires Ready(rule, w) && r.subs == w.subs && r.kind == w.kind && r.exposed == w.exposed && r.replies == w.replies
    requires if rule.NoBegin? then r.slipped == w.slipped else w.kind.Fetch? ==> r.early == w.early
    ensures Gentle(rule, w, r)
  {
  }

  lemma {:induction false} Refl(rule: Rule, w: Receiver)
    requires Ready(rule, w)
    ensures Gentle(rule, w, w)
  {
    Elsewhere(rule, w, w);
  }

  /** One subgroup changes. */
  lemma {:induction false} SubSet(rule: Rule, w: Receiver, s: nat, x: Subgroup)
    requires Ready(rule, w) && s < |w.subs| && (w.kind.Fetch? ==> !Counted(x))
    ensures GentleBut(rule, w, WithSub(w, s, x), s)
    ensures (rule.NoBegin? ==> Calm(w.subs[s], x)) ==> Gentle(rule, w, WithSub(w, s, x))
  {
    hide Obeys;
  }

  // ---------------------------------------------------------------- callbacks

  lemma {:induction false} CallbackGentle(rule: Rule, w: Receiver)
    requires Ready(rule, w)
    ensures Gentle(rule, w, Callback(w).0)
    decreases |w.replies|, 0, 0
  {
    hide Run, MildCalls, Counted;
    Refl(rule, w);
    if w.replies != [] {
      var w0 := w.(replies := w.replies[1..]);
      assert Ready(rule, w0);
      RunGentle(rule, w0, w.replies[0].calls);
      hide Ready, Calm, Open;
    }
  }

  lemma {:induction false} ExposeGentle(rule: Rule, w: Receiver)
    requires Ready(rule, w)
    ensures Gentle(rule, w, Expose(w).0)
    decreases |w.replies|, 0, 1
  {
    hide Callback, Calm, Open, Obeys, Counted;
    CallbackGentle(rule, w.(exposed := true));
  }

  lemma {:induction false} RunGentle(rule: Rule, w: Receiver, calls: seq<Call>)
    requires Ready(rule, w) && MildCalls(rule, calls)
    ensures Gentle(rule, w, Run(w, calls))
    decreases |w.replies|, 6, |calls|
  {
    hide Apply, Ready, Mild, GentleBut;
    if calls == [] {
      Refl(rule, w);
    } else {
      var r := Apply(w, calls[0]);
      ApplyGentle(rule, w, calls[0]);
      IsReady(rule, w, r, -1);
      RunGentle(rule, r, calls[1..]);
      Trans(rule, w, r, Run(r, calls[1..]));
    }
  }

  // ---------------------------------------------------------------- ending a subgroup

  lemma {:induction false} FailCurrentGentle(rule: Rule, w: Receiver, s: nat, x: Subgroup, code: ResetCode)
    requires Ready(rule, w) && s < |w.subs| && (w.kind.Fetch? ==> !Counted(x)) && (rule.NoBegin? ==> Calm(w.subs[s], x))
    ensures Gentle(rule, w, FailCurrent(w, s, x, code))
    decreases |w.replies|, 1, 0
  {
    hide Expose, Calm, Open, Ready, GentleBut, Counted;
    SubSet(rule, w, s, x);
    var v := WithSub(w, s, x);
    IsReady(rule, w, v, -1);
    var k := w.subs[s].current;
    if k.Some? && k.value < |w.objects| {
      var f := Failing(w, s, x, k.value, code);
      Elsewhere(rule, v, f);
      IsReady(rule, v, f, -1);
      ExposeGentle(rule, f);
      Trans(rule, w, v, f);
      Trans(rule, w, f, Expose(f).0);
    }
  }

  lemma {:induction false} FireGentle(rule: Rule, w: Receiver)
    requires Ready(rule, w) && (rule.NoEnd? && w.kind.Fetch? ==> !w.exposed)
    ensures Gentle(rule, w, Fire(w))
    decreases |w.replies|, 1, 0
  {
    hide Callback, Ready, GentleBut;
    Refl(rule, w);
    if !w.sent {
      Elsewhere(rule, w, Firing(w));
      IsReady(rule, w, Firing(w), -1);
      CallbackGentle(rule, Firing(w));
      Trans(rule, w, Firing(w), Callback(Firing(w)).0);
    }
  }

  lemma {:induction false} SubgroupFinishedGentle(rule: Rule, w: Receiver)
    requires Ready(rule, w) && w.kind.Subscribe?
    ensures Gentle(rule, w, SubgroupFinished(w))
    decreases |w.replies|, 2, 0
  {
    hide Fire, Ready, GentleBut;
    var v := w.(open := if w.open > 0 then w.open - 1 else 0);
    Elsewhere(rule, w, v);
    IsReady(rule, w, v, -1);
    FireGentle(rule, v);
    Trans(rule, w, v, Fire(v));
  }

  lemma {:induction false} NotifyGentle(rule: Rule, w: Receiver, s: nat)
    requires Ready(rule, w) && s < |w.subs|
    ensures Gentle(rule, w, Notify(w, s)) && (rule.NoBegin? ==> Over(Notify(w, s), s))
    decreases |w.replies|, 3, 0
  {
    hide SubgroupFinished, GentleBut, Obeys;
    var x := Closed(w.subs[s]);
    var v := WithSub(w, s, x);
    SubSet(rule, w, s, x);
    IsReady(rule, w, v, -1);
    if Counted(w.subs[s]) {
      hide Ready;
      SubgroupFinishedGentle(rule, v);
      Trans(rule, w, v, SubgroupFinished(v));
      if rule.NoBegin? {
        SubIsCalm(v, SubgroupFinished(v), s);
      }
    }
  }

  predicate Over(w: Receiver, s: nat) { s < |w.subs| && w.subs[s].finished }

  lemma {:induction false} TerminateGentle(rule: Rule, w: Receiver, s: nat, code: ResetCode)
    requires Ready(rule, w) && s < |w.subs|
    ensures Gentle(rule, w, Terminate(w, s, code)) && (rule.NoBegin? ==> Over(Terminate(w, s, code), s))
    decreases |w.replies|, 4, 0
  {
    hide Expose, FailCurrent, Notify, GentleBut, Obeys;
    Refl(rule, w);
    if !w.subs[s].finished {
      var x := Terminated(w.subs[s], code);
      FailCurrentGentle(rule, w, s, x, code);
      var w1 := FailCurrent(w, s, x, code);
      IsReady(rule, w, w1, -1);
      hide Ready;
      var w2 := AtTerminal(w1, s, SubgroupError(code));
      TerminalGentle(rule, w1, s, SubgroupError(code));
      IsReady(rule, w1, w2, -1);
      ExposeGentle(rule, w2);
      var w3 := Expose(w2).0;
      IsReady(rule, w2, w3, -1);
      NotifyGentle(rule, w3, s);
      Trans(rule, w, w1, w2);
      Trans(rule, w, w2, w3);
      Trans(rule, w, w3, Notify(w3, s));
    }
  }

  lemma {:induction false} TerminalGentle(rule: Rule, w: Receiver, s: nat, t: Terminal)
    requires Ready(rule, w) && s < |w.subs|
    ensures Gentle(rule, w, AtTerminal(w, s, t))
  {
    hide GentleBut, Obeys;
    SubSet(rule, w, s, w.subs[s].(terminals := w.subs[s].terminals + [t]));
  }

  lemma {:induction false} EndWithGentle(rule: Rule, w: Receiver, s: nat, t: Terminal, callback: bool)
    requires Ready(rule, w) && s < |w.subs|
    ensures Gentle(rule, w, EndWith(w, s, t, callback)) && (rule.NoBegin? ==> Over(EndWith(w, s, t, callback), s))
    decreases |w.replies|, 4, 0
  {
    hide Callback, Notify, GentleBut, Obeys;
    var x := EndedBy(w.kind, w.subs[s], t);
    SubSet(rule, w, s, x);
    var w1 := WithSub(w, s, x);
    IsReady(rule, w, w1, -1);
    hide Ready;
    var w2 := if callback then Callback(w1).0 else w1;
    Refl(rule, w1);
    CallbackGentle(rule, w1);
    IsReady(rule, w1, w2, -1);
    NotifyGentle(rule, w2, s);
    Trans(rule, w, w1, w2);
    Trans(rule, w, w2, Notify(w2, s));
  }

  lemma {:induction false} FinishAtEndGentle(rule: Rule, w: Receiver, s: nat)
    requires Ready(rule, w) && s < |w.subs|
    ensures Gentle(rule, w, FinishAtEnd(w, s)) && (rule.NoBegin? ==> Over(FinishAtEnd(w, s), s))
    decreases |w.replies|, 4, 1
  {
    hide EndWith, GentleBut, Ready;
    EndWithGentle(rule, w, s, EndOfStream, w.kind.Subscribe?);
  }

  // ---------------------------------------------------------------- objects

  lemma {:induction false} PrepareGentle(rule: Rule, w: Receiver, s: nat, id: u64)
    requires Ready(rule, w) && s < |w.subs|
    ensures Gentle(rule, w, Prepare(w, s, id).0)
    ensures rule.NoBegin? && !Prepare(w, s, id).1 ==> Over(Prepare(w, s, id).0, s)
    decreases |w.replies|, 4, 1
  {
    hide Terminate, GentleBut, Obeys;
    Refl(rule, w);
    TerminateGentle(rule, w, s, MALFORMED_TRACK);
    SubSet(rule, w, s, w.subs[s].(last := Some(id)));
  }

  lemma {:induction false} RefusedGentle(rule: Rule, w: Receiver, s: nat, answer: Answer)
    requires Ready(rule, w) && s < |w.subs|
    ensures Gentle(rule, w, Refused(w, s, answer)) && (rule.NoBegin? ==> Over(Refused(w, s, answer), s))
    decreases |w.replies|, 4, 1
  {
    hide Terminate, GentleBut, Ready;
    Refl(rule, w);
    TerminateGentle(rule, w, s, RefusalCode(answer));
  }

  lemma {:induction false} LateGentle(rule: Rule, w: Receiver, s: nat, k: nat)
    requires Ready(rule, w) && s < |w.subs| && k < |w.objects|
    ensures Gentle(rule, w, Expose(Late(w, s, k)).0)
    decreases |w.replies|, 0, 2
  {
    hide Expose, GentleBut, Ready;
    var v := Late(w, s, k);
    Elsewhere(rule, w, v);
    IsReady(rule, w, v, -1);
    ExposeGentle(rule, v);
    Trans(rule, w, v, Expose(v).0);
  }

  /** Announcing and admitting an object does not complete a fetch. */
  lemma {:induction false} AdmitGentle(w: Receiver, s: nat, id: u64, length: nat)
    requires Ready(NoEnd, w) && s < |w.subs|
    ensures Gentle(NoEnd, w, Admit(w, s, id, length).0)
    decreases |w.replies|, 4, 3
  {
    hide Expose, Refused, Late, Obeys, GentleBut;
    var a := Announce(w, s, id, length);
    var w0 := WithSub(w, s, w.subs[s].(remaining := length));
    SubSet(NoEnd, w, s, w0.subs[s]);
    NoEndBut(w, w0, s);
    IsReady(NoEnd, w, w0, -1);
    Elsewhere(NoEnd, w0, a);
    Trans(NoEnd, w, w0, a);
    IsReady(NoEnd, w0, a, -1);
    ExposeGentle(NoEnd, a);
    var (v, answer) := Expose(a);
    IsReady(NoEnd, a, v, -1);
    Trans(NoEnd, w, a, v);
    AdmittedGentle(v, s, |w.objects|, answer);
    Trans(NoEnd, w, v, Admitted(v, s, |w.objects|, answer).0);
  }

  lemma {:induction false} NoEndBut(w: Receiver, r: Receiver, t: int)
    requires GentleBut(NoEnd, w, r, t)
    ensures Gentle(NoEnd, w, r)
  {
    hide Ready;
  }

  lemma {:induction false} AdmittedGentle(w: Receiver, s: nat, k: nat, answer: Answer)
    requires Ready(NoEnd, w) && s < |w.subs| && k < |w.objects|
    ensures Gentle(NoEnd, w, Admitted(w, s, k, answer).0)
    decreases |w.replies|, 4, 2
  {
    hide Expose, Refused, Late, Obeys, GentleBut;
    RefusedGentle(NoEnd, w, s, answer);
    LateGentle(NoEnd, w, s, k);
    var v := WithSub(w, s, w.subs[s].(current := Some(k)));
    SubSet(NoEnd, w, s, v.subs[s]);
    NoEndBut(w, v, s);
    IsReady(NoEnd, w, v, -1);
    Elsewhere(NoEnd, v, TakeOver(w, s, k));
    Trans(NoEnd, w, v, TakeOver(w, s, k));
  }

  // ---------------------------------------------------------------- payload

  /** The payload is not empty, or something is left to come, or it is the one payload of an empty object. */
  predicate Payable(w: Receiver, s: nat, n: nat)
    requires s < |w.subs| && w.subs[s].current.Some? && w.subs[s].current.value < |w.objects|
  {
    var o := w.objects[w.subs[s].current.value];
    n > 0 || w.subs[s].remaining > 0 || (o.log == [] && o.declared == 0)
  }

  lemma {:induction false} PayGentle(rule: Rule, w: Receiver, s: nat, n: nat)
    requires Ready(rule, w) && s < |w.subs| && w.subs[s].current.Some? && w.subs[s].current.value < |w.objects|
    requires n <= w.subs[s].remaining && (rule.NoBegin? ==> Payable(w, s, n))
    ensures GentleBut(rule, w, Pay(w, s, n), s)
  {
    hide Calm, Open, Obeys, GentleBut;
    var x := w.subs[s].(remaining := w.subs[s].remaining - n);
    var v := WithSub(w, s, x);
    SubSet(rule, w, s, x);
    IsReady(rule, w, v, s);
    hide Ready;
    Elsewhere(rule, v, Pay(w, s, n));
    Weaken(rule, v, Pay(w, s, n), s);
    ButTrans(rule, w, v, Pay(w, s, n), s);
  }

  /** The frame of subgroup s is done: it has let its object go, or something is left of it. */
  predicate Left(rule: Rule, w: Receiver, r: Receiver, s: nat) {
    && Gentle(rule, w, r)
    && (rule.NoBegin? ==> s < |r.subs| && Open(r.subs[s]))
  }

  lemma {:induction false} Leaves(rule: Rule, w: Receiver, v: Receiver, r: Receiver, s: nat)
    requires s < |w.subs| <= |v.subs| <= |r.subs| && GentleBut(rule, w, v, s) && GentleBut(rule, v, r, s)
    requires rule.NoBegin? ==> w.subs[s].current.Some? && !w.subs[s].finished && Open(r.subs[s])
    ensures Left(rule, w, r, s)
  {
    hide GentleBut;
    ButTrans(rule, w, v, r, s);
    Join(rule, w, r, s);
  }

  /** The rest of deliverPayload, for the frame of subgroup s. */
  lemma {:induction false} PaidGentle(rule: Rule, w: Receiver, v: Receiver, s: nat, complete: bool, fin: bool, answer: Answer)
    requires s < |w.subs| <= |v.subs| && GentleBut(rule, w, v, s) && Ready(rule, v)
    requires rule.NoBegin? ==> w.subs[s].current.Some? && !w.subs[s].finished && (complete || Open(v.subs[s]))
    ensures Left(rule, w, Paid(v, s, complete, fin, answer).0, s)
    decreases |v.replies|, 4, 3
  {
    hide Terminate, FinishAtEnd, GentleBut, Ready, Left, Released;
    if v.subs[s].finished || (!complete && !fin && !answer.Refuse?) {
      Refl(rule, v);
      Weaken(rule, v, v, s);
      Leaves(rule, w, v, v, s);
    } else if answer.Refuse? || !complete {
      PaidTerminates(rule, w, v, s, if answer.Refuse? then ResetErrorFor(answer.error) else MALFORMED_TRACK);
    } else {
      PaidCompletes(rule, w, v, s, fin);
    }
  }

  lemma {:induction false} PaidTerminates(rule: Rule, w: Receiver, v: Receiver, s: nat, code: ResetCode)
    requires s < |w.subs| <= |v.subs| && GentleBut(rule, w, v, s) && Ready(rule, v)
    requires rule.NoBegin? ==> w.subs[s].current.Some? && !w.subs[s].finished
    ensures Left(rule, w, Terminate(v, s, code), s)
    decreases |v.replies|, 4, 1
  {
    hide Terminate, GentleBut, Ready, Left;
    var r := Terminate(v, s, code);
    TerminateGentle(rule, v, s, code);
    Weaken(rule, v, r, s);
    Leaves(rule, w, v, r, s);
  }

  lemma {:induction false} PaidCompletes(rule: Rule, w: Receiver, v: Receiver, s: nat, fin: bool)
    requires s < |w.subs| <= |v.subs| && GentleBut(rule, w, v, s) && Ready(rule, v)
    requires rule.NoBegin? ==> w.subs[s].current.Some? && !w.subs[s].finished
    ensures Left(rule, w, if fin then FinishAtEnd(Released(v, s), s) else Released(v, s), s)
    decreases |v.replies|, 4, 2
  {
    hide FinishAtEnd, GentleBut, Ready, Left;
    var u := Released(v, s);
    ReleasedGentle(rule, v, s);
    if fin {
      IsReady(rule, v, u, s);
      FinishAtEndGentle(rule, u, s);
      var r := FinishAtEnd(u, s);
      Weaken(rule, u, r, s);
      ButTrans(rule, w, v, u, s);
      Leaves(rule, w, u, r, s);
    } else {
      Leaves(rule, w, v, u, s);
    }
  }

  lemma {:induction false} ReleasedGentle(rule: Rule, v: Receiver, s: nat)
    requires s < |v.subs| && Ready(rule, v)
    ensures GentleBut(rule, v, Released(v, s), s)
  {
    hide GentleBut, Obeys;
    SubSet(rule, v, s, v.subs[s].(current := None));
  }

  lemma {:induction false} DeliverGentle(rule: Rule, w: Receiver, s: nat, n: nat, fin: bool)
    requires Ready(rule, w) && s < |w.subs| && w.subs[s].current.Some? && w.subs[s].current.value < |w.objects|
    requires rule.NoBegin? ==> !w.subs[s].finished && Payable(w, s, n)
    ensures Left(rule, w, Deliver(w, s, n, fin).0, s)
    decreases |w.replies|, 4, 4
  {
    hide Terminate, Expose, Paid, GentleBut, Ready, Pay;
    var left := w.subs[s].remaining;
    if n > left || (n == 0 && left > 0) {
      Refl(rule, w);
      TerminateGentle(rule, w, s, MALFORMED_TRACK);
    } else {
      PayGentle(rule, w, s, n);
      var p := Pay(w, s, n);
      IsReady(rule, w, p, s);
      ExposeGentle(rule, p);
      var (v, answer) := Expose(p);
      PayLeaves(w, s, n);
      if rule.NoBegin? {
        SubIsCalm(p, v, s);
      }
      Weaken(rule, p, v, s);
      ButTrans(rule, w, p, v, s);
      IsReady(rule, w, v, s);
      PaidGentle(rule, w, v, s, n == left, fin, answer);
      assert Deliver(w, s, n, fin) == HandIn(w, s, n, fin) == Paid(v, s, n == left, fin, answer);
    }
  }

  lemma {:induction false} PayLeaves(w: Receiver, s: nat, n: nat)
    requires s < |w.subs| && w.subs[s].current.Some? && w.subs[s].current.value < |w.objects| && n <= w.subs[s].remaining
    ensures var p := Pay(w, s, n);
      |p.subs| == |w.subs| && p.subs[s] == w.subs[s].(remaining := w.subs[s].remaining - n)
  {
  }

  lemma {:induction false} SubPayloadGentle(rule: Rule, w: Receiver, s: nat, n: nat, fin: bool)
    requires Ready(rule, w) && s < |w.subs| && (rule.NoBegin? ==> n > 0 || Open(w.subs[s]))
    ensures Gentle(rule, w, SubPayload(w, s, n, fin).0)
    decreases |w.replies|, 4, 5
  {
    hide Terminate, Deliver, GentleBut, Ready;
    Refl(rule, w);
    TerminateGentle(rule, w, s, MALFORMED_TRACK);
    if !w.subs[s].finished && w.subs[s].current.Some? && w.subs[s].current.value < |w.objects| {
      DeliverGentle(rule, w, s, n, fin);
    }
  }

  lemma {:induction false} SubObjectGentle(w: Receiver, s: nat, id: u64, n: nat, fin: bool)
    requires Ready(NoEnd, w) && s < |w.subs|
    ensures Gentle(NoEnd, w, SubObject(w, s, id, n, fin).0)
    decreases |w.replies|, 4, 5
  {
    hide Prepare, Admit, Deliver, GentleBut, Ready;
    PrepareGentle(NoEnd, w, s, id);
    var (w1, prepared) := Prepare(w, s, id);
    IsReady(NoEnd, w, w1, -1);
    if prepared {
      AdmitGentle(w1, s, id, n);
      var (w2, admitted) := Admit(w1, s, id, n);
      IsReady(NoEnd, w1, w2, -1);
      Trans(NoEnd, w, w1, w2);
      if admitted {
        DeliverGentle(NoEnd, w2, s, n, fin);
        Trans(NoEnd, w, w2, Deliver(w2, s, n, fin).0);
      }
    }
  }

  lemma {:induction false} SubBeginGentle(w: Receiver, s: nat, id: u64, length: nat, initial: nat)
    requires Ready(NoEnd, w) && s < |w.subs|
    ensures Gentle(NoEnd, w, SubBegin(w, s, id, length, initial).0)
    decreases |w.replies|, 4, 5
  {
    hide Terminate, Prepare, Admit, Deliver, GentleBut, Ready;
    PrepareGentle(NoEnd, w, s, id);
    var (w1, prepared) := Prepare(w, s, id);
    IsReady(NoEnd, w, w1, -1);
    if prepared {
      if initial > length {
        TerminateGentle(NoEnd, w1, s, MALFORMED_TRACK);
        Trans(NoEnd, w, w1, Terminate(w1, s, MALFORMED_TRACK));
      } else {
        AdmitGentle(w1, s, id, length);
        var (w2, admitted) := Admit(w1, s, id, length);
        IsReady(NoEnd, w1, w2, -1);
        Trans(NoEnd, w, w1, w2);
        if admitted {
          DeliverGentle(NoEnd, w2, s, initial, false);
          Trans(NoEnd, w, w2, Deliver(w2, s, initial, false).0);
        }
      }
    }
  }

  // ---------------------------------------------------------------- the other subgroup operations

  lemma {:induction false} SubStatusGentle(rule: Rule, w: Receiver, s: nat, id: u64, endOfTrack: bool, finish: bool)
    requires Ready(rule, w) && s < |w.subs|
    ensures Gentle(rule, w, SubStatus(w, s, id, endOfTrack, finish).0)
    decreases |w.replies|, 4, 4
  {
    hide Callback, EndWith, Prepare, GentleBut, Ready;
    PrepareGentle(rule, w, s, id);
    var (w1, prepared) := Prepare(w, s, id);
    IsReady(rule, w, w1, -1);
    if prepared {
      var w2 := if w.kind.Fetch? then w1.(delivered := w1.delivered + [Location(w1.subs[s].group, id)]) else w1;
      Elsewhere(rule, w1, w2);
      Trans(rule, w, w1, w2);
      IsReady(rule, w1, w2, -1);
      EndWithGentle(rule, w2, s, EndStatus(id, endOfTrack), true);
      CallbackGentle(rule, w2);
      var r := if finish then EndWith(w2, s, EndStatus(id, endOfTrack), true) else Callback(w2).0;
      Trans(rule, w, w2, r);
    }
  }

  lemma {:induction false} SubEndGentle(rule: Rule, w: Receiver, s: nat)
    requires Ready(rule, w) && s < |w.subs|
    ensures Gentle(rule, w, SubEnd(w, s).0)
    decreases |w.replies|, 4, 4
  {
    hide Terminate, FinishAtEnd, GentleBut, Ready;
    Refl(rule, w);
    TerminateGentle(rule, w, s, MALFORMED_TRACK);
    FinishAtEndGentle(rule, w, s);
  }

  lemma {:induction false} SubDropGentle(rule: Rule, w: Receiver, s: nat)
    requires Ready(rule, w) && s < |w.subs|
    ensures Gentle(rule, w, SubDrop(w, s))
    decreases |w.replies|, 4, 4
  {
    hide Terminate, FailCurrent, GentleBut, Obeys;
    Refl(rule, w);
    TerminateGentle(rule, w, s, CANCELLED);
    if w.subs[s].current.Some? {
      FailCurrentGentle(rule, w, s, w.subs[s].(current := None, remaining := 0), CANCELLED);
    }
  }

  lemma {:induction false} FinishSubscriptionGentle(rule: Rule, w: Receiver)
    requires Ready(rule, w) && w.kind.Subscribe?
    ensures Gentle(rule, w, FinishSubscription(w))
    decreases |w.replies|, 4, 4
  {
    hide Callback, Fire, GentleBut, Ready;
    Refl(rule, w);
    if !w.done {
      var w0 := w.(done := true, closing := true);
      Elsewhere(rule, w, w0);
      IsReady(rule, w, w0, -1);
      CallbackGentle(rule, w0);
      var w1 := Callback(w0).0;
      IsReady(rule, w0, w1, -1);
      var v := w1.(closing := false);
      Elsewhere(rule, w1, v);
      IsReady(rule, w1, v, -1);
      Trans(rule, w, w0, w1);
      Trans(rule, w, w1, v);
      FireGentle(rule, v);
      Trans(rule, w, v, Fire(v));
      assert TellDone(w) == v;
    }
  }

  lemma {:induction false} BeginSubgroupGentle(rule: Rule, w: Receiver, group: u64)
    requires Ready(rule, w) && w.kind.Subscribe?
    ensures Gentle(rule, w, w.(subs := w.subs + [NewSubgroup(group, true)], open := w.open + 1))
  {
    hide Obeys;
  }

  // ---------------------------------------------------------------- fetch

  lemma {:induction false} ResetGentle(rule: Rule, w: Receiver, code: ResetCode)
    requires Ready(rule, w) && |w.subs| > 0
    ensures Gentle(rule, w, Terminate(w.(failed := true, terminal := true), 0, code))
    decreases |w.replies|, 4, 1
  {
    hide Terminate, GentleBut, Ready;
    var v := w.(failed := true, terminal := true);
    Elsewhere(rule, w, v);
    IsReady(rule, w, v, -1);
    TerminateGentle(rule, v, 0, code);
    Trans(rule, w, v, Terminate(v, 0, code));
  }

  lemma {:induction false} PrepareFetchGentle(rule: Rule, w: Receiver, at: Location)
    requires Ready(rule, w) && |w.subs| > 0
    ensures Gentle(rule, w, PrepareFetch(w, at).0)
    decreases |w.replies|, 4, 6
  {
    hide FailFetch, GentleBut, Ready;
    Refl(rule, w);
    if !w.terminal {
      var w1 := WithSub(w, 0, w.subs[0].(group := at.group));
      GroupGentle(rule, w, at.group);
      IsReady(rule, w, w1, -1);
      FailFetchGentle(rule, w1);
      Trans(rule, w, w1, FailFetch(w1));
      Elsewhere(rule, w1, w1.(lastFetch := Some(at)));
      Trans(rule, w, w1, w1.(lastFetch := Some(at)));
    }
  }

  lemma {:induction false} GroupGentle(rule: Rule, w: Receiver, group: u64)
    requires Ready(rule, w) && |w.subs| > 0
    ensures Gentle(rule, w, WithSub(w, 0, w.subs[0].(group := group)))
  {
    hide GentleBut, Obeys;
    SubSet(rule, w, 0, w.subs[0].(group := group));
  }

  lemma {:induction false} FailFetchGentle(rule: Rule, w: Receiver)
    requires Ready(rule, w) && |w.subs| > 0
    ensures Gentle(rule, w, FailFetch(w))
    decreases |w.replies|, 4, 5
  {
    hide Terminate, GentleBut, Ready;
    Refl(rule, w);
    ResetGentle(rule, w, MALFORMED_TRACK);
  }

  lemma {:induction false} FinishFetchGentle(rule: Rule, w: Receiver)
    requires Ready(rule, w) && |w.subs| > 0 && (rule.NoEnd? && w.kind.Fetch? ==> !w.exposed)
    ensures Gentle(rule, w, FinishFetch(w))
    decreases |w.replies|, 4, 5
  {
    hide Fire, GentleBut, Obeys;
    Refl(rule, w);
    if !w.terminal {
      var w1 := w.(terminal := true);
      Elsewhere(rule, w, w1);
      IsReady(rule, w, w1, -1);
      var v := WithSub(w1, 0, w.subs[0].(finished := true));
      SubSet(rule, w1, 0, v.subs[0]);
      IsReady(rule, w1, v, -1);
      hide Ready;
      Trans(rule, w, w1, v);
      FireGentle(rule, v);
      Trans(rule, w, v, Fire(v));
    }
  }

  lemma {:induction false} SettleGentle(rule: Rule, w: Receiver, r: (Receiver, Progress), fin: bool)
    requires Gentle(rule, w, r.0) && |r.0.subs| > 0 && (fin && rule.NoEnd? && w.kind.Fetch? ==> !w.exposed)
    ensures Gentle(rule, w, Settle(r, fin))
    decreases |r.0.replies|, 4, 6
  {
    hide FinishFetch, GentleBut, Ready;
    IsReady(rule, w, r.0, -1);
    if r.1.Error? {
      Elsewhere(rule, r.0, r.0.(failed := true, terminal := true));
      Trans(rule, w, r.0, Settle(r, fin));
    } else if fin {
      FinishFetchGentle(rule, r.0);
      Trans(rule, w, r.0, FinishFetch(r.0));
    }
  }

  /** A call that may be made here: it obeys the rule, or no delivery is on the stack for it to disturb. */
  predicate Fitting(rule: Rule, w: Receiver, c: Call) { Mild(rule, c) || (rule.NoEnd? && !w.exposed) }

  lemma {:induction false} PutFetchObjectGentle(w: Receiver, at: Location, n: nat, fin: bool)
    requires Ready(NoEnd, w) && |w.subs| > 0 && (fin ==> !w.exposed)
    ensures Gentle(NoEnd, w, PutFetchObject(w, at, n, fin))
    decreases |w.replies|, 4, 7
  {
    hide SubObject, PrepareFetch, Settle, GentleBut, Ready;
    PrepareFetchGentle(NoEnd, w, at);
    var (w1, ok) := PrepareFetch(w, at);
    IsReady(NoEnd, w, w1, -1);
    if ok {
      SubObjectGentle(w1, 0, at.objectId, n, fin);
      var r := SubObject(w1, 0, at.objectId, n, fin);
      Trans(NoEnd, w, w1, r.0);
      SettleGentle(NoEnd, w, r, fin);
    }
  }

  lemma {:induction false} BeginFetchObjectGentle(w: Receiver, at: Location, length: nat, initial: nat)
    requires Ready(NoEnd, w) && |w.subs| > 0
    ensures Gentle(NoEnd, w, BeginFetchObject(w, at, length, initial))
    decreases |w.replies|, 4, 7
  {
    hide SubBegin, PrepareFetch, Settle, GentleBut, Ready;
    PrepareFetchGentle(NoEnd, w, at);
    var (w1, ok) := PrepareFetch(w, at);
    IsReady(NoEnd, w, w1, -1);
    if ok {
      SubBeginGentle(w1, 0, at.objectId, length, initial);
      var r := SubBegin(w1, 0, at.objectId, length, initial);
      Trans(NoEnd, w, w1, r.0);
      SettleGentle(NoEnd, w, r, false);
    }
  }

  lemma {:induction false} PutFetchPayloadGentle(rule: Rule, w: Receiver, n: nat, fin: bool)
    requires Ready(rule, w) && |w.subs| > 0 && (fin && rule.NoEnd? && w.kind.Fetch? ==> !w.exposed)
    requires rule.NoBegin? ==> n > 0 || Open(w.subs[0])
    ensures Gentle(rule, w, PutFetchPayload(w, n, fin))
    decreases |w.replies|, 4, 7
  {
    hide SubPayload, Settle, GentleBut, Ready;
    Refl(rule, w);
    if !w.terminal {
      SubPayloadGentle(rule, w, 0, n, fin);
      var r := SubPayload(w, 0, n, fin);
      SettleGentle(rule, w, r, fin && r.1.Done?);
    }
  }

  lemma {:induction false} PutFetchStatusGentle(rule: Rule, w: Receiver, at: Location, endOfTrack: bool, fin: bool)
    requires Ready(rule, w) && |w.subs| > 0 && (fin && rule.NoEnd? && w.kind.Fetch? ==> !w.exposed)
    ensures Gentle(rule, w, PutFetchStatus(w, at, endOfTrack, fin))
    decreases |w.replies|, 4, 7
  {
    hide SubStatus, PrepareFetch, Fire, GentleBut, Ready;
    PrepareFetchGentle(rule, w, at);
    var (w1, ok) := PrepareFetch(w, at);
    IsReady(rule, w, w1, -1);
    if ok {
      var v := w1.(terminal := fin);
      Elsewhere(rule, w1, v);
      IsReady(rule, w1, v, -1);
      Trans(rule, w, w1, v);
      SubStatusGentle(rule, v, 0, at.objectId, endOfTrack, fin);
      var r := SubStatus(v, 0, at.objectId, endOfTrack, fin);
      Trans(rule, w, v, r.0);
      IsReady(rule, w, r.0, -1);
      if r.1.Error? {
        Elsewhere(rule, r.0, r.0.(failed := true, terminal := true));
        Trans(rule, w, r.0, r.0.(failed := true, terminal := true));
      } else if fin {
        FireGentle(rule, r.0);
        Trans(rule, w, r.0, Fire(r.0));
      }
    }
  }

  lemma {:induction false} PutFetchUnknownGentle(rule: Rule, w: Receiver, at: Location, fin: bool)
    requires Ready(rule, w) && |w.subs| > 0 && (fin && rule.NoEnd? && w.kind.Fetch? ==> !w.exposed)
    ensures Gentle(rule, w, PutFetchUnknown(w, at, fin))
    decreases |w.replies|, 4, 7
  {
    hide Callback, FailFetch, PrepareFetch, FinishFetch, GentleBut, Ready;
    PrepareFetchGentle(rule, w, at);
    var (w1, ok) := PrepareFetch(w, at);
    IsReady(rule, w, w1, -1);
    if ok {
      if w1.subs[0].current.Some? {
        FailFetchGentle(rule, w1);
        Trans(rule, w, w1, FailFetch(w1));
      } else {
        var w2 := w1.(delivered := w1.delivered + [at]);
        Elsewhere(rule, w1, w2);
        Trans(rule, w, w1, w2);
        IsReady(rule, w1, w2, -1);
        CallbackGentle(rule, w2);
        var w3 := Callback(w2).0;
        Trans(rule, w, w2, w3);
        IsReady(rule, w, w3, -1);
        if fin {
          FinishFetchGentle(rule, w3);
          Trans(rule, w, w3, FinishFetch(w3));
        }
      }
    }
  }

  lemma {:induction false} EndTheFetchGentle(rule: Rule, w: Receiver)
    requires Ready(rule, w) && |w.subs| > 0 && (rule.NoEnd? && w.kind.Fetch? ==> !w.exposed)
    ensures Gentle(rule, w, EndTheFetch(w))
    decreases |w.replies|, 4, 7
  {
    hide Fire, SubEnd, GentleBut, Ready;
    Refl(rule, w);
    if !w.terminal {
      var v := w.(terminal := true);
      Elsewhere(rule, w, v);
      IsReady(rule, w, v, -1);
      SubEndGentle(rule, v, 0);
      var (w1, progress) := SubEnd(v, 0);
      Trans(rule, w, v, w1);
      IsReady(rule, w, w1, -1);
      if progress.Error? {
        Elsewhere(rule, w1, w1.(failed := true));
        Trans(rule, w, w1, w1.(failed := true));
      } else {
        FireGentle(rule, w1);
        Trans(rule, w, w1, Fire(w1));
      }
    }
  }

  lemma {:induction false} ApplyFetchGentle(rule: Rule, w: Receiver, c: Call)
    requires Ready(rule, w) && |w.subs| > 0 && Fitting(rule, w, c)
    ensures Gentle(rule, w, ApplyFetch(w, c))
    decreases |w.replies|, 4, 8
  {
    hide PutFetchObject, BeginFetchObject, PutFetchPayload, PutFetchStatus, PutFetchUnknown, EndTheFetch, Terminate;
    hide GentleBut, Ready;
    Refl(rule, w);
    match c
    case FetchObject(at, n, fin) => PutFetchObjectGentle(w, at, n, fin);
    case FetchBegin(at, length, initial) => BeginFetchObjectGentle(w, at, length, initial);
    case FetchPayload(n, fin) => PutFetchPayloadGentle(rule, w, n, fin);
    case FetchStatus(at, endOfTrack, fin) => PutFetchStatusGentle(rule, w, at, endOfTrack, fin);
    case FetchUnknown(at, fin) => PutFetchUnknownGentle(rule, w, at, fin);
    case EndFetch => EndTheFetchGentle(rule, w);
    case ResetFetch(code) => ResetGentle(rule, w, code);
    case _ =>
  }

  lemma {:induction false} ApplyGentle(rule: Rule, w: Receiver, c: Call)
    requires Ready(rule, w) && Fitting(rule, w, c)
    ensures Gentle(rule, w, Apply(w, c))
    decreases |w.replies|, 5, 0
  {
    hide ApplyFetch, SubObject, SubBegin, SubPayload, SubStatus, SubEnd, Terminate, SubDrop, FinishSubscription;
    hide GentleBut, Ready;
    Refl(rule, w);
    if w.kind.Fetch? {
      if |w.subs| > 0 {
        ApplyFetchGentle(rule, w, c);
      }
    } else {
      ApplySubscriptionGentle(rule, w, c);
    }
  }

  lemma {:induction false} ApplySubscriptionGentle(rule: Rule, w: Receiver, c: Call)
    requires Ready(rule, w) && Fitting(rule, w, c) && w.kind.Subscribe?
    ensures Gentle(rule, w, Apply(w, c))
    decreases |w.replies|, 4, 9
  {
    hide ApplyFetch, SubObject, SubBegin, SubPayload, SubStatus, SubEnd, Terminate, SubDrop, FinishSubscription;
    hide GentleBut, Ready;
    Refl(rule, w);
    match c
    case PutObject(s, id, n, fin) =>
      if s < |w.subs| {
        SubObjectGentle(w, s, id, n, fin);
      }
    case BeginObject(s, id, length, initial) =>
      if s < |w.subs| {
        SubBeginGentle(w, s, id, length, initial);
      }
    case ObjectPayload(s, n, fin) =>
      if s < |w.subs| {
        SubPayloadGentle(rule, w, s, n, fin);
      }
    case PutStatus(s, id, endOfTrack) =>
      if s < |w.subs| {
        SubStatusGentle(rule, w, s, id, endOfTrack, true);
      }
    case EndSubgroup(s) =>
      if s < |w.subs| {
        SubEndGentle(rule, w, s);
      }
    case Reset(s, code) =>
      if s < |w.subs| {
        TerminateGentle(rule, w, s, code);
      }
    case Drop(s) =>
      if s < |w.subs| {
        SubDropGentle(rule, w, s);
      }
    case BeginSubgroup(group) => BeginSubgroupGentle(rule, w, group);
    case PublishDone => FinishSubscriptionGentle(rule, w);
    case _ =>
  }

  // ---------------------------------------------------------------- calls from outside, when callbacks begin nothing

  predicate AllOpen(subs: seq<Subgroup>) { forall s :: 0 <= s < |subs| ==> Open(subs[s]) }

  lemma {:induction false} StaysOpen(w: Receiver, r: Receiver, t: int)
    requires GentleBut(NoBegin, w, r, t) && AllOpen(w.subs) && (0 <= t < |r.subs| ==> Open(r.subs[t]))
    ensures AllOpen(r.subs)
  {
    hide Ready, Calm, Open;
    forall s | 0 <= s < |r.subs| ensures Open(r.subs[s]) {
      if s < |w.subs| && s != t {
        OpenStays(w.subs[s], r.subs[s]);
      }
    }
  }

  /** What the frame of s finds when onObjectBegin returns: the object just announced is as it was. */
  lemma {:induction false} AnnouncedStays(w: Receiver, s: nat, id: u64, length: nat)
    requires Inv(w) && s < |w.subs| && !w.subs[s].finished && w.subs[s].current.None?
    requires Due(w, Location(w.subs[s].group, id)) && NewId(w, s, id)
    ensures var v, k := Expose(Announce(w, s, id, length)).0, |w.objects|;
      k < |v.objects| && v.objects[k].log == [] && v.objects[k].declared == length
  {
    hide Inv, Expose, HeldBut, Due, NewId;
    AnnounceInv(w, s, id, length);
    var a := Announce(w, s, id, length);
    ExposeKeeps(a);
    ObjectHeld(a, Expose(a).0, -1, |w.objects|);
  }

  lemma {:induction false} AnnounceGentle(w: Receiver, s: nat, id: u64, length: nat)
    requires Ready(NoBegin, w) && s < |w.subs|
    ensures GentleBut(NoBegin, w, Announce(w, s, id, length), s)
  {
    hide Calm, Open, Obeys, GentleBut;
    var v := WithSub(w, s, w.subs[s].(remaining := length));
    SubSet(NoBegin, w, s, v.subs[s]);
    IsReady(NoBegin, w, v, s);
    hide Ready;
    var a := Announce(w, s, id, length);
    Elsewhere(NoBegin, v, a);
    Weaken(NoBegin, v, a, s);
    ButTrans(NoBegin, w, v, a, s);
  }

  /** An object begun from outside comes into flight as announced, or its subgroup is over. */
  lemma {:induction false} AdmitOutside(w: Receiver, s: nat, id: u64, length: nat)
    requires Inv(w) && Ready(NoBegin, w) && s < |w.subs| && !w.subs[s].finished && w.subs[s].current.None?
    requires Due(w, Location(w.subs[s].group, id)) && NewId(w, s, id)
    ensures var (r, ok) := Admit(w, s, id, length);
      && GentleBut(NoBegin, w, r, s)
      && if ok then InHand(r, s, length) else Over(r, s)
  {
    hide Inv, Expose, Admitted, GentleBut, Ready, Due, NewId, Announce;
    AnnounceGentle(w, s, id, length);
    AnnouncedStays(w, s, id, length);
    var a := Announce(w, s, id, length);
    IsReady(NoBegin, w, a, s);
    ExposeGentle(NoBegin, a);
    var (v, answer) := Expose(a);
    AnnounceLeaves(w, s, id, length);
    SubIsCalm(a, v, s);
    Weaken(NoBegin, a, v, s);
    ButTrans(NoBegin, w, a, v, s);
    IsReady(NoBegin, w, v, s);
    AdmittedOutside(v, s, |w.objects|, length, answer);
    ButTrans(NoBegin, w, v, Admitted(v, s, |w.objects|, answer).0, s);
  }

  lemma {:induction false} AnnounceLeaves(w: Receiver, s: nat, id: u64, length: nat)
    requires s < |w.subs|
    ensures var a := Announce(w, s, id, length);
      |a.subs| == |w.subs| && a.subs[s] == w.subs[s].(remaining := length)
  {
  }

  /** The object in flight is untouched. */
  predicate InHand(w: Receiver, s: nat, length: nat) {
    && s < |w.subs|
    && !w.subs[s].finished
    && w.subs[s].current.Some?
    && w.subs[s].current.value < |w.objects|
    && w.subs[s].remaining == length == w.objects[w.subs[s].current.value].declared
    && w.objects[w.subs[s].current.value].log == []
  }

  lemma {:induction false} AdmittedOutside(v: Receiver, s: nat, k: nat, length: nat, answer: Answer)
    requires Ready(NoBegin, v) && s < |v.subs| && k < |v.objects|
    requires !v.subs[s].finished ==> v.subs[s].current.None? && v.subs[s].remaining == length
    requires v.objects[k].log == [] && v.objects[k].declared == length
    ensures var (r, ok) := Admitted(v, s, k, answer);
      && GentleBut(NoBegin, v, r, s)
      && if ok then InHand(r, s, length) else Over(r, s)
  {
    hide Expose, Refused, Late, GentleBut, Ready;
    var r := Admitted(v, s, k, answer).0;
    if !answer.Accept? {
      RefusedGentle(NoBegin, v, s, answer);
      Weaken(NoBegin, v, r, s);
    } else if v.subs[s].finished {
      LateGentle(NoBegin, v, s, k);
      SubIsCalm(v, r, s);
      Weaken(NoBegin, v, r, s);
    } else {
      TakeOverGentle(v, s, k);
    }
  }

  lemma {:induction false} TakeOverGentle(v: Receiver, s: nat, k: nat)
    requires Ready(NoBegin, v) && s < |v.subs| && k < |v.objects| && v.subs[s].current.None?
    ensures GentleBut(NoBegin, v, TakeOver(v, s, k), s)
  {
    hide Calm, Open, Obeys, GentleBut;
    var u := WithSub(v, s, v.subs[s].(current := Some(k)));
    SubSet(NoBegin, v, s, u.subs[s]);
    IsReady(NoBegin, v, u, s);
    hide Ready;
    var r := TakeOver(v, s, k);
    Elsewhere(NoBegin, u, r);
    Weaken(NoBegin, u, r, s);
    ButTrans(NoBegin, v, u, r, s);
  }

  /** The two ways an object is begun, with what is left of it afterwards. */
  lemma {:induction false} BegunOutside(w: Receiver, s: nat, id: u64, length: nat, n: nat, fin: bool)
    requires Inv(w) && Ready(NoBegin, w) && s < |w.subs| && !w.subs[s].finished && w.subs[s].current.None?
    requires Due(w, Location(w.subs[s].group, id)) && NewId(w, s, id) && n <= length
    ensures var (v, ok) := Admit(w, s, id, length);
      var r := if ok then Deliver(v, s, n, fin).0 else v;
      GentleBut(NoBegin, w, r, s) && s < |r.subs| && Open(r.subs[s])
  {
    hide Inv, Admit, Deliver, GentleBut, Ready, Due, NewId;
    AdmitOutside(w, s, id, length);
    var (v, ok) := Admit(w, s, id, length);
    if ok {
      IsReady(NoBegin, w, v, s);
      DeliverGentle(NoBegin, v, s, n, fin);
      Weaken(NoBegin, v, Deliver(v, s, n, fin).0, s);
      ButTrans(NoBegin, w, v, Deliver(v, s, n, fin).0, s);
    }
  }

  lemma {:induction false} PreparedOutside(w: Receiver, s: nat, id: u64)
    requires Inv(w) && Ready(NoBegin, w) && s < |w.subs| && Due(w, Location(w.subs[s].group, id))
    ensures var (r, ok) := Prepare(w, s, id);
      && GentleBut(NoBegin, w, r, s) && Ready(NoBegin, r)
      && if ok then
           && Inv(r) && |r.subs| == |w.subs| && !r.subs[s].finished && r.subs[s].current.None?
           && Due(r, Location(r.subs[s].group, id)) && NewId(r, s, id)
         else Over(r, s)
  {
    hide Inv, GentleBut, Ready, Terminate, NewId, Kept;
    PrepareGentle(NoBegin, w, s, id);
    var (r, ok) := Prepare(w, s, id);
    IsReady(NoBegin, w, r, -1);
    Weaken(NoBegin, w, r, s);
    PreparedKeeps(w, s, id);
    KeptFields(w, r);
    if ok {
      PreparedIsNew(w, s, id);
    }
  }

  lemma {:induction false} SubObjectOutside(w: Receiver, s: nat, id: u64, n: nat, fin: bool)
    requires Inv(w) && Ready(NoBegin, w) && s < |w.subs| && Due(w, Location(w.subs[s].group, id))
    ensures var r := SubObject(w, s, id, n, fin).0;
      GentleBut(NoBegin, w, r, s) && s < |r.subs| && Open(r.subs[s])
  {
    hide Inv, Prepare, Admit, Deliver, GentleBut, Ready, Due, NewId;
    PreparedOutside(w, s, id);
    var (w1, prepared) := Prepare(w, s, id);
    if prepared {
      BegunOutside(w1, s, id, n, n, fin);
      ButTrans(NoBegin, w, w1, SubObject(w, s, id, n, fin).0, s);
    }
  }

  lemma {:induction false} SubBeginOutside(w: Receiver, s: nat, id: u64, length: nat, initial: nat)
    requires Inv(w) && Ready(NoBegin, w) && s < |w.subs| && Due(w, Location(w.subs[s].group, id))
    ensures var r := SubBegin(w, s, id, length, initial).0;
      GentleBut(NoBegin, w, r, s) && s < |r.subs| && Open(r.subs[s])
  {
    hide Inv, Prepare, Admit, Deliver, Terminate, GentleBut, Ready, Due, NewId;
    PreparedOutside(w, s, id);
    var (w1, prepared) := Prepare(w, s, id);
    var r := SubBegin(w, s, id, length, initial).0;
    if prepared {
      if initial > length {
        TerminateGentle(NoBegin, w1, s, MALFORMED_TRACK);
        Weaken(NoBegin, w1, r, s);
      } else {
        BegunOutside(w1, s, id, length, initial, false);
      }
      ButTrans(NoBegin, w, w1, r, s);
    }
  }

  lemma {:induction false} SettleOutside(w: Receiver, r: (Receiver, Progress), fin: bool)
    requires GentleBut(NoBegin, w, r.0, 0) && AllOpen(w.subs) && |r.0.subs| > 0 && Open(r.0.subs[0])
    ensures Undisturbed(w, Settle(r, fin))
  {
    hide FinishFetch, GentleBut, Ready, Open, Settle, AllOpen;
    IsReady(NoBegin, w, r.0, 0);
    StaysOpen(w, r.0, 0);
    Refl(NoBegin, r.0);
    SettleGentle(NoBegin, r.0, r, fin);
    var z := Settle(r, fin);
    IsReady(NoBegin, r.0, z, -1);
    StaysOpen(r.0, z, -1);
  }

  /** Nothing slipped, and something is left of every object in flight. */
  predicate Undisturbed(w: Receiver, r: Receiver) { Ready(NoBegin, r) && r.slipped == w.slipped && AllOpen(r.subs) }

  lemma {:induction false} PutFetchObjectOutside(w: Receiver, at: Location, n: nat, fin: bool)
    requires Inv(w) && Ready(NoBegin, w) && w.kind.Fetch? && |w.subs| > 0 && AllOpen(w.subs)
    ensures Undisturbed(w, PutFetchObject(w, at, n, fin))
  {
    hide Inv, SubObject, PrepareFetch, Settle, GentleBut, Ready, Due, Keeps, Open, AllOpen;
    FetchPrepared(w, at);
    var (w1, ok) := PrepareFetch(w, at);
    if ok {
      SubObjectOutside(w1, 0, at.objectId, n, fin);
      SettleOutside(w1, SubObject(w1, 0, at.objectId, n, fin), fin);
    }
  }

  lemma {:induction false} BeginFetchObjectOutside(w: Receiver, at: Location, length: nat, initial: nat)
    requires Inv(w) && Ready(NoBegin, w) && w.kind.Fetch? && |w.subs| > 0 && AllOpen(w.subs)
    ensures Undisturbed(w, BeginFetchObject(w, at, length, initial))
  {
    hide Inv, SubBegin, PrepareFetch, Settle, GentleBut, Ready, Due, Keeps, Open, AllOpen;
    FetchPrepared(w, at);
    var (w1, ok) := PrepareFetch(w, at);
    if ok {
      SubBeginOutside(w1, 0, at.objectId, length, initial);
      SettleOutside(w1, SubBegin(w1, 0, at.objectId, length, initial), false);
    }
  }

  lemma {:induction false} FetchPrepared(w: Receiver, at: Location)
    requires Inv(w) && Ready(NoBegin, w) && w.kind.Fetch? && |w.subs| > 0 && AllOpen(w.subs)
    ensures var (r, ok) := PrepareFetch(w, at);
      && Undisturbed(w, r)
      && (ok ==> Inv(r) && |r.subs| > 0 && Due(r, Location(r.subs[0].group, at.objectId)))
  {
    hide Inv, PrepareFetch, GentleBut, Ready, Due, Keeps, Open, AllOpen;
    PrepareFetchGentle(NoBegin, w, at);
    PrepareFetchKeeps(w, at);
    var (r, ok) := PrepareFetch(w, at);
    KeepsInv(w, r);
    IsReady(NoBegin, w, r, -1);
    StaysOpen(w, r, -1);
  }

  /** No call from outside makes an object slip while callbacks begin nothing. */
  lemma {:induction false} OutsideKeepsOpen(w: Receiver, c: Call)
    requires Quiet(w) && Ready(NoBegin, w) && AllOpen(w.subs)
    ensures Undisturbed(w, Apply(w, c))
  {
    hide Inv, Apply, ApplyFetch, GentleBut, Ready, Open, AllOpen;
    var r := Apply(w, c);
    if Mild(NoBegin, c) {
      ApplyGentle(NoBegin, w, c);
      IsReady(NoBegin, w, r, -1);
      StaysOpen(w, r, -1);
    } else if w.kind.Fetch? {
      BeginsFetch(w, c);
    } else {
      BeginsSubscription(w, c);
    }
  }

  lemma {:induction false} BeginsFetch(w: Receiver, c: Call)
    requires Inv(w) && Ready(NoBegin, w) && AllOpen(w.subs) && w.kind.Fetch? && Begins(c)
    ensures Undisturbed(w, Apply(w, c))
  {
    hide Inv, PutFetchObject, BeginFetchObject, PutFetchPayload, GentleBut, Ready, Open;
    FetchLive(w);
    match c
    case FetchObject(at, n, fin) => PutFetchObjectOutside(w, at, n, fin);
    case FetchBegin(at, length, initial) => BeginFetchObjectOutside(w, at, length, initial);
    case FetchPayload(n, fin) =>
      PutFetchPayloadGentle(NoBegin, w, n, fin);
      var r := PutFetchPayload(w, n, fin);
      IsReady(NoBegin, w, r, -1);
      StaysOpen(w, r, -1);
    case _ =>
  }

  lemma {:induction false} BeginsSubscription(w: Receiver, c: Call)
    requires Inv(w) && Ready(NoBegin, w) && AllOpen(w.subs) && w.kind.Subscribe? && Begins(c)
    ensures Undisturbed(w, Apply(w, c))
  {
    hide Inv, SubObject, SubBegin, SubPayload, GentleBut, Ready, Open;
    match c
    case PutObject(s, id, n, fin) =>
      if s < |w.subs| {
        SubObjectOutside(w, s, id, n, fin);
        IsReady(NoBegin, w, SubObject(w, s, id, n, fin).0, s);
        StaysOpen(w, SubObject(w, s, id, n, fin).0, s);
      }
    case BeginObject(s, id, length, initial) =>
      if s < |w.subs| {
        SubBeginOutside(w, s, id, length, initial);
        IsReady(NoBegin, w, SubBegin(w, s, id, length, initial).0, s);
        StaysOpen(w, SubBegin(w, s, id, length, initial).0, s);
      }
    case ObjectPayload(s, n, fin) =>
      if s < |w.subs| {
        SubPayloadGentle(NoBegin, w, s, n, fin);
        IsReady(NoBegin, w, SubPayload(w, s, n, fin).0, -1);
        StaysOpen(w, SubPayload(w, s, n, fin).0, -1);
      }
    case _ =>
  }

  // ---------------------------------------------------------------- whole runs

  lemma {:induction false} RunNeverSlips(w: Receiver, calls: seq<Call>)
    requires Quiet(w) && Ready(NoBegin, w) && AllOpen(w.subs) && !w.slipped
    ensures !RunAll(w, calls).slipped
    decreases |calls|
  {
    hide Quiet, Ready, AllOpen, Apply;
    if calls != [] {
      OutsideKeepsOpen(w, calls[0]);
      ApplyQuiet(w, calls[0]);
      RunNeverSlips(Apply(w, calls[0]), calls[1..]);
    }
  }

  lemma {:induction false} RunNeverEarly(w: Receiver, calls: seq<Call>)
    requires Ready(NoEnd, w) && w.kind.Fetch? && !w.exposed && !w.early
    ensures !RunAll(w, calls).early
    decreases |calls|
  {
    hide Ready, Apply;
    if calls != [] {
      ApplyGentle(NoEnd, w, calls[0]);
      RunNeverEarly(Apply(w, calls[0]), calls[1..]);
    }
  }

  /**
    If callbacks begin no object and hand in no empty payload, every object of every run is accounted for: its consumer
    is called in order, and once it is no longer in flight it has had the whole object or exactly one error.
   */
  lemma {:induction false} BeginlessRunsAreAccounted(kind: Kind, replies: seq<Reply>, calls: seq<Call>)
    requires Obeys(NoBegin, replies)
    ensures var w := RunAll(NewReceiver(kind, replies), calls);
      forall k :: 0 <= k < |w.objects| ==> Accounted(w, k)
  {
    hide Quiet, RunAll, Obeys, Accounted;
    var w := NewReceiver(kind, replies);
    NewIsQuiet(kind, replies);
    RunNeverSlips(w, calls);
    RunAllQuiet(w, calls);
    QuietAccounts(RunAll(w, calls));
  }

  /** In particular an object left short when its subgroup ends gets exactly one onError, and one without is whole. */
  lemma {:induction false} ShortObjectsFail(kind: Kind, replies: seq<Reply>, calls: seq<Call>, k: nat)
    requires Obeys(NoBegin, replies)
    requires var w := RunAll(NewReceiver(kind, replies), calls);
      k < |w.objects| && w.objects[k].admitted && !IsCurrent(w.subs, w.objects[k], k)
    ensures var o := RunAll(NewReceiver(kind, replies), calls).objects[k];
      && (Got(o.log) < o.declared ==> Failures(o.log) == 1)
      && (Failures(o.log) == 0 ==> Got(o.log) == o.declared)
  {
    hide RunAll, Obeys, Accounted, Failures, Got, IsCurrent;
    BeginlessRunsAreAccounted(kind, replies, calls);
    AccountedIsWhole(RunAll(NewReceiver(kind, replies), calls), k);
  }

  /** After the destructor of a fetch no object is in flight, so that each has had the whole object or exactly one error. */
  lemma {:induction false} BeginlessFetchesSettle(order: GroupOrder, replies: seq<Reply>, calls: seq<Call>, k: nat)
    requires Obeys(NoBegin, replies) && k < |RunAll(NewReceiver(Fetch(order), replies), calls).objects|
    ensures var o := DestroyFetch(RunAll(NewReceiver(Fetch(order), replies), calls)).objects[k];
      InOrder(o.declared, o.log) && (o.admitted ==> Ended(o.log) || Failures(o.log) == 1)
  {
    hide Quiet, RunAll, Obeys, InOrder, Failures, DestroyFetch;
    var w := NewReceiver(Fetch(order), replies);
    NewIsQuiet(Fetch(order), replies);
    RunNeverSlips(w, calls);
    RunAllQuiet(w, calls);
    RunAllKind(w, calls);
    DestructorQuiet(RunAll(w, calls), k);
  }

  /** If callbacks do not end the fetch, it never both fails and reports that all data came. */
  lemma {:induction false} EndlessFetchesAgree(order: GroupOrder, replies: seq<Reply>, calls: seq<Call>)
    requires Obeys(NoEnd, replies)
    ensures var w := RunAll(NewReceiver(Fetch(order), replies), calls);
      w.allData <= 1 && (w.failed ==> w.allData == 0)
  {
    hide Quiet, RunAll, Obeys;
    var w := NewReceiver(Fetch(order), replies);
    NewIsQuiet(Fetch(order), replies);
    RunNeverEarly(w, calls);
    RunAllQuiet(w, calls);
    RunAllKind(w, calls);
    QuietFetch(RunAll(w, calls));
  }

  lemma {:induction false} RunAllKind(w: Receiver, calls: seq<Call>)
    requires Quiet(w)
    ensures RunAll(w, calls).kind == w.kind
    decreases |calls|
  {
    hide Quiet, Apply;
    if calls != [] {
      ApplyQuiet(w, calls[0]);
      RunAllKind(Apply(w, calls[0]), calls[1..]);
    }
  }
}
