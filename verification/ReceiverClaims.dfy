/**
  What the application can count on, over every run of a streaming receiver. Callbacks may make any call at any time;
  the two promises that then fail come with the exact condition under which they hold.
 */
module ReceiverClaims {
  import opened Bytes
  import opened ObjectWire
  import opened Locations
  import opened ReceiverModel
  import opened ReceiverInvariant
  import opened ReceiverRuns

  // ---------------------------------------------------------------- runs

  /** Between calls from outside: no frame is on the stack, and a fetch that completed early has failed. */
  ghost predicate Quiet(w: Receiver) {
    && Inv(w)
    && !w.closing
    && !w.exposed
    && (w.kind.Fetch? && w.early ==> w.failed)
    && forall s :: 0 <= s < |w.subs| ==> !w.subs[s].ending
  }

  lemma {:induction false} ApplyQuiet(w: Receiver, c: Call)
    requires Quiet(w)
    ensures Quiet(Apply(w, c)) && Apply(w, c).kind == w.kind
  {
    hide Inv, Apply, HeldFull, HeldObject;
    ApplyKeeps(w, c);
    var r := Apply(w, c);
    forall s | 0 <= s < |r.subs| ensures !r.subs[s].ending {
      if s < |w.subs| {
        assert HeldSub(w.subs[s], r.subs[s]);
      }
    }
  }

  /** A run: calls from outside, one after the other. */
  function RunAll(w: Receiver, calls: seq<Call>): Receiver
    decreases |calls|
  {
    if calls == [] then w else RunAll(Apply(w, calls[0]), calls[1..])
  }

  lemma {:induction false} RunAllQuiet(w: Receiver, calls: seq<Call>)
    requires Quiet(w)
    ensures Quiet(RunAll(w, calls))
    decreases |calls|
  {
    hide Apply, Quiet;
    if calls != [] {
      ApplyQuiet(w, calls[0]);
      RunAllQuiet(Apply(w, calls[0]), calls[1..]);
    }
  }

  lemma NewIsQuiet(kind: Kind, replies: seq<Reply>)
    ensures Quiet(NewReceiver(kind, replies))
  {
    var w := NewReceiver(kind, replies);
    if kind.Fetch? {
      assert w.subs == [NewSubgroup(0, false)] && w.subs[..|w.subs| - 1] == [];
      assert CountOpen([]) == 0;
      assert CountOpen(w.subs) == 0;
      assert SubOk(w.kind, w.objects, w.subs[0], 0);
    }
  }

  /** A state some run leads to, whatever its callbacks do. */
  ghost predicate Reachable(w: Receiver) {
    exists kind, replies, calls :: w == RunAll(NewReceiver(kind, replies), calls)
  }

  lemma ReachableIsQuiet(w: Receiver)
    requires Reachable(w)
    ensures Quiet(w)
  {
    hide Quiet, RunAll;
    var kind, replies, calls :| w == RunAll(NewReceiver(kind, replies), calls);
    NewIsQuiet(kind, replies);
    RunAllQuiet(NewReceiver(kind, replies), calls);
  }

  // ---------------------------------------------------------------- one object

  function Failures(log: seq<ObjectEvent>): nat {
    if log == [] then 0 else Failures(log[..|log| - 1]) + (if log[|log| - 1].Failed? then 1 else 0)
  }

  /** What a consumer expects of the i-th call on it. */
  predicate Expected(declared: nat, log: seq<ObjectEvent>, i: nat)
    requires i < |log|
  {
    match log[i]
    case Failed(_) => i == |log| - 1
    case Payload(_, endOfObject) =>
      && Got(log[..i + 1]) <= declared
      && (endOfObject <==> Got(log[..i + 1]) == declared)
      && !Ended(log[..i])
  }

  /**
    Never more than the declared length; endOfObject on the call that reaches it, and on one call only; an error at
    most once and last.
   */
  predicate InOrder(declared: nat, log: seq<ObjectEvent>) {
    forall i :: 0 <= i < |log| ==> Expected(declared, log, i)
  }

  lemma PrefixExpected(declared: nat, log: seq<ObjectEvent>, i: nat)
    requires i < |log| - 1
    ensures Expected(declared, log, i) <==> !log[i].Failed? && Expected(declared, log[..|log| - 1], i)
  {
    var init := log[..|log| - 1];
    assert init[..i + 1] == log[..i + 1] && init[..i] == log[..i];
  }

  lemma OrderSnoc(declared: nat, log: seq<ObjectEvent>)
    requires log != []
    ensures var n := |log| - 1;
      InOrder(declared, log) <==> InOrder(declared, log[..n]) && !Errored(log[..n]) && Expected(declared, log, n)
  {
    hide Expected;
    var n := |log| - 1;
    var init := log[..n];
    forall i | 0 <= i < n
      ensures Expected(declared, log, i) <==> !log[i].Failed? && Expected(declared, init, i)
    {
      PrefixExpected(declared, log, i);
    }
    if InOrder(declared, init) && !Errored(init) {
      forall i | 0 <= i < n ensures !log[i].Failed? {
        if log[i].Failed? {
          FailedIsLast(declared, init, i);
        }
      }
    }
    if InOrder(declared, log) {
      assert n > 0 ==> Expected(declared, log, n - 1);
      assert forall i :: 0 <= i < n ==> Expected(declared, log, i);
    }
  }

  lemma FailedIsLast(declared: nat, log: seq<ObjectEvent>, i: nat)
    requires i < |log| && InOrder(declared, log) && log[i].Failed?
    ensures i == |log| - 1
  {
    assert Expected(declared, log, i);
  }

  lemma {:induction false} OrderIsLogOk(declared: nat, log: seq<ObjectEvent>)
    ensures InOrder(declared, log) <==> LogOk(declared, log)
  {
    if log != [] {
      hide InOrder, Got, Ended;
      var n := |log| - 1;
      OrderIsLogOk(declared, log[..n]);
      OrderSnoc(declared, log);
      assert log[..n] + [log[n]] == log == log[..n + 1];
      LogSnoc(log[..n], log[n], declared);
    }
  }

  /** Only the last event of a log in order can be a failure. */
  lemma {:induction false} FailsOnce(log: seq<ObjectEvent>)
    requires ErrorLast(log)
    ensures Failures(log) == if Errored(log) then 1 else 0
  {
    if log != [] {
      var init := log[..|log| - 1];
      assert ErrorLast(init) by {
        forall i | 0 <= i < |init| - 1 ensures !init[i].Failed? {
          assert init[i] == log[i];
        }
      }
      FailsOnce(init);
      assert init != [] ==> init[|init| - 1] == log[|log| - 2];
    }
  }

  // ---------------------------------------------------------------- what holds of every run

  /** onError comes at most once, and is the last call on its consumer. */
  lemma ErrorsOnceAndLast(w: Receiver, k: nat)
    requires Reachable(w) && k < |w.objects|
    ensures Failures(w.objects[k].log) <= 1
    ensures forall i :: 0 <= i < |w.objects[k].log| && w.objects[k].log[i].Failed? ==> i == |w.objects[k].log| - 1
  {
    hide Reachable, Inv, Failures;
    ReachableIsQuiet(w);
    CheckObject(w, k);
    FailsOnce(w.objects[k].log);
  }

  /**
    The error a consumer is told of is the one its subgroup's terminal callback reports; an object announced while
    its subgroup ended in another way is told MALFORMED_TRACK.
   */
  lemma FailuresAgree(w: Receiver, k: nat)
    requires Reachable(w) && w.kind.Subscribe? && k < |w.objects| && Errored(w.objects[k].log)
    ensures var o := w.objects[k];
      && o.subgroup < |w.subs| && |w.subs[o.subgroup].terminals| == 1
      && var t := w.subs[o.subgroup].terminals[0];
      o.log[|o.log| - 1].code == if t.SubgroupError? then t.code else MALFORMED_TRACK
  {
    hide Reachable, Inv, LogOk;
    ReachableIsQuiet(w);
    CheckObject(w, k);
    CheckSub(w, w.objects[k].subgroup);
  }

  /** A finished subgroup of a subscription has no object in flight. */
  lemma NothingInFlight(w: Receiver, s: nat)
    requires Reachable(w) && w.kind.Subscribe? && s < |w.subs| && w.subs[s].finished
    ensures w.subs[s].current.None?
  {
    hide Reachable, Inv;
    ReachableIsQuiet(w);
    CheckSub(w, s);
  }

  /** Every subgroup of a subscription gets exactly one terminal callback when it ends, and none before. */
  lemma OneTerminalEach(w: Receiver, s: nat)
    requires Reachable(w) && w.kind.Subscribe? && s < |w.subs|
    ensures |w.subs[s].terminals| == if w.subs[s].finished then 1 else 0
  {
    hide Reachable, Inv, InFlight;
    ReachableIsQuiet(w);
    CheckSub(w, s);
  }

  /** The IDs of the objects announced on one subgroup of a subscription strictly increase. */
  lemma ObjectIdsIncrease(w: Receiver, j: nat, k: nat)
    requires Reachable(w) && w.kind.Subscribe? && j < k < |w.objects| && w.objects[j].subgroup == w.objects[k].subgroup
    ensures w.objects[j].id < w.objects[k].id
  {
    hide Reachable, SubsOk, ObjectsOk, Books, CountOpen;
    ReachableIsQuiet(w);
  }

  function Unfinished(subs: seq<Subgroup>): nat {
    if subs == [] then 0 else Unfinished(subs[..|subs| - 1]) + (if subs[|subs| - 1].finished then 0 else 1)
  }

  lemma {:induction false} OpenAreUnfinished(subs: seq<Subgroup>)
    requires forall s :: 0 <= s < |subs| ==> (Counted(subs[s]) <==> !subs[s].finished)
    ensures CountOpen(subs) == Unfinished(subs)
  {
    if subs != [] {
      OpenAreUnfinished(subs[..|subs| - 1]);
    }
  }

  lemma QuietIsCounted(w: Receiver)
    requires Quiet(w) && w.kind.Subscribe?
    ensures w.open == Unfinished(w.subs)
    ensures w.allData == if w.done && Unfinished(w.subs) == 0 then 1 else 0
  {
    hide Inv, Books, CountOpen;
    forall s | 0 <= s < |w.subs| ensures Counted(w.subs[s]) <==> !w.subs[s].finished {
      CheckSub(w, s);
    }
    OpenAreUnfinished(w.subs);
    OwnCounts(w);
  }

  lemma OwnCounts(w: Receiver)
    requires Inv(w) && w.kind.Subscribe? && !w.closing
    ensures w.open == CountOpen(w.subs) && w.allData == if w.done && w.open == 0 then 1 else 0
  {
    hide SubsOk, ObjectsOk, Books, CountOpen, Numbered;
  }

  /**
    openSubgroups_ is the number of unfinished subgroups, and onAllDataReceived has been called exactly once if
    PUBLISH_DONE has come and all of them have ended, and otherwise not at all.
   */
  lemma OpenSubgroupsAreCounted(w: Receiver)
    requires Reachable(w) && w.kind.Subscribe?
    ensures w.open == Unfinished(w.subs)
    ensures w.allData == if w.done && Unfinished(w.subs) == 0 then 1 else 0
  {
    hide Reachable, Quiet;
    ReachableIsQuiet(w);
    QuietIsCounted(w);
  }

  lemma {:induction false} AscendingPairwise(order: GroupOrder, ls: seq<Location>, i: nat, j: nat)
    requires Ascending(order, ls) && i < j < |ls|
    ensures Advances(order, ls[i], ls[j])
    decreases |ls|
  {
    var n := |ls| - 1;
    if j < n {
      AscendingPairwise(order, ls[..n], i, j);
    } else if i < n - 1 {
      AscendingPairwise(order, ls[..n], i, n - 1);
      AdvancesTrans(order, ls[i], ls[n - 1], ls[n]);
    }
  }

  lemma FetchOwn(w: Receiver)
    requires Inv(w) && w.kind.Fetch?
    ensures w.allData == if w.sent then 1 else 0
    ensures FetchOk(w)
  {
    hide SubsOk, ObjectsOk, Books, CountOpen, FetchOk;
  }

  /** The locations a fetch delivers are strictly monotone in its group order. */
  lemma FetchIsMonotone(w: Receiver, i: nat, j: nat)
    requires Reachable(w) && w.kind.Fetch? && i < j < |w.delivered|
    ensures Advances(w.kind.order, w.delivered[i], w.delivered[j])
  {
    hide Reachable, Inv, Ascending, UpTo;
    ReachableIsQuiet(w);
    FetchOwn(w);
    AscendingPairwise(w.kind.order, w.delivered, i, j);
  }

  /** onAllDataReceived is called at most once on a fetch, and once it is, nothing is delivered any more. */
  lemma {:induction false} FetchCompletesOnce(w: Receiver, calls: seq<Call>)
    requires Reachable(w) && w.kind.Fetch?
    ensures w.allData <= 1
    ensures w.allData == 1 ==>
      var r := RunAll(w, calls); r.allData == 1 && r.delivered == w.delivered && r.failed == w.failed
  {
    hide Reachable, Quiet, RunAll;
    ReachableIsQuiet(w);
    QuietFetch(w);
    if w.allData == 1 {
      OverForGood(w, calls);
    }
  }

  /** What a quiet fetch says of itself. */
  lemma QuietFetch(w: Receiver)
    requires Quiet(w) && w.kind.Fetch?
    ensures |w.subs| == 1
    ensures w.allData == if w.sent then 1 else 0
    ensures w.sent ==> w.terminal
    ensures w.early <==> w.sent && w.failed
    ensures Ascending(w.kind.order, w.delivered)
  {
    hide Inv, Ascending, UpTo;
    FetchOwn(w);
  }

  lemma {:induction false} OverForGood(w: Receiver, calls: seq<Call>)
    requires Quiet(w) && w.kind.Fetch? && w.sent && w.terminal
    ensures var r := RunAll(w, calls);
      r.allData == 1 && r.delivered == w.delivered && r.failed == w.failed
    decreases |calls|
  {
    hide Apply, Quiet;
    if calls == [] {
      QuietFetch(w);
    } else {
      var r := Apply(w, calls[0]);
      ApplyQuiet(w, calls[0]);
      StaysOver(w, calls[0]);
      OverForGood(r, calls[1..]);
    }
  }

  lemma {:induction false} StaysOver(w: Receiver, c: Call)
    requires Quiet(w) && w.kind.Fetch? && w.terminal
    ensures var r := Apply(w, c);
      r.terminal && r.sent == w.sent && r.failed == w.failed && r.delivered == w.delivered
  {
    hide Apply, Inv;
    ApplyKeeps(w, c);
    KindHeld(w, Apply(w, c), -1);
  }

  // ---------------------------------------------------------------- what holds exactly when the callbacks keep out of the way

  /**
    A fetch reports all data received and yet fails exactly if onAllDataReceived was called from inside a callback of
    a delivery: onObjectBegin, onPayload or a consumer's onError.
   */
  lemma FailedFetchCompletes(w: Receiver)
    requires Reachable(w) && w.kind.Fetch?
    ensures w.failed && w.allData == 1 <==> w.early
  {
    hide Reachable, Quiet;
    ReachableIsQuiet(w);
    QuietFetch(w);
  }

  /**
    What the application is promised of one object: its consumer is called in order, and once it is no longer the one
    in flight it has had the whole object or exactly one error.
   */
  predicate Accounted(w: Receiver, k: nat)
    requires k < |w.objects|
  {
    var o := w.objects[k];
    && InOrder(o.declared, o.log)
    && (o.admitted && !IsCurrent(w.subs, o, k) ==> Ended(o.log) || Failures(o.log) == 1)
  }

  lemma AccountedIsSound(w: Receiver, k: nat)
    requires Inv(w) && k < |w.objects|
    ensures Accounted(w, k) <==> !Broken(w.subs, w.objects[k], k)
  {
    hide Inv, InOrder, LogOk, Failures, Ended, IsCurrent;
    CheckObject(w, k);
    OrderIsLogOk(w.objects[k].declared, w.objects[k].log);
    FailsOnce(w.objects[k].log);
  }

  /**
    Every object of a run is accounted for exactly if no object in flight lost its place to another and no empty
    payload was handed in when nothing was left, be it that the object was complete or that a whole object had come
    in between. ReceiverRules has a condition on the calls that callbacks make.
   */
  lemma AccountsAreExact(w: Receiver)
    requires Reachable(w)
    ensures (forall k :: 0 <= k < |w.objects| ==> Accounted(w, k)) <==> !w.slipped
  {
    hide Reachable, Quiet, Accounted;
    ReachableIsQuiet(w);
    QuietAccounts(w);
  }

  lemma QuietAccounts(w: Receiver)
    requires Quiet(w)
    ensures (forall k :: 0 <= k < |w.objects| ==> Accounted(w, k)) <==> !w.slipped
  {
    hide Inv, Accounted;
    forall k | 0 <= k < |w.objects| ensures Accounted(w, k) <==> !Broken(w.subs, w.objects[k], k) {
      AccountedIsSound(w, k);
    }
    BooksAreExact(w);
  }

  lemma BooksAreExact(w: Receiver)
    requires Inv(w)
    ensures w.slipped <==> SomeBroken(w.subs, w.objects)
  {
    hide SubsOk, ObjectsOk, OwnOk, LogOk;
    if !w.slipped {
      forall k | 0 <= k < |w.objects| ensures !Broken(w.subs, w.objects[k], k) {
        assert AccountOk(w.subs, w.objects[k], k);
      }
    }
  }

  /** An object accounted for that is no longer in flight: left short it has exactly one error, without one it is whole. */
  lemma {:induction false} AccountedIsWhole(w: Receiver, k: nat)
    requires k < |w.objects| && Accounted(w, k) && w.objects[k].admitted && !IsCurrent(w.subs, w.objects[k], k)
    ensures var o := w.objects[k];
      && (Got(o.log) < o.declared ==> Failures(o.log) == 1)
      && (Failures(o.log) == 0 ==> Got(o.log) == o.declared)
  {
    hide InOrder, LogOk, Failures, Got;
    var o := w.objects[k];
    OrderIsLogOk(o.declared, o.log);
    if Ended(o.log) {
      EndedHasAll(o.declared, o.log);
    }
  }

  // ---------------------------------------------------------------- a fetch receiver's destructor

  /**
    The destructor tells the object in flight, if any, of the end and no other; after it every object that was
    accepted has had the whole of it or exactly one error, under the same condition as before.
   */
  lemma DestructorSettles(w: Receiver, k: nat)
    requires Reachable(w) && w.kind.Fetch? && k < |w.objects|
    ensures var r := DestroyFetch(w);
      && |r.objects| == |w.objects| && |r.subs| == 1 && r.subs[0].current.None?
      && r.objects[k] == (if w.subs[0].current == Some(k)
                          then w.objects[k].(log := w.objects[k].log + [Failed(CANCELLED)])
                          else w.objects[k])
      && Failures(r.objects[k].log) <= 1
      && (!w.slipped ==> InOrder(r.objects[k].declared, r.objects[k].log))
      && (!w.slipped && r.objects[k].admitted ==> Ended(r.objects[k].log) || Failures(r.objects[k].log) == 1)
  {
    hide Reachable, Quiet, InOrder, Ended, Failures;
    ReachableIsQuiet(w);
    DestroyedOnce(w);
    DestructorQuiet(w, k);
  }

  lemma DestroyedOnce(w: Receiver)
    requires Quiet(w) && w.kind.Fetch?
    ensures var r := DestroyFetch(w);
      |r.objects| == |w.objects| && |r.subs| == 1 && r.subs[0].current.None? && r.slipped == w.slipped
  {
    hide Inv;
    FetchLive(w);
    CheckSub(w, 0);
  }

  lemma DestructorQuiet(w: Receiver, k: nat)
    requires Quiet(w) && w.kind.Fetch? && k < |w.objects|
    ensures |w.subs| == 1 && |DestroyFetch(w).objects| == |w.objects|
    ensures var o := DestroyFetch(w).objects[k];
      && o == (if w.subs[0].current == Some(k) then w.objects[k].(log := w.objects[k].log + [Failed(CANCELLED)])
               else w.objects[k])
      && Failures(o.log) <= 1
      && (!w.slipped ==> InOrder(o.declared, o.log))
      && (!w.slipped && o.admitted ==> Ended(o.log) || Failures(o.log) == 1)
  {
    hide Inv, InOrder, LogOk, Failures, Ended, Errored, ErrorLast, Balanced;
    FetchLive(w);
    CheckObject(w, k);
    var o := w.objects[k];
    FailsOnce(o.log);
    OrderIsLogOk(o.declared, o.log);
    if w.subs[0].current == Some(k) {
      CurrentObject(w, 0);
      OneFailure(o.declared, o.log, CANCELLED);
    }
  }

  lemma {:induction false} OneFailure(declared: nat, log: seq<ObjectEvent>, code: ResetCode)
    requires ErrorLast(log) && !Errored(log)
    ensures Failures(log + [Failed(code)]) == 1
    ensures InOrder(declared, log) ==> InOrder(declared, log + [Failed(code)])
  {
    hide InOrder, LogOk, Failures;
    LogSnoc(log, Failed(code), declared);
    FailsOnce(log + [Failed(code)]);
    OrderIsLogOk(declared, log);
    OrderIsLogOk(declared, log + [Failed(code)]);
  }
}
