/**
  The streaming receiver as an object whose methods update its fields in place, one method per source method. The
  subgroup receivers of a subscription live in `subs`. Each method leaves the object as the function for the same
  operation in ReceiverModel says; what it has told the application so far is ghost state. A call from outside comes
  in through Handle, a call from inside a callback through Dispatch.
 */
module ReceiverClass {
  import opened Bytes
  import opened ObjectWire
  import opened Locations
  import opened ReceiverModel
  import opened ReceiverInvariant
  import opened ReceiverClaims

  class StreamingObjectReceiver {
    const kind: Kind
    var subs: seq<Subgroup>
    var openSubgroups: nat
    var publishDoneDelivered: bool
    var allDataCallbackSent: bool
    var lastFetch: Option<Location>
    var fetchTerminal: bool
    var fetchFailed: bool
    var objects: seq<Object>
    var replies: seq<Reply>
    ghost var delivered: seq<Location>
    ghost var allData: nat
    ghost var slipped: bool
    ghost var exposed: bool
    ghost var early: bool
    ghost var closing: bool

    ghost function Model(): Receiver
      reads this
    {
      Receiver(kind, subs, openSubgroups, publishDoneDelivered, allDataCallbackSent, lastFetch, fetchTerminal,
               fetchFailed, objects, delivered, allData, slipped, exposed, early, closing, replies)
    }

    constructor (kind: Kind, replies: seq<Reply>)
      ensures Model() == NewReceiver(kind, replies) && Quiet(Model())
    {
      this.kind, this.replies := kind, replies;
      subs := if kind.Fetch? then [NewSubgroup(0, false)] else [];
      openSubgroups, publishDoneDelivered, allDataCallbackSent := 0, false, false;
      lastFetch, fetchTerminal, fetchFailed := None, false, false;
      objects, delivered, allData := [], [], 0;
      slipped, exposed, early, closing := false, false, false, false;
      new;
      hide Quiet;
      NewIsQuiet(kind, replies);
    }

    // ---------------------------------------------------------------- calls from outside

    /**
      One call from outside, with whatever its callbacks call in turn: the open subgroups are counted, all data is
      reported when it should be, and every object is accounted for unless one slipped.
     */
    method Handle(c: Call)
      requires Quiet(Model())
      modifies this
      ensures Model() == Apply(old(Model()), c)
      ensures Quiet(Model())
      ensures kind.Subscribe? ==>
        && openSubgroups == Unfinished(subs)
        && allData == if publishDoneDelivered && Unfinished(subs) == 0 then 1 else 0
      ensures kind.Fetch? ==> allData <= 1 && (fetchFailed && allData == 1 <==> early)
      ensures kind.Fetch? ==> Ascending(kind.order, delivered)
      ensures (forall k :: 0 <= k < |objects| ==> Accounted(Model(), k)) <==> !slipped
    {
      hide Quiet, Apply, Accounted, Unfinished, Ascending;
      ApplyQuiet(Model(), c);
      Dispatch(c);
      QuietAccounts(Model());
      if kind.Subscribe? {
        QuietIsCounted(Model());
      } else {
        QuietFetch(Model());
      }
    }

    /** The destructor of a FETCH receiver: the consumer in flight is told, and no other. */
    method Destroy()
      requires kind.Fetch? && Quiet(Model())
      modifies this
      ensures Model() == DestroyFetch(old(Model()))
      ensures |objects| == |old(objects)| && |subs| == 1 && subs[0].current.None?
      ensures forall k :: 0 <= k < |objects| && objects[k].admitted && !slipped ==>
        Ended(objects[k].log) || Failures(objects[k].log) == 1
    {
      hide Quiet, Ended, Failures, InOrder;
      ghost var w := Model();
      QuietFetch(w);
      if subs[0].current.Some? && subs[0].current.value < |objects| {
        var k := subs[0].current.value;
        subs := subs[0 := subs[0].(current := None, remaining := 0)];
        objects := objects[k := objects[k].(log := objects[k].log + [Failed(CANCELLED)])];
      }
      DestroyedOnce(w);
      forall k | 0 <= k < |objects| ensures objects[k].admitted && !slipped ==> Ended(objects[k].log) || Failures(objects[k].log) == 1 {
        DestructorQuiet(w, k);
      }
    }

    // ---------------------------------------------------------------- single fields

    method PutSubgroup(s: nat, x: Subgroup)
      requires s < |subs|
      modifies this`subs
      ensures Model() == WithSub(old(Model()), s, x)
    {
      subs := subs[s := x];
    }

    method StoreObject(k: nat, o: Object)
      requires k < |objects|
      modifies this`objects
      ensures Model() == old(Model()).(objects := old(objects)[k := o])
    {
      objects := objects[k := o];
    }

    method AddObject(o: Object)
      modifies this`objects
      ensures Model() == old(Model()).(objects := old(objects) + [o])
    {
      objects := objects + [o];
    }

    ghost method Delivering(at: Location)
      modifies this`delivered
      ensures Model() == old(Model()).(delivered := old(delivered) + [at])
    {
      delivered := delivered + [at];
    }

    method SetFetch(terminal: bool, failed: bool)
      modifies this`fetchTerminal, this`fetchFailed
      ensures Model() == old(Model()).(terminal := terminal, failed := failed)
    {
      fetchTerminal, fetchFailed := terminal, failed;
    }

    ghost method SetExposed(b: bool)
      modifies this`exposed
      ensures Model() == old(Model()).(exposed := b)
    {
      exposed := b;
    }

    ghost method Slip(b: bool)
      modifies this`slipped
      ensures Model() == old(Model()).(slipped := b)
    {
      slipped := b;
    }

    // ---------------------------------------------------------------- the application's side

    /** A callback makes its calls and answers. */
    method CallApplication() returns (answer: Answer)
      modifies this
      ensures (Model(), answer) == Callback(old(Model()))
      decreases |replies|, 0, 0
    {
      hide Run;
      if replies == [] {
        return Accept;
      }
      var reply := replies[0];
      ghost var w := Model();
      replies := replies[1..];
      assert Model() == w.(replies := w.replies[1..]);
      MakeCalls(reply.calls);
      answer := reply.answer;
    }

    /** A callback from inside a delivery. */
    method CallFromDelivery() returns (answer: Answer)
      modifies this
      ensures (Model(), answer) == Expose(old(Model()))
      decreases |replies|, 0, 1
    {
      hide Callback;
      ghost var before := exposed;
      SetExposed(true);
      answer := CallApplication();
      SetExposed(before);
    }

    method MakeCalls(calls: seq<Call>)
      modifies this
      ensures Model() == Run(old(Model()), calls)
      decreases |replies|, 6, |calls|
    {
      hide Apply;
      if calls == [] {
        return;
      }
      Dispatch(calls[0]);
      MakeCalls(calls[1..]);
    }

    // ---------------------------------------------------------------- subgroup receiver

    method FailCurrentObject(s: nat, x: Subgroup, code: ResetCode)
      requires s < |subs|
      modifies this
      ensures Model() == FailCurrent(old(Model()), s, x, code)
      decreases |replies|, 1, 0
    {
      hide Expose;
      var consumer := subs[s].current;
      PutSubgroup(s, x);
      if consumer.Some? && consumer.value < |objects| {
        var k := consumer.value;
        StoreObject(k, objects[k].(log := objects[k].log + [Failed(code)]));
        var _ := CallFromDelivery();
      }
    }

    method FireAllDataReceived()
      modifies this
      ensures Model() == Fire(old(Model()))
      decreases |replies|, 1, 0
    {
      hide Callback;
      if !allDataCallbackSent {
        allDataCallbackSent, allData, early := true, allData + 1, early || exposed;
        var _ := CallApplication();
      }
    }

    method OnSubgroupFinished()
      modifies this
      ensures Model() == SubgroupFinished(old(Model()))
      decreases |replies|, 2, 0
    {
      hide Fire;
      if openSubgroups > 0 {
        openSubgroups := openSubgroups - 1;
      }
      if publishDoneDelivered && openSubgroups == 0 {
        FireAllDataReceived();
      }
    }

    method NotifyParentFinished(s: nat)
      requires s < |subs|
      modifies this
      ensures Model() == Notify(old(Model()), s)
      decreases |replies|, 3, 0
    {
      hide SubgroupFinished;
      var parent := subs[s].attached || subs[s].owes;
      subs := subs[s := subs[s].(finished := true, attached := false, owes := false, ending := false)];
      if parent {
        OnSubgroupFinished();
      }
    }

    method TerminateWithError(s: nat, code: ResetCode)
      requires s < |subs|
      modifies this
      ensures Model() == Terminate(old(Model()), s, code)
      decreases |replies|, 4, 0
    {
      hide Expose, Notify, FailCurrent;
      if subs[s].finished {
        return;
      }
      FailCurrentObject(s, Terminated(subs[s], code), code);
      ghost var w := Model();
      subs := subs[s := subs[s].(terminals := subs[s].terminals + [SubgroupError(code)])];
      assert Model() == AtTerminal(w, s, SubgroupError(code));
      hide AtTerminal, Terminated;
      var _ := CallFromDelivery();
      NotifyParentFinished(s);
    }

    method EndSubgroupWith(s: nat, t: Terminal, callback: bool)
      requires s < |subs|
      modifies this
      ensures Model() == EndWith(old(Model()), s, t, callback)
      decreases |replies|, 4, 0
    {
      hide Callback, Notify;
      subs := subs[s := EndedBy(kind, subs[s], t)];
      if callback {
        var _ := CallApplication();
      }
      NotifyParentFinished(s);
    }

    method FinishAtEndOfStream(s: nat)
      requires s < |subs|
      modifies this
      ensures Model() == FinishAtEnd(old(Model()), s)
      decreases |replies|, 4, 1
    {
      hide EndWith;
      EndSubgroupWith(s, EndOfStream, kind.Subscribe?);
    }

    method PrepareForObject(s: nat, id: u64) returns (ok: bool)
      requires s < |subs|
      modifies this
      ensures (Model(), ok) == Prepare(old(Model()), s, id)
      decreases |replies|, 4, 1
    {
      hide Terminate;
      if subs[s].finished {
        return false;
      }
      if subs[s].current.Some? {
        TerminateWithError(s, MALFORMED_TRACK);
        return false;
      }
      if kind.Subscribe? && subs[s].last.Some? && id <= subs[s].last.value {
        TerminateWithError(s, MALFORMED_TRACK);
        return false;
      }
      subs := subs[s := subs[s].(last := Some(id))];
      return true;
    }

    method AdmitObject(s: nat, id: u64, length: nat) returns (ok: bool)
      requires s < |subs|
      modifies this
      ensures (Model(), ok) == Admit(old(Model()), s, id, length)
      decreases |replies|, 4, 2
    {
      hide Expose, Admitted, Announce;
      var k := |objects|;
      AnnounceObject(s, id, length);
      var answer := CallFromDelivery();
      ok := TakeConsumer(s, k, answer);
    }

    /** The first half of admitObject. */
    method AnnounceObject(s: nat, id: u64, length: nat)
      requires s < |subs|
      modifies this
      ensures Model() == Announce(old(Model()), s, id, length)
    {
      if kind.Fetch? {
        Delivering(Location(subs[s].group, id));
      }
      PutSubgroup(s, subs[s].(remaining := length));
      AddObject(Object(s, id, length, false, []));
    }

    /** The second half of admitObject. */
    method TakeConsumer(s: nat, k: nat, answer: Answer) returns (ok: bool)
      requires s < |subs| && k < |objects|
      modifies this
      ensures (Model(), ok) == Admitted(old(Model()), s, k, answer)
      decreases |replies|, 4, 1
    {
      hide Expose, Terminate, Displaces;
      if subs[s].finished {
        if answer.Accept? {
          var code := if subs[s].code.Some? then subs[s].code.value else MALFORMED_TRACK;
          StoreObject(k, objects[k].(admitted := true, log := [Failed(code)]));
          var _ := CallFromDelivery();
        }
        return false;
      }
      if !answer.Accept? {
        TerminateWithError(s, if answer.Refuse? then ResetErrorFor(answer.error) else MALFORMED_TRACK);
        return false;
      }
      Slip(slipped || Displaces(Model(), s));
      PutSubgroup(s, subs[s].(current := Some(k)));
      StoreObject(k, objects[k].(admitted := true));
      return true;
    }

    method DeliverPayload(s: nat, n: nat, fin: bool) returns (progress: Progress)
      requires s < |subs| && subs[s].current.Some? && subs[s].current.value < |objects|
      modifies this
      ensures (Model(), progress) == Deliver(old(Model()), s, n, fin)
      decreases |replies|, 4, 4
    {
      hide HandIn, Terminate;
      if n > subs[s].remaining {
        TerminateWithError(s, MALFORMED_TRACK);
        return Error;
      }
      if n == 0 && subs[s].remaining > 0 {
        if fin {
          TerminateWithError(s, MALFORMED_TRACK);
          return Error;
        }
        return InProgress;
      }
      progress := HandInBytes(s, n, fin);
    }

    method HandInBytes(s: nat, n: nat, fin: bool) returns (progress: Progress)
      requires s < |subs| && subs[s].current.Some? && subs[s].current.value < |objects| && n <= subs[s].remaining
      modifies this
      ensures (Model(), progress) == HandIn(old(Model()), s, n, fin)
      decreases |replies|, 4, 3
    {
      hide Expose, Paid, Pay;
      var complete := n == subs[s].remaining;
      HandOverBytes(s, n);
      var answer := CallFromDelivery();
      progress := AfterPayload(s, complete, fin, answer);
    }

    method HandOverBytes(s: nat, n: nat)
      requires s < |subs| && subs[s].current.Some? && subs[s].current.value < |objects| && n <= subs[s].remaining
      modifies this
      ensures Model() == Pay(old(Model()), s, n)
    {
      hide Repeats;
      var k, complete := subs[s].current.value, n == subs[s].remaining;
      ghost var repeats := slipped || Repeats(Model(), s, objects[k]);
      PutSubgroup(s, subs[s].(remaining := subs[s].remaining - n));
      StoreObject(k, objects[k].(log := objects[k].log + [Payload(n, complete)]));
      Slip(repeats);
    }

    /** The second half of deliverPayload. */
    method AfterPayload(s: nat, complete: bool, fin: bool, answer: Answer) returns (progress: Progress)
      requires s < |subs|
      modifies this
      ensures (Model(), progress) == Paid(old(Model()), s, complete, fin, answer)
      decreases |replies|, 4, 2
    {
      hide Terminate, FinishAtEnd;
      if subs[s].finished {
        return Error;
      }
      if answer.Refuse? {
        TerminateWithError(s, ResetErrorFor(answer.error));
        return Error;
      }
      if complete {
        subs := subs[s := subs[s].(current := None)];
        if fin {
          FinishAtEndOfStream(s);
        }
        return Done;
      }
      if fin {
        TerminateWithError(s, MALFORMED_TRACK);
        return Error;
      }
      return InProgress;
    }

    method SubgroupObject(s: nat, id: u64, n: nat, fin: bool) returns (progress: Progress)
      requires s < |subs|
      modifies this
      ensures (Model(), progress) == SubObject(old(Model()), s, id, n, fin)
      decreases |replies|, 4, 5
    {
      hide Prepare, Admit, Deliver;
      var ok := PrepareForObject(s, id);
      if !ok {
        return Error;
      }
      ok := AdmitObject(s, id, n);
      if !ok {
        return Error;
      }
      progress := DeliverPayload(s, n, fin);
    }

    method SubgroupBeginObject(s: nat, id: u64, length: nat, initial: nat) returns (progress: Progress)
      requires s < |subs|
      modifies this
      ensures (Model(), progress) == SubBegin(old(Model()), s, id, length, initial)
      decreases |replies|, 4, 5
    {
      hide Prepare, Admit, Deliver, Terminate;
      var ok := PrepareForObject(s, id);
      if !ok {
        return Error;
      }
      if initial > length {
        TerminateWithError(s, MALFORMED_TRACK);
        return Error;
      }
      ok := AdmitObject(s, id, length);
      if !ok {
        return Error;
      }
      progress := DeliverPayload(s, initial, false);
    }

    method SubgroupPayload(s: nat, n: nat, fin: bool) returns (progress: Progress)
      requires s < |subs|
      modifies this
      ensures (Model(), progress) == SubPayload(old(Model()), s, n, fin)
      decreases |replies|, 4, 5
    {
      hide Deliver, Terminate;
      if subs[s].finished {
        return Error;
      }
      if subs[s].current.None? || subs[s].current.value >= |objects| {
        TerminateWithError(s, MALFORMED_TRACK);
        return Error;
      }
      progress := DeliverPayload(s, n, fin);
    }

    method DeliverStatus(s: nat, id: u64, endOfTrack: bool, finish: bool) returns (progress: Progress)
      requires s < |subs|
      modifies this
      ensures (Model(), progress) == SubStatus(old(Model()), s, id, endOfTrack, finish)
      decreases |replies|, 4, 4
    {
      hide Prepare, EndWith, Callback;
      var ok := PrepareForObject(s, id);
      if !ok {
        return Error;
      }
      if kind.Fetch? {
        Delivering(Location(subs[s].group, id));
      }
      if finish {
        EndSubgroupWith(s, EndStatus(id, endOfTrack), true);
      } else {
        var _ := CallApplication();
      }
      return Done;
    }

    method EndOfSubgroup(s: nat) returns (progress: Progress)
      requires s < |subs|
      modifies this
      ensures (Model(), progress) == SubEnd(old(Model()), s)
      decreases |replies|, 4, 4
    {
      hide Terminate, FinishAtEnd;
      if subs[s].finished {
        return Done;
      }
      if subs[s].current.Some? {
        TerminateWithError(s, MALFORMED_TRACK);
        return Error;
      }
      FinishAtEndOfStream(s);
      return Done;
    }

    /** The subgroup receiver's destructor. */
    method DropSubgroup(s: nat)
      requires s < |subs|
      modifies this
      ensures Model() == SubDrop(old(Model()), s)
      decreases |replies|, 4, 4
    {
      hide Terminate, FailCurrent;
      if subs[s].attached {
        TerminateWithError(s, CANCELLED);
      } else if subs[s].current.Some? {
        FailCurrentObject(s, subs[s].(current := None, remaining := 0), CANCELLED);
      }
    }

    // ---------------------------------------------------------------- subscription

    method TellPublishDone()
      modifies this
      ensures Model() == TellDone(old(Model()))
      decreases |replies|, 4, 3
    {
      hide Callback;
      publishDoneDelivered, closing := true, true;
      var _ := CallApplication();
      closing := false;
    }

    method PublishDoneArrives()
      modifies this
      ensures Model() == FinishSubscription(old(Model()))
      decreases |replies|, 4, 4
    {
      hide TellDone, Fire;
      if publishDoneDelivered {
        return;
      }
      TellPublishDone();
      if openSubgroups == 0 {
        FireAllDataReceived();
      }
    }

    // ---------------------------------------------------------------- fetch

    method Fail()
      requires |subs| > 0
      modifies this
      ensures Model() == FailFetch(old(Model()))
      decreases |replies|, 4, 5
    {
      hide Terminate;
      if !fetchTerminal {
        SetFetch(true, true);
        TerminateWithError(0, MALFORMED_TRACK);
      }
    }

    method PrepareFetchLocation(at: Location) returns (ok: bool)
      requires |subs| > 0
      modifies this
      ensures (Model(), ok) == PrepareFetch(old(Model()), at)
      decreases |replies|, 4, 6
    {
      hide FailFetch;
      if fetchTerminal {
        return false;
      }
      subs := subs[0 := subs[0].(group := at.group)];
      if kind.Fetch? && lastFetch.Some? && !Advances(kind.order, lastFetch.value, at) {
        Fail();
        return false;
      }
      lastFetch := Some(at);
      return true;
    }

    method Finish()
      requires |subs| > 0
      modifies this
      ensures Model() == FinishFetch(old(Model()))
      decreases |replies|, 4, 5
    {
      hide Fire;
      if fetchTerminal {
        return;
      }
      fetchTerminal := true;
      subs := subs[0 := subs[0].(finished := true)];
      FireAllDataReceived();
    }

    method SettleFetch(progress: Progress, fin: bool)
      requires |subs| > 0
      modifies this
      ensures Model() == Settle((old(Model()), progress), fin)
      decreases |replies|, 4, 6
    {
      hide FinishFetch;
      if progress.Error? {
        SetFetch(true, true);
      } else if fin {
        Finish();
      }
    }

    method ObjectOfFetch(at: Location, n: nat, fin: bool)
      requires |subs| > 0
      modifies this
      ensures Model() == PutFetchObject(old(Model()), at, n, fin)
      decreases |replies|, 4, 7
    {
      hide PrepareFetch, SubObject, Settle;
      var ok := PrepareFetchLocation(at);
      if ok {
        var progress := SubgroupObject(0, at.objectId, n, fin);
        SettleFetch(progress, fin);
      }
    }

    method BeginObjectOfFetch(at: Location, length: nat, initial: nat)
      requires |subs| > 0
      modifies this
      ensures Model() == BeginFetchObject(old(Model()), at, length, initial)
      decreases |replies|, 4, 7
    {
      hide PrepareFetch, SubBegin, Settle;
      var ok := PrepareFetchLocation(at);
      if ok {
        var progress := SubgroupBeginObject(0, at.objectId, length, initial);
        SettleFetch(progress, false);
      }
    }

    method PayloadOfFetch(n: nat, fin: bool)
      requires |subs| > 0
      modifies this
      ensures Model() == PutFetchPayload(old(Model()), n, fin)
      decreases |replies|, 4, 7
    {
      hide SubPayload, Settle;
      if !fetchTerminal {
        var progress := SubgroupPayload(0, n, fin);
        SettleFetch(progress, fin && progress.Done?);
      }
    }

    method SettleFetchStatus(progress: Progress, fin: bool)
      modifies this
      ensures Model() == SettleStatus((old(Model()), progress), fin)
      decreases |replies|, 4, 6
    {
      hide Fire;
      if progress.Error? {
        SetFetch(true, true);
      } else if fin {
        FireAllDataReceived();
      }
    }

    method StatusOfFetch(at: Location, endOfTrack: bool, fin: bool)
      requires |subs| > 0
      modifies this
      ensures Model() == PutFetchStatus(old(Model()), at, endOfTrack, fin)
      decreases |replies|, 4, 7
    {
      hide PrepareFetch, SubStatus, SettleStatus;
      var ok := PrepareFetchLocation(at);
      if ok {
        SetFetch(fin, fetchFailed);
        var progress := DeliverStatus(0, at.objectId, endOfTrack, fin);
        SettleFetchStatus(progress, fin);
      }
    }

    method UnknownRangeOfFetch(at: Location, fin: bool)
      requires |subs| > 0
      modifies this
      ensures Model() == PutFetchUnknown(old(Model()), at, fin)
      decreases |replies|, 4, 7
    {
      hide PrepareFetch, FailFetch, FinishFetch, Callback;
      var ok := PrepareFetchLocation(at);
      if ok {
        if subs[0].current.Some? {
          Fail();
        } else {
          Delivering(at);
          var _ := CallApplication();
          if fin {
            Finish();
          }
        }
      }
    }

    method EndOfFetch()
      requires |subs| > 0
      modifies this
      ensures Model() == EndTheFetch(old(Model()))
      decreases |replies|, 4, 7
    {
      hide SubEnd, Fire;
      if !fetchTerminal {
        SetFetch(true, fetchFailed);
        var progress := EndOfSubgroup(0);
        if progress.Error? {
          SetFetch(fetchTerminal, true);
        } else {
          FireAllDataReceived();
        }
      }
    }

    method ResetOfFetch(code: ResetCode)
      requires |subs| > 0
      modifies this
      ensures Model() == ResetTheFetch(old(Model()), code)
      decreases |replies|, 4, 7
    {
      hide Terminate;
      if !fetchTerminal {
        SetFetch(true, true);
        TerminateWithError(0, code);
      }
    }

    method DispatchFetch(c: Call)
      requires |subs| > 0
      modifies this
      ensures Model() == ApplyFetch(old(Model()), c)
      decreases |replies|, 4, 8
    {
      hide PutFetchObject, BeginFetchObject, PutFetchPayload, PutFetchStatus, PutFetchUnknown, EndTheFetch, ResetTheFetch;
      match c
      case FetchObject(at, n, fin) => ObjectOfFetch(at, n, fin);
      case FetchBegin(at, length, initial) => BeginObjectOfFetch(at, length, initial);
      case FetchPayload(n, fin) => PayloadOfFetch(n, fin);
      case FetchStatus(at, endOfTrack, fin) => StatusOfFetch(at, endOfTrack, fin);
      case FetchUnknown(at, fin) => UnknownRangeOfFetch(at, fin);
      case EndFetch => EndOfFetch();
      case ResetFetch(code) => ResetOfFetch(code);
      case _ =>
    }

    method OpenSubgroup(group: u64)
      requires kind.Subscribe?
      modifies this
      ensures Model() == Apply(old(Model()), BeginSubgroup(group))
    {
      if !publishDoneDelivered {
        subs := subs + [NewSubgroup(group, true)];
        openSubgroups := openSubgroups + 1;
      }
    }

    /** One call on a subgroup of a subscription. */
    method DispatchSubgroup(c: Call, s: nat)
      requires kind.Subscribe? && OnSubgroup(c) == Some(s) && s < |subs|
      modifies this
      ensures Model() == Apply(old(Model()), c)
      decreases |replies|, 4, 6
    {
      hide ApplyFetch, SubObject, SubBegin, SubPayload, SubStatus, SubEnd, SubDrop, Terminate, FinishSubscription;
      match c {
        case PutObject(_, id, n, fin) => var _ := SubgroupObject(s, id, n, fin);
        case BeginObject(_, id, length, initial) => var _ := SubgroupBeginObject(s, id, length, initial);
        case ObjectPayload(_, n, fin) => var _ := SubgroupPayload(s, n, fin);
        case PutStatus(_, id, endOfTrack) => var _ := DeliverStatus(s, id, endOfTrack, true);
        case EndSubgroup(_) => var _ := EndOfSubgroup(s);
        case Reset(_, code) => TerminateWithError(s, code);
        case Drop(_) => DropSubgroup(s);
      }
    }

    /** One call, from anywhere. */
    method Dispatch(c: Call)
      modifies this
      ensures Model() == Apply(old(Model()), c)
      decreases |replies|, 5, 0
    {
      hide ApplyFetch, SubObject, SubBegin, SubPayload, SubStatus, SubEnd, SubDrop, Terminate, FinishSubscription;
      if kind.Fetch? {
        if |subs| > 0 {
          DispatchFetch(c);
        }
      } else if c.BeginSubgroup? {
        OpenSubgroup(c.group);
      } else if c.PublishDone? {
        PublishDoneArrives();
      } else if OnSubgroup(c).Some? && OnSubgroup(c).value < |subs| {
        DispatchSubgroup(c, OnSubgroup(c).value);
      }
    }
  }

  /** The subgroup a call is made on. */
  function OnSubgroup(c: Call): Option<nat> {
    match c
    case PutObject(s, _, _, _) => Some(s)
    case BeginObject(s, _, _, _) => Some(s)
    case ObjectPayload(s, _, _) => Some(s)
    case PutStatus(s, _, _) => Some(s)
    case EndSubgroup(s) => Some(s)
    case Reset(s, _) => Some(s)
    case Drop(s) => Some(s)
    case _ => None
  }
}
