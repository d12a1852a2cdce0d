/** The uni stream queue as an object: its methods change the fields in place and follow UniStreams step for step. */
module UniStreamsClass {
  import opened Bytes
  import opened UniStreams

  class UniStreamQueue {
    var wt: bool  // the transport, until closed
    var requests: map<nat, Script>
    var order: seq<Entry>
    var nextId: nat
    var waiting: bool
    var token: bool  // cancellation requested
    ghost var asked: seq<nat>
    ghost var answers: seq<Answer>
    ghost var dropped: set<nat>
    ghost var waits: nat
    ghost var streams: nat
    ghost var passing: bool

    ghost function Model(): Queue
      reads this
    {
      Queue(wt, requests, order, nextId, waiting, token, asked, answers, dropped, waits, streams, passing)
    }

    constructor ()
      ensures Model() == Fresh() && Inv(Model()) && Served(Model())
    {
      wt, requests, order, nextId, waiting, token := true, map[], [], 0, false, false;
      asked, answers, dropped, waits, streams, passing := [], [], {}, 0, 0, false;
    }

    method AwaitCredit()
      modifies this
      ensures Model() == WaitForCredit(old(Model()))
    {
      if waiting || requests == map[] || !wt {
        return;
      }
      waiting := true;
      waits := waits + 1;
    }

    method AddRequest(priority: nat, grant: Script)
      modifies this`requests, this`order, this`nextId, this`asked
      ensures var q := old(Model());
        Model() == q.(requests := q.requests[q.nextId := grant], order := Insert(q.order, Entry(priority, q.nextId)),
                      nextId := q.nextId + 1, asked := q.asked + [priority])
    {
      hide Insert;
      requests := requests[nextId := grant];
      order := Insert(order, Entry(priority, nextId));
      nextId := nextId + 1;
      asked := asked + [priority];
    }

    method RequestStream(priority: nat, grant: Script) returns (id: Option<nat>)
      requires Inv(Model())
      modifies this
      ensures Inv(Model())
      ensures id == if old(wt) then Some(old(nextId)) else None
      ensures Model() == if old(wt) then Enqueue(old(Model()), priority, grant) else old(Model())
    {
      if !wt {
        return None;
      }
      hide Inv, Insert, Work, Size, WaitForCredit, Later;
      EnqueueKeeps(Model(), priority, grant);
      id := Some(nextId);
      AddRequest(priority, grant);
      AwaitCredit();
    }

    method CancelRequest(id: nat)
      requires Inv(Model())
      modifies this
      ensures Inv(Model()) && Model() == Withdraw(old(Model()), id)
    {
      hide Inv, Erase;
      WithdrawKeeps(Model(), id);
      if id in requests {
        requests := requests - {id};
        order := Erase(order, id);
        dropped := dropped + {id};
      }
    }

    method CloseAll()
      requires Inv(Model())
      modifies this
      ensures Inv(Model()) && Model() == CloseQueue(old(Model()))
      decreases Work(Model()), 2
    {
      ShutKeeps(Model());
      wt := false;
      FailPending();
    }

    method FailPending()
      requires Inv(Model())
      modifies this
      ensures Inv(Model()) && Model() == FailAll(old(Model()))
      decreases Work(Model()), 1
    {
      hide Inv, GrantFirst, Work;
      ghost var goal := FailAll(Model());
      ghost var work := Work(Model());
      while !token && requests != map[]
        invariant Inv(Model()) && goal == FailAll(Model()) && Work(Model()) <= work
        decreases Work(Model())
      {
        PendingOf(Model());
        GrantNext(None);
      }
      FailStops(Model());
    }

    /** Takes the head of the order and calls its grant. */
    method GrantNext(ghost stream: Option<nat>)
      requires Inv(Model()) && order != [] && Offered(Model(), stream)
      modifies this
      ensures Inv(Model()) && Model() == GrantFirst(old(Model()), stream) && Work(Model()) < old(Work(Model()))
      decreases Work(Model()), 0
    {
      hide Inv, Run, Size;
      TakeKeeps(Model(), stream);
      HeadErased(order);
      var id := order[0].id;
      answers := answers + [Answer(order[0], stream, nextId)];
      streams := streams + (if stream.Some? then 1 else 0);
      order := Erase(order, id);
      var grant := requests[id];
      requests := requests - {id};
      Call(grant);
    }

    /** The body of a grant. */
    method Call(script: Script)
      requires Inv(Model())
      modifies this
      ensures Inv(Model()) && Model() == Run(old(Model()), script)
      decreases Work(Model()) + Size(script), 0
    {
      hide Inv, Work, CloseQueue, Withdraw, Enqueue;
      if token {
        return;
      }
      ghost var q := Model();
      match script
      case Return =>
      case Destroy =>
        DestroyKeeps(q);
        token := true;
      case Cancel(id, next) =>
        WithdrawKeeps(q, id);
        CancelRequest(id);
        Call(next);
      case Close(next) =>
        CloseAll();
        Call(next);
      case Request(priority, grant, next) =>
        if wt {
          EnqueueKeeps(q, priority, grant);
        }
        var _ := RequestStream(priority, grant);
        Call(next);
    }

    /** onCredit. The transport creates `credit.streams` streams in this pass before it refuses. */
    method OnCreditReady(credit: Credit, creditWasReady: bool)
      requires Inv(Model()) && Served(Model()) && !token && waits == 1
      modifies this
      ensures Inv(Model()) && Served(Model()) && Model() == OnCredit(old(Model()), credit, creditWasReady)
    {
      hide Inv, FailAll, Pass, GrantFirst;
      Delivered(Model());
      ghost var goal := OnCredit(Model(), credit, creditWasReady);
      waits := 0;
      if !wt {
        waiting := false;
        return;
      }
      if credit.Failed? {
        waiting := false;
        FailPending();
        return;
      }
      passing := true;
      GrantWhileCredit(credit.streams, creditWasReady);
      if !token {
        waiting := false;
        passing := false;
        AwaitCredit();
      }
      assert Model() == goal;
    }

    method GrantWhileCredit(credit: nat, creditWasReady: bool)
      requires Inv(Model())
      modifies this
      ensures Inv(Model()) && Model() == Pass(old(Model()), credit, creditWasReady)
    {
      hide Inv, GrantFirst, Work;
      ghost var goal := Pass(Model(), credit, creditWasReady);
      var left := credit;
      while !token && requests != map[] && wt
        invariant Inv(Model()) && left >= 0 && goal == Pass(Model(), left, creditWasReady)
        decreases left
      {
        PendingOf(Model());
        if left == 0 {
          if creditWasReady {
            GrantNext(None);
          }
          break;
        }
        left := left - 1;
        GrantNext(Some(streams));
      }
    }
  }

  lemma {:induction false} HeadErased(order: seq<Entry>)
    requires order != []
    ensures Erase(order, order[0].id) == order[1..]
  {
  }

  lemma {:induction false} FailStops(q: Queue)
    requires Inv(q) && (q.cancelled || q.requests == map[])
    ensures FailAll(q) == q
  {
  }

  lemma DestroyKeeps(q: Queue)
    requires Inv(q)
    ensures Inv(q.(cancelled := true))
  {
  }
}
