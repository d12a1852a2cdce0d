/**
  UniStreamQueue: scarce stream credit handed to waiting requests, highest priority first. A grant is a callback
  that may call back into the queue; it is modelled by the finite script of calls it makes.
 */
module UniStreams {
  import opened Bytes

  /** What one invocation of a grant does to the queue before it returns. */
  datatype Script =
    | Return
    | Request(priority: nat, grant: Script, next: Script)
    | Cancel(id: nat, next: Script)
    | Close(next: Script)
    | Destroy  // the owner cancels the token and drops the queue

  datatype Entry = Entry(priority: nat, id: nat)

  predicate Before(a: Entry, b: Entry) { a.priority < b.priority || (a.priority == b.priority && a.id < b.id) }

  /** A grant that was called: for whom, with which stream, and how many requests had been made by then. */
  datatype Answer = Answer(entry: Entry, stream: Option<nat>, issued: nat)

  /**
    The fields of the queue, then the history the claims are about: the priority asked for by each id, the answers
    in order, the cancelled ids, the credit waits not yet delivered, the streams created, and whether onCredit is
    in its grant loop.
   */
  datatype Queue = Queue(
    open: bool, requests: map<nat, Script>, order: seq<Entry>, nextId: nat, waiting: bool, cancelled: bool,
    asked: seq<nat>, answers: seq<Answer>, dropped: set<nat>, waits: nat, streams: nat, passing: bool)

  function Fresh(): Queue { Queue(true, map[], [], 0, false, false, [], [], {}, 0, 0, false) }

  // ---------------------------------------------------------------- the priority order

  predicate Sorted(order: seq<Entry>) {
    order == [] || (Sorted(order[1..]) && forall x :: x in order[1..] ==> Before(order[0], x) && x.id != order[0].id)
  }

  function Ids(order: seq<Entry>): (ids: set<nat>)
    ensures forall x :: x in order ==> x.id in ids
  {
    if order == [] then {} else {order[0].id} + Ids(order[1..])
  }

  function Insert(order: seq<Entry>, e: Entry): (r: seq<Entry>)
    ensures forall x :: x in r <==> x in order || x == e
  {
    if order == [] then [e]
    else if Before(e, order[0]) then [e] + order
    else [order[0]] + Insert(order[1..], e)
  }

  function Erase(order: seq<Entry>, id: nat): (r: seq<Entry>)
    ensures forall x :: x in r ==> x in order
  {
    if order == [] then [] else if order[0].id == id then order[1..] else [order[0]] + Erase(order[1..], id)
  }

  lemma {:induction false} InsertSorted(order: seq<Entry>, e: Entry)
    requires Sorted(order) && e.id !in Ids(order)
    ensures Sorted(Insert(order, e)) && Ids(Insert(order, e)) == Ids(order) + {e.id}
  {
    if order == [] {
      assert [e][1..] == [];
    } else if Before(e, order[0]) {
      InsertFirst(order, e);
    } else {
      InsertSorted(order[1..], e);
      InsertBehind(order, e);
    }
  }

  lemma {:induction false} InsertFirst(order: seq<Entry>, e: Entry)
    requires order != [] && Sorted(order) && e.id !in Ids(order) && Before(e, order[0])
    ensures Sorted([e] + order) && Ids([e] + order) == Ids(order) + {e.id}
  {
    hide Ids;
    assert ([e] + order)[1..] == order;
    forall x | x in order ensures Before(e, x) && x.id != e.id {
      assert x == order[0] || x in order[1..];
    }
    FirstId([e] + order);
  }

  lemma {:induction false} InsertBehind(order: seq<Entry>, e: Entry)
    requires order != [] && Sorted(order) && e.id !in Ids(order) && !Before(e, order[0])
    requires Sorted(Insert(order[1..], e)) && Ids(Insert(order[1..], e)) == Ids(order[1..]) + {e.id}
    ensures Sorted(Insert(order, e)) && Ids(Insert(order, e)) == Ids(order) + {e.id}
  {
    hide Ids;
    var r := Insert(order[1..], e);
    var all := [order[0]] + r;
    assert Insert(order, e) == all && all[1..] == r;
    FirstId(all);
    FirstId(order);
    assert order[0].id != e.id;
    hide Insert;
  }

  lemma {:induction false} FirstId(order: seq<Entry>)
    requires order != []
    ensures Ids(order) == {order[0].id} + Ids(order[1..])
  {
  }

  lemma {:induction false} EraseSorted(order: seq<Entry>, id: nat)
    requires Sorted(order)
    ensures Sorted(Erase(order, id)) && Ids(Erase(order, id)) == Ids(order) - {id}
  {
    if order != [] {
      var rest := order[1..];
      EraseSorted(rest, id);
      IdsDistinct(order);
      var r := Erase(rest, id);
      assert ([order[0]] + r)[1..] == r;
    }
  }

  lemma {:induction false} IdsFrom(order: seq<Entry>, id: nat)
    requires forall x :: x in order ==> x.id != id
    ensures id !in Ids(order)
  {
    if order != [] {
      IdsFrom(order[1..], id);
    }
  }

  lemma {:induction false} IdsDistinct(order: seq<Entry>)
    requires order != [] && Sorted(order)
    ensures order[0].id !in Ids(order[1..])
  {
    IdsFrom(order[1..], order[0].id);
  }

  // ---------------------------------------------------------------- work left, for termination

  function Size(s: Script): nat {
    match s
    case Return => 1
    case Request(_, g, next) => 2 + Size(g) + Size(next)
    case Cancel(_, next) => 1 + Size(next)
    case Close(next) => 1 + Size(next)
    case Destroy => 1
  }

  function Load(order: seq<Entry>, requests: map<nat, Script>): nat {
    if order == [] then 0
    else (if order[0].id in requests then 1 + Size(requests[order[0].id]) else 0) + Load(order[1..], requests)
  }

  lemma {:induction false} LoadInsert(order: seq<Entry>, e: Entry, requests: map<nat, Script>, g: Script)
    requires e.id !in Ids(order)
    ensures Load(Insert(order, e), requests[e.id := g]) == Load(order, requests) + 1 + Size(g)
  {
    if order == [] {
      assert [e][1..] == [];
    } else {
      assert order[0] in order;
      assert forall x :: x in order[1..] ==> x in order;
      if Before(e, order[0]) {
        assert ([e] + order)[1..] == order;
        LoadSame(order, requests, requests[e.id := g]);
      } else {
        LoadInsert(order[1..], e, requests, g);
        var r := Insert(order[1..], e);
        assert ([order[0]] + r)[1..] == r;
      }
    }
  }

  lemma {:induction false} LoadSame(order: seq<Entry>, a: map<nat, Script>, b: map<nat, Script>)
    requires forall e :: e in order ==> (e.id in a <==> e.id in b) && (e.id in a ==> a[e.id] == b[e.id])
    ensures Load(order, a) == Load(order, b)
  {
    if order != [] {
      LoadSame(order[1..], a, b);
    }
  }

  lemma {:induction false} LoadErase(order: seq<Entry>, id: nat, requests: map<nat, Script>)
    requires Sorted(order) && id in Ids(order) && id in requests
    ensures Load(Erase(order, id), requests - {id}) + 1 + Size(requests[id]) == Load(order, requests)
  {
    var rest := order[1..];
    IdsDistinct(order);
    if order[0].id == id {
      LoadSame(rest, requests, requests - {id});
    } else {
      LoadErase(rest, id, requests);
      var r := Erase(rest, id);
      assert ([order[0]] + r)[1..] == r;
    }
  }

  // ---------------------------------------------------------------- invariant

  function AnsweredIds(answers: seq<Answer>): set<nat> {
    if answers == [] then {} else AnsweredIds(answers[..|answers| - 1]) + {answers[|answers| - 1].entry.id}
  }

  function StreamsGiven(answers: seq<Answer>): nat {
    if answers == [] then 0
    else StreamsGiven(answers[..|answers| - 1]) + (if answers[|answers| - 1].stream.Some? then 1 else 0)
  }

  /** The entry carries the priority its request asked for. */
  predicate Genuine(e: Entry, asked: seq<nat>) { e.id < |asked| && e.priority == asked[e.id] }

  /** Everyone who had asked by then and comes before the entry had been answered or cancelled. */
  predicate NoneBefore(a: Answer, earlier: set<nat>, asked: seq<nat>, dropped: set<nat>) {
    && a.entry.id < a.issued <= |asked|
    && forall id :: 0 <= id < a.issued && Before(Entry(asked[id], id), a.entry) ==> id in earlier || id in dropped
  }

  /** Nobody is answered twice, nobody is overtaken, and streams are handed out in creation order. */
  predicate LogOk(answers: seq<Answer>, asked: seq<nat>, dropped: set<nat>) {
    answers == [] ||
    (var init, last := answers[..|answers| - 1], answers[|answers| - 1];
     && LogOk(init, asked, dropped)
     && last.entry.id !in AnsweredIds(init)
     && Genuine(last.entry, asked)
     && NoneBefore(last, AnsweredIds(init), asked, dropped)
     && (last.stream.Some? ==> last.stream.value == StreamsGiven(init)))
  }

  lemma {:induction false} LogGrows(answers: seq<Answer>, asked: seq<nat>, dropped: set<nat>, more: seq<nat>, also: set<nat>)
    requires LogOk(answers, asked, dropped)
    ensures LogOk(answers, asked + more, dropped + also)
  {
    if answers != [] {
      LogGrows(answers[..|answers| - 1], asked, dropped, more, also);
    }
  }

  function Below(n: nat): (s: set<nat>)
    ensures forall i :: i in s <==> 0 <= i < n
  {
    if n == 0 then {} else Below(n - 1) + {n - 1}
  }

  /** Every id handed out is in exactly one of pending, answered and cancelled. */
  predicate Partitioned(q: Queue) {
    && q.requests.Keys !! AnsweredIds(q.answers)
    && q.requests.Keys !! q.dropped
    && AnsweredIds(q.answers) !! q.dropped
    && q.requests.Keys + AnsweredIds(q.answers) + q.dropped == Below(q.nextId)
  }

  /** The map and the order hold the same ids. */
  predicate Pending(q: Queue) {
    && Sorted(q.order)
    && q.requests.Keys == Ids(q.order)
    && |q.asked| == q.nextId
    && forall e :: e in q.order ==> Genuine(e, q.asked)
  }

  /** At most one credit wait is outstanding: one exactly while waiting, and none during the pass it started. */
  predicate OneWait(q: Queue) {
    (q.passing ==> q.waiting) && q.waits == (if q.waiting && !q.passing then 1 else 0)
  }

  predicate Inv(q: Queue) {
    Pending(q) && Partitioned(q) && OneWait(q) && LogOk(q.answers, q.asked, q.dropped) && q.streams == StreamsGiven(q.answers)
  }

  function Work(q: Queue): nat { Load(q.order, q.requests) }

  /** What a call leaves alone, whatever the grants it runs do. */
  predicate Later(p: Queue, q: Queue) {
    && (q.open ==> p.open)
    && (!p.open ==> q.nextId == p.nextId)
    && (p.cancelled ==> q.cancelled)
    && (p.waiting ==> q.waiting)
    && p.passing == q.passing
  }

  /** What a call only adds to. */
  predicate Extends(p: Queue, q: Queue) {
    p.answers <= q.answers && p.asked <= q.asked && p.dropped <= q.dropped
  }

  // ---------------------------------------------------------------- operations

  function WaitForCredit(q: Queue): Queue {
    if q.waiting || q.requests == map[] || !q.open then q else q.(waiting := true, waits := q.waits + 1)
  }

  function Enqueue(q: Queue, priority: nat, grant: Script): Queue {
    WaitForCredit(q.(
      requests := q.requests[q.nextId := grant],
      order := Insert(q.order, Entry(priority, q.nextId)),
      nextId := q.nextId + 1,
      asked := q.asked + [priority]))
  }

  function Withdraw(q: Queue, id: nat): Queue {
    if id !in q.requests then q
    else q.(requests := q.requests - {id}, order := Erase(q.order, id), dropped := q.dropped + {id})
  }

  lemma {:induction false} EnqueuePending(q: Queue, priority: nat, grant: Script)
    requires Pending(q) && Partitioned(q)
    ensures Pending(Enqueue(q, priority, grant)) && Work(Enqueue(q, priority, grant)) == Work(q) + 1 + Size(grant)
  {
    hide AnsweredIds, Load, Sorted, Insert, Ids;
    var e := Entry(priority, q.nextId);
    assert q.nextId !in Below(q.nextId);
    InsertSorted(q.order, e);
    LoadInsert(q.order, e, q.requests, grant);
  }

  lemma EnqueuePartitioned(q: Queue, priority: nat, grant: Script)
    requires Partitioned(q)
    ensures Partitioned(Enqueue(q, priority, grant))
  {
    hide AnsweredIds, Insert;
    assert q.nextId !in Below(q.nextId);
    assert q.requests[q.nextId := grant].Keys == q.requests.Keys + {q.nextId};
  }

  lemma {:induction false} EnqueueKeeps(q: Queue, priority: nat, grant: Script)
    requires Inv(q) && q.open
    ensures var r := Enqueue(q, priority, grant);
      Inv(r) && Later(q, r) && r.waiting && Work(r) == Work(q) + 1 + Size(grant)
  {
    hide AnsweredIds, LogOk, StreamsGiven, Load, Insert, Pending, Partitioned;
    EnqueuePending(q, priority, grant);
    EnqueuePartitioned(q, priority, grant);
    LogGrows(q.answers, q.asked, q.dropped, [priority], {});
    assert q.dropped + {} == q.dropped;
    assert q.nextId in q.requests[q.nextId := grant];
  }

  lemma WithdrawKeeps(q: Queue, id: nat)
    requires Inv(q)
    ensures var r := Withdraw(q, id);
      Inv(r) && Later(q, r) && Work(r) <= Work(q) && r.requests == q.requests - {id}
  {
    hide AnsweredIds, LogOk, StreamsGiven, Load, Sorted, Ids, Erase;
    if id in q.requests {
      EraseSorted(q.order, id);
      LoadErase(q.order, id, q.requests);
      LogGrows(q.answers, q.asked, q.dropped, [], {id});
      assert q.asked + [] == q.asked;
    } else {
      assert q.requests - {id} == q.requests;
    }
  }

  /** The first half of grantFirst: the head of the order leaves the queue and its answer is recorded. */
  function Take(q: Queue, stream: Option<nat>): Queue
    requires q.order != []
  {
    var e := q.order[0];
    q.(requests := q.requests - {e.id},
       order := q.order[1..],
       answers := q.answers + [Answer(e, stream, q.nextId)],
       streams := q.streams + (if stream.Some? then 1 else 0))
  }

  /** A stream handed out is the one created last. */
  predicate Offered(q: Queue, stream: Option<nat>) { stream.Some? ==> stream.value == q.streams }

  lemma {:induction false} TakeLog(answers: seq<Answer>, a: Answer, asked: seq<nat>, dropped: set<nat>)
    ensures AnsweredIds(answers + [a]) == AnsweredIds(answers) + {a.entry.id}
    ensures StreamsGiven(answers + [a]) == StreamsGiven(answers) + (if a.stream.Some? then 1 else 0)
    ensures LogOk(answers + [a], asked, dropped) <==>
      && LogOk(answers, asked, dropped)
      && a.entry.id !in AnsweredIds(answers)
      && Genuine(a.entry, asked)
      && NoneBefore(a, AnsweredIds(answers), asked, dropped)
      && (a.stream.Some? ==> a.stream.value == StreamsGiven(answers))
  {
    assert (answers + [a])[..|answers + [a]| - 1] == answers;
  }

  lemma {:induction false} HasEntry(order: seq<Entry>, id: nat)
    requires id in Ids(order)
    ensures exists e :: e in order && e.id == id
  {
    if order[0].id == id {
      assert order[0] in order;
    } else {
      HasEntry(order[1..], id);
    }
  }

  /** The head of the order comes before everyone pending, so all who come before it are accounted for. */
  lemma HeadOvertakesNone(q: Queue, stream: Option<nat>)
    requires Pending(q) && Partitioned(q) && q.order != []
    ensures NoneBefore(Answer(q.order[0], stream, q.nextId), AnsweredIds(q.answers), q.asked, q.dropped)
  {
    hide AnsweredIds, Ids;
    var head := q.order[0];
    assert head in q.order;
    forall id: nat | id < q.nextId && Before(Entry(q.asked[id], id), head)
      ensures id in AnsweredIds(q.answers) || id in q.dropped
    {
      assert id in Below(q.nextId);
      PendingIsNotBefore(q, id);
    }
  }

  lemma PendingIsNotBefore(q: Queue, id: nat)
    requires Pending(q) && q.order != [] && id < q.nextId
    ensures id in q.requests ==> !Before(Entry(q.asked[id], id), q.order[0])
  {
    if id in q.requests {
      HasEntry(q.order, id);
      var e :| e in q.order && e.id == id;
      assert Genuine(e, q.asked);
      assert e == q.order[0] || e in q.order[1..];
    }
  }

  lemma TakeKeeps(q: Queue, stream: Option<nat>)
    requires Inv(q) && q.order != [] && Offered(q, stream)
    ensures q.order[0].id in q.requests
    ensures var r := Take(q, stream);
      Inv(r) && Later(q, r) && Work(r) + 1 + Size(q.requests[q.order[0].id]) == Work(q)
  {
    hide AnsweredIds, LogOk, StreamsGiven, NoneBefore;
    var e := q.order[0];
    IdsDistinct(q.order);
    HeadOvertakesNone(q, stream);
    TakeLog(q.answers, Answer(e, stream, q.nextId), q.asked, q.dropped);
    assert e.id in Ids(q.order);
    LoadErase(q.order, e.id, q.requests);
  }

  // ---------------------------------------------------------------- grants that call back

  function GrantFirst(q: Queue, stream: Option<nat>): (r: Queue)
    requires Inv(q) && q.order != [] && Offered(q, stream)
    ensures Inv(r) && Later(q, r) && Work(r) < Work(q) && r.streams == Take(q, stream).streams
    decreases Work(q), 0
  {
    hide Inv, Run;
    TakeKeeps(q, stream);
    Run(Take(q, stream), q.requests[q.order[0].id])
  }

  /** Runs a grant's calls. Nothing more happens once the queue is gone. */
  function Run(q: Queue, script: Script): (r: Queue)
    requires Inv(q)
    ensures Inv(r) && Later(q, r) && Work(r) <= Work(q) + Size(script) && r.streams == q.streams
    decreases Work(q) + Size(script), 0
  {
    hide CloseQueue, LogOk, Sorted, AnsweredIds;
    if q.cancelled then q
    else
      match script
      case Return => q
      case Destroy => q.(cancelled := true)
      case Cancel(id, next) =>
        WithdrawKeeps(q, id);
        Run(Withdraw(q, id), next)
      case Close(next) => Run(CloseQueue(q), next)
      case Request(priority, grant, next) =>
        if !q.open then Run(q, next)
        else
          EnqueueKeeps(q, priority, grant);
          Run(Enqueue(q, priority, grant), next)
  }

  lemma SomePending(q: Queue)
    requires Pending(q)
    ensures q.requests == map[] <==> q.order == []
  {
    hide Sorted;
    if q.order != [] {
      assert q.order[0].id in q.requests.Keys;
    }
  }

  function FailAll(q: Queue): (r: Queue)
    requires Inv(q)
    ensures Inv(r) && Later(q, r) && Work(r) <= Work(q) && r.streams == q.streams
    ensures r.cancelled || r.requests == map[]
    decreases Work(q), 1
  {
    SomePending(q);
    if q.cancelled || q.requests == map[] then q
    else FailAll(GrantFirst(q, None))
  }

  function CloseQueue(q: Queue): (r: Queue)
    requires Inv(q)
    ensures Inv(r) && Later(q, r) && Work(r) <= Work(q) && r.streams == q.streams
    ensures !r.open && r.nextId == q.nextId && (r.cancelled || r.requests == map[])
    decreases Work(q), 2
  {
    FailAll(q.(open := false))
  }

  lemma {:induction false} GrantExtends(q: Queue, stream: Option<nat>)
    requires Inv(q) && q.order != [] && Offered(q, stream)
    ensures Extends(q, GrantFirst(q, stream))
    decreases Work(q), 0
  {
    hide Inv, Work, Size;
    TakeKeeps(q, stream);
    RunExtends(Take(q, stream), q.requests[q.order[0].id]);
  }

  lemma {:induction false} RunExtends(q: Queue, script: Script)
    requires Inv(q)
    ensures Extends(q, Run(q, script))
    decreases Work(q) + Size(script), 0
  {
    hide Inv, Work, FailAll, GrantFirst;
    if !q.cancelled {
      match script
      case Return =>
      case Destroy =>
      case Cancel(id, next) =>
        WithdrawKeeps(q, id);
        RunExtends(Withdraw(q, id), next);
      case Close(next) =>
        ShutKeeps(q);
        FailExtends(q.(open := false));
        RunExtends(CloseQueue(q), next);
      case Request(priority, grant, next) =>
        if !q.open {
          RunExtends(q, next);
        } else {
          EnqueueKeeps(q, priority, grant);
          RunExtends(Enqueue(q, priority, grant), next);
        }
    }
  }

  lemma {:induction false} FailExtends(q: Queue)
    requires Inv(q)
    ensures Extends(q, FailAll(q))
    decreases Work(q), 1
  {
    hide Inv, Work;
    PendingOf(q);
    if !q.cancelled && q.requests != map[] {
      GrantExtends(q, None);
      FailExtends(GrantFirst(q, None));
    }
  }

  lemma ShutKeeps(q: Queue)
    requires Inv(q)
    ensures Inv(q.(open := false)) && Work(q.(open := false)) == Work(q)
  {
  }

  lemma PendingOf(q: Queue)
    requires Inv(q)
    ensures q.requests == map[] <==> q.order == []
  {
    SomePending(q);
  }

  // ---------------------------------------------------------------- credit

  /** The grant loop of onCredit: `credit` streams can be created before the transport refuses. */
  function Pass(q: Queue, credit: nat, creditWasReady: bool): (r: Queue)
    requires Inv(q)
    ensures Inv(r) && Later(q, r)
    decreases credit
  {
    SomePending(q);
    if q.cancelled || q.requests == map[] || !q.open then q
    else if credit > 0 then Pass(GrantFirst(q, Some(q.streams)), credit - 1, creditWasReady)
    else if creditWasReady then GrantFirst(q, None)
    else q
  }

  datatype Credit = Available(streams: nat) | Failed

  /** An open queue with pending requests has a credit wait outstanding. */
  predicate Served(q: Queue) {
    q.cancelled || (!q.passing && (q.open && q.requests != map[] ==> q.waits == 1))
  }

  /** The delivery of an outstanding credit wait. */
  function OnCredit(q: Queue, credit: Credit, creditWasReady: bool): (r: Queue)
    requires Inv(q) && Served(q) && !q.cancelled && q.waits == 1
    ensures Inv(r) && Served(r)
  {
    var idle := q.(waits := 0, waiting := false);
    if !q.open then idle
    else if credit.Failed? then FailAll(idle)
    else
      var p := Pass(q.(waits := 0, passing := true), credit.streams, creditWasReady);
      if p.cancelled then p else WaitForCredit(p.(waiting := false, passing := false))
  }

  // ---------------------------------------------------------------- runs

  datatype Call =
    | CallRequest(priority: nat, grant: Script)
    | CallCancel(id: nat)
    | CallClose
    | Deliver(credit: Credit, creditWasReady: bool)

  /** One call from outside; credit can be delivered only when a wait is outstanding. */
  function Step(q: Queue, call: Call): (r: Queue)
    requires Inv(q) && Served(q) && !q.cancelled
    ensures Inv(r) && Served(r)
  {
    match call
    case CallRequest(priority, grant) =>
      if !q.open then q
      else
        EnqueueKeeps(q, priority, grant);
        Enqueue(q, priority, grant)
    case CallCancel(id) =>
      WithdrawKeeps(q, id);
      Withdraw(q, id)
    case CallClose => CloseQueue(q)
    case Deliver(credit, ready) => if q.waits == 1 then OnCredit(q, credit, ready) else q
  }

  function RunAll(q: Queue, calls: seq<Call>): (r: Queue)
    requires Inv(q) && Served(q)
    ensures Inv(r) && Served(r)
    decreases |calls|
  {
    if calls == [] || q.cancelled then q else RunAll(Step(q, calls[0]), calls[1..])
  }

  // ---------------------------------------------------------------- what every run keeps

  ghost predicate Reachable(q: Queue) { exists calls :: q == RunAll(Fresh(), calls) }

  /** How often an id was answered. */
  function Count(answers: seq<Answer>, id: nat): nat {
    if answers == [] then 0
    else Count(answers[..|answers| - 1], id) + (if answers[|answers| - 1].entry.id == id then 1 else 0)
  }

  lemma {:induction false} CountIsOne(answers: seq<Answer>, asked: seq<nat>, dropped: set<nat>, id: nat)
    requires LogOk(answers, asked, dropped)
    ensures Count(answers, id) == if id in AnsweredIds(answers) then 1 else 0
  {
    if answers != [] {
      CountIsOne(answers[..|answers| - 1], asked, dropped, id);
    }
  }

  /** Every id that was handed out is pending, answered once, or cancelled, and only one of these. */
  lemma {:induction false} ExactlyOneFate(q: Queue, id: nat)
    requires Reachable(q)
    ensures Count(q.answers, id) + (if id in q.requests then 1 else 0) + (if id in q.dropped then 1 else 0)
         == if id < q.nextId then 1 else 0
    ensures id in q.requests <==> exists e :: e in q.order && e.id == id
    ensures q.waits <= 1
  {
    CountIsOne(q.answers, q.asked, q.dropped, id);
    assert id in Below(q.nextId) <==> id < q.nextId;
    if id in q.requests {
      HasEntry(q.order, id);
    }
  }

  /** Outside a grant pass, an open queue with pending requests always has exactly one credit wait outstanding. */
  lemma NeverStalls(q: Queue)
    requires Reachable(q) && q.open && !q.cancelled && q.order != []
    ensures q.waits == 1
  {
    SomePending(q);
  }

  lemma {:induction false} LogAt(answers: seq<Answer>, asked: seq<nat>, dropped: set<nat>, i: nat)
    requires LogOk(answers, asked, dropped) && i < |answers|
    ensures Genuine(answers[i].entry, asked) && NoneBefore(answers[i], AnsweredIds(answers[..i]), asked, dropped)
    ensures answers[i].entry.id !in AnsweredIds(answers[..i])
    ensures answers[i].stream.Some? ==> answers[i].stream.value == StreamsGiven(answers[..i])
    ensures AnsweredIds(answers[..i]) <= AnsweredIds(answers)
  {
    var n := |answers| - 1;
    if i < n {
      assert answers[..n][..i] == answers[..i];
      LogAt(answers[..n], asked, dropped, i);
    }
  }

  /**
    No request is overtaken: whoever is answered later although it had asked before the earlier answer was given
    comes after it by priority and, within a priority, by age.
   */
  lemma NoOvertaking(q: Queue, i: nat, j: nat)
    requires Reachable(q) && i < j < |q.answers|
    requires q.answers[j].entry.id < q.answers[i].issued
    ensures Before(q.answers[i].entry, q.answers[j].entry)
  {
    var a, b := q.answers[i], q.answers[j];
    LogAt(q.answers, q.asked, q.dropped, i);
    LogAt(q.answers, q.asked, q.dropped, j);
    assert q.answers[..j][..i] == q.answers[..i];
    AnsweredBefore(q.answers[..j], i);
    AnsweredBefore(q.answers, j);
    assert b.entry == Entry(q.asked[b.entry.id], b.entry.id);
  }

  lemma {:induction false} AnsweredBefore(answers: seq<Answer>, i: nat)
    requires i < |answers|
    ensures answers[i].entry.id in AnsweredIds(answers)
    ensures AnsweredIds(answers[..i]) <= AnsweredIds(answers)
    ensures StreamsGiven(answers[..i]) + (if answers[i].stream.Some? then 1 else 0) <= StreamsGiven(answers)
  {
    var n := |answers| - 1;
    if i < n {
      assert answers[..n][..i] == answers[..i];
      AnsweredBefore(answers[..n], i);
    }
  }

  /** No stream is handed out twice, and streams go out in the order they were created. */
  lemma StreamsAreNotShared(q: Queue, i: nat, j: nat)
    requires Reachable(q) && i < j < |q.answers| && q.answers[i].stream.Some? && q.answers[j].stream.Some?
    ensures q.answers[i].stream.value < q.answers[j].stream.value < q.streams
  {
    LogAt(q.answers, q.asked, q.dropped, i);
    LogAt(q.answers, q.asked, q.dropped, j);
    assert q.answers[..j][..i] == q.answers[..i];
    AnsweredBefore(q.answers[..j], i);
    AnsweredBefore(q.answers, j);
  }

  /**
    close() ends, and leaves nobody waiting: unless a grant destroys the queue, each pending request has been
    failed without a stream or cancelled, and no request is accepted on the way.
   */
  lemma {:induction false} CloseFailsEveryone(q: Queue, id: nat)
    requires Inv(q) && id in q.requests
    ensures var r := CloseQueue(q);
      && Extends(q, r)
      && r.nextId == q.nextId
      && r.streams == q.streams
      && (r.cancelled || (id in AnsweredIds(r.answers) && id !in AnsweredIds(q.answers)) || id in r.dropped)
  {
    hide LogOk, Sorted, AnsweredIds, GrantFirst;
    ShutKeeps(q);
    FailExtends(q.(open := false));
    assert id in Below(q.nextId);
  }

  lemma {:induction false} MoreAnswers(p: seq<Answer>, q: seq<Answer>)
    requires p <= q
    ensures StreamsGiven(p) <= StreamsGiven(q)
    ensures StreamsGiven(p) == StreamsGiven(q) ==> forall i :: |p| <= i < |q| ==> q[i].stream.None?
  {
    if |p| < |q| {
      var n := |q| - 1;
      MoreAnswers(p, q[..n]);
    } else {
      assert p == q;
    }
  }

  /** The failures given while closing carry no stream. */
  lemma {:induction false} CloseGivesNoStream(q: Queue, i: nat)
    requires Inv(q) && |q.answers| <= i < |CloseQueue(q).answers|
    ensures CloseQueue(q).answers[i].stream.None?
  {
    hide LogOk, Sorted, AnsweredIds, GrantFirst;
    ShutKeeps(q);
    FailExtends(q.(open := false));
    MoreAnswers(q.answers, CloseQueue(q).answers);
  }

  lemma {:induction false} OneAnswerEach(answers: seq<Answer>, asked: seq<nat>, dropped: set<nat>)
    requires LogOk(answers, asked, dropped)
    ensures |AnsweredIds(answers)| == |answers|
  {
    if answers != [] {
      OneAnswerEach(answers[..|answers| - 1], asked, dropped);
    }
  }

  lemma {:induction false} SubsetSize(a: set<nat>, b: set<nat>)
    requires a <= b
    ensures |a| <= |b|
  {
    if a != {} {
      var x :| x in a;
      SubsetSize(a - {x}, b - {x});
    }
  }

  /** close() calls at most as many grants as were pending, however long their scripts are. */
  lemma {:induction false} CloseCallsAtMostPending(q: Queue)
    requires Inv(q)
    ensures |CloseQueue(q).answers| <= |q.answers| + |q.requests|
  {
    hide LogOk, Sorted, AnsweredIds, GrantFirst, FailAll;
    var r := CloseQueue(q);
    ShutKeeps(q);
    FailExtends(q.(open := false));
    OneAnswerEach(q.answers, q.asked, q.dropped);
    OneAnswerEach(r.answers, r.asked, r.dropped);
    var bound := AnsweredIds(q.answers) + q.requests.Keys;
    forall id | id in AnsweredIds(r.answers) ensures id in bound {
      assert id in Below(r.nextId);
      assert id !in q.dropped;
    }
    SubsetSize(AnsweredIds(r.answers), bound);
  }

  /** A grant that asks again when it is called, n times over. */
  function Again(n: nat): Script { if n == 0 then Return else Request(0, Again(n - 1), Return) }

  /** Failing an open queue's one request answers every request its grants make in turn. */
  lemma {:induction false} FailAgain(q: Queue, n: nat)
    requires Inv(q) && q.open && !q.cancelled
    requires |q.order| == 1 && q.requests == map[q.order[0].id := Again(n)]
    ensures |FailAll(q).answers| == |q.answers| + n + 1
    decreases n
  {
    hide Inv, Work, Size, Insert;
    TakeKeeps(q, None);
    var t := Take(q, None);
    assert t.order == [] && t.requests == map[];
    assert GrantFirst(q, None) == Run(t, Again(n));
    FailUnfolds(q);
    if n == 0 {
      assert FailAll(t) == t;
    } else {
      EnqueueKeeps(t, 0, Again(n - 1));
      var next := Enqueue(t, 0, Again(n - 1));
      assert Run(t, Again(n)) == Run(next, Return) == next;
      InsertOnly(Entry(0, t.nextId));
      assert map[][t.nextId := Again(n - 1)] == map[t.nextId := Again(n - 1)];
      FailAgain(next, n - 1);
    }
  }

  lemma {:induction false} InsertOnly(e: Entry)
    ensures Insert([], e) == [e]
  {
  }

  /**
    A failed credit wait leaves the queue open while it fails the pending requests, so unlike close() it has no bound
    in them: for every n there is a single pending request after which n + 1 grants are called.
   */
  lemma {:induction false} FailedCreditHasNoBound(n: nat, ready: bool)
    ensures var q := RunAll(Fresh(), [CallRequest(0, Again(n))]);
      && |q.requests| == 1 && Inv(q) && Served(q) && !q.cancelled && q.waits == 1
      && |OnCredit(q, Failed, ready).answers| == |q.answers| + n + 1
  {
    hide FailAll, Insert;
    var f := Fresh();
    EnqueueKeeps(f, 0, Again(n));
    InsertOnly(Entry(0, 0));
    var q := Enqueue(f, 0, Again(n));
    assert map[][0 := Again(n)] == map[0 := Again(n)];
    assert q.requests == map[0 := Again(n)] && q.order == [Entry(0, 0)];
    assert 0 in q.requests;
    var call := CallRequest(0, Again(n));
    assert [call][1..] == [];
    assert RunAll(q, []) == q;
    assert RunAll(f, [call]) == q;
    Delivered(q);
    FailAgain(q.(waits := 0, waiting := false), n);
  }

  /** A wait that was ready at once always answers someone, so a transport that lies about credit cannot make it spin. */
  lemma ReadyCreditMakesProgress(q: Queue, credit: Credit)
    requires Inv(q) && Served(q) && !q.cancelled && q.waits == 1 && q.open && q.requests != map[]
    ensures |OnCredit(q, credit, true).answers| > |q.answers|
  {
    hide Inv, FailAll, GrantFirst, Work;
    PendingOf(q);
    Delivered(q);
    if credit.Failed? {
      var p := q.(waits := 0, waiting := false);
      GrantAnswers(p, None);
      FailExtends(GrantFirst(p, None));
      FailUnfolds(p);
    } else {
      var p := q.(waits := 0, passing := true);
      PassAnswers(p, credit.streams);
    }
  }

  lemma Delivered(q: Queue)
    requires Inv(q) && !q.passing && q.waits == 1
    ensures Inv(q.(waits := 0, waiting := false)) && Inv(q.(waits := 0, passing := true))
  {
  }

  lemma {:induction false} PassAnswers(q: Queue, credit: nat)
    requires Inv(q) && !q.cancelled && q.open && q.requests != map[]
    ensures |Pass(q, credit, true).answers| > |q.answers|
  {
    hide Inv, GrantFirst, Work;
    PendingOf(q);
    if credit > 0 {
      GrantAnswers(q, Some(q.streams));
      PassExtends(GrantFirst(q, Some(q.streams)), credit - 1, true);
    } else {
      GrantAnswers(q, None);
    }
  }

  lemma {:induction false} FailUnfolds(q: Queue)
    requires Inv(q) && !q.cancelled && q.requests != map[]
    ensures q.order != [] && FailAll(q) == FailAll(GrantFirst(q, None))
  {
    SomePending(q);
  }

  lemma {:induction false} GrantAnswers(q: Queue, stream: Option<nat>)
    requires Inv(q) && q.order != [] && Offered(q, stream)
    ensures |GrantFirst(q, stream).answers| > |q.answers|
  {
    hide LogOk, Sorted, AnsweredIds, Run, Load, Inv;
    TakeKeeps(q, stream);
    RunExtends(Take(q, stream), q.requests[q.order[0].id]);
  }

  lemma {:induction false} PassExtends(q: Queue, credit: nat, ready: bool)
    requires Inv(q)
    ensures Extends(q, Pass(q, credit, ready))
    decreases credit
  {
    hide LogOk, Sorted, AnsweredIds, Load, GrantFirst;
    SomePending(q);
    if !q.cancelled && q.requests != map[] && q.open {
      if credit > 0 {
        GrantExtends(q, Some(q.streams));
        PassExtends(GrantFirst(q, Some(q.streams)), credit - 1, ready);
      } else {
        GrantExtends(q, None);
      }
    }
  }
}
