/**
  One endpoint aliases the tokens it sends (aliasifyAuthTokens in MoQSession.cpp), the other interprets the
  messages (parseAuthToken in MoQFramer.cpp). The two caches are never exchanged, yet stay equal.
 */
module TokenMirror {
  import opened Bytes
  import opened TokenCache

  datatype Message =
    | DeleteAlias(alias: Alias)
    | RegisterToken(alias: Alias, token: Token)
    | UseAlias(alias: Alias)
    | UseValue(token: Token)

  // ---------------------------------------------------------------- sender

  /** A message and the sender's cache once it is produced. */
  datatype Sent = Sent(message: Message, cache: Cache)

  /** Deleting one alias after the other. */
  function SendDeletes(c: Cache, aliases: seq<Alias>): seq<Sent>
    requires Valid(c) && Deletable(c, aliases)
    decreases |aliases|
  {
    if aliases == [] then []
    else
      WithoutValid(c, aliases[0]);
      var c' := Without(c, aliases[0]);
      [Sent(DeleteAlias(aliases[0]), c')] + SendDeletes(c', aliases[1..])
  }

  ghost predicate Deletable(c: Cache, aliases: seq<Alias>)
    requires Valid(c)
    decreases |aliases|
  {
    aliases == [] ||
    (aliases[0] in c.tokens && (WithoutValid(c, aliases[0]); Deletable(Without(c, aliases[0]), aliases[1..])))
  }

  lemma {:induction false} RoomIsDeletable(c: Cache, tested: Token)
    requires Valid(c) && MakeRoom(c, tested).Some?
    ensures var (room, evicted) := MakeRoom(c, tested).value;
      Deletable(c, evicted) && After(c, SendDeletes(c, evicted)) == room
  {
    hide Valid;
    AtMostOneEviction(c, tested);
    if !CanRegister(c, tested) {
      var a := c.lru[0];
      WithoutValid(c, a);
      assert [a][1..] == [];
      assert Deletable(Without(c, a), []);
      assert SendDeletes(Without(c, a), []) == [];
      assert SendDeletes(c, [a]) == [Sent(DeleteAlias(a), Without(c, a))];
    }
  }

  function After(c: Cache, sent: seq<Sent>): Cache {
    if sent == [] then c else sent[|sent| - 1].cache
  }

  lemma AfterConcat(c: Cache, a: seq<Sent>, b: seq<Sent>)
    ensures After(c, a + b) == After(After(c, a), b)
  {
  }

  /** Whether the sender puts the token in its cache at all. */
  predicate Cacheable(c: Cache, t: Token, wantsAlias: bool) {
    wantsAlias && |t.value| < MaxTokenSize(c)
  }

  /** What becomes of one token: messages, a failed XCHECK, or an exception from registerToken's value(). */
  datatype Attempt = Sends(sent: seq<Sent>) | Aborts | Throws

  /**
    aliasifyAuthTokens for one token. `found` is what getAliasForToken returned: any alias of an equal token; `slot`
    is the token in the slot that the eviction loop tests. The message that registers follows the deletions.
   */
  function Aliasify(c: Cache, t: Token, wantsAlias: bool, found: Option<Alias>, slot: Token): Attempt
    requires Valid(c) && ChoosesAliases(c)
  {
    if !Cacheable(c, t, wantsAlias) then Sends([Sent(UseValue(t), c)])
    else if found.Some? then Sends([Sent(UseAlias(found.value), c)])
    else
      match MakeRoom(c, slot)
      case None => Aborts
      case Some((room, evicted)) =>
        match Register(room, t)
        case Failure(_) => Throws
        case Success(c') =>
          RoomIsDeletable(c, slot);
          Sends(SendDeletes(c, evicted) + [Sent(RegisterToken(room.nextAlias, t), c')])
  }

  /** The token fits as it is if the tested one does, and otherwise once the oldest entry is gone. */
  predicate LeavesRoom(c: Cache, t: Token, slot: Token) {
    if CanRegister(c, slot) then CanRegister(c, t)
    else
      && c.lru != []
      && c.lru[0] in c.tokens
      && c.total + CachedSize(t) <= c.maxSize + CachedSize(c.tokens[c.lru[0]])
  }

  /** A token is sent exactly if it is not to be cached, is cached already, or the loop leaves room for it. */
  lemma SentExactly(c: Cache, t: Token, wantsAlias: bool, found: Option<Alias>, slot: Token)
    requires Valid(c) && ChoosesAliases(c)
    ensures Aliasify(c, t, wantsAlias, found, slot).Sends?
       <==> !Cacheable(c, t, wantsAlias) || found.Some? || LeavesRoom(c, t, slot)
    ensures Aliasify(c, t, wantsAlias, found, slot).Aborts?
       <==> Cacheable(c, t, wantsAlias) && found.None? && c.lru == [] && !CanRegister(c, slot)
  {
    AtMostOneEviction(c, slot);
    if MakeRoom(c, slot).Some? {
      assert c.nextAlias !in MakeRoom(c, slot).value.0.tokens;
    }
  }

  /** Room for 100 bytes, 60 in use, a new token of 70, and no token after it: nothing is evicted and it does not fit. */
  lemma WrongTokenTested(held: bytes, added: bytes)
    requires |held| == 44 && |added| == 54
    ensures var c := Cache(map[0 := Token(0, held)], [0], 100, 1, 60);
      && Valid(c) && ChoosesAliases(c) && IsLookup(c, Token(0, added), None)
      && Aliasify(c, Token(0, added), true, None, NO_TOKEN) == Throws
  {
    var c := Cache(map[0 := Token(0, held)], [0], 100, 1, 60);
    assert c.lru[1..] == [];
    assert Sum(c.lru, c.tokens) == CachedSize(Token(0, held)) + Sum([], c.tokens);
  }

  /** An empty cache and a large token after a small one: the loop evicts from the empty cache. */
  lemma NothingToEvict(small: bytes, large: bytes)
    requires |small| == 10 && |large| == 90
    ensures Valid(Empty(100)) && ChoosesAliases(Empty(100)) && IsLookup(Empty(100), Token(0, small), None)
    ensures Aliasify(Empty(100), Token(0, small), true, None, Token(0, large)) == Aborts
  {
  }

  lemma FreshRegisters(c: Cache, t: Token)
    requires Valid(c) && ChoosesAliases(c) && CanRegister(c, t)
    ensures Register(c, t).Success? && Valid(Register(c, t).value) && ChoosesAliases(Register(c, t).value)
  {
    RegisterValid(c, c.nextAlias, t);
  }

  ghost predicate IsLookup(c: Cache, t: Token, found: Option<Alias>) {
    match found
    case Some(a) => a in c.tokens && c.tokens[a] == t
    case None => forall a :: a in c.tokens ==> c.tokens[a] != t
  }

  function Messages(sent: seq<Sent>): (ms: seq<Message>)
    ensures |ms| == |sent|
  {
    seq(|sent|, i requires 0 <= i < |sent| => sent[i].message)
  }

  lemma MessagesConcat(a: seq<Sent>, b: seq<Sent>)
    ensures Messages(a + b) == Messages(a) + Messages(b)
  {
  }

  lemma OneMessage(sent: Sent)
    ensures Messages([sent]) == [sent.message]
  {
  }

  // ---------------------------------------------------------------- receiver

  datatype Received = Received(cache: Cache, token: Option<Token>)

  /** parseAuthToken outside CLIENT_SETUP. The alias numbers come from the peer. */
  function Receive(c: Cache, m: Message): Result<Received>
    requires Valid(c)
  {
    match m
    case DeleteAlias(a) =>
      (match Delete(c, a)
       case Failure(e) => Failure(e)
       case Success(c') => Success(Received(c', None)))
    case UseAlias(a) =>
      if a in c.tokens then Success(Received(Touch(c, a), Some(c.tokens[a]))) else Failure(UnknownAlias)
    case RegisterToken(a, t) =>
      (match RegisterAs(c, a, t)
       case Failure(e) => Failure(e)
       case Success(c') => Success(Received(c', Some(t))))
    case UseValue(t) => Success(Received(c, Some(t)))
  }

  lemma ReceiveKeepsValid(c: Cache, m: Message)
    requires Valid(c) && Receive(c, m).Success?
    ensures Valid(Receive(c, m).value.cache)
  {
    match m
    case DeleteAlias(a) => WithoutValid(c, a);
    case UseAlias(a) => TouchValid(c, a);
    case RegisterToken(a, t) => RegisterValid(c, a, t);
    case UseValue(t) =>
  }

  /**
    Same aliases for the same tokens; the sender's limit may be the smaller one, and recency may differ, as only
    the receiver tracks use.
   */
  ghost predicate InStep(sender: Cache, receiver: Cache) {
    && Valid(sender)
    && ChoosesAliases(sender)
    && Valid(receiver)
    && sender.tokens == receiver.tokens
    && sender.maxSize <= receiver.maxSize
  }

  /** The messages are all accepted, the caches agree after each of them, and the tokens seen are `tokens`. */
  ghost predicate Mirrors(sent: seq<Sent>, receiver: Cache, tokens: seq<Token>)
    requires Valid(receiver)
    decreases |sent|
  {
    if sent == [] then tokens == []
    else
      var r := Receive(receiver, sent[0].message);
      && r.Success?
      && (ReceiveKeepsValid(receiver, sent[0].message); InStep(sent[0].cache, r.value.cache))
      && (if r.value.token.None? then Mirrors(sent[1..], r.value.cache, tokens)
          else tokens != [] && tokens[0] == r.value.token.value && Mirrors(sent[1..], r.value.cache, tokens[1..]))
  }

  function Final(receiver: Cache, sent: seq<Sent>): Cache
    requires Valid(receiver)
    decreases |sent|
  {
    if sent == [] then receiver
    else
      match Receive(receiver, sent[0].message)
      case Failure(_) => receiver
      case Success(r) =>
        ReceiveKeepsValid(receiver, sent[0].message);
        Final(r.cache, sent[1..])
  }

  lemma {:induction false} FinalOfNothing(receiver: Cache)
    requires Valid(receiver)
    ensures Final(receiver, []) == receiver
  {
  }

  lemma EqualTotals(sender: Cache, receiver: Cache)
    requires InStep(sender, receiver)
    ensures sender.total == receiver.total
  {
    SumOrderless(sender.lru, receiver.lru, sender.tokens);
  }

  lemma {:induction false} MirrorsCons(first: Sent, tail: seq<Sent>, receiver: Cache, t: Token)
    requires Valid(receiver) && Receive(receiver, first.message).Success?
    requires var r := Receive(receiver, first.message).value;
      && InStep(first.cache, r.cache)
      && if r.token.None? then Mirrors(tail, r.cache, [t]) else r.token.value == t && tail == []
    ensures Mirrors([first] + tail, receiver, [t])
    ensures Final(receiver, [first] + tail) == Final(Receive(receiver, first.message).value.cache, tail)
  {
    hide Valid, Receive, InStep;
    ReceiveKeepsValid(receiver, first.message);
    assert ([first] + tail)[0] == first && ([first] + tail)[1..] == tail;
    assert [t][1..] == [];
  }

  lemma {:induction false} RegisterMirrors(c: Cache, t: Token, receiver: Cache)
    requires InStep(c, receiver) && CanRegister(c, t)
    ensures var last := Sent(RegisterToken(c.nextAlias, t), Register(c, t).value);
      Mirrors([last], receiver, [t]) && InStep(last.cache, Final(receiver, [last]))
  {
    EqualTotals(c, receiver);
    FreshRegisters(c, t);
    RegisterValid(receiver, c.nextAlias, t);
    var last := Sent(RegisterToken(c.nextAlias, t), Register(c, t).value);
    MirrorsCons(last, [], receiver, t);
    assert [last] + [] == [last];
  }

  lemma {:induction false} DeletesMirror(c: Cache, aliases: seq<Alias>, t: Token, receiver: Cache)
    requires InStep(c, receiver) && Deletable(c, aliases)
    requires CanRegister(After(c, SendDeletes(c, aliases)), t)
    ensures var room := After(c, SendDeletes(c, aliases));
      && room.nextAlias == c.nextAlias && Valid(room) && ChoosesAliases(room) && Register(room, t).Success?
      && var sent := SendDeletes(c, aliases) + [Sent(RegisterToken(c.nextAlias, t), Register(room, t).value)];
      && Mirrors(sent, receiver, [t]) && InStep(Register(room, t).value, Final(receiver, sent))
    decreases |aliases|
  {
    hide Mirrors, Final, Sum, Remove;
    if aliases == [] {
      FreshRegisters(c, t);
      RegisterMirrors(c, t, receiver);
      var last := Sent(RegisterToken(c.nextAlias, t), Register(c, t).value);
      assert [] + [last] == [last];
    } else {
      var a := aliases[0];
      WithoutValid(c, a);
      WithoutValid(receiver, a);
      var first := Sent(DeleteAlias(a), Without(c, a));
      var tail := SendDeletes(first.cache, aliases[1..]);
      assert After(c, [first] + tail) == After(first.cache, tail);
      DeletesMirror(first.cache, aliases[1..], t, Without(receiver, a));
      var last := Sent(RegisterToken(c.nextAlias, t), Register(After(first.cache, tail), t).value);
      MirrorsCons(first, tail + [last], receiver, t);
      assert ([first] + tail) + [last] == [first] + (tail + [last]);
    }
  }

  /**
    Whatever token is sent, every message for it is accepted without a cache error, the two alias maps are equal
    after each message, and the receiver gets exactly that token, once.
   */
  lemma {:induction false} AliasifyMirrors(c: Cache, t: Token, wantsAlias: bool, found: Option<Alias>, slot: Token, receiver: Cache)
    requires InStep(c, receiver) && IsLookup(c, t, found) && Aliasify(c, t, wantsAlias, found, slot).Sends?
    ensures var sent := Aliasify(c, t, wantsAlias, found, slot).sent;
      Mirrors(sent, receiver, [t]) && InStep(After(c, sent), Final(receiver, sent))
  {
    hide Mirrors, Final, MakeRoom;
    var sent := Aliasify(c, t, wantsAlias, found, slot).sent;
    if Cacheable(c, t, wantsAlias) && found.None? {
      RoomIsDeletable(c, slot);
      DeletesMirror(c, MakeRoom(c, slot).value.1, t, receiver);
    } else {
      if Cacheable(c, t, wantsAlias) {
        TouchValid(receiver, found.value);
      }
      MirrorsCons(sent[0], [], receiver, t);
      assert sent == [sent[0]] + [];
      FinalOfNothing(Receive(receiver, sent[0].message).value.cache);
    }
  }

  /** A token to send, the outcome of its lookup in the sender's cache at that time, and the slot tested for it. */
  datatype Request = Request(token: Token, wantsAlias: bool, found: Option<Alias>, slot: Token)

  function Attempted(c: Cache, q: Request): Attempt
    requires Valid(c) && ChoosesAliases(c)
  {
    Aliasify(c, q.token, q.wantsAlias, q.found, q.slot)
  }

  lemma AttemptStaysValid(c: Cache, q: Request)
    requires Valid(c) && ChoosesAliases(c) && IsLookup(c, q.token, q.found) && Attempted(c, q).Sends?
    ensures var c' := After(c, Attempted(c, q).sent); Valid(c') && ChoosesAliases(c')
  {
    hide Aliasify, Valid, ChoosesAliases;
    AliasifyMirrors(c, q.token, q.wantsAlias, q.found, q.slot, c);
  }

  /** A run in which every lookup is one and every token is sent. */
  ghost predicate Plausible(c: Cache, requests: seq<Request>)
    requires Valid(c) && ChoosesAliases(c)
    decreases |requests|
  {
    requests == [] ||
    (var q := requests[0];
     && IsLookup(c, q.token, q.found)
     && Attempted(c, q).Sends?
     && (AttemptStaysValid(c, q); Plausible(After(c, Attempted(c, q).sent), requests[1..])))
  }

  function Tokens(requests: seq<Request>): seq<Token> {
    if requests == [] then [] else [requests[0].token] + Tokens(requests[1..])
  }

  function SendAll(c: Cache, requests: seq<Request>): seq<Sent>
    requires Valid(c) && ChoosesAliases(c) && Plausible(c, requests)
    decreases |requests|
  {
    if requests == [] then []
    else
      var q := requests[0];
      AttemptStaysValid(c, q);
      var sent := Attempted(c, q).sent;
      sent + SendAll(After(c, sent), requests[1..])
  }

  lemma {:induction false} SendUnfolds(c: Cache, requests: seq<Request>)
    requires Valid(c) && ChoosesAliases(c) && requests != [] && Plausible(c, requests)
    ensures IsLookup(c, requests[0].token, requests[0].found) && Attempted(c, requests[0]).Sends?
    ensures var sent := Attempted(c, requests[0]).sent;
      && Valid(After(c, sent)) && ChoosesAliases(After(c, sent)) && Plausible(After(c, sent), requests[1..])
      && SendAll(c, requests) == sent + SendAll(After(c, sent), requests[1..])
  {
    hide Valid, ChoosesAliases, Attempted, IsLookup, After;
    AttemptStaysValid(c, requests[0]);
  }

  lemma {:induction false} MirrorsConcat(a: seq<Sent>, b: seq<Sent>, receiver: Cache, s: seq<Token>, t: seq<Token>)
    requires Valid(receiver) && Mirrors(a, receiver, s) && Valid(Final(receiver, a)) && Mirrors(b, Final(receiver, a), t)
    ensures Mirrors(a + b, receiver, s + t)
    decreases |a|
  {
    hide Valid, Receive, InStep;
    if a == [] {
      assert a + b == b && s + t == t;
    } else {
      var r := Receive(receiver, a[0].message).value;
      ReceiveKeepsValid(receiver, a[0].message);
      assert (a + b)[0] == a[0] && (a + b)[1..] == a[1..] + b;
      if r.token.None? {
        MirrorsConcat(a[1..], b, r.cache, s, t);
      } else {
        MirrorsConcat(a[1..], b, r.cache, s[1..], t);
        assert (s + t)[0] == s[0] && (s + t)[1..] == s[1..] + t;
      }
    }
  }

  /**
    Over every sequence of tokens sent: the receiver's alias map equals the sender's after every message, no
    cache error is ever reported, and the receiver sees the tokens in the order they were sent.
   */
  lemma {:induction false} MirroredCaches(c: Cache, requests: seq<Request>, receiver: Cache)
    requires InStep(c, receiver) && Plausible(c, requests)
    ensures Mirrors(SendAll(c, requests), receiver, Tokens(requests))
    decreases |requests|
  {
    hide Aliasify, IsLookup;
    if requests != [] {
      var q := requests[0];
      AttemptStaysValid(c, q);
      AliasifyMirrors(c, q.token, q.wantsAlias, q.found, q.slot, receiver);
      var sent := Attempted(c, q).sent;
      MirroredCaches(After(c, sent), requests[1..], Final(receiver, sent));
      MirrorsConcat(sent, SendAll(After(c, sent), requests[1..]), receiver, [q.token], Tokens(requests[1..]));
    }
  }
}
