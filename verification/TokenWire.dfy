/** Auth tokens on the wire, and the aliases a client registers before it knows the server's limit. */
module TokenWire {
  import opened Bytes
  import opened Wire
  import opened TokenCache
  import opened TokenMirror
  import Varint

  const DELETE_ALIAS: u64 := 0
  const REGISTER: u64 := 1
  const USE_ALIAS: u64 := 2
  const USE_VALUE: u64 := 3

  predicate Encodable(m: Message) {
    match m
    case DeleteAlias(a) => a < U64_LIMIT
    case RegisterToken(a, _) => a < U64_LIMIT
    case UseAlias(a) => a < U64_LIMIT
    case UseValue(_) => true
  }

  /** encodeDeleteTokenAlias, encodeRegisterToken, encodeUseAlias and encodeTokenValue. */
  function Encode(m: Message): bytes
    requires Encodable(m)
  {
    match m
    case DeleteAlias(a) => Varint.Encode(DELETE_ALIAS) + Varint.Encode(a)
    case RegisterToken(a, t) => Varint.Encode(REGISTER) + (Varint.Encode(a) + (Varint.Encode(t.typ) + t.value))
    case UseAlias(a) => Varint.Encode(USE_ALIAS) + Varint.Encode(a)
    case UseValue(t) => Varint.Encode(USE_VALUE) + (Varint.Encode(t.typ) + t.value)
  }

  datatype AuthError =
    | Underflowed | Violated | UnknownAuthTokenAlias | DuplicateAuthTokenAlias | AuthTokenCacheOverflow

  datatype AuthResult = Accepted(token: Option<Token>) | Rejected(error: AuthError)

  datatype AuthOutcome = AuthOutcome(cache: Cache, result: AuthResult)

  function ErrorOf(e: CacheError): AuthError {
    match e
    case DuplicateAlias => DuplicateAuthTokenAlias
    case LimitExceeded => AuthTokenCacheOverflow
    case UnknownAlias => UnknownAuthTokenAlias
  }

  /** Interprets a message; in CLIENT_SETUP an over-limit REGISTER degrades to a plain value. */
  function Interpret(c: Cache, m: Message, isClientSetup: bool): AuthOutcome
    requires Valid(c)
  {
    if isClientSetup && m.RegisterToken? && !CanRegister(c, m.token) then AuthOutcome(c, Accepted(Some(m.token)))
    else
      match Receive(c, m)
      case Success(r) => AuthOutcome(r.cache, Accepted(r.token))
      case Failure(e) => AuthOutcome(c, Rejected(ErrorOf(e)))
  }

  /** parseAuthToken. The cache is changed before the check for trailing bytes, so a bad length does not undo it. */
  function ParseAuthToken(c: Cache, s: bytes, isClientSetup: bool): AuthOutcome
    requires Valid(c)
  {
    match ReadVarint(s)
    case None => AuthOutcome(c, Rejected(Underflowed))
    case Some((kind, s1)) =>
      if kind > USE_VALUE then AuthOutcome(c, Rejected(Violated))
      else if kind == DELETE_ALIAS || kind == USE_ALIAS then
        if isClientSetup then AuthOutcome(c, Rejected(Violated))
        else
          match ReadVarint(s1)
          case None => AuthOutcome(c, Rejected(Underflowed))
          case Some((a, s2)) =>
            var o := Interpret(c, if kind == DELETE_ALIAS then DeleteAlias(a) else UseAlias(a), false);
            if o.result.Accepted? && s2 != [] then o.(result := Rejected(Violated)) else o
      else if kind == REGISTER then
        match ReadVarint(s1)
        case None => AuthOutcome(c, Rejected(Underflowed))
        case Some((a, s2)) =>
          match ReadVarint(s2)
          case None => AuthOutcome(c, Rejected(Underflowed))
          case Some((typ, s3)) => Interpret(c, RegisterToken(a, Token(typ, s3)), isClientSetup)
      else
        match ReadVarint(s1)
        case None => AuthOutcome(c, Rejected(Underflowed))
        case Some((typ, s2)) => Interpret(c, UseValue(Token(typ, s2)), isClientSetup)
  }

  /** In CLIENT_SETUP the two messages that name an alias in use are refused. */
  function InterpretSetup(c: Cache, m: Message): AuthOutcome
    requires Valid(c)
  {
    if m.DeleteAlias? || m.UseAlias? then AuthOutcome(c, Rejected(Violated)) else Interpret(c, m, true)
  }

  /** Parsing an encoded message is acting on it. */
  lemma WireAgrees(c: Cache, m: Message, isClientSetup: bool)
    requires Valid(c) && Encodable(m)
    ensures ParseAuthToken(c, Encode(m), isClientSetup)
      == if isClientSetup then InterpretSetup(c, m) else Interpret(c, m, false)
  {
    hide Varint.Encode, ReadVarint, Interpret;
    match m
    case DeleteAlias(a) =>
      ReadWritten(DELETE_ALIAS, Varint.Encode(a));
      ReadWritten(a, []);
      assert Varint.Encode(a) + [] == Varint.Encode(a);
    case UseAlias(a) =>
      ReadWritten(USE_ALIAS, Varint.Encode(a));
      ReadWritten(a, []);
      assert Varint.Encode(a) + [] == Varint.Encode(a);
    case RegisterToken(a, t) =>
      ReadWritten(REGISTER, Varint.Encode(a) + (Varint.Encode(t.typ) + t.value));
      ReadWritten(a, Varint.Encode(t.typ) + t.value);
      ReadWritten(t.typ, t.value);
    case UseValue(t) =>
      ReadWritten(USE_VALUE, Varint.Encode(t.typ) + t.value);
      ReadWritten(t.typ, t.value);
  }

  // ---------------------------------------------------------------- optimistic registration in CLIENT_SETUP

  function Total(ts: seq<Token>): nat {
    if ts == [] then 0 else Total(ts[..|ts| - 1]) + CachedSize(ts[|ts| - 1])
  }

  /** The client numbers its registrations from zero. */
  function ByAlias(ts: seq<Token>): map<Alias, Token> {
    map i: nat | i < |ts| :: ts[i]
  }

  function Iota(n: nat): (s: seq<Alias>)
    ensures |s| == n && forall i :: 0 <= i < n ==> s[i] == i
  {
    seq(n, i => i)
  }

  /** The client after registering all tokens under a limit it guessed. */
  function Optimistic(ts: seq<Token>, guess: nat): Cache {
    Cache(ByAlias(ts), Iota(|ts|), guess, |ts|, Total(ts))
  }

  lemma ByAliasSnoc(ts: seq<Token>)
    requires ts != []
    ensures |ts| - 1 !in ByAlias(ts[..|ts| - 1])
    ensures ByAlias(ts[..|ts| - 1])[|ts| - 1 := ts[|ts| - 1]] == ByAlias(ts)
    ensures ByAlias(ts) - {|ts| - 1} == ByAlias(ts[..|ts| - 1])
  {
  }

  lemma IotaSnoc(n: nat)
    ensures Iota(n) + [n] == Iota(n + 1)
  {
  }

  lemma {:induction false} OptimisticStep(ts: seq<Token>, guess: nat)
    requires ts != [] && Total(ts) <= guess
    ensures Register(Optimistic(ts[..|ts| - 1], guess), ts[|ts| - 1]) == Success(Optimistic(ts, guess))
    ensures RegisterAs(Optimistic(ts[..|ts| - 1], guess), |ts| - 1, ts[|ts| - 1])
         == Success(Optimistic(ts, guess).(nextAlias := |ts| - 1))
  {
    hide Valid, ByAlias, Iota, CachedSize;
    var n, t := |ts| - 1, ts[|ts| - 1];
    ByAliasSnoc(ts);
    IotaSnoc(n);
    var c := Optimistic(ts[..n], guess);
    assert Total(ts) == c.total + CachedSize(t);
    hide Total;
    assert CanRegister(c, t);
  }

  /** Registering one by one without eviction leads there. */
  lemma {:induction false} OptimisticIsReached(ts: seq<Token>, guess: nat)
    requires Total(ts) <= guess
    ensures Valid(Optimistic(ts, guess)) && ChoosesAliases(Optimistic(ts, guess))
    ensures ts != [] ==>
      Register(Optimistic(ts[..|ts| - 1], guess), ts[|ts| - 1]) == Success(Optimistic(ts, guess))
  {
    if ts != [] {
      var n := |ts| - 1;
      OptimisticIsReached(ts[..n], guess);
      OptimisticStep(ts, guess);
      ValidRegistered(Optimistic(ts[..n], guess), n, ts[n], |ts|);
    }
  }

  lemma ValidRegistered(c: Cache, a: Alias, t: Token, next: Alias)
    requires Valid(c) && RegisterAs(c, a, t).Success?
    ensures Valid(RegisterAs(c, a, t).value.(nextAlias := next))
  {
    RegisterValid(c, a, t);
  }

  // ---------------------------------------------------------------- what CLIENT_SETUP says and whether it is accepted

  /** The sender wants the token in its cache, whose limit it has guessed. */
  predicate Wanted(guess: nat, q: Request) { Cacheable(Empty(guess), q.token, q.wantsAlias) }

  /** The tokens a setup registers, in order. */
  function Registered(guess: nat, requests: seq<Request>): seq<Token> {
    if requests == [] then []
    else (if Wanted(guess, requests[0]) then [requests[0].token] else []) + Registered(guess, requests[1..])
  }

  /**
    No token to be cached is among the earlier ones, which would make it USE_ALIAS, and the token tested for it fits
    beside them, or else the sender would begin with DELETE_ALIAS.
   */
  predicate Admissible(ts: seq<Token>, guess: nat, requests: seq<Request>)
    decreases |requests|
  {
    requests == [] ||
    (if Wanted(guess, requests[0]) then
       && requests[0].token !in ts
       && Total(ts) + CachedSize(requests[0].slot) <= guess
       && Admissible(ts + [requests[0].token], guess, requests[1..])
     else Admissible(ts, guess, requests[1..]))
  }

  /** The server reading the token parameters of CLIENT_SETUP; None if it refuses one. */
  function ReadSetup(c: Cache, ms: seq<Message>): Option<Cache>
    requires Valid(c)
    decreases |ms|
  {
    if ms == [] then Some(c)
    else
      InterpretSetupValid(c, ms[0]);
      var o := InterpretSetup(c, ms[0]);
      if o.result.Rejected? then None else ReadSetup(o.cache, ms[1..])
  }

  lemma InterpretSetupValid(c: Cache, m: Message)
    requires Valid(c)
    ensures Valid(InterpretSetup(c, m).cache)
  {
    if Receive(c, m).Success? {
      ReceiveKeepsValid(c, m);
    }
  }

  lemma {:induction false} ReadSetupCons(c: Cache, first: Message, rest: seq<Message>)
    requires Valid(c)
    ensures Valid(InterpretSetup(c, first).cache)
    ensures ReadSetup(c, [first] + rest)
      == if InterpretSetup(c, first).result.Rejected? then None else ReadSetup(InterpretSetup(c, first).cache, rest)
  {
    hide Valid, InterpretSetup;
    InterpretSetupValid(c, first);
    assert ([first] + rest)[1..] == rest;
  }

  /** A lookup among numbered tokens. */
  lemma LookupByAlias(ts: seq<Token>, guess: nat, t: Token, found: Option<Alias>)
    requires IsLookup(Optimistic(ts, guess), t, found)
    ensures found.Some? <==> t in ts
  {
    if t in ts {
      var i :| 0 <= i < |ts| && ts[i] == t;
      assert i in ByAlias(ts) && ByAlias(ts)[i] == t;
    }
  }

  /** A token whose tested slot fits is registered under the next number. */
  lemma {:induction false} SetupRegisters(ts: seq<Token>, guess: nat, q: Request)
    requires Valid(Optimistic(ts, guess)) && ChoosesAliases(Optimistic(ts, guess)) && Wanted(guess, q) && q.found.None?
    requires Total(ts) + CachedSize(q.slot) <= guess && Attempted(Optimistic(ts, guess), q).Sends?
    ensures Total(ts + [q.token]) <= guess
    ensures Attempted(Optimistic(ts, guess), q).sent
      == [Sent(RegisterToken(|ts|, q.token), Optimistic(ts + [q.token], guess))]
  {
    hide Valid, ChoosesAliases, ByAlias, Iota;
    var c, ts' := Optimistic(ts, guess), ts + [q.token];
    assert ts'[..|ts'| - 1] == ts && ts'[|ts'| - 1] == q.token;
    assert Total(ts') == Total(ts) + CachedSize(q.token);
    hide Total;
    assert MakeRoom(c, q.slot) == Some((c, []));
    assert Register(c, q.token).Success?;
    OptimisticStep(ts', guess);
    assert SendDeletes(c, []) == [];
    assert [] + [Sent(RegisterToken(|ts|, q.token), Optimistic(ts', guess))]
        == [Sent(RegisterToken(|ts|, q.token), Optimistic(ts', guess))];
  }

  /** One whose tested slot does not fit is preceded by a deletion. */
  lemma {:induction false} SetupDeletes(ts: seq<Token>, guess: nat, q: Request)
    requires Valid(Optimistic(ts, guess)) && ChoosesAliases(Optimistic(ts, guess)) && Wanted(guess, q) && q.found.None?
    requires Total(ts) + CachedSize(q.slot) > guess && Attempted(Optimistic(ts, guess), q).Sends?
    ensures Attempted(Optimistic(ts, guess), q).sent != []
    ensures Attempted(Optimistic(ts, guess), q).sent[0].message.DeleteAlias?
  {
    hide Valid, ChoosesAliases, ByAlias, Iota, Total, MakeRoom, Register;
    var c := Optimistic(ts, guess);
    AtMostOneEviction(c, q.slot);
    WithoutValid(c, c.lru[0]);
    RoomIsDeletable(c, q.slot);
    assert SendDeletes(c, [c.lru[0]])[0].message == DeleteAlias(c.lru[0]);
  }

  /** What the sender makes of one token of the setup. */
  lemma {:induction false} SetupStep(ts: seq<Token>, guess: nat, q: Request)
    requires Total(ts) <= guess && Valid(Optimistic(ts, guess)) && ChoosesAliases(Optimistic(ts, guess))
    requires IsLookup(Optimistic(ts, guess), q.token, q.found) && Attempted(Optimistic(ts, guess), q).Sends?
    ensures var sent := Attempted(Optimistic(ts, guess), q).sent;
      && sent != []
      && if !Wanted(guess, q) then sent == [Sent(UseValue(q.token), Optimistic(ts, guess))]
         else if q.token in ts then sent[0].message.UseAlias?
         else if Total(ts) + CachedSize(q.slot) > guess then sent[0].message.DeleteAlias?
         else
           && Total(ts + [q.token]) <= guess
           && sent == [Sent(RegisterToken(|ts|, q.token), Optimistic(ts + [q.token], guess))]
  {
    hide Valid, ChoosesAliases, ByAlias, Iota, Total, IsLookup, MakeRoom, SendDeletes, Deletable, Register;
    LookupByAlias(ts, guess, q.token, q.found);
    if Wanted(guess, q) && q.found.None? {
      if Total(ts) + CachedSize(q.slot) <= guess {
        SetupRegisters(ts, guess, q);
      } else {
        SetupDeletes(ts, guess, q);
      }
    }
  }

  /** The server takes any registration of the next alias. */
  lemma {:induction false} ServerRegisters(ts: seq<Token>, t: Token, limit: nat)
    ensures InterpretSetup(ServerKeeps(ts, limit), RegisterToken(|ts|, t))
      == AuthOutcome(ServerKeeps(ts + [t], limit), Accepted(Some(t)))
  {
    hide Valid;
    assert (ts + [t])[..|ts|] == ts;
    assert |ts| !in ServerKeeps(ts, limit).tokens;
  }

  /** Client and server after a setup, as told by the tokens registered before it and in it. */
  ghost predicate SetupAgrees(ts: seq<Token>, guess: nat, requests: seq<Request>, limit: nat)
    requires Valid(Optimistic(ts, guess)) && ChoosesAliases(Optimistic(ts, guess))
    requires Plausible(Optimistic(ts, guess), requests)
  {
    var sent := SendAll(Optimistic(ts, guess), requests);
    var kept := ts + Registered(guess, requests);
    var server := ReadSetup(ServerKeeps(ts, limit), Messages(sent));
    && (server.Some? <==> Admissible(ts, guess, requests))
    && (Admissible(ts, guess, requests) ==>
          && Total(kept) <= guess
          && After(Optimistic(ts, guess), sent) == Optimistic(kept, guess)
          && server == Some(ServerKeeps(kept, limit)))
  }

  lemma {:induction false} SetupRead(ts: seq<Token>, guess: nat, requests: seq<Request>, limit: nat)
    requires Total(ts) <= guess && Valid(Optimistic(ts, guess)) && ChoosesAliases(Optimistic(ts, guess))
    requires Plausible(Optimistic(ts, guess), requests)
    ensures SetupAgrees(ts, guess, requests, limit)
    decreases |requests|
  {
    hide Valid, ChoosesAliases, Attempted, IsLookup, Optimistic, ServerKeeps, InterpretSetup, Messages, Total, Wanted, ReadSetup;
    var c := Optimistic(ts, guess);
    if requests == [] {
      assert ts + [] == ts;
      NothingRead(ServerKeeps(ts, limit));
    } else {
      var q := requests[0];
      AttemptStaysValid(c, q);
      SetupStep(ts, guess, q);
      hide SetupAgrees;
      if !Wanted(guess, q) {
        SetupRead(ts, guess, requests[1..], limit);
        ValueRead(ts, guess, requests, limit);
      } else if q.token in ts || Total(ts) + CachedSize(q.slot) > guess {
        RefusalRead(ts, guess, requests, limit);
      } else {
        OptimisticIsReached(ts + [q.token], guess);
        SetupRead(ts + [q.token], guess, requests[1..], limit);
        RegistrationRead(ts, guess, requests, limit);
      }
    }
  }

  lemma {:induction false} NothingRead(c: Cache)
    requires Valid(c)
    ensures Messages([]) == [] && ReadSetup(c, []) == Some(c)
  {
    hide Valid;
  }

  lemma {:induction false} ValueRead(ts: seq<Token>, guess: nat, requests: seq<Request>, limit: nat)
    requires Valid(Optimistic(ts, guess)) && ChoosesAliases(Optimistic(ts, guess)) && requests != []
    requires Plausible(Optimistic(ts, guess), requests) && !Wanted(guess, requests[0])
    requires Attempted(Optimistic(ts, guess), requests[0]).Sends?
    requires Attempted(Optimistic(ts, guess), requests[0]).sent == [Sent(UseValue(requests[0].token), Optimistic(ts, guess))]
    requires Plausible(Optimistic(ts, guess), requests[1..]) && SetupAgrees(ts, guess, requests[1..], limit)
    ensures SetupAgrees(ts, guess, requests, limit)
  {
    hide Valid, ChoosesAliases, Attempted, IsLookup, Optimistic, ServerKeeps, InterpretSetup, Messages, Total, Wanted, ReadSetup;
    hide Plausible, SendAll, Admissible, Registered, After;
    var c, q := Optimistic(ts, guess), requests[0];
    SendUnfolds(c, requests);
    UnwantedUnfolds(ts, guess, requests);
    AfterOne(c, Attempted(c, q).sent[0]);
    var sent, rest := Attempted(c, q).sent, SendAll(c, requests[1..]);
    FirstMessage(sent, rest);
    ReadSetupCons(ServerKeeps(ts, limit), sent[0].message, Messages((sent + rest)[1..]));
    assert (sent + rest)[1..] == rest;
    SetupValue(ServerKeeps(ts, limit), q.token);
    AfterConcat(c, sent, rest);
  }

  lemma {:induction false} RefusalRead(ts: seq<Token>, guess: nat, requests: seq<Request>, limit: nat)
    requires Valid(Optimistic(ts, guess)) && ChoosesAliases(Optimistic(ts, guess)) && requests != []
    requires Plausible(Optimistic(ts, guess), requests) && Wanted(guess, requests[0])
    requires requests[0].token in ts || Total(ts) + CachedSize(requests[0].slot) > guess
    requires Attempted(Optimistic(ts, guess), requests[0]).Sends?
    requires var sent := Attempted(Optimistic(ts, guess), requests[0]).sent;
      sent != [] && (sent[0].message.UseAlias? || sent[0].message.DeleteAlias?)
    ensures SetupAgrees(ts, guess, requests, limit)
  {
    hide Valid, ChoosesAliases, Attempted, IsLookup, Optimistic, ServerKeeps, InterpretSetup, Messages, Total, Wanted, ReadSetup;
    hide Plausible, SendAll, Admissible, Registered, After;
    var c := Optimistic(ts, guess);
    SendUnfolds(c, requests);
    WantedUnfolds(ts, guess, requests);
    var sent := Attempted(c, requests[0]).sent;
    var rest := SendAll(After(c, sent), requests[1..]);
    FirstMessage(sent, rest);
    ReadSetupCons(ServerKeeps(ts, limit), sent[0].message, Messages((sent + rest)[1..]));
    SetupRefuses(ServerKeeps(ts, limit), sent[0].message);
  }

  lemma {:induction false} RegistrationRead(ts: seq<Token>, guess: nat, requests: seq<Request>, limit: nat)
    requires Valid(Optimistic(ts, guess)) && ChoosesAliases(Optimistic(ts, guess)) && requests != []
    requires Plausible(Optimistic(ts, guess), requests) && Wanted(guess, requests[0])
    requires requests[0].token !in ts && Total(ts) + CachedSize(requests[0].slot) <= guess
    requires Attempted(Optimistic(ts, guess), requests[0]).Sends?
    requires var ts' := ts + [requests[0].token];
      && Attempted(Optimistic(ts, guess), requests[0]).sent
         == [Sent(RegisterToken(|ts|, requests[0].token), Optimistic(ts', guess))]
      && Valid(Optimistic(ts', guess)) && ChoosesAliases(Optimistic(ts', guess))
      && Plausible(Optimistic(ts', guess), requests[1..])
      && SetupAgrees(ts', guess, requests[1..], limit)
    ensures SetupAgrees(ts, guess, requests, limit)
  {
    hide Valid, ChoosesAliases, Attempted, IsLookup, Optimistic, ServerKeeps, InterpretSetup, Messages, Total, Wanted, ReadSetup;
    hide Plausible, SendAll, Admissible, Registered, After;
    var c, q, ts' := Optimistic(ts, guess), requests[0], ts + [requests[0].token];
    SendUnfolds(c, requests);
    WantedUnfolds(ts, guess, requests);
    var sent := Attempted(c, q).sent;
    AfterOne(c, sent[0]);
    var rest := SendAll(Optimistic(ts', guess), requests[1..]);
    FirstMessage(sent, rest);
    ReadSetupCons(ServerKeeps(ts, limit), sent[0].message, Messages((sent + rest)[1..]));
    assert (sent + rest)[1..] == rest;
    ServerRegisters(ts, q.token, limit);
    assert ts' + Registered(guess, requests[1..]) == ts + ([q.token] + Registered(guess, requests[1..]));
    AfterConcat(c, sent, rest);
  }

  lemma {:induction false} WantedUnfolds(ts: seq<Token>, guess: nat, requests: seq<Request>)
    requires requests != [] && Wanted(guess, requests[0])
    ensures Registered(guess, requests) == [requests[0].token] + Registered(guess, requests[1..])
    ensures Admissible(ts, guess, requests) <==>
      && requests[0].token !in ts
      && Total(ts) + CachedSize(requests[0].slot) <= guess
      && Admissible(ts + [requests[0].token], guess, requests[1..])
  {
    hide Wanted, Total, CachedSize;
  }

  lemma {:induction false} UnwantedUnfolds(ts: seq<Token>, guess: nat, requests: seq<Request>)
    requires requests != [] && !Wanted(guess, requests[0])
    ensures Registered(guess, requests) == Registered(guess, requests[1..])
    ensures Admissible(ts, guess, requests) <==> Admissible(ts, guess, requests[1..])
  {
    hide Wanted, Total, CachedSize;
    assert [] + Registered(guess, requests[1..]) == Registered(guess, requests[1..]);
  }

  lemma {:induction false} AfterOne(c: Cache, sent: Sent)
    ensures After(c, [sent]) == sent.cache
  {
  }

  lemma FirstMessage(sent: seq<Sent>, rest: seq<Sent>)
    requires sent != []
    ensures (sent + rest)[0] == sent[0]
    ensures Messages(sent + rest) == [sent[0].message] + Messages((sent + rest)[1..])
  {
  }

  lemma SetupValue(c: Cache, t: Token)
    requires Valid(c)
    ensures InterpretSetup(c, UseValue(t)) == AuthOutcome(c, Accepted(Some(t)))
  {
    hide Valid;
  }

  lemma SetupRefuses(c: Cache, m: Message)
    requires Valid(c) && (m.UseAlias? || m.DeleteAlias?)
    ensures InterpretSetup(c, m).result.Rejected?
  {
    hide Valid;
  }

  lemma NothingRegistered(guess: nat)
    ensures Optimistic([], guess) == Empty(guess) && Valid(Empty(guess)) && ChoosesAliases(Empty(guess))
  {
    assert ByAlias([]) == map[];
    assert Iota(0) == [];
  }

  /**
    A CLIENT_SETUP whose tokens the client could send is accepted exactly if it is admissible. Then client and server
    hold what registering its tokens in order leaves them.
   */
  lemma {:induction false} SetupIsAccepted(guess: nat, requests: seq<Request>, limit: nat)
    requires Valid(Empty(guess)) && ChoosesAliases(Empty(guess)) && Plausible(Empty(guess), requests)
    ensures Valid(Empty(limit))
    ensures var sent := SendAll(Empty(guess), requests);
      var ts := Registered(guess, requests);
      && (ReadSetup(Empty(limit), Messages(sent)).Some? <==> Admissible([], guess, requests))
      && (Admissible([], guess, requests) ==>
            && Total(ts) <= guess
            && After(Empty(guess), sent) == Optimistic(ts, guess)
            && ReadSetup(Empty(limit), Messages(sent)) == Some(ServerKeeps(ts, limit)))
  {
    hide Plausible, SendAll, Messages, ReadSetup, Admissible, Optimistic, Registered;
    NothingRegistered(guess);
    NothingRegistered(limit);
    assert Total([]) == 0;
    SetupRead([], guess, requests, limit);
    assert [] + Registered(guess, requests) == Registered(guess, requests);
  }

  // ---------------------------------------------------------------- after SERVER_SETUP

  /** The client once it has shrunk its cache to the limit it learns. */
  function Learned(ts: seq<Token>, guess: nat, limit: nat): Cache
    requires Total(ts) <= guess
  {
    OptimisticIsReached(ts, guess);
    Shrink(Optimistic(ts, guess), limit)
  }

  /** The longest prefix left by evicting the newest registrations until the limit holds. */
  function Kept(ts: seq<Token>, limit: nat): (k: nat)
    ensures k <= |ts| && Total(ts[..k]) <= limit
  {
    if Total(ts) <= limit then
      assert ts[..|ts|] == ts;
      |ts|
    else
      var k := Kept(ts[..|ts| - 1], limit);
      assert ts[..|ts| - 1][..k] == ts[..k];
      k
  }

  lemma {:induction false} OptimisticWithoutLast(ts: seq<Token>, guess: nat, next: Alias)
    requires ts != []
    ensures var n := |ts| - 1;
      && n in Optimistic(ts, guess).tokens && Optimistic(ts, guess).tokens[n] == ts[n] && CachedSize(ts[n]) <= Total(ts)
      && Without(Optimistic(ts, guess).(nextAlias := next), n) == Optimistic(ts[..n], guess).(nextAlias := next)
  {
    hide Iota;
    RemoveLast(|ts| - 1);
    ByAliasSnoc(ts);
  }

  lemma {:induction false} ShrinkKeepsPrefix(ts: seq<Token>, guess: nat, next: Alias, limit: nat)
    requires Valid(Optimistic(ts, guess).(nextAlias := next))
    ensures Shrink(Optimistic(ts, guess).(nextAlias := next), limit)
      == Optimistic(ts[..Kept(ts, limit)], limit).(nextAlias := next)
    decreases |ts|
  {
    hide Valid, ByAlias, Without;
    var c := Optimistic(ts, guess).(nextAlias := next);
    if Total(ts) <= limit {
      assert ts[..|ts|] == ts;
    } else {
      var n := |ts| - 1;
      OptimisticWithoutLast(ts, guess, next);
      WithoutValid(c, n);
      ShrinkKeepsPrefix(ts[..n], guess, next, limit);
      assert ts[..n][..Kept(ts[..n], limit)] == ts[..Kept(ts, limit)];
    }
  }

  lemma RemoveLast(n: nat)
    ensures Remove(Iota(n + 1), n) == Iota(n)
  {
    RemoveLastOf(Iota(n), n);
    IotaSnoc(n);
  }

  lemma {:induction false} RemoveLastOf(s: seq<Alias>, a: Alias)
    requires a !in s
    ensures Remove(s + [a], a) == s
  {
    if s != [] {
      assert (s + [a])[0] == s[0] && (s + [a])[1..] == s[1..] + [a];
      RemoveLastOf(s[1..], a);
    }
  }

  /** The server reading the same registrations from CLIENT_SETUP: first fit, the rest used but not kept. */
  function ServerKeeps(ts: seq<Token>, limit: nat): (c: Cache)
    ensures Valid(c) && c.maxSize == limit && forall a :: a in c.tokens ==> a < |ts| && c.tokens[a] == ts[a]
  {
    if ts == [] then Empty(limit)
    else
      var n := |ts| - 1;
      var c := ServerKeeps(ts[..n], limit);
      var o := Interpret(c, RegisterToken(n, ts[n]), true);
      if CanRegister(c, ts[n]) then RegisterValid(c, n, ts[n]); o.cache else o.cache
  }

  /** What one more registration does to the server. */
  lemma {:induction false} ServerStep(ts: seq<Token>, limit: nat)
    requires ts != []
    ensures var n := |ts| - 1;
      var c := ServerKeeps(ts[..n], limit);
      var c' := ServerKeeps(ts, limit);
      if CanRegister(c, ts[n]) then c'.tokens == c.tokens[n := ts[n]] && c'.total == c.total + CachedSize(ts[n])
      else c' == c
  {
    hide Valid;
  }

  lemma {:induction false} TotalMonotone(ts: seq<Token>, k: nat)
    requires k <= |ts|
    ensures Total(ts[..k]) <= Total(ts)
    decreases |ts|
  {
    if k == |ts| {
      assert ts[..k] == ts;
    } else {
      TotalMonotone(ts[..|ts| - 1], k);
      assert ts[..|ts| - 1][..k] == ts[..k];
    }
  }

  /** While everything fits, the server keeps everything. */
  lemma {:induction false} ServerKeepsAll(ts: seq<Token>, limit: nat)
    requires Total(ts) <= limit
    ensures ServerKeeps(ts, limit).tokens == ByAlias(ts) && ServerKeeps(ts, limit).total == Total(ts)
  {
    hide Interpret, Valid;
    if ts != [] {
      hide ServerKeeps, ByAlias;
      ServerKeepsAll(ts[..|ts| - 1], limit);
      ServerStep(ts, limit);
      ByAliasSnoc(ts);
    }
  }

  lemma {:induction false} ServerOnlyGrows(ts: seq<Token>, k: nat, limit: nat)
    requires k <= |ts|
    ensures ServerKeeps(ts[..k], limit).tokens.Keys <= ServerKeeps(ts, limit).tokens.Keys
    decreases |ts|
  {
    hide Interpret;
    if k == |ts| {
      assert ts[..k] == ts;
    } else {
      var n := |ts| - 1;
      ServerOnlyGrows(ts[..n], k, limit);
      ServerStep(ts, limit);
      assert ts[..n][..k] == ts[..k];
    }
  }

  lemma {:induction false} ServerKeepsPrefix(ts: seq<Token>, k: nat, limit: nat)
    requires k <= |ts| && Total(ts[..k]) <= limit
    ensures forall a: nat :: a < k ==> a in ServerKeeps(ts, limit).tokens
    ensures ServerKeeps(ts[..k], limit).tokens == ByAlias(ts[..k]) && ServerKeeps(ts[..k], limit).total == Total(ts[..k])
  {
    hide Interpret, ServerKeeps;
    ServerKeepsAll(ts[..k], limit);
    ServerOnlyGrows(ts, k, limit);
    forall a: nat | a < k ensures a in ServerKeeps(ts, limit).tokens {
      assert a in ServerKeeps(ts[..k], limit).tokens.Keys;
    }
  }

  /**
    Optimistic registration is safe: whatever the guess, after shrinking to a limit no larger than the server's,
    every alias the client still holds is known to the server for the same token, so using it is never rejected.
   */
  lemma {:induction false} SurvivingAliasesAreKnown(ts: seq<Token>, guess: nat, limit: nat, serverLimit: nat, a: Alias)
    requires Total(ts) <= guess && limit <= serverLimit
    requires a in Learned(ts, guess, limit).tokens
    ensures var answer := Receive(ServerKeeps(ts, serverLimit), UseAlias(a));
      answer.Success? && answer.value.token == Some(Learned(ts, guess, limit).tokens[a])
  {
    OptimisticIsReached(ts, guess);
    hide Interpret, ServerKeeps, Shrink, Valid;
    ShrinkKeepsPrefix(ts, guess, |ts|, limit);
    assert Optimistic(ts, guess).(nextAlias := |ts|) == Optimistic(ts, guess);
    var k := Kept(ts, limit);
    ServerKeepsPrefix(ts, k, serverLimit);
    assert a < k;
    hide Kept, ByAlias;
  }

  /** Nothing past the client's prefix fits next to it. */
  predicate NothingElseFits(ts: seq<Token>, k: nat, limit: nat)
    requires k <= |ts|
  {
    forall i :: k <= i < |ts| ==> Total(ts[..k]) + CachedSize(ts[i]) > limit
  }

  lemma {:induction false} ServerStops(ts: seq<Token>, k: nat, limit: nat)
    requires k <= |ts| && Total(ts[..k]) <= limit && NothingElseFits(ts, k, limit)
    ensures ServerKeeps(ts, limit) == ServerKeeps(ts[..k], limit)
    decreases |ts|
  {
    hide Interpret, ServerKeeps;
    if k == |ts| {
      assert ts[..k] == ts;
    } else {
      var n := |ts| - 1;
      assert ts[..n][..k] == ts[..k];
      assert NothingElseFits(ts[..n], k, limit);
      ServerStops(ts[..n], k, limit);
      ServerKeepsAll(ts[..k], limit);
      ServerStep(ts, limit);
    }
  }

  lemma {:induction false} NothingPastPrefix(ts: seq<Token>, k: nat, limit: nat)
    requires k <= |ts| && Total(ts[..k]) <= limit
    requires forall a :: a in ServerKeeps(ts, limit).tokens ==> a < k
    ensures ServerKeeps(ts, limit).total == Total(ts[..k])
  {
    hide Interpret, ServerKeeps, Sum;
    ServerKeepsPrefix(ts, k, limit);
    var all, prefix := ServerKeeps(ts, limit), ServerKeeps(ts[..k], limit);
    assert all.tokens == prefix.tokens;
    SumOrderless(all.lru, prefix.lru, prefix.tokens);
  }

  lemma {:induction false} ServerGrows(ts: seq<Token>, k: nat, i: nat, limit: nat)
    requires k <= i < |ts| && Total(ts[..k]) + CachedSize(ts[i]) <= limit
    ensures exists a :: k <= a && a in ServerKeeps(ts, limit).tokens
    decreases |ts|
  {
    hide Interpret, ServerKeeps, Valid;
    var n := |ts| - 1;
    ServerStep(ts, limit);
    var before := ServerKeeps(ts[..n], limit);
    assert ts[..n][..k] == ts[..k];
    if i < n {
      ServerGrows(ts[..n], k, i, limit);
      var a :| k <= a && a in before.tokens;
      assert a in ServerKeeps(ts, limit).tokens;
    } else if forall a :: a in before.tokens ==> a < k {
      NothingPastPrefix(ts[..n], k, limit);
      assert n in ServerKeeps(ts, limit).tokens;
    } else {
      var a :| a in before.tokens && a >= k;
      assert a in ServerKeeps(ts, limit).tokens;
    }
  }

  /**
    The two caches start out equal exactly when no later token of the setup fits the server beside the kept
    prefix; otherwise the server holds aliases that the client has already forgotten.
   */
  lemma {:induction false} SetupLeavesCachesEqual(ts: seq<Token>, guess: nat, limit: nat, serverLimit: nat)
    requires Total(ts) <= guess && limit <= serverLimit
    ensures Learned(ts, guess, limit).tokens == ServerKeeps(ts, serverLimit).tokens
       <==> NothingElseFits(ts, Kept(ts, limit), serverLimit)
  {
    OptimisticIsReached(ts, guess);
    hide Interpret, ServerKeeps, Shrink, Valid;
    var k := Kept(ts, limit);
    ShrinkKeepsPrefix(ts, guess, |ts|, limit);
    assert Optimistic(ts, guess).(nextAlias := |ts|) == Optimistic(ts, guess);
    ServerKeepsPrefix(ts, k, serverLimit);
    if NothingElseFits(ts, k, serverLimit) {
      ServerStops(ts, k, serverLimit);
    } else {
      var i :| k <= i < |ts| && Total(ts[..k]) + CachedSize(ts[i]) <= serverLimit;
      ServerGrows(ts, k, i, serverLimit);
    }
  }

  /** In that case the ongoing protocol starts in step, and TokenMirror.MirroredCaches applies from there on. */
  lemma {:induction false} SetupThenInStep(ts: seq<Token>, guess: nat, limit: nat, serverLimit: nat)
    requires Total(ts) <= guess && limit <= serverLimit
    requires NothingElseFits(ts, Kept(ts, limit), serverLimit)
    ensures InStep(Learned(ts, guess, limit), ServerKeeps(ts, serverLimit))
  {
    OptimisticIsReached(ts, guess);
    hide Interpret, ServerKeeps, Shrink, Valid;
    SetupLeavesCachesEqual(ts, guess, limit, serverLimit);
    ShrinkKeepsPrefix(ts, guess, |ts|, limit);
    assert Optimistic(ts, guess).(nextAlias := |ts|) == Optimistic(ts, guess);
  }

  // ---------------------------------------------------------------- a setup after which the caches differ

  /** Tokens that are all to be cached and all new: the client can send them. */
  lemma {:induction false} FreshTokensAreSent(ts: seq<Token>, guess: nat, requests: seq<Request>)
    requires forall i :: 0 <= i < |requests| ==> Wanted(guess, requests[i]) && requests[i].found.None?
    requires Admissible(ts, guess, requests) && Total(ts + Registered(guess, requests)) <= guess
    ensures Valid(Optimistic(ts, guess)) && ChoosesAliases(Optimistic(ts, guess)) && Plausible(Optimistic(ts, guess), requests)
    decreases |requests|
  {
    hide Valid, ChoosesAliases, Attempted, IsLookup, Optimistic, Total, Wanted;
    var all := ts + Registered(guess, requests);
    assert all[..|ts|] == ts;
    TotalMonotone(all, |ts|);
    OptimisticIsReached(ts, guess);
    if requests != [] {
      var q, ts' := requests[0], ts + [requests[0].token];
      assert ts' + Registered(guess, requests[1..]) == all;
      assert all[..|ts'|] == ts';
      TotalMonotone(all, |ts'|);
      FreshIsSent(ts, guess, q);
      SetupRegisters(ts, guess, q);
      FreshTokensAreSent(ts', guess, requests[1..]);
    }
  }

  lemma {:induction false} FreshIsSent(ts: seq<Token>, guess: nat, q: Request)
    requires Valid(Optimistic(ts, guess)) && ChoosesAliases(Optimistic(ts, guess)) && Wanted(guess, q) && q.found.None?
    requires q.token !in ts && Total(ts) + CachedSize(q.slot) <= guess && Total(ts + [q.token]) <= guess
    ensures IsLookup(Optimistic(ts, guess), q.token, q.found) && Attempted(Optimistic(ts, guess), q).Sends?
  {
    hide Valid, ChoosesAliases, Aliasify, Iota;
    SentExactly(Optimistic(ts, guess), q.token, q.wantsAlias, q.found, q.slot);
    assert (ts + [q.token])[..|ts|] == ts;
  }

  /** The sender registers the token under its next number, and the receiver has no room for it. */
  ghost predicate Overflows(client: Cache, server: Cache, t: Token) {
    && Valid(client) && ChoosesAliases(client) && Valid(server)
    && IsLookup(client, t, None)
    && Aliasify(client, t, true, None, t).Sends?
    && Messages(Aliasify(client, t, true, None, t).sent) == [RegisterToken(client.nextAlias, t)]
    && Receive(server, RegisterToken(client.nextAlias, t)) == Failure(LimitExceeded)
  }

  /**
    A run that falls out of step: the client sends three different tokens in CLIENT_SETUP, which the server accepts,
    and learns of a limit of 100; its next REGISTER overflows the server's cache.
   */
  lemma {:induction false} SetupCanOverflow(a: Token, b: Token, s: Token, last: Token)
    requires |a.value| == |b.value| == 44 && a != b && |s.value| == 14 && |last.value| == 24
    ensures var ts, requests := [a, b, s], [Request(a, true, None, b), Request(b, true, None, s), Request(s, true, None, s)];
      && Valid(Empty(1024)) && ChoosesAliases(Empty(1024)) && Plausible(Empty(1024), requests)
      && ReadSetup(Empty(100), Messages(SendAll(Empty(1024), requests))) == Some(ServerKeeps(ts, 100))
      && After(Empty(1024), SendAll(Empty(1024), requests)) == Optimistic(ts, 1024)
      && Total(ts) <= 1024 && Overflows(Learned(ts, 1024, 100), ServerKeeps(ts, 100), last)
  {
    hide Valid, ChoosesAliases, Plausible, SendAll, ReadSetup, Messages, ServerKeeps, Optimistic, Learned, Aliasify, IsLookup;
    var ts, requests := [a, b, s], [Request(a, true, None, b), Request(b, true, None, s), Request(s, true, None, s)];
    SetupTotals(a, b, s);
    ThreeAdmissible(a, b, s);
    assert [] + ts == ts;
    FreshTokensAreSent([], 1024, requests);
    NothingRegistered(1024);
    SetupIsAccepted(1024, requests, 100);
    ClientKeepsOne(a, b, s, last);
    ServerKeepsTwo(a, b, s);
  }

  lemma {:induction false} SetupTotals(a: Token, b: Token, s: Token)
    requires |a.value| == |b.value| == 44 && |s.value| == 14
    ensures Total([]) == 0 && Total([a]) == 60 && Total([a, b]) == 120 && Total([a, b, s]) == 150
  {
    assert [a, b, s][..2] == [a, b] && [a, b][..1] == [a] && [a][..0] == [];
  }

  lemma {:induction false} ThreeAdmissible(a: Token, b: Token, s: Token)
    requires |a.value| == |b.value| == 44 && a != b && |s.value| == 14
    ensures var requests := [Request(a, true, None, b), Request(b, true, None, s), Request(s, true, None, s)];
      && (forall i :: 0 <= i < 3 ==> Wanted(1024, requests[i]) && requests[i].found.None?)
      && Admissible([], 1024, requests) && Registered(1024, requests) == [a, b, s]
  {
    SetupTotals(a, b, s);
    hide Total;
    var q, r, t := Request(a, true, None, b), Request(b, true, None, s), Request(s, true, None, s);
    assert Admissible([a, b, s], 1024, []) && Registered(1024, []) == [];
    hide Admissible, Registered, Wanted, CachedSize;
    assert CachedSize(b) == 60 && CachedSize(s) == 30 by { Sizes(b, s); }
    assert Wanted(1024, t) && Admissible([a, b], 1024, [t]) && Registered(1024, [t]) == [s] by {
      assert [a, b] + [s] == [a, b, s];
      AdmissibleCons([a, b], t, []);
      assert [t] + [] == [t] && [s] + [] == [s];
    }
    assert Wanted(1024, r) && Admissible([a], 1024, [r, t]) && Registered(1024, [r, t]) == [b, s] by {
      assert [a] + [b] == [a, b];
      AdmissibleCons([a], r, [t]);
      assert [r] + [t] == [r, t] && [b] + [s] == [b, s];
    }
    assert Wanted(1024, q) && Admissible([], 1024, [q, r, t]) && Registered(1024, [q, r, t]) == [a, b, s] by {
      assert [] + [a] == [a];
      AdmissibleCons([], q, [r, t]);
      assert [q] + [r, t] == [q, r, t] && [a] + [b, s] == [a, b, s];
    }
  }

  lemma {:induction false} Sizes(b: Token, s: Token)
    requires |b.value| == 44 && |s.value| == 14
    ensures CachedSize(b) == 60 && CachedSize(s) == 30
  {
  }

  lemma {:induction false} AdmissibleCons(ts: seq<Token>, q: Request, rest: seq<Request>)
    requires |q.token.value| < 1008 && q.wantsAlias && q.token !in ts && Total(ts) + CachedSize(q.slot) <= 1024
    requires Admissible(ts + [q.token], 1024, rest)
    ensures Wanted(1024, q) && Admissible(ts, 1024, [q] + rest)
    ensures Registered(1024, [q] + rest) == [q.token] + Registered(1024, rest)
  {
    hide Total;
    assert ([q] + rest)[1..] == rest;
  }

  lemma {:induction false} ClientKeepsOne(a: Token, b: Token, s: Token, last: Token)
    requires |a.value| == |b.value| == 44 && |s.value| == 14 && |last.value| == 24
    ensures Total([a, b, s]) <= 1024
    ensures var client := Learned([a, b, s], 1024, 100);
      && Valid(client) && ChoosesAliases(client) && client.nextAlias == 3 && IsLookup(client, last, None)
      && Aliasify(client, last, true, None, last).Sends?
      && Messages(Aliasify(client, last, true, None, last).sent) == [RegisterToken(3, last)]
  {
    hide Valid, Shrink;
    var ts := [a, b, s];
    SetupTotals(a, b, s);
    assert ts[..2] == [a, b] && [a, b][..1] == [a] && ts[..1] == [a];
    OptimisticIsReached(ts, 1024);
    OptimisticIsReached([a], 100);
    ShrinkKeepsPrefix(ts, 1024, 3, 100);
    assert Optimistic(ts, 1024).(nextAlias := 3) == Optimistic(ts, 1024);
    assert Kept([a], 100) == 1;
    assert Kept([a, b], 100) == 1;
    assert Kept(ts, 100) == 1;
    var client := Learned(ts, 1024, 100);
    assert client == Optimistic([a], 100).(nextAlias := 3);
    NumberedIsValid([a], 100, 3);
    assert MakeRoom(client, last) == Some((client, []));
    assert SendDeletes(client, []) == [];
    var only := Sent(RegisterToken(3, last), Register(client, last).value);
    assert [] + [only] == [only];
    OneMessage(only);
  }

  lemma {:induction false} NumberedIsValid(ts: seq<Token>, guess: nat, next: Alias)
    requires Valid(Optimistic(ts, guess)) && |ts| <= next
    ensures Valid(Optimistic(ts, guess).(nextAlias := next)) && ChoosesAliases(Optimistic(ts, guess).(nextAlias := next))
  {
  }

  lemma {:induction false} ServerKeepsTwo(a: Token, b: Token, s: Token)
    requires |a.value| == |b.value| == 44 && |s.value| == 14
    ensures ServerKeeps([a, b, s], 100).total == 90 && 3 !in ServerKeeps([a, b, s], 100).tokens
  {
    hide Interpret, ServerKeeps, Valid;
    SetupTotals(a, b, s);
    var ts := [a, b, s];
    assert ts[..2] == [a, b] && [a, b][..1] == [a];
    ServerKeepsAll([a], 100);
    ServerStep([a, b], 100);
    ServerStep(ts, 100);
  }
}
