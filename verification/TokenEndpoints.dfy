/** The two ends of the token alias protocol as they work on a MoQTokenCache. */
module TokenEndpoints {
  import opened Bytes
  import opened Wire
  import opened TokenCache
  import opened TokenMirror
  import opened TokenWire

  /** The messages for each token of a run. */
  function Groups(c: Cache, requests: seq<Request>): (gs: seq<seq<Message>>)
    requires Valid(c) && ChoosesAliases(c) && Plausible(c, requests)
    ensures |gs| == |requests|
    decreases |requests|
  {
    if requests == [] then []
    else
      var q := requests[0];
      AttemptStaysValid(c, q);
      var sent := Attempted(c, q).sent;
      [Messages(sent)] + Groups(After(c, sent), requests[1..])
  }

  /** One more token at the end of the run. */
  lemma {:induction false} SendAllSnoc(c: Cache, requests: seq<Request>, q: Request)
    requires Valid(c) && ChoosesAliases(c) && Plausible(c, requests)
    requires IsLookup(After(c, SendAll(c, requests)), q.token, q.found)
    requires var c' := After(c, SendAll(c, requests)); Valid(c') && ChoosesAliases(c') && Attempted(c', q).Sends?
    ensures var sent := Attempted(After(c, SendAll(c, requests)), q).sent;
      && Plausible(c, requests + [q])
      && SendAll(c, requests + [q]) == SendAll(c, requests) + sent
      && Groups(c, requests + [q]) == Groups(c, requests) + [Messages(sent)]
    decreases |requests|
  {
    hide Valid, ChoosesAliases, Attempted, IsLookup, Messages, After, SendAll, Plausible, Groups;
    if requests == [] {
      EmptyRun(c);
      OneTokenRun(c, q);
    } else {
      var p := requests[0];
      RunUnfolds(c, requests);
      var sent := Attempted(c, p).sent;
      var rest := SendAll(After(c, sent), requests[1..]);
      AfterConcat(c, sent, rest);
      SendAllSnoc(After(c, sent), requests[1..], q);
      var last := Attempted(After(After(c, sent), rest), q).sent;
      RunFolds(c, p, requests[1..] + [q]);
      assert [p] + (requests[1..] + [q]) == requests + [q];
      assert sent + (rest + last) == (sent + rest) + last;
    }
  }

  lemma {:induction false} RunUnfolds(c: Cache, requests: seq<Request>)
    requires Valid(c) && ChoosesAliases(c) && requests != [] && Plausible(c, requests)
    ensures IsLookup(c, requests[0].token, requests[0].found) && Attempted(c, requests[0]).Sends?
    ensures var sent := Attempted(c, requests[0]).sent;
      && Valid(After(c, sent)) && ChoosesAliases(After(c, sent)) && Plausible(After(c, sent), requests[1..])
      && SendAll(c, requests) == sent + SendAll(After(c, sent), requests[1..])
      && Groups(c, requests) == [Messages(sent)] + Groups(After(c, sent), requests[1..])
  {
    hide Valid, ChoosesAliases, Attempted, IsLookup, Messages, After;
    AttemptStaysValid(c, requests[0]);
  }

  lemma {:induction false} RunFolds(c: Cache, p: Request, rest: seq<Request>)
    requires Valid(c) && ChoosesAliases(c) && IsLookup(c, p.token, p.found) && Attempted(c, p).Sends?
    requires var c' := After(c, Attempted(c, p).sent); Valid(c') && ChoosesAliases(c') && Plausible(c', rest)
    ensures var sent := Attempted(c, p).sent;
      && Plausible(c, [p] + rest)
      && SendAll(c, [p] + rest) == sent + SendAll(After(c, sent), rest)
      && Groups(c, [p] + rest) == [Messages(sent)] + Groups(After(c, sent), rest)
  {
    hide Valid, ChoosesAliases, Attempted, IsLookup, Messages, After;
    assert ([p] + rest)[1..] == rest;
  }

  lemma {:induction false} EmptyRun(c: Cache)
    requires Valid(c) && ChoosesAliases(c)
    ensures Plausible(c, []) && SendAll(c, []) == [] && After(c, []) == c && Groups(c, []) == []
  {
    hide Valid, ChoosesAliases;
  }

  lemma {:induction false} OneTokenRun(c: Cache, q: Request)
    requires Valid(c) && ChoosesAliases(c) && IsLookup(c, q.token, q.found) && Attempted(c, q).Sends?
    ensures var sent := Attempted(c, q).sent;
      Plausible(c, [] + [q]) && SendAll(c, [] + [q]) == [] + sent && Groups(c, [] + [q]) == [] + [Messages(sent)]
  {
    hide Valid, ChoosesAliases, Attempted, IsLookup, Messages, After, SendAll, Plausible, Groups;
    AttemptStaysValid(c, q);
    var sent := Attempted(c, q).sent;
    EmptyRun(After(c, sent));
    RunFolds(c, q, []);
    assert [] + [q] == [q] + [];
    assert sent + [] == sent == [] + sent;
    assert [Messages(sent)] + [] == [] + [Messages(sent)];
  }

  function Deletions(aliases: seq<Alias>): (ms: seq<Message>)
    ensures |ms| == |aliases|
  {
    seq(|aliases|, i requires 0 <= i < |aliases| => DeleteAlias(aliases[i]))
  }

  lemma {:induction false} DeleteMessages(c: Cache, aliases: seq<Alias>)
    requires Valid(c) && Deletable(c, aliases)
    ensures Messages(SendDeletes(c, aliases)) == Deletions(aliases)
    decreases |aliases|
  {
    hide Valid;
    if aliases != [] {
      WithoutValid(c, aliases[0]);
      var c' := Without(c, aliases[0]);
      DeleteMessages(c', aliases[1..]);
      MessagesConcat([Sent(DeleteAlias(aliases[0]), c')], SendDeletes(c', aliases[1..]));
      assert Deletions(aliases) == [DeleteAlias(aliases[0])] + Deletions(aliases[1..]);
    }
  }

  // ---------------------------------------------------------------- the sender's parameter list

  /** A parameter that is no token, one that holds a token, and one that holds its encoded form. */
  datatype Parameter = Other(key: u64) | Auth(token: Token, wantsAlias: bool) | Encoded(message: Message)

  /** What a reference to a parameter's token reads. */
  function TokenIn(p: Parameter): Token { if p.Auth? then p.token else NO_TOKEN }

  /** The same at a slot of the list; past its end, whatever is left there. */
  function Slot(ps: seq<Parameter>, i: nat, leftover: Token): Token { if i < |ps| then TokenIn(ps[i]) else leftover }

  function EncodeAll(ms: seq<Message>): (ps: seq<Parameter>)
    ensures |ps| == |ms|
  {
    seq(|ms|, i requires 0 <= i < |ms| => Encoded(ms[i]))
  }

  lemma EncodeSnoc(ms: seq<Message>, m: Message)
    ensures EncodeAll(ms + [m]) == EncodeAll(ms) + [Encoded(m)]
  {
  }

  /** The tokens among the first i parameters, whether each may have an alias, and the slot tested for it. */
  function Auths(ps: seq<Parameter>, i: nat, aliasing: bool, leftover: Token): seq<(Token, bool, Token)>
    requires i <= |ps|
  {
    if i == 0 then []
    else if ps[i - 1].Auth? then
      Auths(ps, i - 1, aliasing, leftover) + [(ps[i - 1].token, ps[i - 1].wantsAlias && aliasing, Slot(ps, i, leftover))]
    else Auths(ps, i - 1, aliasing, leftover)
  }

  /** The first i parameters with each token replaced by its messages, and the others in their places. */
  function Layout(ps: seq<Parameter>, i: nat, groups: seq<seq<Message>>): seq<Parameter>
    requires i <= |ps|
  {
    if i == 0 then []
    else if ps[i - 1].Auth? then
      if groups == [] then []
      else Layout(ps, i - 1, groups[..|groups| - 1]) + EncodeAll(groups[|groups| - 1])
    else Layout(ps, i - 1, groups) + [ps[i - 1]]
  }

  class Parameters {
    var params: seq<Parameter>

    constructor (params: seq<Parameter>)
      ensures this.params == params
    {
      this.params := params;
    }

    method EraseParam(position: nat)
      requires position < |params|
      modifies this
      ensures params == old(params)[..position] + old(params)[position + 1..]
    {
      params := params[..position] + params[position + 1..];
    }

    method InsertParam(position: nat, p: Parameter)
      requires position <= |params|
      modifies this
      ensures params == old(params)[..position] + [p] + old(params)[position..]
    {
      params := params[..position] + [p] + params[position..];
    }

    method ModifyString(position: nat, m: Message)
      requires position < |params|
      modifies this
      ensures params == old(params)[..position] + [Encoded(m)] + old(params)[position + 1..]
    {
      params := params[position := Encoded(m)];
    }
  }

  /** The eviction loop: it tests the slot the erased parameter had, and announces what it evicts from there on. */
  method EvictForSlot(cache: MoQTokenCache, params: Parameters, slot: nat, leftover: Token)
    returns (position: nat, ok: bool, ghost evicted: seq<Alias>)
    requires Valid(cache.Model()) && slot <= |params.params|
    modifies cache, params
    ensures var room := MakeRoom(old(cache.Model()), Slot(old(params.params), slot, leftover));
      && ok == room.Some?
      && (ok ==> (cache.Model(), evicted) == room.value)
    ensures Valid(cache.Model())
    ensures ok ==>
      && params.params == old(params.params)[..slot] + EncodeAll(Deletions(evicted)) + old(params.params)[slot..]
      && position == slot + |evicted|
  {
    hide Valid, EncodeAll, Deletions;
    ghost var ps := params.params;
    ghost var goal := MakeRoom(cache.Model(), Slot(ps, slot, leftover));
    position, ok, evicted := slot, true, [];
    assert ps == ps[..slot] + [] + ps[slot..];
    NotYetPrefixed(goal);
    while !CanRegister(cache.Model(), Slot(params.params, slot, leftover))
      invariant Valid(cache.Model()) && position == slot + |evicted|
      invariant params.params == ps[..slot] + EncodeAll(Deletions(evicted)) + ps[slot..]
      invariant goal == Prefixed(evicted, MakeRoom(cache.Model(), Slot(params.params, slot, leftover)))
      decreases |cache.lru|
    {
      if cache.lru == [] {
        return position, false, evicted;
      }
      ghost var c := cache.Model();
      EvictionStep(c, Slot(params.params, slot, leftover), evicted);
      var alias := cache.EvictLRU();
      params.InsertParam(position, Encoded(DeleteAlias(alias)));
      Announced(ps, slot, evicted, alias, leftover);
      evicted := evicted + [alias];
      position := position + 1;
    }
    assert evicted + [] == evicted;
  }

  /** Prefixed to what the rest of the loop evicts. */
  function Prefixed(evicted: seq<Alias>, room: Option<(Cache, seq<Alias>)>): Option<(Cache, seq<Alias>)> {
    if room.None? then None else Some((room.value.0, evicted + room.value.1))
  }
  lemma NotYetPrefixed(room: Option<(Cache, seq<Alias>)>)
    ensures Prefixed([], room) == room
  {
    if room.Some? {
      assert [] + room.value.1 == room.value.1;
    }
  }

  lemma {:induction false} EvictionStep(c: Cache, tested: Token, evicted: seq<Alias>)
    requires Valid(c) && !CanRegister(c, tested) && c.lru != []
    ensures var a := c.lru[0];
      && a in c.tokens && CachedSize(c.tokens[a]) <= c.total && Valid(Without(c, a)) && |Remove(c.lru, a)| < |c.lru|
      && Prefixed(evicted, MakeRoom(c, tested)) == Prefixed(evicted + [a], MakeRoom(Without(c, a), NO_TOKEN))
  {
    var a := c.lru[0];
    WithoutValid(c, a);
    RemoveMembers(c.lru, a);
    var rest := MakeRoom(Without(c, a), NO_TOKEN);
    if rest.Some? {
      assert evicted + ([a] + rest.value.1) == (evicted + [a]) + rest.value.1;
    }
  }

  lemma Announced(ps: seq<Parameter>, slot: nat, evicted: seq<Alias>, alias: Alias, leftover: Token)
    requires slot <= |ps|
    ensures var before := ps[..slot] + EncodeAll(Deletions(evicted)) + ps[slot..];
      var after := ps[..slot] + EncodeAll(Deletions(evicted + [alias])) + ps[slot..];
      && before[..slot + |evicted|] + [Encoded(DeleteAlias(alias))] + before[slot + |evicted|..] == after
      && Slot(after, slot, leftover) == NO_TOKEN
  {
    var before := ps[..slot] + EncodeAll(Deletions(evicted)) + ps[slot..];
    var after := ps[..slot] + EncodeAll(Deletions(evicted + [alias])) + ps[slot..];
    assert Deletions(evicted + [alias]) == Deletions(evicted) + [DeleteAlias(alias)];
    EncodeSnoc(Deletions(evicted), DeleteAlias(alias));
    assert before[..slot + |evicted|] == ps[..slot] + EncodeAll(Deletions(evicted));
    assert before[slot + |evicted|..] == ps[slot..];
    assert after[slot] == EncodeAll(Deletions(evicted + [alias]))[0];
  }

  /** The list with the parameter at a position replaced with some others. */
  function Replaced(ps: seq<Parameter>, position: nat, with: seq<Parameter>): seq<Parameter>
    requires position < |ps|
  {
    ps[..position] + with + ps[position + 1..]
  }

  /** The body of the sender's loop: one token parameter becomes one or more, or the sender fails. */
  method AliasifyToken(cache: MoQTokenCache, params: Parameters, position: nat, aliasing: bool, leftover: Token)
    returns (next: nat, ok: bool, ghost found: Option<Alias>)
    requires Valid(cache.Model()) && ChoosesAliases(cache.Model())
    requires position < |params.params| && params.params[position].Auth?
    modifies cache, params
    ensures var p := old(params.params)[position];
      && IsLookup(old(cache.Model()), p.token, found)
      && var attempt := Aliasify(old(cache.Model()), p.token, p.wantsAlias && aliasing, found,
                                 Slot(old(params.params), position + 1, leftover));
      && ok == attempt.Sends?
      && (ok ==>
            && cache.Model() == After(old(cache.Model()), attempt.sent)
            && params.params == Replaced(old(params.params), position, EncodeAll(Messages(attempt.sent)))
            && next == position + |attempt.sent|)
  {
    hide Valid, MakeRoom, SendDeletes, Deletable, Messages, EncodeAll, Deletions;
    ghost var c, ps := cache.Model(), params.params;
    var token := params.params[position].token;
    var lookup := cache.GetAliasForToken(token);
    found, ok, next := lookup, true, position + 1;
    if params.params[position].wantsAlias && aliasing && |token.value| < MaxTokenSize(cache.Model()) {
      if lookup.Some? {
        params.ModifyString(position, UseAlias(lookup.value));
        OneEncoded(Sent(UseAlias(lookup.value), c));
        return;
      }
      params.EraseParam(position);
      ghost var evicted;
      next, ok, evicted := EvictForSlot(cache, params, position, leftover);
      if !ok {
        return;
      }
      ghost var room := cache.Model();
      var alias := cache.RegisterToken(token);
      if alias.Failure? {
        ok := false;
        return;
      }
      params.InsertParam(next, Encoded(RegisterToken(alias.value, token)));
      next := next + 1;
      RoomIsDeletable(c, Slot(ps, position + 1, leftover));
      RegisteredLast(c, evicted, Sent(RegisterToken(alias.value, token), cache.Model()));
      Rejoined(ps, position, EncodeAll(Deletions(evicted)), Encoded(RegisterToken(alias.value, token)));
    } else {
      params.ModifyString(position, UseValue(token));
      OneEncoded(Sent(UseValue(token), c));
    }
  }

  lemma OneEncoded(sent: Sent)
    ensures EncodeAll(Messages([sent])) == [Encoded(sent.message)]
  {
  }

  lemma {:induction false} RegisteredLast(c: Cache, evicted: seq<Alias>, last: Sent)
    requires Valid(c) && Deletable(c, evicted)
    ensures var sent := SendDeletes(c, evicted) + [last];
      && EncodeAll(Messages(sent)) == EncodeAll(Deletions(evicted)) + [Encoded(last.message)]
      && |sent| == |evicted| + 1
  {
    hide Valid, Deletable;
    DeleteMessages(c, evicted);
    MessagesConcat(SendDeletes(c, evicted), [last]);
    OneMessage(last);
    EncodeSnoc(Deletions(evicted), last.message);
  }

  /** Erasing a parameter and inserting others in its place replaces it. */
  lemma Rejoined(ps: seq<Parameter>, position: nat, dels: seq<Parameter>, last: Parameter)
    requires position < |ps|
    ensures var erased := ps[..position] + ps[position + 1..];
      var before := erased[..position] + dels + erased[position..];
      var p := position + |dels|;
      before[..p] + [last] + before[p..] == Replaced(ps, position, dels + [last])
  {
    var erased := ps[..position] + ps[position + 1..];
    assert erased[..position] == ps[..position] && erased[position..] == ps[position + 1..];
    var before := erased[..position] + dels + erased[position..];
    var p := position + |dels|;
    assert before[..p] == ps[..position] + dels && before[p..] == ps[position + 1..];
  }

  ghost predicate Matches(requests: seq<Request>, auths: seq<(Token, bool, Token)>) {
    && |requests| == |auths|
    && forall i :: 0 <= i < |requests| ==> (requests[i].token, requests[i].wantsAlias, requests[i].slot) == auths[i]
  }

  /** The sender cannot go on: a token to be cached, not cached yet, for which the eviction loop leaves no room. */
  ghost predicate Stuck(c: Cache, auth: (Token, bool, Token)) {
    && Cacheable(c, auth.0, auth.1)
    && (forall a :: a in c.tokens ==> c.tokens[a] != auth.0)
    && !LeavesRoom(c, auth.0, auth.2)
  }

  /**
    aliasifyAuthTokens. Either every token is sent, its messages in its place among the other parameters, or the
    sender fails at the first token the loop leaves no room for.
   */
  method AliasifyAuthTokens(cache: MoQTokenCache, params: Parameters, aliasing: bool, leftover: Token)
    returns (ok: bool, ghost requests: seq<Request>)
    requires Valid(cache.Model()) && ChoosesAliases(cache.Model())
    requires forall i :: 0 <= i < |params.params| ==> !params.params[i].Encoded?
    modifies cache, params
    ensures Plausible(old(cache.Model()), requests)
    ensures var ps := old(params.params);
      var auths := Auths(ps, |ps|, aliasing, leftover);
      var c' := After(old(cache.Model()), SendAll(old(cache.Model()), requests));
      if ok then
        && Matches(requests, auths)
        && params.params == Layout(ps, |ps|, Groups(old(cache.Model()), requests))
        && cache.Model() == c' && Valid(c') && ChoosesAliases(c')
      else
        && |requests| < |auths|
        && Matches(requests, auths[..|requests|])
        && Stuck(c', auths[|requests|])
  {
    hide Valid, ChoosesAliases, Aliasify, IsLookup, Doing, Plausible, SendAll, Groups, Layout, Auths, Stuck, Slot, Replaced;
    ghost var c, ps := cache.Model(), params.params;
    ghost var i: nat := 0;
    var position: nat := 0;
    ok, requests := true, [];
    Begun(c, ps, aliasing, leftover);
    while position < |params.params|
      invariant Valid(cache.Model()) && ChoosesAliases(cache.Model())
      invariant Doing(c, ps, i, requests, aliasing, leftover, cache.Model(), params.params, position)
      decreases |ps| - i
    {
      AtParameter(c, ps, i, requests, aliasing, leftover, cache.Model(), params.params, position);
      if !params.params[position].Auth? {
        PastOther(c, ps, i, requests, aliasing, leftover, cache.Model(), params.params, position);
        position := position + 1;
      } else {
        ghost var now, list, at := cache.Model(), params.params, position;
        ghost var found;
        position, ok, found := AliasifyToken(cache, params, position, aliasing, leftover);
        ghost var q := Request(ps[i].token, ps[i].wantsAlias && aliasing, found, Slot(ps, i + 1, leftover));
        if !ok {
          StuckHere(c, ps, i, requests, q, aliasing, leftover, now, list, at);
          return;
        }
        PastToken(c, ps, i, requests, q, aliasing, leftover, now, list, at);
        requests := requests + [q];
      }
      i := i + 1;
    }
    AllDone(c, ps, i, requests, aliasing, leftover, cache.Model(), params.params, position);
  }

  /** The loop has dealt with the first i parameters. */
  ghost predicate Doing(c: Cache, ps: seq<Parameter>, i: nat, requests: seq<Request>, aliasing: bool, leftover: Token,
                        now: Cache, list: seq<Parameter>, position: nat)
    requires Valid(c) && ChoosesAliases(c)
  {
    && i <= |ps|
    && Plausible(c, requests)
    && now == After(c, SendAll(c, requests))
    && Matches(requests, Auths(ps, i, aliasing, leftover))
    && position == |Layout(ps, i, Groups(c, requests))|
    && list == Layout(ps, i, Groups(c, requests)) + ps[i..]
  }

  lemma Begun(c: Cache, ps: seq<Parameter>, aliasing: bool, leftover: Token)
    requires Valid(c) && ChoosesAliases(c)
    ensures Doing(c, ps, 0, [], aliasing, leftover, c, ps, 0)
  {
    hide Valid, ChoosesAliases;
    assert [] + ps[0..] == ps;
  }

  lemma AtParameter(c: Cache, ps: seq<Parameter>, i: nat, requests: seq<Request>, aliasing: bool, leftover: Token,
                    now: Cache, list: seq<Parameter>, position: nat)
    requires Valid(c) && ChoosesAliases(c) && Doing(c, ps, i, requests, aliasing, leftover, now, list, position)
    requires position < |list|
    ensures i < |ps| && list[position] == ps[i] && Slot(list, position + 1, leftover) == Slot(ps, i + 1, leftover)
  {
    hide Valid, ChoosesAliases, Plausible, SendAll, Groups, Auths;
    SlotOfRest(Layout(ps, i, Groups(c, requests)), ps, i, leftover);
  }

  lemma PastOther(c: Cache, ps: seq<Parameter>, i: nat, requests: seq<Request>, aliasing: bool, leftover: Token,
                  now: Cache, list: seq<Parameter>, position: nat)
    requires Valid(c) && ChoosesAliases(c) && Doing(c, ps, i, requests, aliasing, leftover, now, list, position)
    requires i < |ps| && !ps[i].Auth?
    ensures Doing(c, ps, i + 1, requests, aliasing, leftover, now, list, position + 1)
  {
    hide Valid, ChoosesAliases, Plausible, SendAll, Groups;
    var done := Layout(ps, i, Groups(c, requests));
    assert done + ps[i..] == (done + [ps[i]]) + ps[i + 1..];
  }

  lemma PastToken(c: Cache, ps: seq<Parameter>, i: nat, requests: seq<Request>, q: Request, aliasing: bool, leftover: Token,
                  now: Cache, list: seq<Parameter>, position: nat)
    requires Valid(c) && ChoosesAliases(c) && Doing(c, ps, i, requests, aliasing, leftover, now, list, position)
    requires i < |ps| && ps[i].Auth? && position < |list|
    requires (q.token, q.wantsAlias, q.slot) == (ps[i].token, ps[i].wantsAlias && aliasing, Slot(ps, i + 1, leftover))
    requires Valid(now) && ChoosesAliases(now) && IsLookup(now, q.token, q.found) && Attempted(now, q).Sends?
    ensures var sent := Attempted(now, q).sent;
      && Doing(c, ps, i + 1, requests + [q], aliasing, leftover, After(now, sent),
               Replaced(list, position, EncodeAll(Messages(sent))), position + |sent|)
      && Valid(After(now, sent)) && ChoosesAliases(After(now, sent))
  {
    hide Valid, ChoosesAliases, Plausible, SendAll, Groups, Layout, Attempted, IsLookup, EncodeAll, Messages, Replaced, Slot;
    var sent := Attempted(now, q).sent;
    AttemptStaysValid(now, q);
    SendAllSnoc(c, requests, q);
    AfterConcat(c, SendAll(c, requests), sent);
    OneToken(ps, i, Groups(c, requests), Messages(sent));
  }

  lemma {:induction false} AllDone(c: Cache, ps: seq<Parameter>, i: nat, requests: seq<Request>, aliasing: bool, leftover: Token,
                now: Cache, list: seq<Parameter>, position: nat)
    requires Valid(c) && ChoosesAliases(c) && Doing(c, ps, i, requests, aliasing, leftover, now, list, position)
    requires position >= |list|
    ensures Plausible(c, requests) && now == After(c, SendAll(c, requests))
    ensures Matches(requests, Auths(ps, |ps|, aliasing, leftover)) && list == Layout(ps, |ps|, Groups(c, requests))
  {
    hide Valid, ChoosesAliases, Plausible, SendAll, Groups, Layout, Auths;
    assert ps[|ps|..] == [];
  }

  lemma {:induction false} StuckHere(c: Cache, ps: seq<Parameter>, i: nat, requests: seq<Request>, q: Request, aliasing: bool, leftover: Token,
                  now: Cache, list: seq<Parameter>, position: nat)
    requires Valid(c) && ChoosesAliases(c) && Doing(c, ps, i, requests, aliasing, leftover, now, list, position)
    requires i < |ps| && ps[i].Auth?
    requires (q.token, q.wantsAlias, q.slot) == (ps[i].token, ps[i].wantsAlias && aliasing, Slot(ps, i + 1, leftover))
    requires Valid(now) && ChoosesAliases(now) && IsLookup(now, q.token, q.found) && !Attempted(now, q).Sends?
    ensures Plausible(c, requests) && now == After(c, SendAll(c, requests))
    ensures var auths := Auths(ps, |ps|, aliasing, leftover);
      && |requests| < |auths|
      && Matches(requests, auths[..|requests|])
      && Stuck(now, auths[|requests|])
  {
    hide Valid, ChoosesAliases, Plausible, SendAll, Groups, Layout, Auths, Stuck, Attempted, IsLookup, Slot;
    AuthsPrefix(ps, i, aliasing, leftover);
    FailsHere(now, q);
  }

  lemma SlotOfRest(done: seq<Parameter>, ps: seq<Parameter>, i: nat, leftover: Token)
    requires i < |ps|
    ensures Slot(done + ps[i..], |done| + 1, leftover) == Slot(ps, i + 1, leftover)
  {
  }

  lemma OneToken(ps: seq<Parameter>, i: nat, groups: seq<seq<Message>>, ms: seq<Message>)
    requires i < |ps| && ps[i].Auth?
    ensures var done := Layout(ps, i, groups);
      && Layout(ps, i + 1, groups + [ms]) == done + EncodeAll(ms)
      && Replaced(done + ps[i..], |done|, EncodeAll(ms)) == (done + EncodeAll(ms)) + ps[i + 1..]
  {
    assert (groups + [ms])[..|groups + [ms]| - 1] == groups;
    var done := Layout(ps, i, groups);
    assert (done + ps[i..])[|done| + 1..] == ps[i + 1..];
  }

  lemma FailsHere(c: Cache, q: Request)
    requires Valid(c) && ChoosesAliases(c) && IsLookup(c, q.token, q.found) && !Attempted(c, q).Sends?
    ensures Stuck(c, (q.token, q.wantsAlias, q.slot))
  {
    hide Valid, ChoosesAliases, Aliasify;
    SentExactly(c, q.token, q.wantsAlias, q.found, q.slot);
  }

  lemma {:induction false} AuthsPrefix(ps: seq<Parameter>, i: nat, aliasing: bool, leftover: Token)
    requires i < |ps| && ps[i].Auth?
    ensures var all, n := Auths(ps, |ps|, aliasing, leftover), |Auths(ps, i, aliasing, leftover)|;
      && n < |all|
      && all[..n] == Auths(ps, i, aliasing, leftover)
      && all[n] == (ps[i].token, ps[i].wantsAlias && aliasing, Slot(ps, i + 1, leftover))
  {
    AuthsGrow(ps, i + 1, |ps|, aliasing, leftover);
  }

  lemma {:induction false} AuthsGrow(ps: seq<Parameter>, i: nat, j: nat, aliasing: bool, leftover: Token)
    requires i <= j <= |ps|
    ensures Auths(ps, i, aliasing, leftover) <= Auths(ps, j, aliasing, leftover)
    decreases j
  {
    if i < j {
      AuthsGrow(ps, i, j - 1, aliasing, leftover);
    }
  }

  /** parseAuthToken, reading `s` and updating the cache. */
  method ParseAuthTokenInto(cache: MoQTokenCache, s: bytes, isClientSetup: bool) returns (r: AuthResult)
    requires Valid(cache.Model())
    modifies cache
    ensures AuthOutcome(cache.Model(), r) == ParseAuthToken(old(cache.Model()), s, isClientSetup)
    ensures Valid(cache.Model())
  {
    hide Valid;
    var kind := ReadVarint(s);
    if kind.None? {
      return Rejected(Underflowed);
    }
    var (aliasType, s1) := kind.value;
    if aliasType > USE_VALUE {
      return Rejected(Violated);
    }
    if aliasType == DELETE_ALIAS || aliasType == USE_ALIAS {
      if isClientSetup {
        return Rejected(Violated);
      }
      var alias := ReadVarint(s1);
      if alias.None? {
        return Rejected(Underflowed);
      }
      var (a, s2) := alias.value;
      if aliasType == DELETE_ALIAS {
        var deleted := cache.DeleteToken(a);
        if deleted.Failure? {
          return Rejected(UnknownAuthTokenAlias);
        }
        r := Accepted(None);
      } else {
        var found := cache.GetTokenForAlias(a);
        if found.None? {
          return Rejected(UnknownAuthTokenAlias);
        }
        r := Accepted(Some(found.value));
      }
      if s2 != [] {
        return Rejected(Violated);
      }
      return;
    }
    if aliasType == REGISTER {
      var alias := ReadVarint(s1);
      if alias.None? {
        return Rejected(Underflowed);
      }
      var (a, s2) := alias.value;
      var typ := ReadVarint(s2);
      if typ.None? {
        return Rejected(Underflowed);
      }
      var token := Token(typ.value.0, typ.value.1);
      if !isClientSetup || CanRegister(cache.Model(), token) {
        var registered := cache.RegisterTokenAs(a, token);
        if registered.Failure? {
          return Rejected(ErrorOf(registered.error));
        }
      }
      return Accepted(Some(token));
    }
    var typ := ReadVarint(s1);
    if typ.None? {
      return Rejected(Underflowed);
    }
    return Accepted(Some(Token(typ.value.0, typ.value.1)));
  }
}
