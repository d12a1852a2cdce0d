/** The bounded auth-token alias cache (MoQTokenCache) and the protocol that keeps two copies of it equal. */
module TokenCache {
  import opened Bytes

  const TOKEN_OVERHEAD: nat := 16

  type Alias = nat
  datatype Token = Token(typ: u64, value: bytes)

  function CachedSize(t: Token): nat { |t.value| + TOKEN_OVERHEAD }

  datatype CacheError = DuplicateAlias | LimitExceeded | UnknownAlias

  datatype Result<+T> = Success(value: T) | Failure(error: CacheError)

  /** aliasToToken_, lru_ (oldest first), maxSize_, nextAlias_ and totalSize_. */
  datatype Cache = Cache(tokens: map<Alias, Token>, lru: seq<Alias>, maxSize: nat, nextAlias: Alias, total: nat)

  function Empty(maxSize: nat): Cache { Cache(map[], [], maxSize, 0, 0) }

  // ---------------------------------------------------------------- the invariant

  predicate NoDuplicates(s: seq<Alias>) { forall i, j :: 0 <= i < j < |s| ==> s[i] != s[j] }

  ghost predicate Lists(s: seq<Alias>, m: map<Alias, Token>) { NoDuplicates(s) && forall a :: a in s <==> a in m }

  function Sum(s: seq<Alias>, m: map<Alias, Token>): nat
    requires forall a :: a in s ==> a in m
  {
    if s == [] then 0 else CachedSize(m[s[0]]) + Sum(s[1..], m)
  }

  /** lru_ lists the aliases without repetition, totalSize_ is the summed size, and it respects the limit. */
  ghost predicate Valid(c: Cache) {
    Lists(c.lru, c.tokens) && c.total == Sum(c.lru, c.tokens) && c.total <= c.maxSize
  }

  /** Holds of the endpoint that chooses the aliases itself: its next one is unused. */
  ghost predicate ChoosesAliases(c: Cache) { forall a :: a in c.tokens ==> a < c.nextAlias }

  // ---------------------------------------------------------------- operations

  function Remove(s: seq<Alias>, a: Alias): seq<Alias> {
    if s == [] then [] else if s[0] == a then s[1..] else [s[0]] + Remove(s[1..], a)
  }

  predicate CanRegister(c: Cache, t: Token) { c.total + CachedSize(t) <= c.maxSize }

  function MaxTokenSize(c: Cache): nat { if c.maxSize < TOKEN_OVERHEAD then 0 else c.maxSize - TOKEN_OVERHEAD }

  /** registerToken with the alias given. */
  function RegisterAs(c: Cache, a: Alias, t: Token): Result<Cache> {
    if a in c.tokens then Failure(DuplicateAlias)
    else if !CanRegister(c, t) then Failure(LimitExceeded)
    else
      Success(c.(tokens := c.tokens[a := t], lru := c.lru + [a], total := c.total + CachedSize(t)))
  }

  /** registerToken with a fresh alias. */
  function Register(c: Cache, t: Token): Result<Cache> {
    match RegisterAs(c, c.nextAlias, t)
    case Failure(e) => Failure(e)
    case Success(c') => Success(c'.(nextAlias := c.nextAlias + 1))
  }

  function Without(c: Cache, a: Alias): Cache
    requires a in c.tokens && c.total >= CachedSize(c.tokens[a])
  {
    c.(tokens := c.tokens - {a}, lru := Remove(c.lru, a), total := c.total - CachedSize(c.tokens[a]))
  }

  function Delete(c: Cache, a: Alias): Result<Cache>
    requires Valid(c)
  {
    if a !in c.tokens then Failure(UnknownAlias)
    else
      SizeInTotal(c, a);
      Success(Without(c, a))
  }

  /** getTokenForAlias: a hit becomes the most recently used. */
  function Touch(c: Cache, a: Alias): Cache { c.(lru := Remove(c.lru, a) + [a]) }

  // ---------------------------------------------------------------- sums and lists

  lemma {:induction false} RemoveMembers(s: seq<Alias>, a: Alias)
    requires NoDuplicates(s)
    ensures NoDuplicates(Remove(s, a))
    ensures forall x :: x in Remove(s, a) <==> x in s && x != a
    ensures |Remove(s, a)| == if a in s then |s| - 1 else |s|
  {
    if s != [] {
      assert s == [s[0]] + s[1..];
      assert forall x :: x in s <==> x == s[0] || x in s[1..];
      assert s[0] !in s[1..];
      RemoveMembers(s[1..], a);
    }
  }

  lemma {:induction false} SumRemove(s: seq<Alias>, a: Alias, m: map<Alias, Token>)
    requires NoDuplicates(s) && a in s && forall x :: x in s ==> x in m
    ensures forall x :: x in Remove(s, a) ==> x in m
    ensures Sum(s, m) == CachedSize(m[a]) + Sum(Remove(s, a), m)
  {
    RemoveMembers(s, a);
    assert s == [s[0]] + s[1..];
    if s[0] != a {
      SumRemove(s[1..], a, m);
      var r := Remove(s, a);
      assert r[0] == s[0] && r[1..] == Remove(s[1..], a);
    }
  }

  lemma HasMember(s: seq<Alias>)
    requires s != []
    ensures exists a :: a in s
  {
    assert s[0] in s;
  }

  /** The sum does not depend on the order of the list. */
  lemma {:induction false} SumOrderless(s: seq<Alias>, t: seq<Alias>, m: map<Alias, Token>)
    requires NoDuplicates(s) && NoDuplicates(t)
    requires forall x :: x in s <==> x in t
    requires forall x :: x in s ==> x in m
    ensures Sum(s, m) == Sum(t, m)
    decreases |s|
  {
    if s == [] {
      if t != [] {
        HasMember(t);
      }
    } else {
      var a := s[0];
      assert s == [a] + s[1..];
      assert a !in s[1..];
      RemoveMembers(t, a);
      SumRemove(t, a, m);
      SumOrderless(s[1..], Remove(t, a), m);
    }
  }

  lemma {:induction false} SumSameMap(s: seq<Alias>, m: map<Alias, Token>, n: map<Alias, Token>)
    requires forall x :: x in s ==> x in m && x in n && m[x] == n[x]
    ensures Sum(s, m) == Sum(s, n)
  {
    if s != [] {
      SumSameMap(s[1..], m, n);
    }
  }

  lemma {:induction false} SumAppend(s: seq<Alias>, a: Alias, m: map<Alias, Token>)
    requires a in m && forall x :: x in s ==> x in m
    ensures Sum(s + [a], m) == Sum(s, m) + CachedSize(m[a])
  {
    if s == [] {
      assert ([] + [a])[1..] == [];
    } else {
      assert (s + [a])[0] == s[0] && (s + [a])[1..] == s[1..] + [a];
      SumAppend(s[1..], a, m);
    }
  }

  lemma SizeInTotal(c: Cache, a: Alias)
    requires Valid(c) && a in c.tokens
    ensures CachedSize(c.tokens[a]) <= c.total
  {
    SumRemove(c.lru, a, c.tokens);
  }

  lemma WithoutValid(c: Cache, a: Alias)
    requires Valid(c) && a in c.tokens
    ensures CachedSize(c.tokens[a]) <= c.total && Valid(Without(c, a))
  {
    SizeInTotal(c, a);
    RemoveMembers(c.lru, a);
    SumRemove(c.lru, a, c.tokens);
    SumSameMap(Remove(c.lru, a), c.tokens, c.tokens - {a});
  }

  lemma RegisterValid(c: Cache, a: Alias, t: Token)
    requires Valid(c) && RegisterAs(c, a, t).Success?
    ensures Valid(RegisterAs(c, a, t).value)
  {
    var m := c.tokens[a := t];
    SumSameMap(c.lru, c.tokens, m);
    SumAppend(c.lru, a, m);
    assert forall x :: x in c.lru + [a] <==> x in c.lru || x == a;
  }

  lemma TouchValid(c: Cache, a: Alias)
    requires Valid(c) && a in c.tokens
    ensures Valid(Touch(c, a))
  {
    RemoveMembers(c.lru, a);
    var r := Remove(c.lru, a) + [a];
    assert forall x :: x in r <==> x in Remove(c.lru, a) || x == a;
    SumOrderless(c.lru, r, c.tokens);
  }

  // ---------------------------------------------------------------- eviction

  /** A default AuthToken: what a parameter that is no token holds in its place. */
  const NO_TOKEN: Token := Token(0, [])

  /**
    The eviction loop of aliasifyAuthTokens, with the evicted aliases in order. What it tests is a reference into the
    parameter list: the token of the parameter that moved up when the one at hand was erased and, once a DELETE has
    been inserted there, no token. None when it asks an empty cache to evict.
   */
  function MakeRoom(c: Cache, tested: Token): (r: Option<(Cache, seq<Alias>)>)
    requires Valid(c)
    ensures r.Some? ==>
      var room := r.value.0;
      && Valid(room)
      && room.maxSize == c.maxSize && room.nextAlias == c.nextAlias && room.tokens.Keys <= c.tokens.Keys
    decreases |c.lru|
  {
    if CanRegister(c, tested) then Some((c, []))
    else if c.lru == [] then None
    else
      var a := c.lru[0];
      WithoutValid(c, a);
      RemoveMembers(c.lru, a);
      match MakeRoom(Without(c, a), NO_TOKEN)
      case None => None
      case Some((room, rest)) => Some((room, [a] + rest))
  }

  /** Every entry is at least as large as no token, so the loop evicts the oldest entry or nothing. */
  lemma {:induction false} AtMostOneEviction(c: Cache, tested: Token)
    requires Valid(c)
    ensures c.lru != [] ==> c.lru[0] in c.tokens && CachedSize(c.tokens[c.lru[0]]) <= c.total
    ensures MakeRoom(c, tested)
      == if CanRegister(c, tested) then Some((c, []))
         else if c.lru == [] then None
         else Some((Without(c, c.lru[0]), [c.lru[0]]))
  {
    if c.lru != [] {
      var a := c.lru[0];
      WithoutValid(c, a);
      var room := Without(c, a);
      assert CanRegister(room, NO_TOKEN);
      assert MakeRoom(room, NO_TOKEN) == Some((room, []));
      assert [a] + [] == [a];
    }
  }

  /** setMaxSize with eviction: most recently inserted first, until the limit holds. */
  function Shrink(c: Cache, limit: nat): (r: Cache)
    requires Valid(c)
    ensures Valid(r.(maxSize := limit)) && r.nextAlias == c.nextAlias
    decreases |c.lru|
  {
    if c.total <= limit then c.(maxSize := limit)
    else
      var a := c.lru[|c.lru| - 1];
      WithoutValid(c, a);
      RemoveMembers(c.lru, a);
      Shrink(Without(c, a), limit)
  }

  // ---------------------------------------------------------------- the class

  class MoQTokenCache {
    var aliasToToken: map<Alias, Token>
    var lru: seq<Alias>
    var maxSize: nat
    var nextAlias: Alias
    var totalSize: nat

    function Model(): Cache
      reads this
    {
      Cache(aliasToToken, lru, maxSize, nextAlias, totalSize)
    }

    constructor (maxSize: nat)
      ensures Model() == Empty(maxSize) && Valid(Model())
    {
      aliasToToken, lru, this.maxSize, nextAlias, totalSize := map[], [], maxSize, 0, 0;
    }

    method RegisterTokenAs(alias: Alias, token: Token) returns (r: Result<()>)
      requires Valid(Model())
      modifies this
      ensures match RegisterAs(old(Model()), alias, token)
        case Failure(e) => r == Failure(e) && Model() == old(Model())
        case Success(c) => r.Success? && Model() == c
      ensures Valid(Model())
    {
      if alias in aliasToToken {
        return Failure(DuplicateAlias);
      }
      var tokenSize := CachedSize(token);
      if totalSize + tokenSize > maxSize {
        return Failure(LimitExceeded);
      }
      RegisterValid(Model(), alias, token);
      totalSize := totalSize + tokenSize;
      lru := lru + [alias];
      aliasToToken := aliasToToken[alias := token];
      return Success(());
    }

    method RegisterToken(token: Token) returns (r: Result<Alias>)
      requires Valid(Model()) && ChoosesAliases(Model())
      modifies this
      ensures Valid(Model()) && ChoosesAliases(Model())
      ensures match Register(old(Model()), token)
        case Failure(e) => r == Failure(e) && Model() == old(Model())
        case Success(c) => r == Success(old(nextAlias)) && Model() == c
    {
      var alias := nextAlias;
      ghost var before := Model();
      var res := RegisterTokenAs(alias, token);
      if res.Failure? {
        return Failure(res.error);
      }
      RegisterValid(before, alias, token);
      nextAlias := nextAlias + 1;
      return Success(alias);
    }

    /** getAliasForToken: some alias of an equal token, if there is one. */
    method GetAliasForToken(token: Token) returns (r: Option<Alias>)
      ensures r.Some? ==> r.value in aliasToToken && aliasToToken[r.value] == token
      ensures r.None? ==> forall a :: a in aliasToToken ==> aliasToToken[a] != token
    {
      var rest := aliasToToken.Keys;
      while rest != {}
        invariant rest <= aliasToToken.Keys
        invariant forall a :: a in aliasToToken && a !in rest ==> aliasToToken[a] != token
        decreases |rest|
      {
        var a :| a in rest;
        if aliasToToken[a] == token {
          return Some(a);
        }
        rest := rest - {a};
      }
      return None;
    }

    method DeleteToken(alias: Alias) returns (r: Result<()>)
      requires Valid(Model())
      modifies this
      ensures Valid(Model())
      ensures match Delete(old(Model()), alias)
        case Failure(e) => r == Failure(e) && Model() == old(Model())
        case Success(c) => r.Success? && Model() == c
    {
      if alias !in aliasToToken {
        return Failure(UnknownAlias);
      }
      WithoutValid(Model(), alias);
      totalSize := totalSize - CachedSize(aliasToToken[alias]);
      lru := Remove(lru, alias);
      aliasToToken := aliasToToken - {alias};
      return Success(());
    }

    method GetTokenForAlias(alias: Alias) returns (r: Option<Token>)
      requires Valid(Model())
      modifies this
      ensures Valid(Model())
      ensures r.None? <==> alias !in old(aliasToToken)
      ensures r.None? ==> Model() == old(Model())
      ensures r.Some? ==> r.value == old(aliasToToken)[alias] && Model() == Touch(old(Model()), alias)
    {
      if alias !in aliasToToken {
        return None;
      }
      TouchValid(Model(), alias);
      lru := Remove(lru, alias) + [alias];
      return Some(aliasToToken[alias]);
    }

    method Evict(alias: Alias)
      requires Valid(Model()) && alias in lru
      modifies this
      ensures Valid(Model()) && alias in old(aliasToToken)
      ensures CachedSize(old(aliasToToken)[alias]) <= old(totalSize) && Model() == Without(old(Model()), alias)
    {
      WithoutValid(Model(), alias);
      lru := Remove(lru, alias);
      totalSize := totalSize - CachedSize(aliasToToken[alias]);
      aliasToToken := aliasToToken - {alias};
    }

    method EvictLRU() returns (alias: Alias)
      requires Valid(Model()) && lru != []
      modifies this
      ensures Valid(Model()) && alias == old(lru)[0] && alias in old(aliasToToken)
      ensures CachedSize(old(aliasToToken)[alias]) <= old(totalSize) && Model() == Without(old(Model()), alias)
    {
      alias := lru[0];
      Evict(alias);
    }

    /** setMaxSize with evict set. */
    method SetMaxSizeEvicting(limit: nat)
      requires Valid(Model())
      modifies this
      ensures Valid(Model()) && Model() == Shrink(old(Model()), limit)
    {
      ghost var goal := Shrink(Model(), limit);
      while totalSize > limit
        invariant Valid(Model()) && goal == Shrink(Model(), limit)
        decreases |lru|
      {
        var alias := lru[|lru| - 1];
        RemoveMembers(lru, alias);
        Evict(alias);
      }
      maxSize := limit;
    }

    /** setMaxSize without evict: refused while the contents are larger. */
    method SetMaxSize(limit: nat) returns (r: Result<()>)
      requires Valid(Model())
      modifies this
      ensures Valid(Model())
      ensures r == if limit < old(totalSize) then Failure(LimitExceeded) else Success(())
      ensures Model() == if r.Failure? then old(Model()) else old(Model()).(maxSize := limit)
    {
      if limit < totalSize {
        return Failure(LimitExceeded);
      }
      maxSize := limit;
      return Success(());
    }
  }
}
