/** Which extension blocks, received in part, some further bytes complete. */
module PartialBlocks {
  import opened Bytes
  import opened Wire
  import opened Extensions
  import Varint

  // ---------------------------------------------------------------- varints received in part

  /** The first bytes of a varint, not all of them. */
  predicate Partial(s: bytes) { s != [] && ReadVarint(s).None? }

  /** How many bytes of the varint are to come. */
  function Missing(s: bytes): (n: nat)
    requires Partial(s)
    ensures n > 0
  {
    Varint.LengthFromFirstByte(s[0]);
    Varint.LeadingOnes(s[0], 8) + 1 - |s|
  }

  /** The value bits that have come. */
  function Digits(s: bytes): bytes
    requires s != []
  {
    var length := Varint.LeadingOnes(s[0], 8) + 1;
    Varint.LengthFromFirstByte(s[0]);
    if length == 9 then s[1..] else [s[0] % (256 - Varint.Prefix(length))] + s[1..]
  }

  /** The least value it can still have. */
  function Least(s: bytes): nat
    requires Partial(s)
  {
    FromBigEndian(Digits(s)) * Pow256(Missing(s))
  }

  lemma {:induction false} FromBigEndianConcat(a: bytes, b: bytes)
    ensures FromBigEndian(a + b) == FromBigEndian(a) * Pow256(|b|) + FromBigEndian(b)
    decreases |b|
  {
    if b == [] {
      assert a + b == a;
    } else {
      var init := b[..|b| - 1];
      assert (a + b)[..|a + b| - 1] == a + init;
      FromBigEndianConcat(a, init);
      assert FromBigEndian(a) * Pow256(|b|) == 256 * (FromBigEndian(a) * Pow256(|b| - 1));
    }
  }

  lemma {:induction false} WholeVarint(s: bytes)
    requires s != [] && Varint.LeadingOnes(s[0], 8) + 1 <= |s|
    ensures var length := Varint.LeadingOnes(s[0], 8) + 1;
      var v := FromBigEndian(Digits(s[..length]));
      v < U64_LIMIT && ReadVarint(s) == Some((v, s[length..]))
  {
    hide Varint.LeadingOnes, FromBigEndian, Pow256;
    var length := Varint.LeadingOnes(s[0], 8) + 1;
    Varint.LengthFromFirstByte(s[0]);
    assert s[..length][0] == s[0] && s[..length][1..] == s[1..length];
    if length == 1 {
      assert Digits(s[..1]) == [s[0]] by { assert [s[0]] + s[1..1] == [s[0]]; }
      OneDigit(s[0]);
    } else if length == 9 {
      Varint.Value9Fits(s[1..9]);
    } else {
      Varint.MaskedValueFits(s, length);
    }
  }

  lemma {:induction false} OneDigit(b: byte)
    ensures FromBigEndian([b]) == b
  {
    assert [b][..0] == [];
    assert FromBigEndian([]) == 0;
  }

  /** A varint is read once its last byte has come; the bytes to come add any value below their weight. */
  lemma {:induction false} CompletedVarint(s: bytes, q: bytes)
    requires Partial(s)
    ensures |q| < Missing(s) ==> ReadVarint(s + q).None?
    ensures |q| >= Missing(s) ==>
      var v := Least(s) + FromBigEndian(q[..Missing(s)]);
      v < U64_LIMIT && ReadVarint(s + q) == Some((v, q[Missing(s)..]))
  {
    hide FromBigEndian, Varint.LeadingOnes, Pow256;
    var length, m := Varint.LeadingOnes(s[0], 8) + 1, Missing(s);
    Varint.LengthFromFirstByte(s[0]);
    assert (s + q)[0] == s[0];
    if |q| >= m {
      WholeVarint(s + q);
      hide ReadVarint;
      assert (s + q)[..length] == s + q[..m] && (s + q)[length..] == q[m..];
      DigitsConcat(s, q[..m]);
      FromBigEndianConcat(Digits(s), q[..m]);
    }
  }

  lemma {:induction false} DigitsConcat(s: bytes, q: bytes)
    requires s != []
    ensures Digits(s + q) == Digits(s) + q
  {
    hide Varint.LeadingOnes;
    assert (s + q)[0] == s[0] && (s + q)[1..] == s[1..] + q;
  }

  /** The least value and the one after it are within reach, and the least is not one. */
  lemma {:induction false} LeastIsReached(s: bytes, b: byte, rest: bytes)
    requires Partial(s)
    ensures Least(s) + b < U64_LIMIT && ReadVarint(s + (BigEndian(b, Missing(s)) + rest)) == Some((Least(s) + b, rest))
    ensures Least(s) != 1
  {
    hide Digits, FromBigEndian;
    var m := Missing(s);
    assert Pow256(m) == 256 * Pow256(m - 1);
    var q := BigEndian(b, m) + rest;
    CompletedVarint(s, q);
    assert q[..m] == BigEndian(b, m) && q[m..] == rest;
    BigEndianRoundTrip(b, m);
    Multiple(FromBigEndian(Digits(s)), Pow256(m - 1));
  }

  lemma {:induction false} Multiple(a: nat, b: nat)
    ensures a * (256 * b) != 1
  {
    assert a * (256 * b) == 256 * (a * b);
  }

  // ---------------------------------------------------------------- entries to come

  /** What follows an entry's type. */
  function ParseValue(s: bytes, typ: u64, allowImmutable: bool): Parse<ExtensionLists> {
    if typ % 2 == 1 then ParseOdd(s, typ, allowImmutable)
    else
      match ReadVarint(s)
      case None => Underflow
      case Some((v, rest)) => Insert(Extension(typ, v, []), allowImmutable, ParsePairs(rest, typ, allowImmutable))
  }

  /** Inside the container no entry has its type. */
  predicate Allowed(typ: u64, allowImmutable: bool) { allowImmutable || typ != IMMUTABLE_TYPE }

  lemma {:induction false} TypeThenValue(s: bytes, previous: u64, allowImmutable: bool)
    requires ReadVarint(s).Some?
    ensures var (delta, rest) := ReadVarint(s).value;
      ParsePairs(s, previous, allowImmutable)
      == if previous + delta <= U64_MAX && Allowed(previous + delta, allowImmutable)
         then ParseValue(rest, previous + delta, allowImmutable) else Violation
  {
    hide ReadVarint, ParseOdd, Insert;
    assert s != [];
  }

  /** Entries that fill n bytes, each of the type before it. */
  function Filler(n: nat): (s: bytes)
    requires n != 1
    ensures |s| == n
  {
    if n == 0 then [] else [0] + Value(n - 1)
  }

  /** The rest of an entry and the entries behind it. */
  function Value(n: nat): (s: bytes)
    requires n > 0
    ensures |s| == n
  {
    if n == 2 then [0x80, 0] else [0] + if n == 1 then [] else Filler(n - 1)
  }

  lemma {:induction false} ReadZero(rest: bytes)
    ensures ReadVarint([0] + rest) == Some((0, rest)) && ReadVarint([0x80, 0]) == Some((0, []))
  {
    assert ([0] + rest)[1..] == rest;
    ReadWrittenAs(0, 2, []);
    assert Varint.EncodeAs(0, 2) == [0x80, 0] by {
      Varint.Powers256();
      assert BigEndian(0x8000, 2) == BigEndian(0x80, 1) + [0];
      assert BigEndian(0x80, 1) == BigEndian(0, 0) + [0x80];
    }
    assert Varint.EncodeAs(0, 2) + [] == Varint.EncodeAs(0, 2);
  }

  lemma {:induction false} FillerParses(n: nat, typ: u64, allowImmutable: bool)
    requires n != 1 && Allowed(typ, allowImmutable)
    ensures ParsePairs(Filler(n), typ, allowImmutable).Ok?
    decreases n
  {
    hide ReadVarint, ParseValue;
    if n > 0 {
      ReadZero(Value(n - 1));
      TypeThenValue(Filler(n), typ, allowImmutable);
      ValueParses(n - 1, typ, allowImmutable);
    }
  }

  lemma {:induction false} ValueParses(n: nat, typ: u64, allowImmutable: bool)
    requires n > 0 && Allowed(typ, allowImmutable)
    ensures ParseValue(Value(n), typ, allowImmutable).Ok?
    decreases n
  {
    hide ReadVarint, ParsePairs;
    var rest := if n <= 2 then [] else Filler(n - 1);
    FillerParses(|rest|, typ, allowImmutable);
    FillerParses(0, 0, false);
    ReadZero(rest);
    assert rest[0..] == rest && rest[..0] == [];
    assert n == 1 ==> [0] + [] == [0];
  }

  /** One byte is no entry. */
  lemma {:induction false} OneByteUnderflows(s: bytes, previous: u64, allowImmutable: bool)
    requires |s| == 1
    ensures !ParsePairs(s, previous, allowImmutable).Ok?
    ensures previous == 0 && allowImmutable ==> ParsePairs(s, previous, allowImmutable).Underflow?
  {
    hide Varint.Decode;
    if ReadVarint(s).Some? {
      var rest := ReadVarint(s).value.1;
      assert rest == [] && ReadVarint(rest).None?;
    }
  }

  // ---------------------------------------------------------------- what can be completed

  /** With k bytes to come, some of them complete the entries of which s has come. */
  predicate CanParse(s: bytes, previous: u64, k: nat, allowImmutable: bool)
    decreases |s|, 2
  {
    if s == [] then k != 1
    else
      match ReadVarint(s)
      case None => k > Missing(s) && previous + Least(s) <= U64_MAX
      case Some((delta, rest)) =>
        && previous + delta <= U64_MAX
        && Allowed(previous + delta, allowImmutable)
        && CanValue(rest, previous + delta, k, allowImmutable)
  }

  /** The same behind an entry's type. */
  predicate CanValue(s: bytes, typ: u64, k: nat, allowImmutable: bool)
    decreases |s|, 1
  {
    if s == [] then k > 0
    else if typ % 2 == 1 then CanOdd(s, typ, k, allowImmutable)
    else
      match ReadVarint(s)
      case None => k >= Missing(s) && k - Missing(s) != 1
      case Some((_, rest)) => CanParse(rest, typ, k, allowImmutable)
  }

  /** The same behind an odd type: the value has room, is not too long, and does not leave one byte over. */
  predicate CanOdd(s: bytes, typ: u64, k: nat, allowImmutable: bool)
    requires s != []
    decreases |s|, 0
  {
    match ReadVarint(s)
    case None => k >= Missing(s) && CanLength(Least(s), typ, k - Missing(s))
    case Some((n, rest)) =>
      && n <= MAX_EXTENSION_LENGTH
      && if |rest| >= n then
           && (typ == IMMUTABLE_TYPE ==> ParsePairs(rest[..n], 0, false).Ok?)
           && CanParse(rest[n..], typ, k, allowImmutable)
         else
           && n - |rest| <= k && k - (n - |rest|) != 1
           && (typ == IMMUTABLE_TYPE ==> CanParse(rest, 0, n - |rest|, false))
  }

  /** A length of at least n in front of k bytes. */
  predicate CanLength(n: nat, typ: u64, k: nat) {
    && n <= k && n <= MAX_EXTENSION_LENGTH
    && (k == n + 1 ==> n < MAX_EXTENSION_LENGTH && (typ == IMMUTABLE_TYPE ==> n != 0))
  }

  // ---------------------------------------------------------------- it can be done

  lemma {:induction false} Completes(s: bytes, previous: u64, k: nat, allowImmutable: bool) returns (q: bytes)
    requires CanParse(s, previous, k, allowImmutable) && Allowed(previous, allowImmutable)
    ensures |q| == k && ParsePairs(s + q, previous, allowImmutable).Ok?
    decreases |s|, 2
  {
    hide ReadVarint, Least, Missing, ParseValue, ParsePairs, CanValue;
    if s == [] {
      q := Filler(k);
      FillerParses(k, previous, allowImmutable);
      assert s + q == q;
    } else if ReadVarint(s).None? {
      var b := if Allowed(previous + Least(s), allowImmutable) then 0 else 1;
      var rest := Value(k - Missing(s));
      q := BigEndian(b, Missing(s)) + rest;
      LeastIsReached(s, b, rest);
      TypeThenValue(s + q, previous, allowImmutable);
      ValueParses(|rest|, previous + Least(s) + b, allowImmutable);
    } else {
      var (delta, rest) := ReadVarint(s).value;
      q := CompletesValue(rest, previous + delta, k, allowImmutable);
      ReadStable(s, q);
      TypeThenValue(s + q, previous, allowImmutable);
    }
  }

  lemma {:induction false} CompletesValue(s: bytes, typ: u64, k: nat, allowImmutable: bool) returns (q: bytes)
    requires CanValue(s, typ, k, allowImmutable) && Allowed(typ, allowImmutable)
    ensures |q| == k && ParseValue(s + q, typ, allowImmutable).Ok?
    decreases |s|, 1
  {
    hide ReadVarint, Least, Missing, ParsePairs, CanParse, CanOdd, ParseOdd;
    if s == [] {
      q := Value(k);
      ValueParses(k, typ, allowImmutable);
      assert s + q == q;
    } else if typ % 2 == 1 {
      q := CompletesOdd(s, typ, k, allowImmutable);
    } else if ReadVarint(s).None? {
      var rest := Filler(k - Missing(s));
      q := BigEndian(0, Missing(s)) + rest;
      LeastIsReached(s, 0, rest);
      FillerParses(|rest|, typ, allowImmutable);
    } else {
      q := Completes(ReadVarint(s).value.1, typ, k, allowImmutable);
      ReadStable(s, q);
    }
  }

  lemma {:induction false} CompletesOdd(s: bytes, typ: u64, k: nat, allowImmutable: bool) returns (q: bytes)
    requires s != [] && typ % 2 == 1 && CanOdd(s, typ, k, allowImmutable) && Allowed(typ, allowImmutable)
    ensures |q| == k && ParseOdd(s + q, typ, allowImmutable).Ok?
    decreases |s|, 0
  {
    hide ReadVarint, Least, Missing, ParsePairs, CanParse;
    if ReadVarint(s).None? {
      var m := k - Missing(s);
      var b := if m == Least(s) + 1 then 1 else 0;
      LeastIsReached(s, b, []);
      var n := Least(s) + b;
      var value, rest := if n == 1 then [0] else Filler(n), Filler(m - n);
      q := BigEndian(b, Missing(s)) + (value + rest);
      LeastIsReached(s, b, value + rest);
      OddParses(s + q, typ, allowImmutable, n, value, rest);
    } else {
      var (n, rest) := ReadVarint(s).value;
      if |rest| >= n {
        q := Completes(rest[n..], typ, k, allowImmutable);
        ReadStable(s, q);
        assert (rest + q)[..n] == rest[..n] && (rest + q)[n..] == rest[n..] + q;
      } else {
        var more := n - |rest|;
        var value, tail := Filler(if more == 1 then 2 else more)[..more], Filler(k - more);
        if typ == IMMUTABLE_TYPE {
          value := Completes(rest, 0, more, false);
        }
        q := value + tail;
        ReadStable(s, q);
        assert rest + q == (rest + value) + tail;
        OddParses(s + q, typ, allowImmutable, n, rest + value, tail);
      }
    }
  }

  /** A value of n bytes followed by filling entries. */
  lemma {:induction false} OddParses(s: bytes, typ: u64, allowImmutable: bool, n: u64, value: bytes, tail: bytes)
    requires Allowed(typ, allowImmutable) && n <= MAX_EXTENSION_LENGTH && |value| == n
    requires ReadVarint(s) == Some((n, value + tail)) && |tail| != 1 && tail == Filler(|tail|)
    requires typ == IMMUTABLE_TYPE ==> ParsePairs(value, 0, false).Ok? || (n != 1 && value == Filler(n))
    ensures ParseOdd(s, typ, allowImmutable).Ok?
  {
    hide ReadVarint, ParsePairs, Filler;
    FillerParses(|tail|, typ, allowImmutable);
    assert (value + tail)[..n] == value && (value + tail)[n..] == tail;
    if n != 1 {
      FillerParses(n, 0, false);
    }
  }

  // ---------------------------------------------------------------- and not otherwise

  lemma {:induction false} OnlyIf(s: bytes, previous: u64, allowImmutable: bool, q: bytes)
    requires ParsePairs(s + q, previous, allowImmutable).Ok?
    ensures CanParse(s, previous, |q|, allowImmutable)
    decreases |s|, 2
  {
    hide ReadVarint, Least, Missing, ParseValue, ParsePairs, CanValue;
    if s == [] {
      assert s + q == q;
      if |q| == 1 {
        OneByteUnderflows(q, previous, allowImmutable);
      }
    } else if ReadVarint(s).None? {
      CompletedVarint(s, q);
      Unread(s + q, previous, allowImmutable);
      TypeThenValue(s + q, previous, allowImmutable);
      NoValue(q[Missing(s)..], ReadVarint(s + q).value.0 + previous, allowImmutable);
    } else {
      ReadStable(s, q);
      TypeThenValue(s + q, previous, allowImmutable);
      var (delta, rest) := ReadVarint(s).value;
      OnlyIfValue(rest, previous + delta, allowImmutable, q);
    }
  }

  lemma {:induction false} Unread(s: bytes, previous: u64, allowImmutable: bool)
    requires s != [] && ParsePairs(s, previous, allowImmutable).Ok?
    ensures ReadVarint(s).Some?
  {
    hide ReadVarint;
  }

  lemma {:induction false} NoValue(s: bytes, typ: u64, allowImmutable: bool)
    requires ParseValue(s, typ, allowImmutable).Ok?
    ensures s != []
  {
    hide ParsePairs;
  }

  lemma {:induction false} OnlyIfValue(s: bytes, typ: u64, allowImmutable: bool, q: bytes)
    requires ParseValue(s + q, typ, allowImmutable).Ok?
    ensures CanValue(s, typ, |q|, allowImmutable)
    decreases |s|, 1
  {
    hide ReadVarint, Least, Missing, ParsePairs, CanParse, CanOdd, ParseOdd;
    if s == [] {
      assert s + q == q;
      NoValue(q, typ, allowImmutable);
    } else if typ % 2 == 1 {
      OnlyIfOdd(s, typ, allowImmutable, q);
    } else if ReadVarint(s).None? {
      CompletedVarint(s, q);
      var rest := q[Missing(s)..];
      if |rest| == 1 {
        OneByteUnderflows(rest, typ, allowImmutable);
      }
    } else {
      ReadStable(s, q);
      OnlyIf(ReadVarint(s).value.1, typ, allowImmutable, q);
    }
  }

  lemma {:induction false} OnlyIfOdd(s: bytes, typ: u64, allowImmutable: bool, q: bytes)
    requires s != [] && ParseOdd(s + q, typ, allowImmutable).Ok?
    ensures CanOdd(s, typ, |q|, allowImmutable)
    decreases |s|, 0
  {
    hide ReadVarint, Least, Missing, ParsePairs, CanParse;
    if ReadVarint(s).None? {
      CompletedVarint(s, q);
      var (n, rest) := ReadVarint(s + q).value;
      if |rest| - n == 1 {
        OneByteUnderflows(rest[n..], typ, allowImmutable);
      }
      if typ == IMMUTABLE_TYPE && n == 1 {
        OneByteUnderflows(rest[..n], 0, false);
      }
    } else {
      ReadStable(s, q);
      var (n, rest) := ReadVarint(s).value;
      if |rest| >= n {
        assert (rest + q)[..n] == rest[..n] && (rest + q)[n..] == rest[n..] + q;
        OnlyIf(rest[n..], typ, allowImmutable, q);
      } else {
        var more := n - |rest|;
        assert (rest + q)[..n] == rest + q[..more] && (rest + q)[n..] == q[more..];
        if |q| - more == 1 {
          OneByteUnderflows(q[more..], typ, allowImmutable);
        }
        if typ == IMMUTABLE_TYPE {
          OnlyIf(rest, 0, false, q[..more]);
        }
      }
    }
  }

  // ---------------------------------------------------------------- blocks

  /** The bytes of a block that have come can still become a block that is accepted. */
  predicate CanComplete(s: bytes) {
    s == [] ||
    match ReadVarint(s)
    case None => Least(s) <= MAX_BLOCK_LENGTH
    case Some((n, body)) =>
      && n <= MAX_BLOCK_LENGTH
      && if |body| >= n then ParsePairs(body[..n], 0, true).Ok? else CanParse(body, 0, n - |body|, true)
  }

  /** For every byte string: some bytes behind it make a block that is accepted exactly if CanComplete says so. */
  lemma {:induction false} CompletableExactly(s: bytes)
    ensures CanComplete(s) <==> exists t :: ParseBlock(s + t).Ok?
  {
    hide ParseBlock, CanComplete;
    if CanComplete(s) {
      var t := CompletesBlock(s);
    }
    forall t | ParseBlock(s + t).Ok? ensures CanComplete(s) {
      BlockOnlyIf(s, t);
    }
  }

  lemma {:induction false} CompletesBlock(s: bytes) returns (t: bytes)
    requires CanComplete(s)
    ensures ParseBlock(s + t).Ok?
  {
    hide ReadVarint, Least, Missing, ParsePairs, CanParse;
    if s == [] {
      t := [0];
      assert s + t == [0] + [];
      ReadZero([]);
      FillerParses(0, 0, true);
    } else if ReadVarint(s).None? {
      LeastIsReached(s, 0, []);
      var body := Filler(Least(s));
      t := BigEndian(0, Missing(s)) + body;
      LeastIsReached(s, 0, body);
      FillerParses(|body|, 0, true);
      assert body[..|body|] == body;
    } else {
      var (n, body) := ReadVarint(s).value;
      if |body| >= n {
        t := [];
      } else {
        t := Completes(body, 0, n - |body|, true);
      }
      ReadStable(s, t);
      assert (body + t)[..n] == if |body| >= n then body[..n] else body + t;
    }
  }

  lemma {:induction false} BlockOnlyIf(s: bytes, t: bytes)
    requires ParseBlock(s + t).Ok?
    ensures CanComplete(s)
  {
    hide ReadVarint, Least, Missing, ParsePairs, CanParse;
    if s != [] {
      if ReadVarint(s).None? {
        CompletedVarint(s, t);
      } else {
        ReadStable(s, t);
        var (n, body) := ReadVarint(s).value;
        if |body| >= n {
          assert (body + t)[..n] == body[..n];
        } else {
          assert (body + t)[..n] == body + t[..n - |body|];
          OnlyIf(body, 0, true, t[..n - |body|]);
        }
      }
    }
  }

  /** In particular a block of which only the length has come, unless that length is one. */
  lemma {:induction false} AnnouncedBlock(n: u64)
    requires 0 < n <= MAX_BLOCK_LENGTH
    ensures ParseBlock(Varint.Encode(n)).Underflow?
    ensures n != 1 <==> exists t :: ParseBlock(Varint.Encode(n) + t).Ok?
    ensures n == 1 ==> forall t :: ParseBlock(Varint.Encode(n) + t).Underflow?
  {
    hide ReadVarint, Varint.Encode, ParsePairs;
    var s := Varint.Encode(n);
    ReadWritten(n, []);
    assert s + [] == s;
    CompletableExactly(s);
    if n == 1 {
      forall t ensures ParseBlock(s + t).Underflow? {
        ReadWritten(n, t);
        if t != [] {
          OneByteUnderflows(t[..1], 0, true);
        }
      }
    }
  }
}
