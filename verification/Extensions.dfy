/**
  Extension blocks: type-sorted, delta-coded key-value pairs with one nested
  container (type 0xB) that holds the immutable extensions.
 */
module Extensions {
  import opened Bytes
  import opened Wire
  import Varint

  const IMMUTABLE_TYPE: u64 := 0xB
  const MAX_EXTENSION_LENGTH: nat := 1024
  const MAX_BLOCK_LENGTH: nat := 65536

  type blob = s: bytes | |s| < U64_LIMIT

  /** An even type holds `intValue`, an odd type holds `arrayValue`. */
  datatype Extension = Extension(typ: u64, intValue: u64, arrayValue: blob) {
    predicate Odd() { typ % 2 == 1 }

    /** Forgets the field the type does not use; Extension::operator== ignores it as well. */
    function Norm(): Extension {
      if Odd() then this.(intValue := 0) else this.(arrayValue := [])
    }
  }

  datatype ExtensionLists = ExtensionLists(mutableExts: seq<Extension>, immutableExts: seq<Extension>) {
    predicate Empty() { mutableExts == [] && immutableExts == [] }
  }

  function Norms(es: seq<Extension>): (r: seq<Extension>)
    ensures |r| == |es|
  {
    if es == [] then [] else [es[0].Norm()] + Norms(es[1..])
  }

  // ---------------------------------------------------------------- parser

  /** parseExtensionKvPairs over a block already cut to its declared length. */
  function ParsePairs(s: bytes, previous: u64, allowImmutable: bool): Parse<ExtensionLists>
    decreases |s|
  {
    if s == [] then Ok(ExtensionLists([], []), [])
    else
      match ReadVarint(s)
      case None => Underflow
      case Some((delta, s1)) =>
        match DecodeDelta(previous, delta)
        case None => Violation
        case Some(typ) =>
          if !allowImmutable && typ == IMMUTABLE_TYPE then Violation
          else if typ % 2 == 1 then ParseOdd(s1, typ, allowImmutable)
          else
            match ReadVarint(s1)
            case None => Underflow
            case Some((v, s2)) =>
              Insert(Extension(typ, v, []), allowImmutable, ParsePairs(s2, typ, allowImmutable))
  }

  /** An odd type: a length-prefixed value, or the immutable container, which is flattened. */
  function ParseOdd(s: bytes, typ: u64, allowImmutable: bool): Parse<ExtensionLists>
    decreases |s|
  {
    match ReadVarint(s)
    case None => Underflow
    case Some((n, s1)) =>
      if |s1| < n then Underflow
      else if n > MAX_EXTENSION_LENGTH then Violation
      else if typ == IMMUTABLE_TYPE then
        match ParsePairs(s1[..n], 0, false) {
          case Ok(inner, _) => Splice(inner, ParsePairs(s1[n..], IMMUTABLE_TYPE, allowImmutable))
          case Underflow => Underflow
          case Violation => Violation
        }
      else
        Insert(Extension(typ, 0, s1[..n]), allowImmutable, ParsePairs(s1[n..], typ, allowImmutable))
  }

  function Insert(e: Extension, allowImmutable: bool, tail: Parse<ExtensionLists>): Parse<ExtensionLists> {
    Splice(if allowImmutable then ExtensionLists([e], []) else ExtensionLists([], [e]), tail)
  }

  function Splice(first: ExtensionLists, tail: Parse<ExtensionLists>): Parse<ExtensionLists> {
    match tail
    case Ok(l, rest) =>
      Ok(ExtensionLists(first.mutableExts + l.mutableExts, first.immutableExts + l.immutableExts), rest)
    case Underflow => Underflow
    case Violation => Violation
  }

  /** parseExtensions: the length-prefixed block. */
  function ParseBlock(s: bytes): (r: Parse<ExtensionLists>)
    ensures r.Ok? ==> |r.rest| < |s|
  {
    match ReadVarint(s)
    case None => Underflow
    case Some((n, s1)) =>
      if n > MAX_BLOCK_LENGTH then Violation
      else if n > |s1| then Underflow
      else
        match ParsePairs(s1[..n], 0, true)
        case Ok(l, _) => Ok(l, s1[n..])
        case Underflow => Underflow
        case Violation => Violation
  }

  // ---------------------------------------------------------------- writer

  predicate SortedFrom(es: seq<Extension>, previous: u64) {
    es == [] || (previous <= es[0].typ && SortedFrom(es[1..], es[0].typ))
  }

  predicate SortedPermutation(es: seq<Extension>, sorted: seq<Extension>) {
    SortedFrom(sorted, 0) && multiset(sorted) == multiset(es)
  }

  function WriteValue(e: Extension): bytes {
    if e.Odd() then Varint.Encode(|e.arrayValue|) + e.arrayValue else Varint.Encode(e.intValue)
  }

  function WritePair(e: Extension, previous: u64): bytes
    requires previous <= e.typ
  {
    Varint.Encode(e.typ - previous) + WriteValue(e)
  }

  /** writeKeyValuePairs after sorting. */
  function WritePairs(es: seq<Extension>, previous: u64): bytes
    requires SortedFrom(es, previous)
  {
    if es == [] then [] else WritePair(es[0], previous) + WritePairs(es[1..], es[0].typ)
  }

  predicate BodyFits(immutables: seq<Extension>) {
    SortedFrom(immutables, 0) && |WritePairs(immutables, 0)| < U64_LIMIT
  }

  function WriteContainer(immutables: seq<Extension>, previous: u64): bytes
    requires BodyFits(immutables) && previous <= IMMUTABLE_TYPE
  {
    Varint.Encode(IMMUTABLE_TYPE - previous) +
    (Varint.Encode(|WritePairs(immutables, 0)|) + WritePairs(immutables, 0))
  }

  /**
    The loop of writeExtensions: `pending` is the immutable list until its container
    is placed, just before the first mutable type above 0xB or else at the end.
   */
  function WriteChain(mutables: seq<Extension>, pending: seq<Extension>, previous: u64): bytes
    requires SortedFrom(mutables, previous) && BodyFits(pending)
    requires pending != [] ==> previous <= IMMUTABLE_TYPE
    decreases |mutables|, |pending|
  {
    if mutables == [] then
      if pending == [] then [] else WriteContainer(pending, previous)
    else if pending != [] && mutables[0].typ > IMMUTABLE_TYPE then
      WriteContainer(pending, previous) + WriteChain(mutables, [], IMMUTABLE_TYPE)
    else
      WritePair(mutables[0], previous) + WriteChain(mutables[1..], pending, mutables[0].typ)
  }

  predicate BlockFits(mutables: seq<Extension>, immutables: seq<Extension>) {
    SortedFrom(mutables, 0) && BodyFits(immutables) && |WriteChain(mutables, immutables, 0)| < U64_LIMIT
  }

  function WriteBlock(mutables: seq<Extension>, immutables: seq<Extension>): bytes
    requires BlockFits(mutables, immutables)
  {
    var chain := WriteChain(mutables, immutables, 0);
    Varint.Encode(|chain|) + chain
  }

  // ---------------------------------------------------------------- sizes

  function ValueSize(e: Extension): nat {
    if e.Odd() then Varint.Size(|e.arrayValue|) + |e.arrayValue| else Varint.Size(e.intValue)
  }

  /** calculateExtensionVectorSize, which announces the container length before it is written. */
  function PairsSize(es: seq<Extension>, previous: u64): nat
    requires SortedFrom(es, previous)
  {
    if es == [] then 0
    else Varint.Size(es[0].typ - previous) + ValueSize(es[0]) + PairsSize(es[1..], es[0].typ)
  }

  lemma {:induction false} PairsSizeIsExact(es: seq<Extension>, previous: u64)
    requires SortedFrom(es, previous)
    ensures PairsSize(es, previous) == |WritePairs(es, previous)|
  {
    hide Varint.Encode, Varint.Size, Varint.CascadeLength;
    if es != [] {
      var e := es[0];
      Varint.CascadeAgreesWithSize(e.typ - previous);
      if e.Odd() {
        Varint.CascadeAgreesWithSize(|e.arrayValue|);
      } else {
        Varint.CascadeAgreesWithSize(e.intValue);
      }
      PairsSizeIsExact(es[1..], e.typ);
    }
  }

  // ---------------------------------------------------------------- round trip

  predicate Ordinary(es: seq<Extension>) {
    forall e :: e in es ==> e.typ != IMMUTABLE_TYPE && (e.Odd() ==> |e.arrayValue| <= MAX_EXTENSION_LENGTH)
  }

  /** What the peer's parser accepts; the writer itself enforces none of it. */
  predicate WithinLimits(mutables: seq<Extension>, immutables: seq<Extension>)
    requires BlockFits(mutables, immutables)
  {
    && Ordinary(mutables) && Ordinary(immutables)
    && |WritePairs(immutables, 0)| <= MAX_EXTENSION_LENGTH
    && |WriteChain(mutables, immutables, 0)| <= MAX_BLOCK_LENGTH
  }

  lemma {:induction false} PairStep(e: Extension, previous: u64, allowImmutable: bool, tail: bytes)
    requires previous <= e.typ && e.typ != IMMUTABLE_TYPE
    requires e.Odd() ==> |e.arrayValue| <= MAX_EXTENSION_LENGTH
    ensures ParsePairs(WritePair(e, previous) + tail, previous, allowImmutable)
         == Insert(e.Norm(), allowImmutable, ParsePairs(tail, e.typ, allowImmutable))
  {
    hide Varint.Encode, ReadVarint;
    var delta := e.typ - previous;
    var value := WriteValue(e);
    assert WritePair(e, previous) + tail == Varint.Encode(delta) + (value + tail);
    ReadWritten(delta, value + tail);
    if e.Odd() {
      assert value + tail == Varint.Encode(|e.arrayValue|) + (e.arrayValue + tail);
      ReadWritten(|e.arrayValue|, e.arrayValue + tail);
      assert (e.arrayValue + tail)[..|e.arrayValue|] == e.arrayValue;
      assert (e.arrayValue + tail)[|e.arrayValue|..] == tail;
    } else {
      ReadWritten(e.intValue, tail);
    }
  }

  lemma {:induction false} PairsRoundTrip(es: seq<Extension>, previous: u64)
    requires SortedFrom(es, previous) && Ordinary(es)
    ensures ParsePairs(WritePairs(es, previous), previous, false) == Ok(ExtensionLists([], Norms(es)), [])
  {
    hide Varint.Encode, ReadVarint;
    if es != [] {
      PairStep(es[0], previous, false, WritePairs(es[1..], es[0].typ));
      PairsRoundTrip(es[1..], es[0].typ);
      var none: seq<Extension> := [];
      assert none + [] == none;
    }
  }

  lemma {:induction false} ContainerStep(immutables: seq<Extension>, previous: u64, tail: bytes)
    requires BodyFits(immutables) && Ordinary(immutables) && previous <= IMMUTABLE_TYPE
    ensures ParsePairs(WriteContainer(immutables, previous) + tail, previous, true)
         == if |WritePairs(immutables, 0)| > MAX_EXTENSION_LENGTH then Violation
            else Splice(ExtensionLists([], Norms(immutables)), ParsePairs(tail, IMMUTABLE_TYPE, true))
  {
    hide Varint.Encode, ReadVarint;
    var body := WritePairs(immutables, 0);
    var delta := IMMUTABLE_TYPE - previous;
    var value := Varint.Encode(|body|) + body;
    assert WriteContainer(immutables, previous) + tail == Varint.Encode(delta) + (value + tail);
    ReadWritten(delta, value + tail);
    assert value + tail == Varint.Encode(|body|) + (body + tail);
    ReadWritten(|body|, body + tail);
    assert (body + tail)[..|body|] == body;
    assert (body + tail)[|body|..] == tail;
    PairsRoundTrip(immutables, 0);
  }

  /** The container lands between the right mutable neighbours and comes back as the immutable list. */
  lemma {:induction false} ChainRoundTrip(mutables: seq<Extension>, pending: seq<Extension>, previous: u64)
    requires SortedFrom(mutables, previous) && BodyFits(pending)
    requires pending != [] ==> previous <= IMMUTABLE_TYPE
    requires Ordinary(mutables) && Ordinary(pending)
    ensures ParsePairs(WriteChain(mutables, pending, previous), previous, true)
         == if |WritePairs(pending, 0)| > MAX_EXTENSION_LENGTH then Violation
            else Ok(ExtensionLists(Norms(mutables), Norms(pending)), [])
    decreases |mutables|, |pending|
  {
    hide Varint.Encode, ReadVarint;
    if mutables == [] {
      if pending != [] {
        ContainerStep(pending, previous, []);
        assert WriteContainer(pending, previous) + [] == WriteContainer(pending, previous);
        assert Norms(pending) + [] == Norms(pending);
        assert Norms(mutables) == [] + [];
      }
    } else if pending != [] && mutables[0].typ > IMMUTABLE_TYPE {
      ContainerStep(pending, previous, WriteChain(mutables, [], IMMUTABLE_TYPE));
      ChainRoundTrip(mutables, [], IMMUTABLE_TYPE);
      assert [] + Norms(mutables) == Norms(mutables);
      assert Norms(pending) + Norms([]) == Norms(pending);
    } else {
      PairStep(mutables[0], previous, true, WriteChain(mutables[1..], pending, mutables[0].typ));
      ChainRoundTrip(mutables[1..], pending, mutables[0].typ);
      assert [] + Norms(pending) == Norms(pending);
    }
  }

  /** Nothing the parser returns is of type 0xB or carries an oversized value. */
  lemma {:induction false} ParsedAreOrdinary(s: bytes, previous: u64, allowImmutable: bool)
    requires ParsePairs(s, previous, allowImmutable).Ok?
    ensures var l := ParsePairs(s, previous, allowImmutable).value;
      Ordinary(l.mutableExts) && Ordinary(l.immutableExts)
    decreases |s|
  {
    hide Varint.Encode, ReadVarint;
    if s != [] {
      var (delta, s1) := ReadVarint(s).value;
      var typ := DecodeDelta(previous, delta).value;
      if typ % 2 == 1 {
        var (n, s2) := ReadVarint(s1).value;
        if typ == IMMUTABLE_TYPE {
          ParsedAreOrdinary(s2[..n], 0, false);
          ParsedAreOrdinary(s2[n..], IMMUTABLE_TYPE, allowImmutable);
        } else {
          ParsedAreOrdinary(s2[n..], typ, allowImmutable);
        }
      } else {
        ParsedAreOrdinary(ReadVarint(s1).value.1, typ, allowImmutable);
      }
    }
  }

  lemma {:induction false} OrdinaryNorms(es: seq<Extension>)
    ensures Ordinary(Norms(es)) <==> Ordinary(es)
  {
    if es != [] {
      OrdinaryNorms(es[1..]);
      var n := Norms(es);
      assert n[0] == es[0].Norm() && n[1..] == Norms(es[1..]);
      assert forall e :: e in es <==> e == es[0] || e in es[1..];
      assert forall e :: e in n <==> e == n[0] || e in n[1..];
    }
  }

  /**
    Writing any two lists, each in any type-sorted order, and parsing the block back returns
    both lists and stops right after the block, exactly when the lists respect the limits.
   */
  lemma {:induction false} BlockRoundTrip(mutables: seq<Extension>, immutables: seq<Extension>, rest: bytes)
    requires BlockFits(mutables, immutables)
    ensures ParseBlock(WriteBlock(mutables, immutables) + rest)
              == Ok(ExtensionLists(Norms(mutables), Norms(immutables)), rest)
       <==> WithinLimits(mutables, immutables)
  {
    hide Varint.Encode, ReadVarint;
    var chain := WriteChain(mutables, immutables, 0);
    assert WriteBlock(mutables, immutables) + rest == Varint.Encode(|chain|) + (chain + rest);
    ReadWritten(|chain|, chain + rest);
    assert (chain + rest)[..|chain|] == chain;
    assert (chain + rest)[|chain|..] == rest;
    OrdinaryNorms(mutables);
    OrdinaryNorms(immutables);
    if Ordinary(mutables) && Ordinary(immutables) {
      ChainRoundTrip(mutables, immutables, 0);
    } else if ParsePairs(chain, 0, true).Ok? {
      ParsedAreOrdinary(chain, 0, true);
    }
  }

  /** Ok and Violation survive extra bytes, so re-parsing a longer buffer cannot revise them. */
  lemma BlockStable(s: bytes, t: bytes)
    ensures ParseBlock(s).Ok? ==> ParseBlock(s + t) == Ok(ParseBlock(s).value, ParseBlock(s).rest + t)
    ensures ParseBlock(s).Violation? ==> ParseBlock(s + t).Violation?
  {
    hide Varint.Encode, ReadVarint;
    if ReadVarint(s).Some? {
      ReadStable(s, t);
      var (n, s1) := ReadVarint(s).value;
      if n <= |s1| {
        assert (s1 + t)[..n] == s1[..n];
        assert (s1 + t)[n..] == s1[n..] + t;
      }
    }
  }

  // ---------------------------------------------------------------- blocks that cannot be completed

  /** The declared length is known, and that many bytes have come. */
  predicate BlockComplete(s: bytes) { ReadVarint(s).Some? && ReadVarint(s).value.0 <= |ReadVarint(s).value.1| }

  /** An entry that overruns a complete block is an underflow, and no later byte changes that. */
  lemma {:induction false} BlockStuck(s: bytes, t: bytes)
    requires ParseBlock(s).Underflow? && BlockComplete(s)
    ensures ParseBlock(s + t).Underflow?
  {
    hide ReadVarint, ParsePairs;
    ReadStable(s, t);
    var (n, s1) := ReadVarint(s).value;
    assert (s1 + t)[..n] == s1[..n];
  }
}
