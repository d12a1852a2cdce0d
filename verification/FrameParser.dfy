/** The parsing side of MoQFramer.cpp: loops over a cursor, with the delta context held in fields. */
module FrameParser {
  import opened Bytes
  import opened Wire
  import opened Extensions
  import opened ObjectWire
  import SubgroupObjects
  import FetchObjects

  function Append(a: ExtensionLists, b: ExtensionLists): ExtensionLists {
    ExtensionLists(a.mutableExts + b.mutableExts, a.immutableExts + b.immutableExts)
  }

  lemma SpliceAppend(a: ExtensionLists, b: ExtensionLists, tail: Parse<ExtensionLists>)
    ensures Splice(a, Splice(b, tail)) == Splice(Append(a, b), tail)
  {
    if tail.Ok? {
      var l := tail.value;
      assert a.mutableExts + (b.mutableExts + l.mutableExts) == (a.mutableExts + b.mutableExts) + l.mutableExts;
      assert a.immutableExts + (b.immutableExts + l.immutableExts) == (a.immutableExts + b.immutableExts) + l.immutableExts;
    }
  }

  class MoQFrameParser {
    var previousFetchGroup: Option<u64>
    var previousFetchSubgroup: Option<u64>
    var previousObjectID: Option<u64>
    var previousFetchPriority: Option<byte>
    var fetchGroupOrder: GroupOrder
    var previousExtensionType: u64

    function Ctx(): Context
      reads this
    {
      Context(previousFetchGroup, previousFetchSubgroup, previousObjectID, previousFetchPriority)
    }

    constructor ()
      ensures Ctx() == EMPTY_CONTEXT && fetchGroupOrder == OldestFirst
    {
      previousFetchGroup, previousFetchSubgroup, previousObjectID := None, None, None;
      previousFetchPriority := None;
      fetchGroupOrder := OldestFirst;
      previousExtensionType := 0;
    }

    method ResetFetchContext()
      modifies this
      ensures Ctx() == EMPTY_CONTEXT && fetchGroupOrder == OldestFirst
    {
      previousFetchGroup, previousFetchSubgroup, previousObjectID := None, None, None;
      previousFetchPriority := None;
      fetchGroupOrder := OldestFirst;
    }

    /** parseExtension: one entry; the container's own delta chain runs through the same field. */
    method ParseExtension(s: bytes, allowImmutable: bool) returns (r: Parse<ExtensionLists>)
      requires s != []
      modifies this`previousExtensionType
      ensures r.Ok? ==> |r.rest| < |s|
      ensures r.Ok? ==>
        ParsePairs(s, old(previousExtensionType), allowImmutable)
          == Splice(r.value, ParsePairs(r.rest, previousExtensionType, allowImmutable))
      ensures r.Underflow? ==> ParsePairs(s, old(previousExtensionType), allowImmutable).Underflow?
      ensures r.Violation? ==> ParsePairs(s, old(previousExtensionType), allowImmutable).Violation?
      decreases |s|, 0
    {
      hide ReadVarint;
      var typeRead := ReadVarint(s);
      if typeRead.None? {
        return Underflow;
      }
      var (delta, s1) := typeRead.value;
      var decoded := DecodeDelta(previousExtensionType, delta);
      if decoded.None? {
        return Violation;
      }
      var typ := decoded.value;
      previousExtensionType := typ;
      if !allowImmutable && typ == IMMUTABLE_TYPE {
        return Violation;
      }
      if typ % 2 == 1 {
        var lengthRead := ReadVarint(s1);
        if lengthRead.None? {
          return Underflow;
        }
        var (n, s2) := lengthRead.value;
        if |s2| < n {
          return Underflow;
        }
        if n > MAX_EXTENSION_LENGTH {
          return Violation;
        }
        if typ == IMMUTABLE_TYPE {
          var inner := ParseExtensionKvPairs(s2[..n], false);
          if !inner.Ok? {
            return inner;
          }
          previousExtensionType := IMMUTABLE_TYPE;
          return Ok(inner.value, s2[n..]);
        }
        return Ok(Inserted(Extension(typ, 0, s2[..n]), allowImmutable), s2[n..]);
      } else {
        var valueRead := ReadVarint(s1);
        if valueRead.None? {
          return Underflow;
        }
        return Ok(Inserted(Extension(typ, valueRead.value.0, []), allowImmutable), valueRead.value.1);
      }
    }

    function Inserted(e: Extension, allowImmutable: bool): ExtensionLists {
      if allowImmutable then ExtensionLists([e], []) else ExtensionLists([], [e])
    }

    method ParseExtensionKvPairs(block: bytes, allowImmutable: bool) returns (r: Parse<ExtensionLists>)
      modifies this`previousExtensionType
      ensures r == ParsePairs(block, 0, allowImmutable)
      decreases |block|, 1
    {
      hide ReadVarint, ParsePairs;
      previousExtensionType := 0;
      var rest := block;
      var lists := ExtensionLists([], []);
      assert Splice(lists, ParsePairs(block, 0, allowImmutable)) == ParsePairs(block, 0, allowImmutable) by {
        SpliceNothing(ParsePairs(block, 0, allowImmutable));
      }
      while rest != []
        invariant |rest| <= |block|
        invariant ParsePairs(block, 0, allowImmutable) == Splice(lists, ParsePairs(rest, previousExtensionType, allowImmutable))
        decreases |rest|
      {
        var one := ParseExtension(rest, allowImmutable);
        if !one.Ok? {
          return one;
        }
        SpliceAppend(lists, one.value, ParsePairs(one.rest, previousExtensionType, allowImmutable));
        lists := Append(lists, one.value);
        rest := one.rest;
      }
      NoPairs(previousExtensionType, allowImmutable);
      SpliceOntoNothing(lists);
      return Ok(lists, []);
    }

    lemma SpliceNothing(p: Parse<ExtensionLists>)
      ensures Splice(ExtensionLists([], []), p) == p
    {
      if p.Ok? {
        assert [] + p.value.mutableExts == p.value.mutableExts && [] + p.value.immutableExts == p.value.immutableExts;
      }
    }

    lemma SpliceOntoNothing(l: ExtensionLists)
      ensures Splice(l, Ok(ExtensionLists([], []), [])) == Ok(l, [])
    {
      assert l.mutableExts + [] == l.mutableExts && l.immutableExts + [] == l.immutableExts;
    }

    lemma {:induction false} NoPairs(previous: u64, allowImmutable: bool)
      ensures ParsePairs([], previous, allowImmutable) == Ok(ExtensionLists([], []), [])
    {
    }

    method ParseExtensions(s: bytes) returns (r: Parse<ExtensionLists>)
      modifies this`previousExtensionType
      ensures r == ParseBlock(s)
    {
      hide ReadVarint, ParsePairs;
      var lengthRead := ReadVarint(s);
      if lengthRead.None? {
        return Underflow;
      }
      var (n, s1) := lengthRead.value;
      if n > MAX_BLOCK_LENGTH {
        return Violation;
      }
      if n > |s1| {
        return Underflow;
      }
      var lists := ParseExtensionKvPairs(s1[..n], true);
      if !lists.Ok? {
        return lists;
      }
      return Ok(lists.value, s1[n..]);
    }

    method ParseObjectTail(s: bytes, h: ObjectHeader, hasExtensions: bool, hasStatus: bool) returns (r: Parse<ObjectHeader>)
      modifies this`previousExtensionType
      ensures r == ParseTail(s, h, hasExtensions, hasStatus)
    {
      hide ReadVarint, ParseBlock;
      var lists, rest := NO_EXTENSIONS, s;
      if hasExtensions {
        var ext := ParseExtensions(s);
        match ext
        case Underflow => return Underflow;
        case Violation => return Violation;
        case Ok(l, s1) => lists, rest := l, s1;
      }
      var tail := ParseStatusAndLength(rest, h.(extensions := Append(h.extensions, lists)), hasStatus);
      if tail.Ok? && tail.value.status != NORMAL && !tail.value.extensions.Empty() {
        return Violation;
      }
      return tail;
    }

    /** parseSubgroupObjectHeader: the context moves on success and on success only. */
    method ParseSubgroupObjectHeader(s: bytes, template: ObjectHeader, hasExtensions: bool) returns (r: Parse<ObjectHeader>)
      modifies this
      ensures r == SubgroupObjects.ParseObject(s, old(previousObjectID), template, hasExtensions)
      ensures fetchGroupOrder == old(fetchGroupOrder)
      ensures Ctx() == if r.Ok? then old(Ctx()).(objectId := Some(r.value.id)) else old(Ctx())
    {
      hide ReadVarint, ParseTail;
      var idRead := ReadVarint(s);
      if idRead.None? {
        return Underflow;
      }
      var (delta, s1) := idRead.value;
      var id := delta;
      if previousObjectID.Some? {
        var decoded := DecodeDelta(previousObjectID.value, (delta + 1) % U64_LIMIT);
        if decoded.None? {
          return Violation;
        }
        id := decoded.value;
      }
      r := ParseObjectTail(s1, template.(id := id), hasExtensions, true);
      if r.Ok? {
        KeepsId(s1, template.(id := id), hasExtensions, true);
        previousObjectID := Some(id);
      }
    }

    lemma KeepsId(s: bytes, h: ObjectHeader, hasExtensions: bool, hasStatus: bool)
      requires ParseTail(s, h, hasExtensions, hasStatus).Ok?
      ensures var h1 := ParseTail(s, h, hasExtensions, hasStatus).value;
        h1.id == h.id && h1.group == h.group && h1.subgroup == h.subgroup && h1.priority == h.priority
    {
      hide ReadVarint, ParseBlock;
    }

    /** parseFetchObjectHeader: the context moves on success and on success only. */
    method ParseFetchObjectHeader(s: bytes, template: ObjectHeader) returns (r: Parse<FetchObjects.FetchStep>)
      modifies this
      ensures r == FetchObjects.ParseItem(s, old(Ctx()), fetchGroupOrder, template)
      ensures fetchGroupOrder == old(fetchGroupOrder)
      ensures Ctx() == if r.Ok? then r.value.context else old(Ctx())
    {
      hide ReadVarint, FetchObjects.ParseRange, FetchObjects.ParseGroup, FetchObjects.FlagsOf;
      var flagsRead := ReadVarint(s);
      if flagsRead.None? {
        return Underflow;
      }
      var (flags, s1) := flagsRead.value;
      if flags == FetchObjects.END_OF_NON_EXISTENT_RANGE || flags == FetchObjects.END_OF_UNKNOWN_RANGE {
        r := FetchObjects.ParseRange(s1, Ctx(), flags == FetchObjects.END_OF_UNKNOWN_RANGE);
        if r.Ok? {
          RangeContext(s1, Ctx(), flags == FetchObjects.END_OF_UNKNOWN_RANGE);
          previousFetchGroup, previousObjectID := Some(r.value.item.group), Some(r.value.item.objectId);
        }
        return;
      }
      if flags >= 0x80 || previousFetchGroup.Some? != previousObjectID.Some? {
        return Violation;
      }
      var f := FetchObjects.FlagsOf(flags);
      if previousFetchGroup.None? && !(f.hasGroup && f.hasId) {
        return Violation;
      }
      r := ParseFields(s1, f, template);
      if r.Ok? {
        var c := r.value.context;
        previousFetchGroup, previousFetchSubgroup := c.group, c.subgroup;
        previousObjectID, previousFetchPriority := c.objectId, c.priority;
      }
    }

    lemma RangeContext(s: bytes, c: Context, isUnknown: bool)
      requires FetchObjects.ParseRange(s, c, isUnknown).Ok?
      ensures var r := FetchObjects.ParseRange(s, c, isUnknown).value;
        && r.item.EndOfRange?
        && r.context == c.(group := Some(r.item.group), objectId := Some(r.item.objectId))
    {
      hide ReadVarint;
    }

    /** The fields after the flags, each read only if its flag is set and resolved against the context. */
    method ParseFields(s: bytes, f: FetchObjects.Flags, template: ObjectHeader) returns (r: Parse<FetchObjects.FetchStep>)
      modifies this`previousExtensionType
      ensures r == FetchObjects.ParseGroup(s, f, Ctx(), fetchGroupOrder, template)
    {
      hide ReadVarint, ParseTail, FetchObjects.ResolveGroup, FetchObjects.ResolveObject;
      var h, rest := template, s;
      var groupRead := FetchObjects.ReadIf(f.hasGroup, rest);
      if groupRead.None? {
        return Underflow;
      }
      var group := FetchObjects.ResolveGroup(groupRead.value.0, previousFetchGroup, fetchGroupOrder);
      if group.None? {
        return Violation;
      }
      h, rest := h.(group := group.value), groupRead.value.1;
      if f.datagram || f.mode == 0 {
        h := h.(subgroup := 0);
      } else if f.mode == 3 {
        var subgroupRead := ReadVarint(rest);
        if subgroupRead.None? {
          return Underflow;
        }
        h, rest := h.(subgroup := subgroupRead.value.0), subgroupRead.value.1;
      } else if previousFetchSubgroup.None? {
        return Violation;
      } else if f.mode == 1 {
        h := h.(subgroup := previousFetchSubgroup.value);
      } else {
        h := h.(subgroup := (previousFetchSubgroup.value + 1) % U64_LIMIT);
      }
      assert FetchObjects.ParseGroup(s, f, Ctx(), fetchGroupOrder, template) == FetchObjects.ParseId(rest, f, Ctx(), h);
      r := ParseIdAndPriority(rest, f, h);
    }

    method ParseIdAndPriority(s: bytes, f: FetchObjects.Flags, template: ObjectHeader) returns (r: Parse<FetchObjects.FetchStep>)
      modifies this`previousExtensionType
      ensures r == FetchObjects.ParseId(s, f, Ctx(), template)
    {
      hide ReadVarint, ParseTail, FetchObjects.ResolveObject;
      var idRead := FetchObjects.ReadIf(f.hasId, s);
      if idRead.None? {
        return Underflow;
      }
      var id := FetchObjects.ResolveObject(idRead.value.0, f.hasGroup, previousObjectID);
      if id.None? {
        return Violation;
      }
      var h, rest := template.(id := id.value), idRead.value.1;
      if f.hasPriority {
        if |rest| < 1 {
          return Underflow;
        }
        h, rest := h.(priority := Some(rest[0])), rest[1..];
      } else if previousFetchPriority.None? {
        return Violation;
      } else {
        h := h.(priority := previousFetchPriority);
      }
      var tail := ParseObjectTail(rest, h, f.hasExtensions, false);
      match tail
      case Underflow => return Underflow;
      case Violation => return Violation;
      case Ok(h1, s1) =>
        var c := Context(Some(h.group), Some(h.subgroup), Some(h.id), h.priority);
        return Ok(FetchObjects.FetchStep(FetchObjects.Object(h1.(datagram := f.datagram)), c), s1);
    }
  }

  /** parsePaddingData: any non-zero byte is a violation. */
  method ParsePaddingData(s: bytes) returns (ok: bool)
    ensures ok <==> forall b :: b in s ==> b == 0
  {
    for i := 0 to |s|
      invariant forall j :: 0 <= j < i ==> s[j] == 0
    {
      if s[i] != 0 {
        assert s[i] in s;
        return false;
      }
    }
    return true;
  }
}
