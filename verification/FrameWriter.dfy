/** The writing side of MoQFramer.cpp, appending to a buffer and updating its delta context in place. */
module FrameWriter {
  import opened Bytes
  import opened Extensions
  import opened ObjectWire
  import SubgroupObjects
  import FetchObjects
  import Varint

  // ---------------------------------------------------------------- sorting

  function InsertByType(e: Extension, sorted: seq<Extension>): seq<Extension> {
    if sorted == [] || e.typ <= sorted[0].typ then [e] + sorted else [sorted[0]] + InsertByType(e, sorted[1..])
  }

  /** sortExtensionsByType; std::sort may order equal types otherwise, which nothing below depends on. */
  function SortByType(es: seq<Extension>): seq<Extension> {
    if es == [] then [] else InsertByType(es[0], SortByType(es[1..]))
  }

  lemma {:induction false} InsertKeepsOrder(e: Extension, sorted: seq<Extension>, previous: u64)
    requires SortedFrom(sorted, previous) && previous <= e.typ
    ensures SortedFrom(InsertByType(e, sorted), previous)
    ensures multiset(InsertByType(e, sorted)) == multiset{e} + multiset(sorted)
  {
    if sorted == [] || e.typ <= sorted[0].typ {
      assert ([e] + sorted)[1..] == sorted;
    } else {
      InsertKeepsOrder(e, sorted[1..], sorted[0].typ);
      var tail := InsertByType(e, sorted[1..]);
      assert ([sorted[0]] + tail)[1..] == tail;
      assert sorted == [sorted[0]] + sorted[1..];
    }
  }

  lemma {:induction false} SortSorts(es: seq<Extension>)
    ensures SortedPermutation(es, SortByType(es))
  {
    if es != [] {
      SortSorts(es[1..]);
      InsertKeepsOrder(es[0], SortByType(es[1..]), 0);
      assert es == [es[0]] + es[1..];
    }
  }

  // ---------------------------------------------------------------- extension loops

  /** calculateExtensionVectorSize returns the length that writeKeyValuePairs goes on to write. */
  method CalculateExtensionVectorSize(extensions: seq<Extension>) returns (size: nat)
    ensures SortedFrom(SortByType(extensions), 0)
    ensures size == |WritePairs(SortByType(extensions), 0)|
  {
    SortSorts(extensions);
    var sorted := SortByType(extensions);
    size := 0;
    var previousType: u64 := 0;
    for i := 0 to |sorted|
      invariant SortedFrom(sorted[i..], previousType)
      invariant size + PairsSize(sorted[i..], previousType) == PairsSize(sorted, 0)
    {
      hide Varint.Size, SortByType, SortedFrom, PairsSize;
      var ext := sorted[i];
      PairsSizeStep(sorted, i, previousType);
      size := size + Varint.Size(ext.typ - previousType);
      previousType := ext.typ;
      if ext.typ % 2 == 1 {
        size := size + Varint.Size(|ext.arrayValue|) + |ext.arrayValue|;
      } else {
        size := size + Varint.Size(ext.intValue);
      }
    }
    PairsSizeIsExact(sorted, 0);
  }

  lemma {:induction false} PairsSizeStep(sorted: seq<Extension>, i: nat, previous: u64)
    requires i < |sorted| && SortedFrom(sorted[i..], previous)
    ensures previous <= sorted[i].typ && SortedFrom(sorted[i + 1..], sorted[i].typ)
    ensures PairsSize(sorted[i..], previous)
         == Varint.Size(sorted[i].typ - previous) + ValueSize(sorted[i]) + PairsSize(sorted[i + 1..], sorted[i].typ)
  {
    hide Varint.Size, ValueSize;
    assert sorted[i..][0] == sorted[i] && sorted[i..][1..] == sorted[i + 1..];
  }

  method WriteExtension(buf: bytes, ext: Extension, previousType: u64) returns (out: bytes)
    requires previousType <= ext.typ
    ensures out == buf + WritePair(ext, previousType)
  {
    hide Varint.Encode;
    out := buf + Varint.Encode(ext.typ - previousType);
    if ext.Odd() {
      out := out + Varint.Encode(|ext.arrayValue|) + ext.arrayValue;
    } else {
      out := out + Varint.Encode(ext.intValue);
    }
  }

  method WriteKeyValuePairs(buf: bytes, extensions: seq<Extension>) returns (out: bytes)
    ensures SortedFrom(SortByType(extensions), 0)
    ensures out == buf + WritePairs(SortByType(extensions), 0)
  {
    hide WritePair, SortByType;
    SortSorts(extensions);
    var sorted := SortByType(extensions);
    out := buf;
    var previousType: u64 := 0;
    for i := 0 to |sorted|
      invariant SortedFrom(sorted[i..], previousType)
      invariant out + WritePairs(sorted[i..], previousType) == buf + WritePairs(sorted, 0)
    {
      var ext := sorted[i];
      assert sorted[i..][0] == ext && sorted[i..][1..] == sorted[i + 1..];
      ghost var before := out;
      out := WriteExtension(out, ext, previousType);
      ghost var tail := WritePairs(sorted[i + 1..], ext.typ);
      assert before + (WritePair(ext, previousType) + tail) == out + tail;
      previousType := ext.typ;
    }
  }

  method WriteImmutableContainer(buf: bytes, immutables: seq<Extension>, typeToWrite: u64, bodySize: u64) returns (out: bytes)
    requires SortedFrom(SortByType(immutables), 0) && bodySize == |WritePairs(SortByType(immutables), 0)|
    requires typeToWrite <= IMMUTABLE_TYPE
    ensures out == buf + WriteContainer(SortByType(immutables), IMMUTABLE_TYPE - typeToWrite)
  {
    hide Varint.Encode;
    out := buf + Varint.Encode(typeToWrite) + Varint.Encode(bodySize);
    out := WriteKeyValuePairs(out, immutables);
  }

  function SortedLists(l: ExtensionLists): ExtensionLists {
    ExtensionLists(SortByType(l.mutableExts), SortByType(l.immutableExts))
  }

  method WriteExtensions(buf: bytes, extensions: ExtensionLists) returns (out: bytes)
    requires BlockFits(SortedLists(extensions).mutableExts, SortedLists(extensions).immutableExts)
    ensures out == buf + WriteBlock(SortedLists(extensions).mutableExts, SortedLists(extensions).immutableExts)
  {
    hide Varint.Encode, WritePairs, WriteChain, SortByType, SortedFrom;
    var immutableBodySize := 0;
    if extensions.immutableExts != [] {
      immutableBodySize := CalculateExtensionVectorSize(extensions.immutableExts);
    }
    var block := WriteBlockBody(extensions, immutableBodySize);
    out := buf + Varint.Encode(|block|) + block;
  }

  /** The loop of writeExtensions over the sorted mutable list, placing the container on the way. */
  method WriteBlockBody(extensions: ExtensionLists, immutableBodySize: nat) returns (block: bytes)
    requires BlockFits(SortedLists(extensions).mutableExts, SortedLists(extensions).immutableExts)
    requires extensions.immutableExts != [] ==> immutableBodySize == |WritePairs(SortByType(extensions.immutableExts), 0)|
    ensures block == WriteChain(SortedLists(extensions).mutableExts, SortedLists(extensions).immutableExts, 0)
  {
    hide Varint.Encode, WritePair, WritePairs, WriteContainer, SortByType, WriteChain, SortedFrom;
    var hasImmutableBlob := extensions.immutableExts != [];
    ghost var sortedImm := SortByType(extensions.immutableExts);
    SameLength(extensions.immutableExts);
    NothingFits();
    var sortedMutable := SortByType(extensions.mutableExts);
    block := [];
    var previousType: u64 := 0;
    var containerPlaced := false;
    ghost var whole := WriteChain(sortedMutable, sortedImm, 0);
    for i := 0 to |sortedMutable|
      invariant SortedFrom(sortedMutable[i..], previousType)
      invariant hasImmutableBlob && !containerPlaced ==> previousType <= IMMUTABLE_TYPE
      invariant block + WriteChain(sortedMutable[i..], if containerPlaced then [] else sortedImm, previousType) == whole
    {
      var ext := sortedMutable[i];
      ghost var before := block;
      ChainStep(sortedMutable, i, if containerPlaced then [] else sortedImm, previousType);
      if hasImmutableBlob && !containerPlaced && ext.typ > IMMUTABLE_TYPE {
        block := WriteImmutableContainer(block, extensions.immutableExts, IMMUTABLE_TYPE - previousType, immutableBodySize);
        Shift(before, WriteContainer(sortedImm, previousType), WriteChain(sortedMutable[i..], [], IMMUTABLE_TYPE));
        previousType := IMMUTABLE_TYPE;
        containerPlaced := true;
        ChainStep(sortedMutable, i, [], previousType);
      }
      before := block;
      block := WriteExtension(block, ext, previousType);
      ghost var pending := if containerPlaced then [] else sortedImm;
      Shift(before, WritePair(ext, previousType), WriteChain(sortedMutable[i + 1..], pending, ext.typ));
      previousType := ext.typ;
    }
    ChainEnd(sortedMutable[|sortedMutable|..], if containerPlaced then [] else sortedImm, previousType);
    if hasImmutableBlob && !containerPlaced {
      block := WriteImmutableContainer(block, extensions.immutableExts, IMMUTABLE_TYPE - previousType, immutableBodySize);
    } else {
      assert block + [] == block;
    }
  }

  lemma Shift(a: bytes, b: bytes, c: bytes)
    ensures a + (b + c) == (a + b) + c
  {
  }

  lemma {:induction false} ChainEnd(mutables: seq<Extension>, pending: seq<Extension>, previous: u64)
    requires mutables == [] && BodyFits(pending) && (pending != [] ==> previous <= IMMUTABLE_TYPE)
    ensures SortedFrom(mutables, previous)
    ensures WriteChain(mutables, pending, previous) == if pending == [] then [] else WriteContainer(pending, previous)
  {
  }

  lemma NothingFits()
    ensures BodyFits([])
  {
  }

  lemma {:induction false} SameLength(es: seq<Extension>)
    ensures |SortByType(es)| == |es|
  {
    SortSorts(es);
    assert |multiset(SortByType(es))| == |multiset(es)|;
  }

  /** The chain from position `i` on, with the container due, or with the pair due. */
  lemma {:induction false} ChainStep(sorted: seq<Extension>, i: nat, pending: seq<Extension>, previous: u64)
    requires i < |sorted| && SortedFrom(sorted[i..], previous) && BodyFits(pending)
    requires pending != [] ==> previous <= IMMUTABLE_TYPE
    ensures previous <= sorted[i].typ && SortedFrom(sorted[i + 1..], sorted[i].typ)
    ensures if pending != [] && sorted[i].typ > IMMUTABLE_TYPE then
        && SortedFrom(sorted[i..], IMMUTABLE_TYPE)
        && WriteChain(sorted[i..], pending, previous)
             == WriteContainer(pending, previous) + WriteChain(sorted[i..], [], IMMUTABLE_TYPE)
      else
        WriteChain(sorted[i..], pending, previous)
          == WritePair(sorted[i], previous) + WriteChain(sorted[i + 1..], pending, sorted[i].typ)
  {
    hide WritePair, WriteContainer;
    assert sorted[i..][0] == sorted[i] && sorted[i..][1..] == sorted[i + 1..];
  }

  // ---------------------------------------------------------------- objects

  class MoQFrameWriter {
    var previousFetchGroup: Option<u64>
    var previousFetchSubgroup: Option<u64>
    var previousObjectID: Option<u64>
    var previousFetchPriority: Option<byte>
    var fetchGroupOrder: GroupOrder

    function Ctx(): Context
      reads this
    {
      Context(previousFetchGroup, previousFetchSubgroup, previousObjectID, previousFetchPriority)
    }

    constructor ()
      ensures Ctx() == EMPTY_CONTEXT && fetchGroupOrder == OldestFirst
    {
      previousFetchGroup, previousFetchSubgroup, previousObjectID := None, None, None;
      previousFetchPriority := None;
      fetchGroupOrder := OldestFirst;
    }

    /** The FETCH branch of writeStreamObject: the buffer it leaves, and whether it reports an error. */
    method WriteFetchObject(buf: bytes, h: ObjectHeader, payload: bytes) returns (out: bytes, ok: bool)
      requires h.priority.Some? && (h.status == NORMAL && Length(h) == 0 ==> payload == [])
      requires BlockFits(SortedLists(h.extensions).mutableExts, SortedLists(h.extensions).immutableExts)
      modifies this
      ensures (out, ok) == FetchWritten(buf, h, payload, old(Ctx()), fetchGroupOrder)
      ensures Ctx() == if ok then FetchObjects.NextContext(h) else old(Ctx())
      ensures fetchGroupOrder == old(fetchGroupOrder)
    {
      hide Varint.Encode, WriteTail, FetchObjects.DeltaFieldsFor, FetchObjects.SubgroupMode;
      if h.status != NORMAL {
        return buf, false;
      }
      out, ok := buf, true;
      var fields := FetchObjects.DeltaFieldsFor(h.group, h.id, Ctx(), fetchGroupOrder);
      if fields.None? {
        ok := false;
      } else {
        var head := WriteFetchFields(h, fields.value);
        ghost var c := Ctx();
        previousFetchGroup, previousFetchSubgroup := Some(h.group), Some(h.subgroup);
        previousObjectID, previousFetchPriority := Some(h.id), h.priority;
        var tail := WriteTailBytes(h, !h.extensions.Empty(), false);
        FieldsThenTail(h, c, fields.value, tail);
        out := out + (head + tail);
      }
      if Length(h) > 0 {
        out := out + payload;
      } else {
        assert out + [] == out;
      }
    }

    /** writeFetchObjectHeaderImpl: the flags and the fields they announce. */
    method WriteFetchFields(h: ObjectHeader, d: FetchObjects.DeltaFields) returns (head: bytes)
      requires h.priority.Some?
      ensures FetchObjects.FlagsFor(h, Ctx(), d).Byte() < 0x80
      ensures head == FieldBytes(h, Ctx(), d)
    {
      hide Varint.Encode, FetchObjects.SubgroupMode, FetchObjects.WriteIf, FetchObjects.FlagsOf, FetchObjects.Flags.Byte;
      var f := FetchObjects.FlagsFor(h, Ctx(), d);
      FetchObjects.FlagsRoundTrip(f);
      head := Varint.Encode(f.Byte());
      head := AppendIf(head, d.groupDelta);
      head := AppendIf(head, if f.mode == 3 then Some(h.subgroup) else None);
      head := AppendIf(head, d.objectDelta);
      if f.hasPriority {
        head := head + [h.priority.value];
      } else {
        assert head + [] == head;
      }
    }

    method AppendIf(buf: bytes, field: Option<u64>) returns (out: bytes)
      ensures out == buf + FetchObjects.WriteIf(field)
    {
      out := if field.Some? then buf + Varint.Encode(field.value) else buf;
    }

    /**
      The SUBGROUP branch of writeStreamObject: an ID that does not increase is refused. The payload may be the first
      part of a longer one; that there is none without a length, and no length with a status, is checked by the code.
     */
    method WriteSubgroupObject(buf: bytes, h: ObjectHeader, hasExtensions: bool, payload: bytes) returns (out: Option<bytes>)
      requires if Length(h) == 0 then payload == [] else h.status == NORMAL
      requires BlockFits(SortedLists(h.extensions).mutableExts, SortedLists(h.extensions).immutableExts)
      modifies this
      ensures var w := SubgroupObjects.WriteObject(old(previousObjectID), h.(extensions := SortedLists(h.extensions)), hasExtensions);
        if w.None? then out.None? && Ctx() == old(Ctx())
        else out == Some(buf + w.value + payload) && Ctx() == old(Ctx()).(objectId := Some(h.id))
      ensures fetchGroupOrder == old(fetchGroupOrder)
    {
      hide Varint.Encode, WriteTail;
      var delta: u64;
      if previousObjectID.Some? {
        if h.id > previousObjectID.value {
          delta := h.id - previousObjectID.value - 1;
        } else {
          return None;
        }
      } else {
        delta := h.id;
      }
      previousObjectID := Some(h.id);
      var tail := WriteTailBytes(h, hasExtensions, true);
      out := Some(buf + (Varint.Encode(delta) + tail) + payload);
    }

    method WriteTailBytes(h: ObjectHeader, hasExtensions: bool, hasStatus: bool) returns (out: bytes)
      requires BlockFits(SortedLists(h.extensions).mutableExts, SortedLists(h.extensions).immutableExts)
      ensures out == WriteTail(h.(extensions := SortedLists(h.extensions)), hasExtensions, hasStatus)
    {
      hide Varint.Encode, WriteBlock, SortByType, WriteChain, SortedFrom;
      out := [];
      if hasExtensions {
        out := WriteExtensions(out, h.extensions);
      }
      if Length(h) > 0 {
        out := out + Varint.Encode(Length(h));
      } else {
        out := out + Varint.Encode(0);
        if hasStatus {
          out := out + Varint.Encode(h.status);
        }
      }
    }
  }

  /**
    What writeStreamObject does on a FETCH stream. It goes on after the object's location is refused: nothing more is
    encoded, but a payload is still appended.
   */
  function FetchWritten(buf: bytes, h: ObjectHeader, payload: bytes, c: Context, order: GroupOrder): (bytes, bool)
    requires h.priority.Some?
    requires BlockFits(SortedLists(h.extensions).mutableExts, SortedLists(h.extensions).immutableExts)
  {
    match FetchObjects.WriteObject(h.(extensions := SortedLists(h.extensions)), c, order)
    case Some(w) => (buf + w + payload, true)
    case None => (if h.status == NORMAL && Length(h) > 0 then buf + payload else buf, false)
  }

  /** A refused object leaves the buffer alone exactly if it was refused for its status or has no payload. */
  lemma {:induction false} RefusedObject(buf: bytes, h: ObjectHeader, payload: bytes, c: Context, order: GroupOrder)
    requires h.priority.Some? && (h.status == NORMAL && Length(h) == 0 ==> payload == []) && FetchObjects.Paired(c)
    requires BlockFits(SortedLists(h.extensions).mutableExts, SortedLists(h.extensions).immutableExts)
    ensures var (out, ok) := FetchWritten(buf, h, payload, c, order);
      && (ok <==> h.status == NORMAL && FetchObjects.Follows(h.group, h.id, c, order))
      && (!ok ==> (out == buf <==> h.status != NORMAL || payload == []))
  {
    hide FetchObjects.DeltaFieldsFor, FetchObjects.WriteFields, FetchObjects.FlagsFor, SortByType, BlockFits;
    FetchObjects.DeltaFieldsInvert(h.group, h.id, c, order);
    if payload != [] {
      assert |buf + payload| != |buf|;
    } else {
      assert buf + payload == buf;
    }
  }

  /** An object one behind the last of its group is refused, and its payload stays behind on the stream. */
  lemma {:induction false} StrayPayload(buf: bytes, b: byte)
    ensures var h := ObjectHeader(5, 0, 4, Some(0), NORMAL, NO_EXTENSIONS, Some(1), false);
      FetchWritten(buf, h, [b], Context(Some(5), Some(0), Some(5), Some(0)), OldestFirst) == (buf + [b], false)
  {
  }

  /** The bytes in front of the tail, in the order they are appended. */
  function FieldBytes(h: ObjectHeader, c: Context, d: FetchObjects.DeltaFields): bytes
    requires h.priority.Some? && FetchObjects.FlagsFor(h, c, d).Byte() < 0x80
  {
    var f := FetchObjects.FlagsFor(h, c, d);
    Varint.Encode(f.Byte()) + FetchObjects.WriteIf(d.groupDelta)
    + FetchObjects.WriteIf(if f.mode == 3 then Some(h.subgroup) else None)
    + FetchObjects.WriteIf(d.objectDelta)
    + (if f.hasPriority then [h.priority.value] else [])
  }

  lemma FieldsThenTail(h: ObjectHeader, c: Context, d: FetchObjects.DeltaFields, tail: bytes)
    requires h.priority.Some? && FetchObjects.FlagsFor(h, c, d).Byte() < 0x80
    requires BlockFits(SortedLists(h.extensions).mutableExts, SortedLists(h.extensions).immutableExts)
    requires tail == WriteTail(h.(extensions := SortedLists(h.extensions)), !h.extensions.Empty(), false)
    ensures var hs := h.(extensions := SortedLists(h.extensions));
      && FetchObjects.FlagsFor(hs, c, d) == FetchObjects.FlagsFor(h, c, d)
      && FieldBytes(h, c, d) + tail == Varint.Encode(FetchObjects.FlagsFor(hs, c, d).Byte()) + FetchObjects.WriteFields(hs, c, d)
  {
    hide Varint.Encode, WriteTail, SortByType;
    SameEmptiness(h.extensions);
    var f := FetchObjects.FlagsFor(h, c, d);
    Reassociate(Varint.Encode(f.Byte()), FetchObjects.WriteIf(d.groupDelta),
      FetchObjects.WriteIf(if f.mode == 3 then Some(h.subgroup) else None),
      FetchObjects.WriteIf(d.objectDelta), if f.hasPriority then [h.priority.value] else [], tail);
  }

  lemma Reassociate(a: bytes, b: bytes, c: bytes, d: bytes, e: bytes, f: bytes)
    ensures (a + b + c + d + e) + f == a + (b + (c + (d + (e + f))))
  {
  }

  lemma SameEmptiness(l: ExtensionLists)
    ensures SortedLists(l).Empty() <==> l.Empty()
  {
    SameLength(l.mutableExts);
    SameLength(l.immutableExts);
  }
}
