/**
  Locations, draft-22 Location Filters and the ranges they stand for (MoQTypes.h, MoQTypes.cpp, MoQLocation.h,
  FillFetch.cpp). Every range form is given its meaning as a set of locations.
 */
module Locations {
  import opened Bytes

  /** kEightByteLimit: the largest group and object ID. */
  const LIMIT: u64 := 0x3FFF_FFFF_FFFF_FFFF

  datatype Location = Location(group: u64, objectId: u64) {
    predicate Valid() { group <= LIMIT && objectId <= LIMIT }

    predicate Less(o: Location) { group < o.group || (group == o.group && objectId < o.objectId) }

    predicate AtMost(o: Location) { Less(o) || this == o }

    function Next(): Option<Location>
      requires Valid()
    {
      if group == LIMIT && objectId == LIMIT then None
      else if objectId == LIMIT then Some(Location(group + 1, 0))
      else Some(Location(group, objectId + 1))
    }

    function Prev(): Option<Location> {
      if group == 0 && objectId == 0 then None
      else if objectId == 0 then Some(Location(group - 1, LIMIT))
      else Some(Location(group, objectId - 1))
    }
  }

  const MIN := Location(0, 0)
  const MAX := Location(LIMIT, LIMIT)

  function Least(a: Location, b: Location): Location { if b.Less(a) then b else a }

  /** Nothing lies between a location and its successor. */
  lemma NextIsAdjacent(a: Location, b: Location)
    requires a.Valid() && b.Valid() && a != MAX
    ensures a.Next().Some? && a.Next().value.Valid()
    ensures a.Next().value.AtMost(b) <==> a.Less(b)
    ensures a.Next().value.Prev() == Some(a)
  {
  }

  // ---------------------------------------------------------------- ranges as sets

  /** SubscribeRange: both ends inclusive. */
  datatype Range = Range(start: Location, end: Location) {
    predicate Contains(l: Location) { start.AtMost(l) && l.AtMost(end) }
  }

  /** StandaloneFetch: a wire end, where object 0 stands for all of its group and any other is exclusive. */
  datatype FetchRange = FetchRange(start: Location, end: Location) {
    predicate Contains(l: Location) {
      start.AtMost(l) && (if end.objectId == 0 then l.group <= end.group else l.Less(end))
    }
  }

  /** isEmptyFetchRange */
  predicate IsEmptyFetchRange(r: FetchRange) {
    if r.end.group == r.start.group && r.end.objectId == 0 then false else r.end.AtMost(r.start)
  }

  /** The emptiness test is exact: it holds just when no location is in the range. */
  lemma EmptinessIsExact(r: FetchRange)
    requires r.start.Valid() && r.end.Valid()
    ensures IsEmptyFetchRange(r) <==> !exists l: Location :: l.Valid() && r.Contains(l)
  {
    if !IsEmptyFetchRange(r) {
      assert r.Contains(r.start);
    }
  }

  // ---------------------------------------------------------------- filters

  /** LocationFilter: the number of fields present decides what they mean. */
  datatype Filter = Filter(fieldCount: nat, start: Location, end: Location) {
    /** What the public constructors build. */
    predicate Canonical() {
      && fieldCount <= 4 && start.Valid() && end.Valid()
      && (fieldCount == 0 ==> start == MIN)
      && (fieldCount == 1 ==> start.objectId == 0)
      && (fieldCount < 3 ==> end == MIN)
      && (fieldCount == 3 ==> end.objectId == 0)
    }

    predicate NextObjectForm() { fieldCount == 2 && start == MIN }

    predicate NeedsLargest() { fieldCount == 1 || NextObjectForm() }

    predicate EndBeforeStart() { fieldCount >= 3 && end.group < start.group }

    /** The inclusive end, open when the filter has none. */
    function InclusiveEnd(): Location {
      if fieldCount >= 3 then Location(end.group, if fieldCount == 3 then LIMIT else end.objectId) else MAX
    }
  }

  function Unfiltered(): Filter { Filter(0, MIN, MIN) }
  function RelativeStart(groupsBack: u64): Filter { Filter(1, Location(groupsBack, 0), MIN) }
  function NextObject(): Filter { Filter(2, MIN, MIN) }
  function AbsoluteStart(start: Location): Filter { if start == MIN then Unfiltered() else Filter(2, start, MIN) }
  function ThroughGroup(start: Location, endGroup: u64): Filter { Filter(3, start, Location(endGroup, 0)) }
  function ThroughObject(start: Location, end: Location): Filter { Filter(4, start, end) }

  /** saturatingAdd; the subtraction is in 64 bits. */
  function SaturatingAdd(a: u64, b: u64): u64 {
    if b > (LIMIT - a) % U64_LIMIT then LIMIT else (a + b) % U64_LIMIT
  }

  /** LocationFilter::resolve */
  function Resolve(f: Filter, largest: Option<Location>, isFetch: bool): Range
    requires f.Canonical() && (largest.Some? ==> largest.value.Valid())
  {
    var nextObject := if largest.None? then MIN
                      else if largest.value.Next().Some? then largest.value.Next().value else MAX;
    var start :=
      if f.fieldCount == 1 then
        var nextGroup := if largest.Some? then SaturatingAdd(largest.value.group, 1) else 0;
        Location(if f.start.group > nextGroup then 0 else nextGroup - f.start.group, 0)
      else if f.NextObjectForm() then nextObject
      else if !isFetch && largest.Some? && f.start.Less(largest.value) then nextObject
      else f.start;
    var end := f.InclusiveEnd();
    Range(start, if isFetch && largest.Some? then Least(end, largest.value) else end)
  }

  /** LocationFilter::fetchRange */
  function ToFetchRange(f: Filter, largest: Option<Location>): FetchRange
    requires f.Canonical() && (largest.Some? ==> largest.value.Valid())
  {
    var r := Resolve(f, largest, true);
    if r.end.objectId == LIMIT then FetchRange(r.start, Location(r.end.group, 0))
    else FetchRange(r.start, if r.end.Next().Some? then r.end.Next().value else MAX)
  }

  /** toLocationFilter */
  function FromFetchRange(r: FetchRange): Filter {
    if r.end == MAX then AbsoluteStart(r.start)
    else if r.end.objectId == 0 then ThroughGroup(r.start, r.end.group)
    else if r.end.Prev().None? then AbsoluteStart(r.start)
    else ThroughObject(r.start, r.end.Prev().value)
  }

  /** Turning the inclusive range into a wire end keeps the set. */
  lemma FetchRangeIsExact(f: Filter, largest: Option<Location>, l: Location)
    requires f.Canonical() && (largest.Some? ==> largest.value.Valid()) && l.Valid()
    ensures ToFetchRange(f, largest).Contains(l) <==> Resolve(f, largest, true).Contains(l)
    ensures ToFetchRange(f, largest).start.Valid() && ToFetchRange(f, largest).end.Valid()
  {
    var r := Resolve(f, largest, true);
    ResolvedIsValid(f, largest, true);
    if r.end.objectId != LIMIT {
      NextIsAdjacent(r.end, l);
    }
  }

  lemma ResolvedIsValid(f: Filter, largest: Option<Location>, isFetch: bool)
    requires f.Canonical() && (largest.Some? ==> largest.value.Valid())
    ensures Resolve(f, largest, isFetch).start.Valid() && Resolve(f, largest, isFetch).end.Valid()
  {
    if largest.Some? && largest.value != MAX {
      NextIsAdjacent(largest.value, MAX);
    }
  }

  // ---------------------------------------------------------------- joining a live track

  /** The locations a filter asks for, before Largest Object enters. */
  predicate Wanted(f: Filter, l: Location) {
    f.start.AtMost(l) && l.AtMost(f.InclusiveEnd())
  }

  /**
    Seamless join: for an absolute start below Largest, the fill and the subscription split the wanted
    locations exactly, the fill taking those up to Largest and the subscription those above it.
   */
  lemma SeamlessJoin(f: Filter, largest: Location, l: Location)
    requires f.Canonical() && !f.NeedsLargest() && largest.Valid() && l.Valid() && largest != MAX
    requires f.start.Less(largest)
    ensures ToFetchRange(f, Some(largest)).Contains(l) <==> Wanted(f, l) && l.AtMost(largest)
    ensures Resolve(f, Some(largest), false).Contains(l) <==> Wanted(f, l) && largest.Less(l)
  {
    FetchRangeIsExact(f, Some(largest), l);
    NextIsAdjacent(largest, l);
    NextIsAdjacent(largest, f.InclusiveEnd());
  }

  /** When subscription and fill deliver some location twice, as the caller can tell beforehand. */
  predicate JoinOverlaps(f: Filter, largest: Location) {
    if f.fieldCount == 1 then f.start.group > 0 || largest.group == LIMIT
    else if f.NextObjectForm() then largest == MAX
    else if largest == MAX then f.InclusiveEnd() == MAX
    else f.start == largest && largest.AtMost(f.InclusiveEnd())
  }

  lemma NoCommonLocation(f: Filter, largest: Location, l: Location)
    requires f.Canonical() && largest.Valid() && l.Valid() && !JoinOverlaps(f, largest)
    ensures !(Resolve(f, Some(largest), false).Contains(l) && Resolve(f, Some(largest), true).Contains(l))
  {
    if largest != MAX {
      NextIsAdjacent(largest, l);
    }
  }

  lemma CommonLocation(f: Filter, largest: Location)
    requires f.Canonical() && largest.Valid() && JoinOverlaps(f, largest)
    ensures var l := Resolve(f, Some(largest), false).start;
      Resolve(f, Some(largest), false).Contains(l) && Resolve(f, Some(largest), true).Contains(l)
  {
  }

  /** For every filter: subscription and fill share a location exactly under that condition. */
  lemma JoinOverlapIsExact(f: Filter, largest: Location)
    requires f.Canonical() && largest.Valid()
    ensures (exists l: Location :: l.Valid() &&
              Resolve(f, Some(largest), false).Contains(l) && ToFetchRange(f, Some(largest)).Contains(l))
       <==> JoinOverlaps(f, largest)
  {
    hide Resolve, ToFetchRange, JoinOverlaps;
    var sub := Resolve(f, Some(largest), false);
    forall l: Location | l.Valid() && sub.Contains(l) && ToFetchRange(f, Some(largest)).Contains(l)
      ensures JoinOverlaps(f, largest)
    {
      FetchRangeIsExact(f, Some(largest), l);
      if !JoinOverlaps(f, largest) {
        NoCommonLocation(f, largest, l);
      }
    }
    if JoinOverlaps(f, largest) {
      CommonLocation(f, largest);
      ResolvedIsValid(f, Some(largest), false);
      FetchRangeIsExact(f, Some(largest), sub.start);
    }
  }

  // ---------------------------------------------------------------- wire fields

  /** fields() and fieldCount(): the end group travels as a delta, and an inverted range as its start object. */
  function WireFields(f: Filter): (r: seq<u64>)
    requires f.Canonical()
  {
    if f.EndBeforeStart() then [f.start.group, f.start.objectId, 0, f.start.objectId]
    else
      [f.start.group, f.start.objectId, (f.end.group - f.start.group) % U64_LIMIT, f.end.objectId][..f.fieldCount]
  }

  /** fromFields: None past four fields, or when the end group passes 2^64-1. */
  function FromWireFields(s: seq<u64>): Option<Filter> {
    if |s| > 4 then None
    else
      var f0 := if |s| > 0 then s[0] else 0;
      var f1 := if |s| > 1 then s[1] else 0;
      if |s| >= 3 && s[2] > U64_MAX - f0 then None
      else
        var end := if |s| >= 3 then Location(SaturatingAdd(f0, s[2]), if |s| == 4 then s[3] else 0) else MIN;
        Some(Filter(|s|, Location(f0, f1), end))
  }

  /** The wire keeps a filter exactly when its end group is not behind its start group. */
  lemma WireRoundTrip(f: Filter)
    requires f.Canonical()
    ensures FromWireFields(WireFields(f)) == Some(f) <==> !f.EndBeforeStart()
    ensures FromWireFields(WireFields(f)).Some? && FromWireFields(WireFields(f)).value.Canonical()
  {
    if f.fieldCount >= 3 && !f.EndBeforeStart() {
      assert (f.end.group - f.start.group) % U64_LIMIT == f.end.group - f.start.group;
    }
  }

  /**
    A FETCH range survives the draft-22 encoding, sent as a filter and read back without Largest, exactly when
    its groups are in order and its end is not the maximum location.
   */
  lemma FetchRangePreserved(r: FetchRange)
    requires r.start.Valid() && r.end.Valid()
    ensures FromFetchRange(r).Canonical()
    ensures var f := FromWireFields(WireFields(FromFetchRange(r)));
      && f.Some? && f.value.Canonical()
      && (ToFetchRange(f.value, None) == r <==> r.start.group <= r.end.group && r.end != MAX)
  {
    var f := FromFetchRange(r);
    assert r.end.objectId != 0 ==> r.end.Prev().Some? && r.end.Prev().value.Valid();
    WireRoundTrip(f);
  }

  // ---------------------------------------------------------------- legacy filters

  datatype LegacyFilter =
    | NextGroupStart
    | LargestObject
    | LegacyAbsoluteStart(location: Location)
    | LegacyAbsoluteRange(location: Location, endGroup: u64)
    | LargestGroup

  /** fromSubscriptionFilter */
  function FromLegacy(s: LegacyFilter): Filter {
    match s
    case NextGroupStart => RelativeStart(0)
    case LargestGroup => RelativeStart(1)
    case LargestObject => NextObject()
    case LegacyAbsoluteRange(l, g) => ThroughGroup(l, g)
    case LegacyAbsoluteStart(l) => AbsoluteStart(l)
  }

  /** toSubscriptionFilter: an end inside a group rounds up, a far relative start clamps to the current group. */
  function ToLegacy(f: Filter): LegacyFilter {
    if f.fieldCount >= 3 then LegacyAbsoluteRange(f.start, f.end.group)
    else if f.fieldCount == 0 then LegacyAbsoluteStart(MIN)
    else if f.fieldCount == 1 then if f.start.group == 0 then NextGroupStart else LargestGroup
    else if f.NextObjectForm() then LargestObject
    else LegacyAbsoluteStart(f.start)
  }

  /** Out of the legacy form and back is the identity, inverted end groups included. */
  lemma LegacyRoundTrip(s: LegacyFilter)
    ensures ToLegacy(FromLegacy(s)) == s
  {
  }

  /** Into the legacy form and back loses exactly the far relative starts and the ends inside a group. */
  lemma LegacyLoss(f: Filter)
    requires f.Canonical()
    ensures FromLegacy(ToLegacy(f)) == f <==> f.fieldCount != 4 && !(f.fieldCount == 1 && f.start.group > 1)
  {
  }
}
