/** Draft-22 fills: the FETCH made for a subscription (FillFetch.cpp) and the FILL_PARAMETERS block (MoQFramer.cpp). */
module FillFetch {
  import opened Bytes
  import opened Wire
  import opened Locations
  import opened ObjectWire
  import Varint

  datatype FillParameters = FillParameters(
    locationFilter: Option<Filter>,
    subscriberPriority: Option<byte>,
    groupOrder: Option<GroupOrder>,
    fillTimeout: Option<u64>) {

    predicate Valid() { locationFilter.Some? ==> locationFilter.value.Canonical() }

    function FilterOr(subscription: Filter): Filter {
      if locationFilter.Some? then locationFilter.value else subscription
    }
  }

  const NO_FILL := FillParameters(None, None, None, None)

  // ---------------------------------------------------------------- makeFillFetch

  const AUTHORIZATION_TOKEN: u64 := 3

  datatype Parameter = Parameter(key: u64, value: bytes)

  datatype Fetch = Fetch(range: FetchRange, priority: byte, order: GroupOrder, params: seq<Parameter>)

  function AuthOnly(params: seq<Parameter>): seq<Parameter> {
    if params == [] then []
    else (if params[0].key == AUTHORIZATION_TOKEN then [params[0]] else []) + AuthOnly(params[1..])
  }

  lemma {:induction false} AuthOnlyAppend(params: seq<Parameter>, p: Parameter)
    ensures AuthOnly(params + [p]) == AuthOnly(params) + (if p.key == AUTHORIZATION_TOKEN then [p] else [])
  {
    if params != [] {
      assert (params + [p])[0] == params[0] && (params + [p])[1..] == params[1..] + [p];
      AuthOnlyAppend(params[1..], p);
    } else {
      assert ([] + [p])[1..] == [];
    }
  }

  /**
    The fill fetch covers exactly the asked-for locations up to Largest, carries no subscription parameter but
    the authorization tokens, and is absent exactly when Largest is unknown or there is nothing to fill.
   */
  method MakeFillFetch(subscription: Filter, fill: FillParameters, largest: Option<Location>, priority: byte, params: seq<Parameter>)
    returns (fetch: Option<Fetch>)
    requires subscription.Canonical() && fill.Valid() && (largest.Some? ==> largest.value.Valid())
    ensures fetch.None? <==>
      largest.None? || !exists l: Location :: l.Valid() && Resolve(fill.FilterOr(subscription), largest, true).Contains(l)
    ensures fetch.Some? ==>
      && (forall l: Location :: l.Valid() ==>
            (fetch.value.range.Contains(l) <==> Resolve(fill.FilterOr(subscription), largest, true).Contains(l)))
      && fetch.value.priority == (if fill.subscriberPriority.Some? then fill.subscriberPriority.value else priority)
      && fetch.value.order == (if fill.groupOrder.Some? then fill.groupOrder.value else OldestFirst)
      && fetch.value.params == AuthOnly(params)
  {
    hide Resolve;
    if largest.None? {
      return None;
    }
    var f := fill.FilterOr(subscription);
    var range := ToFetchRange(f, largest);
    forall l: Location | l.Valid()
      ensures range.Contains(l) <==> Resolve(f, largest, true).Contains(l)
    {
      FetchRangeIsExact(f, largest, l);
    }
    FetchRangeIsExact(f, largest, MIN);
    EmptinessIsExact(range);
    if IsEmptyFetchRange(range) {
      return None;
    }
    var auth: seq<Parameter> := [];
    for i := 0 to |params|
      invariant auth == AuthOnly(params[..i])
    {
      assert params[..i + 1] == params[..i] + [params[i]];
      AuthOnlyAppend(params[..i], params[i]);
      if params[i].key == AUTHORIZATION_TOKEN {
        auth := auth + [params[i]];
      }
    }
    assert params[..|params|] == params;
    return Some(Fetch(range,
      if fill.subscriberPriority.Some? then fill.subscriberPriority.value else priority,
      if fill.groupOrder.Some? then fill.groupOrder.value else OldestFirst, auth));
  }

  // ---------------------------------------------------------------- location filter on the wire

  function WriteFields(fields: seq<u64>): bytes {
    if fields == [] then [] else Varint.Encode(fields[0]) + WriteFields(fields[1..])
  }

  /** The field loop of parseLocationFilter: None for a fifth field or one that crosses the declared length. */
  function ReadFields(s: bytes, room: nat): Option<seq<u64>>
    decreases |s|
  {
    if s == [] then Some([])
    else if room == 0 then None
    else
      match ReadVarint(s)
      case None => None
      case Some((v, rest)) =>
        match ReadFields(rest, room - 1)
        case None => None
        case Some(fields) => Some([v] + fields)
  }

  lemma {:induction false} FieldsRoundTrip(fields: seq<u64>, room: nat)
    requires |fields| <= room
    ensures ReadFields(WriteFields(fields), room) == Some(fields)
  {
    hide Varint.Encode, ReadVarint;
    if fields != [] {
      ReadWritten(fields[0], WriteFields(fields[1..]));
      assert |Varint.Encode(fields[0])| > 0 by { EncodedIsNonEmpty(fields[0]); }
      FieldsRoundTrip(fields[1..], room - 1);
      assert [fields[0]] + fields[1..] == fields;
    }
  }

  function ParseFilter(s: bytes): Option<Filter> {
    match ReadFields(s, 4)
    case None => None
    case Some(fields) => FromWireFields(fields)
  }

  /** parseLocationFilter as its loop runs, with the fields collected in an array of four. */
  method ParseLocationFilter(s: bytes) returns (r: Option<Filter>)
    ensures r == ParseFilter(s)
  {
    hide ReadVarint;
    var fields: seq<u64> := [];
    var rest := s;
    assert ReadFields(s, 4).Some? ==> [] + ReadFields(s, 4).value == ReadFields(s, 4).value;
    while rest != []
      invariant |fields| <= 4
      invariant ReadFields(s, 4) ==
        match ReadFields(rest, 4 - |fields|) case None => None case Some(more) => Some(fields + more)
      decreases |rest|
    {
      if |fields| == 4 {
        return None;
      }
      var field := ReadVarint(rest);
      if field.None? {
        return None;
      }
      ghost var later := ReadFields(field.value.1, 3 - |fields|);
      assert later.Some? ==> fields + ([field.value.0] + later.value) == (fields + [field.value.0]) + later.value;
      fields := fields + [field.value.0];
      rest := field.value.1;
    }
    assert fields + [] == fields;
    return FromWireFields(fields);
  }

  // ---------------------------------------------------------------- FILL_PARAMETERS

  const FILL_TIMEOUT: u64 := 0x0A
  const SUBSCRIBER_PRIORITY: u64 := 0x20
  const LOCATION_FILTER: u64 := 0x21
  const GROUP_ORDER: u64 := 0x22

  function OrderCode(o: GroupOrder): byte { if o.OldestFirst? then 1 else 2 }

  function OrderOf(code: byte): Option<GroupOrder> {
    if code == 1 then Some(OldestFirst) else if code == 2 then Some(NewestFirst) else None
  }

  function WriteFilterValue(f: Filter): bytes
    requires f.Canonical()
  {
    FilterFits(f);
    Varint.Encode(|WriteFields(WireFields(f))|) + WriteFields(WireFields(f))
  }

  lemma {:induction false} FieldsBound(fields: seq<u64>)
    ensures |WriteFields(fields)| <= 9 * |fields|
  {
    hide Varint.Encode;
    if fields != [] {
      assert |Varint.Encode(fields[0])| <= 9 by { AtMostNine(fields[0]); }
      FieldsBound(fields[1..]);
    }
  }

  lemma AtMostNine(v: u64)
    ensures |Varint.Encode(v)| <= 9
  {
  }

  lemma FilterFits(f: Filter)
    requires f.Canonical()
    ensures |WriteFields(WireFields(f))| <= 36
  {
    FieldsBound(WireFields(f));
  }

  /** The four parameters in ascending type order, each type as a delta from the one before. */
  function WriteFill(p: FillParameters): bytes
    requires p.Valid()
  {
    WriteTimeout(p) + (WritePriority(p) + (WriteFilter(p) + WriteOrder(p)))
  }

  function WriteTimeout(p: FillParameters): bytes {
    if p.fillTimeout.Some? then Varint.Encode(FILL_TIMEOUT) + Varint.Encode(p.fillTimeout.value) else []
  }

  function AfterTimeout(p: FillParameters): u64 { if p.fillTimeout.Some? then FILL_TIMEOUT else 0 }

  function WritePriority(p: FillParameters): bytes {
    if p.subscriberPriority.Some? then
      Varint.Encode(SUBSCRIBER_PRIORITY - AfterTimeout(p)) + [p.subscriberPriority.value]
    else []
  }

  function AfterPriority(p: FillParameters): u64 {
    if p.subscriberPriority.Some? then SUBSCRIBER_PRIORITY else AfterTimeout(p)
  }

  function WriteFilter(p: FillParameters): bytes
    requires p.Valid()
  {
    if p.locationFilter.Some? then
      Varint.Encode(LOCATION_FILTER - AfterPriority(p)) + WriteFilterValue(p.locationFilter.value)
    else []
  }

  function AfterFilter(p: FillParameters): u64 {
    if p.locationFilter.Some? then LOCATION_FILTER else AfterPriority(p)
  }

  function WriteOrder(p: FillParameters): bytes {
    if p.groupOrder.Some? then Varint.Encode(GROUP_ORDER - AfterFilter(p)) + [OrderCode(p.groupOrder.value)] else []
  }

  /** parseFillParameters: a key loop with its own allowlist. */
  function ParseFill(s: bytes, previous: u64, p: FillParameters): Parse<FillParameters>
    decreases |s|
  {
    if s == [] then Ok(p, [])
    else
      match ReadVarint(s)
      case None => Underflow
      case Some((delta, s1)) =>
        match DecodeDelta(previous, delta)
        case None => Violation
        case Some(key) => ParseValue(s1, key, p)
  }

  function ParseValue(s: bytes, key: u64, p: FillParameters): Parse<FillParameters>
    decreases |s|
  {
    if key == LOCATION_FILTER then
      match ReadVarint(s)
      case None => Underflow
      case Some((n, s1)) =>
        if n > |s1| then Underflow
        else
          match ParseFilter(s1[..n])
          case None => Violation
          case Some(f) => ParseFill(s1[n..], key, p.(locationFilter := Some(f)))
    else if key == FILL_TIMEOUT then
      match ReadVarint(s)
      case None => Underflow
      case Some((v, s1)) => ParseFill(s1, key, p.(fillTimeout := Some(v)))
    else if key == SUBSCRIBER_PRIORITY || key == GROUP_ORDER then
      if s == [] then Underflow
      else if key == SUBSCRIBER_PRIORITY then ParseFill(s[1..], key, p.(subscriberPriority := Some(s[0])))
      else if OrderOf(s[0]).None? then Violation
      else ParseFill(s[1..], key, p.(groupOrder := OrderOf(s[0])))
    else Violation
  }

  method ParseFillParameters(s: bytes) returns (r: Parse<FillParameters>)
    ensures r == ParseFill(s, 0, NO_FILL)
  {
    hide ReadVarint, ParseFilter;
    var fill := NO_FILL;
    var previousKey: u64 := 0;
    var rest := s;
    while rest != []
      invariant ParseFill(s, 0, NO_FILL) == ParseFill(rest, previousKey, fill)
      decreases |rest|
    {
      var delta := ReadVarint(rest);
      if delta.None? {
        return Underflow;
      }
      var key := DecodeDelta(previousKey, delta.value.0);
      if key.None? {
        return Violation;
      }
      var value := delta.value.1;
      previousKey := key.value;
      if previousKey == LOCATION_FILTER {
        var length := ReadVarint(value);
        if length.None? || length.value.0 > |length.value.1| {
          return Underflow;
        }
        var (n, s1) := length.value;
        var filter := ParseLocationFilter(s1[..n]);
        if filter.None? {
          return Violation;
        }
        fill, rest := fill.(locationFilter := filter), s1[n..];
      } else if previousKey == FILL_TIMEOUT {
        var timeout := ReadVarint(value);
        if timeout.None? {
          return Underflow;
        }
        fill, rest := fill.(fillTimeout := Some(timeout.value.0)), timeout.value.1;
      } else if previousKey == SUBSCRIBER_PRIORITY || previousKey == GROUP_ORDER {
        if |value| < 1 {
          return Underflow;
        }
        if previousKey == SUBSCRIBER_PRIORITY {
          fill := fill.(subscriberPriority := Some(value[0]));
        } else if OrderOf(value[0]).None? {
          return Violation;
        } else {
          fill := fill.(groupOrder := OrderOf(value[0]));
        }
        rest := value[1..];
      } else {
        return Violation;
      }
    }
    return Ok(fill, []);
  }

  lemma KeyStep(previous: u64, key: u64, value: bytes, p: FillParameters)
    requires previous <= key
    ensures ParseFill(Varint.Encode(key - previous) + value, previous, p) == ParseValue(value, key, p)
  {
    hide Varint.Encode, ReadVarint, ParseValue;
    ReadWritten(key - previous, value);
    EncodedIsNonEmpty(key - previous);
  }

  lemma {:induction false} OrderStep(w: FillParameters, p: FillParameters)
    ensures ParseFill(WriteOrder(w), AfterFilter(w), p)
      == Ok(if w.groupOrder.Some? then p.(groupOrder := w.groupOrder) else p, [])
  {
    hide Varint.Encode, ReadVarint;
    if w.groupOrder.Some? {
      var value := [OrderCode(w.groupOrder.value)];
      KeyStep(AfterFilter(w), GROUP_ORDER, value, p);
      assert value[1..] == [];
    }
  }

  /** The filter as the wire carries it. */
  function Sent(f: Option<Filter>): Option<Filter>
    requires f.Some? ==> f.value.Canonical()
  {
    if f.Some? then FromWireFields(WireFields(f.value)) else None
  }

  lemma {:induction false} FilterStep(w: FillParameters, p: FillParameters, tail: bytes)
    requires w.Valid()
    ensures ParseFill(WriteFilter(w) + tail, AfterPriority(w), p)
      == ParseFill(tail, AfterFilter(w), if w.locationFilter.Some? then p.(locationFilter := Sent(w.locationFilter)) else p)
  {
    hide Varint.Encode, ReadVarint, ParseFill;
    if w.locationFilter.Some? {
      var f := w.locationFilter.value;
      var body := WriteFields(WireFields(f));
      FilterFits(f);
      assert WriteFilter(w) + tail
        == Varint.Encode(LOCATION_FILTER - AfterPriority(w)) + (Varint.Encode(|body|) + (body + tail));
      KeyStep(AfterPriority(w), LOCATION_FILTER, Varint.Encode(|body|) + (body + tail), p);
      ReadWritten(|body|, body + tail);
      assert (body + tail)[..|body|] == body && (body + tail)[|body|..] == tail;
      FieldsRoundTrip(WireFields(f), 4);
      WireRoundTrip(f);
    } else {
      assert WriteFilter(w) + tail == tail;
    }
  }

  lemma {:induction false} PriorityStep(w: FillParameters, p: FillParameters, tail: bytes)
    ensures ParseFill(WritePriority(w) + tail, AfterTimeout(w), p)
      == ParseFill(tail, AfterPriority(w), if w.subscriberPriority.Some? then p.(subscriberPriority := w.subscriberPriority) else p)
  {
    hide Varint.Encode, ReadVarint, ParseFill;
    if w.subscriberPriority.Some? {
      var value := [w.subscriberPriority.value];
      assert WritePriority(w) + tail == Varint.Encode(SUBSCRIBER_PRIORITY - AfterTimeout(w)) + (value + tail);
      KeyStep(AfterTimeout(w), SUBSCRIBER_PRIORITY, value + tail, p);
      assert (value + tail)[1..] == tail;
    } else {
      assert WritePriority(w) + tail == tail;
    }
  }

  lemma {:induction false} TimeoutStep(w: FillParameters, p: FillParameters, tail: bytes)
    ensures ParseFill(WriteTimeout(w) + tail, 0, p)
      == ParseFill(tail, AfterTimeout(w), if w.fillTimeout.Some? then p.(fillTimeout := w.fillTimeout) else p)
  {
    hide Varint.Encode, ReadVarint, ParseFill;
    if w.fillTimeout.Some? {
      var value := Varint.Encode(w.fillTimeout.value);
      assert WriteTimeout(w) + tail == Varint.Encode(FILL_TIMEOUT - 0) + (value + tail);
      KeyStep(0, FILL_TIMEOUT, value + tail, p);
      ReadWritten(w.fillTimeout.value, tail);
    } else {
      assert WriteTimeout(w) + tail == tail;
    }
  }

  /** Any subset of the fields comes back from the nested block, exactly when the filter is not inverted. */
  lemma FillRoundTrip(p: FillParameters)
    requires p.Valid()
    ensures ParseFill(WriteFill(p), 0, NO_FILL) == Ok(p, [])
       <==> !(p.locationFilter.Some? && p.locationFilter.value.EndBeforeStart())
  {
    hide Varint.Encode, ReadVarint, ParseFill, WriteTimeout, WritePriority, WriteFilter, WriteOrder;
    var p1 := NO_FILL.(fillTimeout := p.fillTimeout);
    var p2 := p1.(subscriberPriority := p.subscriberPriority);
    var p3 := p2.(locationFilter := Sent(p.locationFilter));
    TimeoutStep(p, NO_FILL, WritePriority(p) + (WriteFilter(p) + WriteOrder(p)));
    PriorityStep(p, p1, WriteFilter(p) + WriteOrder(p));
    FilterStep(p, p2, WriteOrder(p));
    OrderStep(p, p3);
    if p.locationFilter.Some? {
      WireRoundTrip(p.locationFilter.value);
    }
  }
}
