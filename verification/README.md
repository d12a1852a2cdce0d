# moxygen in Dafny

A model of the protocol core of moxygen, a C++ implementation of Media over QUIC Transport
(draft-ietf-moq-transport), and proofs about it. The wire format is the one of draft 18: every 64-bit value is a
MoQT varint, whose length is the number of leading one bits of its first byte plus one.

Functions say what the code computes. Where the code updates objects in place there is a class whose methods do so,
with the source's loops and branches, and whose contracts tie the new state to those functions. The theorems are
about the functions.

- `Bytes`, `Varint`, `VarintIO`, `Wire`: bytes, the varint, the appender and cursor fast paths, three-way parse results
  (Ok, Underflow, Violation).
- `Extensions`, `PartialBlocks`, `ObjectWire`, `SubgroupObjects`, `FetchObjects`, `FrameWriter`, `FrameParser`: the
  data-stream wire format. Writer and parser of SUBGROUP and FETCH streams each keep a delta context; extension blocks
  hold a second delta chain with an embedded container.
- `StreamCodec`, `Chunking`, `StreamEnd`, `EndToEnd`, `ObjectStreamCodec`: the incremental parser of data streams, over
  reads cut anywhere, callbacks that answer BLOCKED, and FIN.
- `FrameGate`, `ControlFrames`, `ControlCodec`: control frames, setup, and the request a reply belongs to.
- `Locations`, `FillFetch`: filters and ranges as sets of locations, and their wire and legacy forms.
- `TokenCache`, `TokenMirror`, `TokenWire`, `TokenEndpoints`: the auth-token alias cache kept at two endpoints.
- `UniStreams`, `UniStreamsClass`: stream credit handed to requests by priority, with grants that call back.
- `ReceiverModel`, `ReceiverInvariant`, `ReceiverRuns`, `ReceiverClaims`, `ReceiverRules`, `ReceiverLimits`,
  `ReceiverTightness`, `ReceiverClass`: the receiver the application sees, with callbacks that call back.

`dafny verify dfyconfig.toml` verifies the whole project.

How the environment is modelled:

- Byte queues are byte sequences, and a cursor runs over a chain of them. Unsigned 64-bit values carry their bound; where the code wraps, the
  wrap is written out.
- What callbacks answer, and the calls they make before they return, are inputs: a list of answers for the stream
  codec, a script for each grant of the stream queue, a list of replies for the receiver. Every run that
  ends has finite such inputs, and the theorems hold for all of them. The receiver's callbacks may make any call at any
  moment, also those a caller that holds a reference cannot make, such as destroying the subgroup whose frame is running.
- The transport is the number of streams it creates before it refuses. Payload parsers of control frames are a
  function parameter.
- The group order of a FETCH stream is set from inside onFetchHeader (moxygen/MoQSession.cpp:5203), after the parser has
  reset it; the codec takes it as a parameter and installs it at that point.
- Whether tokens may be given aliases at all is a parameter: draft 18 disables it, older drafts do not. When a token
  is the last parameter of its message, the slot that the sender's eviction loop tests has just been destroyed; what is
  read there is an input. The one deletion that the loop inserts takes the place of the erased parameter, so the list is
  not reallocated while the loop refers to it.
- The priority queue of the stream queue is a sequence sorted by priority and id. `std::sort` on extensions with equal
  types may leave them in any order; the round trip holds for every type-sorted order.

Where the code does not do what one would expect, the condition under which it does is proved:

- A FIN is reported as an error exactly if the call has something malformed or unfinished to read; an empty FIN in the
  middle of an object, or one right behind a stream type or header, passes for a clean end
  (`StreamEnd.FinReportsExactly`). A FIN alone after a complete control-frame header is not reported at all
  (`ControlFrames.TruncationNoticed`).
- An extension block that ends inside an entry is taken for an unfinished one although it is all there, and is kept
  until the FIN (`Extensions.BlockStuck`, `StreamEnd.StuckUntilFin`). A block can be beyond completion before it is all
  there; which ones are is decided exactly (`PartialBlocks.CompletableExactly`).
- A FETCH object at a refused location is not encoded, but its payload is still appended (`FrameWriter.RefusedObject`).
- A subgroup delta of 2^64-1 repeats the previous object ID (`SubgroupObjects.ParsedIdAdvances`). The writer never
  emits it.
- The writer does not enforce the parser's extension limits (`Extensions.BlockRoundTrip`).
- After a FETCH object marked for datagram forwarding with a subgroup other than 0, writer and parser remember
  different subgroups; a stream is read as it was sent exactly if no later header refers back to one of them
  (`EndToEnd.FetchStreamDelivered`).
- A filter relative to Largest, or one that starts at Largest, makes fill and subscription overlap
  (`Locations.JoinOverlapIsExact`). A FETCH whose end is the maximum location, or whose groups are inverted, is not
  preserved (`Locations.FetchRangePreserved`).
- Before it registers a token, the sender tests whether another token fits: the one that moved into the slot of the
  parameter it has just erased and, after the first deletion, none. So it evicts one entry or nothing, and fails exactly
  when that leaves no room (`TokenCache.AtMostOneEviction`, `TokenMirror.SentExactly`). The caches stay equal for
  everything it does send (`TokenMirror.MirroredCaches`).
- A CLIENT_SETUP is accepted exactly if its cacheable tokens are all different and the tested ones fit
  (`TokenWire.SetupIsAccepted`). After it the server may hold aliases the client has dropped; using an alias is still
  safe, but a later registration can overflow the server's cache (`TokenWire.SetupLeavesCachesEqual`,
  `TokenWire.SetupCanOverflow`).
- A failed credit wait fails the pending requests with the queue open, so that its work, unlike that of close(), is not
  bounded by them (`UniStreams.FailedCreditHasNoBound`).
- Most of the receiver's promises hold whatever callbacks call back. Two do not.
  - Objects are accounted for exactly unless one slips: the object in flight loses its place to another whose
    onObjectBegin returns later, or an empty payload is handed in when nothing is left, which may be because a whole
    object came in between (`ReceiverClaims.AccountsAreExact`). They always are if callbacks begin no object and hand in
    no empty payload (`ReceiverRules.BeginlessRunsAreAccounted`); each kind of call this excludes loses an object in some
    run, alone (`ReceiverTightness.NoBeginIsTight`).
  - The comment at moxygen/StreamingObjectReceiver.h:93-96 says a failed FETCH never reports all data received; it does
    exactly if the fetch completes from inside a callback of a delivery (`ReceiverClaims.FailedFetchCompletes`). It never
    does if callbacks do not end the fetch (`ReceiverRules.EndlessFetchesAgree`); each kind of call this excludes breaks
    the promise in some run, alone (`ReceiverTightness.NoEndIsTight`).

## Model

| member | source | states |
|---|---|---|
| `Varint.RoundTrip` | moxygen/MoQVarint.cpp:90-175 | for every u64 and every trailing bytes, decoding the encoding gives the value and consumes exactly the encoded length |
| `Varint.RoundTripAs` | moxygen/MoQVarint.cpp:90-134 | any of the nine lengths that can hold a value decodes back to it, the shortest or not |
| `Varint.CascadeAgreesWithSize` | moxygen/MoQVarint.cpp:84-88 | the encoder's branch cascade, the bit-width formula of getMoQVarintSize and the bytes written agree on the length |
| `Varint.CascadeIsLeastLength` | moxygen/MoQVarint.cpp:136-175 | the cascade picks the least length whose limit holds the value |
| `Varint.EncodeIsShortest` | moxygen/MoQVarint.cpp:136-175 | no byte string that decodes to a value is shorter than its encoding |
| `Varint.LengthFromFirstByte` | moxygen/MoQVarint.cpp:96-104 | the leading-ones count of a first byte names the length whose prefix and mask that byte carries |
| `Varint.DecodeIsLocal` | moxygen/MoQVarint.cpp:90-134 | the result depends on at most atMost bytes, and bytes after a complete varint never change it |
| `VarintIO.Appender.EncodeSpecialLength` | moxygen/MoQVarint.cpp:69-82 | the shifted eight-byte store of a 3 to 7 byte value appends exactly the varint of that length |
| `VarintIO.Appender.EncodeMoQVarint` | moxygen/MoQVarint.cpp:136-175 | the branch cascade with its fast paths appends the encoding and returns its length |
| `VarintIO.Cursor.DecodeMoQVarint` | moxygen/MoQVarint.cpp:90-134 | the load from one buffer and the one over a chain of buffers return the decoded value, move the cursor by the bytes consumed, and leave it alone on failure |
| `VarintIO.WriteThenRead` | moxygen/MoQVarint.h:52-87 | what is written through an appender, read through a cursor over any chain of buffers that holds it and trailing bytes, returns the value and leaves the trailing bytes |
| `Extensions.BlockRoundTrip` | moxygen/MoQFramer.cpp:3478-3644 | parsing a written extension block returns both lists and the rest of the bytes exactly when no ordinary extension has type 0xB, values and the immutable body are at most 1024 bytes and the block at most 64 KiB |
| `Extensions.ChainRoundTrip` | moxygen/MoQFramer.cpp:4265-4353 | the immutable container is spliced into the delta chain at its place and comes back as the immutable list, or is refused when its body is over the limit |
| `Extensions.PairsRoundTrip` | moxygen/MoQFramer.cpp:4225-4263 | a type-sorted list of extensions written as delta pairs is parsed back in order |
| `Extensions.PairsSizeIsExact` | moxygen/MoQFramer.cpp:4356-4394 | the precomputed size of a list equals the bytes written for it |
| `Extensions.ParsedAreOrdinary` | moxygen/MoQFramer.cpp:3539-3644 | nothing the parser returns has type 0xB or an oversized value |
| `Extensions.BlockStable` | moxygen/MoQFramer.cpp:3478-3514 | Ok and Violation of a block survive any bytes that come later |
| `Extensions.BlockStuck` | moxygen/MoQFramer.cpp:3498-3514 | an underflow of a block that is all there is final, whatever bytes come later |
| `PartialBlocks.CompletableExactly` | moxygen/MoQFramer.cpp:3478-3644 | for every byte string, some bytes behind it make an accepted block exactly if the decision on the bytes received says so: the declared lengths are within limits, the entries so far parse, and the bytes to come fill out the entry begun, inside the container too, without leaving one byte over |
| `PartialBlocks.CompletedVarint` | moxygen/MoQVarint.cpp:90-134 | a varint received in part is read as soon as its last byte has come, and the bytes to come add any value below their weight |
| `PartialBlocks.AnnouncedBlock` | moxygen/MoQFramer.cpp:3478-3514 | a block of which only the length has come can still be completed exactly unless that length is one, when it is never reported either |
| `FrameWriter.SortSorts` | moxygen/MoQFramer.cpp:4225-4240 | the order in which extensions are written is sorted by type and a permutation of the list given |
| `FrameWriter.CalculateExtensionVectorSize` | moxygen/MoQFramer.cpp:4356-4394 | the size loop returns the number of bytes the sorted list takes |
| `FrameWriter.WriteKeyValuePairs` | moxygen/MoQFramer.cpp:4225-4263 | the loop appends the delta pairs of the sorted list |
| `FrameWriter.WriteExtensions` | moxygen/MoQFramer.cpp:4265-4353 | the interleaving loop writes the block with the container at its place in the sorted chain |
| `FrameParser.MoQFrameParser.ParseExtensionKvPairs` | moxygen/MoQFramer.cpp:3516-3537 | the mutating loop with its running previous type computes the pair parse of the block |
| `FrameParser.MoQFrameParser.ParseExtensions` | moxygen/MoQFramer.cpp:3478-3514 | the block parser in place computes ParseBlock |
| `FrameParser.ParsePaddingData` | moxygen/MoQFramer.cpp:569-582 | padding is accepted exactly when every byte is zero |
| `ObjectWire.StreamTypeRoundTrip` | moxygen/MoQFramer.h:72-115 | a subgroup stream type carries its options without loss and is no other stream type |
| `ObjectWire.SubgroupHeaderRoundTrip` | moxygen/MoQFramer.cpp:1519-1584 | alias, group, priority and subgroup come back in all three subgroup-ID formats, the peeked first-object one included |
| `ObjectWire.TailRoundTrip` | moxygen/MoQFramer.cpp:1836-1878 | extensions, length and status written after an object's ID come back and parsing stops at the payload |
| `ObjectWire.TailStable` | moxygen/MoQFramer.cpp:1836-1878 | Ok and Violation of that part survive later bytes |
| `SubgroupObjects.ObjectRoundTrip` | moxygen/MoQFramer.cpp:1898-1947 | what the subgroup writer accepts, the parser in the same context returns, stopping at the payload |
| `SubgroupObjects.ParsedIdAdvances` | moxygen/MoQFramer.cpp:1910-1925 | a parsed ID is above the previous one exactly unless the delta is 2^64-1, which wraps and repeats the previous ID |
| `SubgroupObjects.ObjectStable` | moxygen/MoQFramer.cpp:1898-1947 | Ok and Violation of a subgroup object header survive later bytes |
| `FetchObjects.DeltaFieldsInvert` | moxygen/MoQFramer.cpp:401-519 | delta fields exist exactly for locations that follow in the group order, and the parser's resolution inverts them |
| `FetchObjects.FlagsRoundTrip` | moxygen/MoQFramer.cpp:1586-1690 | the flag byte carries its fields and is below 0x80, so it is never one of the two end-of-range markers |
| `FetchObjects.ObjectRoundTrip` | moxygen/MoQFramer.cpp:4806-4948 | what the FETCH writer accepts comes back when the two ends are in step; the contexts are then equal exactly unless it was a datagram object with a subgroup other than 0 |
| `FetchObjects.ObjectReadBack` | moxygen/MoQFramer.cpp:1704-1762 | in step or not, everything but the subgroup comes back, and the subgroup that is read is known |
| `FetchObjects.NextAfterDatagram` | moxygen/MoQFramer.cpp:1704-1762 | out of step, an object is read correctly exactly when its header does not refer to the remembered subgroup |
| `FetchObjects.WriterAccepts` | moxygen/MoQFramer.cpp:4875-4890 | the writer accepts a header exactly when it is a normal object at a location that follows |
| `FetchObjects.ItemStable` | moxygen/MoQFramer.cpp:1586-1833 | Ok and Violation of a FETCH item survive later bytes, objects and range markers alike |
| `FrameWriter.MoQFrameWriter.WriteFetchObject` | moxygen/MoQFramer.cpp:4956-5026 | the buffer it leaves, the result and the context, for accepted and for refused objects |
| `FrameWriter.RefusedObject` | moxygen/MoQFramer.cpp:4877-4884 | an object is refused exactly for its status or its location, and then leaves the buffer alone exactly if it was its status or there is no payload |
| `FrameWriter.StrayPayload` | moxygen/MoQFramer.cpp:5006-5010 | a refused object whose payload byte is left on the stream |
| `FrameWriter.MoQFrameWriter.WriteSubgroupObject` | moxygen/MoQFramer.cpp:4957-5026 | header and payload, or the first part of it, are appended and the previous ID moves, or nothing is and it stays |
| `FrameParser.MoQFrameParser.ParseFetchObjectHeader` | moxygen/MoQFramer.cpp:1586-1833 | the parser object computes ParseItem and changes its context only on success |
| `FrameParser.MoQFrameParser.ParseSubgroupObjectHeader` | moxygen/MoQFramer.cpp:1898-1947 | the parser object computes ParseObject and changes the previous ID only on success |
| `Chunking.UnderflowKeepsContext` | moxygen/MoQCodec.cpp:134-399 | an underflow changes no field of the codec, the delta context included |
| `Chunking.StepWithMore` | moxygen/MoQCodec.cpp:150-415 | a step that did not ask for bytes is the same when more bytes follow, up to the cut of a payload |
| `Chunking.PieceJoin` | moxygen/MoQCodec.cpp:288-399 | cutting a payload adds a callback and no observable difference |
| `Chunking.ChunkingIsIrrelevant` | moxygen/MoQCodec.cpp:134-446 | for every byte string and every split into reads, codec state, callbacks (payload pieces joined) and first error equal those of one read |
| `StreamEnd.BlockingIsTransparent` | moxygen/MoQCodec.cpp:257-446 | whichever callbacks answer BLOCKED, resuming with empty data gives the callbacks and codec of the run that never blocked; a terminating answer only cuts it short |
| `StreamEnd.BlockedReadsAgree` | moxygen/MoQCodec.cpp:134-446 | for every byte string, every split into reads and any BLOCKED answers, a run not left blocked ends in the state of one read with the same observation; after one left blocked a call without data does the rest |
| `EndToEnd.BlockedStreamAgrees` | moxygen/MoQCodec.cpp:134-446 | a whole stream read to its FIN is observed the same with BLOCKED answers as without |
| `StreamEnd.ExactlyOneEnd` | moxygen/MoQCodec.cpp:401-440 | a stream read to its FIN without error gives exactly one end signal among subgroupComplete, an END status and onEndOfStream; padding gives none |
| `StreamEnd.TruncationNoticed` | moxygen/MoQCodec.cpp:401-440 | a FIN inside an object begun earlier is a violation exactly when it arrives with data; alone it passes for a clean end |
| `StreamEnd.FinReportsExactly` | moxygen/MoQCodec.cpp:401-440 | for every codec and every data, a call with FIN reports an error exactly if what it reads is malformed or ends inside a header, or it reads something and ends inside a payload; and which error |
| `StreamEnd.CutAfterType` | moxygen/MoQCodec.cpp:150-172 | a stream that ends right behind its type, FIN and data in one call, is a clean end |
| `StreamEnd.StuckUntilFin` | moxygen/MoQCodec.cpp:116-132 | with a complete extension block that ends inside an entry nothing is reported and everything is kept, until the FIN |
| `StreamEnd.FinPlacementIsIrrelevant` | moxygen/MoQCodec.cpp:401-440 | at an object boundary the FIN may come with any tail of the bytes or alone, with the same callbacks |
| `EndToEnd.SubgroupStreamDelivered` | moxygen/MoQCodec.cpp:174-415 | a header and any strictly increasing object list, written and read in any chunks, are observed as exactly that, with one end |
| `EndToEnd.FetchStreamDelivered` | moxygen/MoQCodec.cpp:174-415 | every list the FETCH writer accepts within the parser's extension limits, in either order and any chunks, is observed in order with one end, and unchanged exactly if no header refers back to a subgroup remembered differently |
| `EndToEnd.NeverConfused` | moxygen/MoQFramer.cpp:4818-4846 | no header does without a datagram object of a subgroup other than 0 |
| `EndToEnd.FetchContextsInStep` | moxygen/MoQFramer.cpp:4940-4948 | after every such list the parser's context is the writer's, but for the subgroup it remembers |
| `ObjectStreamCodec.MoQObjectStreamCodec.OnIngress` | moxygen/MoQCodec.cpp:134-446 | the seven-state loop working in place makes the callbacks and reaches the state of the specification, for every answer of the callbacks |
| `ObjectStreamCodec.MoQObjectStreamCodec.ParseLoop` | moxygen/MoQCodec.cpp:150-415 | the loop computes the drain with answers |
| `ObjectStreamCodec.MoQObjectStreamCodec.OnIngressEnd` | moxygen/MoQCodec.cpp:116-132 | the end of a call keeps an underflow's bytes, or reports the error and drops them |
| `Locations.NextIsAdjacent` | moxygen/MoQTypes.h:385-415 | next is the least location above, and prev undoes it |
| `Locations.EmptinessIsExact` | moxygen/MoQLocation.h:33-40 | a fetch range is called empty exactly when it contains no location, with object 0 meaning the whole end group |
| `Locations.FetchRangeIsExact` | moxygen/MoQTypes.cpp:212-259 | the fetch range of a filter denotes exactly the locations the filter resolves to |
| `Locations.SeamlessJoin` | moxygen/MoQTypes.cpp:212-259 | for an absolute start below Largest, fill and subscription are the filter's locations up to Largest and those above it: disjoint, and together all of them |
| `Locations.JoinOverlapIsExact` | moxygen/MoQTypes.cpp:212-259 | for every filter, fill and subscription share a location exactly under a condition on the filter's form, start and end |
| `Locations.WireRoundTrip` | moxygen/MoQTypes.h:575-622 | the wire fields of a filter give it back exactly unless its end precedes its start, in which case another well-formed filter comes back |
| `Locations.FetchRangePreserved` | moxygen/MoQTypes.cpp:302-316 | a FETCH range survives conversion to a filter, its fields and back exactly when the groups are not inverted and the end is not the maximum location |
| `Locations.LegacyRoundTrip` | moxygen/MoQTypes.cpp:318-364 | every legacy subscription filter survives conversion to a location filter and back, inverted ends included |
| `Locations.LegacyLoss` | moxygen/MoQTypes.cpp:318-364 | the opposite direction loses nothing exactly for the forms the legacy filter has |
| `FillFetch.MakeFillFetch` | moxygen/FillFetch.cpp:15-47 | no fetch is made exactly when Largest is absent or nothing is to be filled; otherwise its range is exactly the fill set and only auth parameters are passed on |
| `FillFetch.ParseFillParameters` | moxygen/MoQFramer.cpp:938-996 | the parameter loop computes the recursive parse, key order and duplicates included |
| `FillFetch.ParseLocationFilter` | moxygen/MoQFramer.cpp:915-936 | the field loop computes the filter of the fields |
| `FillFetch.FillRoundTrip` | moxygen/MoQFramer.cpp:4671-4710 | written fill parameters are parsed back, for every subset of the fields, exactly unless the filter is inverted |
| `TokenCache.AtMostOneEviction` | moxygen/MoQSession.cpp:9338-9348 | the eviction loop, as it tests, evicts the oldest entry or nothing, and asks an empty cache to evict exactly if the tested token does not fit it |
| `TokenCache.Shrink` | moxygen/MoQTokenCache.h:26-43 | evicting the newest until the limit holds keeps the cache well formed under it |
| `TokenCache.MoQTokenCache.RegisterTokenAs` | moxygen/MoQTokenCache.cpp:29-51 | registration or the error the source gives, in its order; lru_ stays a duplicate-free listing and totalSize_ the sum, at most the limit |
| `TokenCache.MoQTokenCache.RegisterToken` | moxygen/MoQTokenCache.cpp:12-27 | the same with a fresh alias, which stays unused elsewhere |
| `TokenCache.MoQTokenCache.GetAliasForToken` | moxygen/MoQTokenCache.cpp:53-64 | returns an alias of an equal token exactly when there is one |
| `TokenCache.MoQTokenCache.DeleteToken` | moxygen/MoQTokenCache.cpp:66-80 | removes the alias and its size, or reports it unknown and changes nothing |
| `TokenCache.MoQTokenCache.GetTokenForAlias` | moxygen/MoQTokenCache.cpp:82-92 | a hit returns the token and makes it the most recent; a miss changes nothing |
| `TokenCache.MoQTokenCache.EvictLRU` | moxygen/MoQTokenCache.cpp:94-110 | the oldest entry leaves map, list and total |
| `TokenCache.MoQTokenCache.SetMaxSizeEvicting` | moxygen/MoQTokenCache.h:29-43 | the eviction loop of setMaxSize computes Shrink |
| `TokenCache.MoQTokenCache.SetMaxSize` | moxygen/MoQTokenCache.h:26-43 | without eviction: refused with nothing changed while the contents are larger, otherwise only the limit changes |
| `TokenMirror.AliasifyMirrors` | moxygen/MoQSession.cpp:9300-9367 | every message sent for a token is accepted, the alias maps are equal after each, and the receiver gets exactly that token once |
| `TokenMirror.SentExactly` | moxygen/MoQSession.cpp:9338-9352 | a token is sent exactly if it is not to be cached, is cached, or fits once the loop is done; the loop hits an empty cache exactly if the tested token does not fit it |
| `TokenMirror.WrongTokenTested` | moxygen/MoQSession.cpp:9338-9352 | limit 100, 60 in use, a new token of 70 and no token behind it: nothing is evicted and registration fails |
| `TokenMirror.NothingToEvict` | moxygen/MoQSession.cpp:9340-9341 | a large token behind a small one: the loop evicts from an empty cache |
| `TokenMirror.MirroredCaches` | moxygen/MoQFramer.cpp:721-812 | over every sequence of tokens that are sent the alias maps are equal after every message, no cache error is reported and the tokens arrive in order |
| `TokenWire.WireAgrees` | moxygen/MoQFramer.cpp:701-824 | parsing an encoded token message is acting on it; in CLIENT_SETUP aliases in use are refused and an oversized registration degrades to a value |
| `TokenWire.OptimisticIsReached` | moxygen/MoQTokenCache.cpp:12-51 | registering a list under a guessed limit that holds it leads to the numbered cache |
| `TokenWire.SetupIsAccepted` | moxygen/MoQSession.cpp:3863-3864 | the token parameters that the sender makes of a CLIENT_SETUP are accepted exactly if no cacheable token repeats and every tested token fits beside those before it; client and server then hold what registering them in order leaves |
| `TokenWire.ShrinkKeepsPrefix` | moxygen/MoQTokenCache.h:26-43 | shrinking that cache leaves exactly the longest prefix that eviction from the end reaches |
| `TokenWire.SurvivingAliasesAreKnown` | moxygen/MoQFramer.cpp:774-800 | every alias that survives the client's shrinking is known to a first-fit server for the same token |
| `TokenWire.SetupLeavesCachesEqual` | moxygen/MoQSession.cpp:3983-3990 | the two caches are equal after setup exactly when no later token fits the server beside the kept prefix |
| `TokenWire.SetupThenInStep` | moxygen/MoQSession.cpp:3983-3990 | in that case the mirrored protocol starts in step |
| `TokenWire.SetupCanOverflow` | moxygen/MoQFramer.cpp:774-800 | three different tokens that the sender registers and the server accepts, after which the client's next registration overflows the server's cache |
| `TokenEndpoints.AliasifyAuthTokens` | moxygen/MoQSession.cpp:9300-9367 | the loop over the parameter list, erasing and inserting in place, puts the messages of every token in its place and reaches the specified cache, or fails at the first token for which no room is left |
| `TokenEndpoints.EvictForSlot` | moxygen/MoQSession.cpp:9340-9347 | the eviction loop, reading the slot of the erased parameter, computes MakeRoom and inserts one DELETE per eviction in order |
| `TokenEndpoints.ParseAuthTokenInto` | moxygen/MoQFramer.cpp:701-824 | the token parser on the cache object computes the specified outcome, cache changes before a late error included |
| `UniStreams.ExactlyOneFate` | moxygen/UniStreamQueue.cpp:13-104 | in every reachable state each id handed out is pending, answered exactly once or cancelled, and only one of these; map and order hold the same ids; at most one wait is outstanding |
| `UniStreams.NeverStalls` | moxygen/UniStreamQueue.cpp:46-61 | outside a grant pass an open queue with pending requests has exactly one credit wait outstanding |
| `UniStreams.NoOvertaking` | moxygen/UniStreamQueue.h:23-24 | a request answered later although it had asked before the earlier answer comes after it by priority, then by age |
| `UniStreams.StreamsAreNotShared` | moxygen/UniStreamQueue.cpp:81-85 | no stream is handed out twice, and streams go out in creation order |
| `UniStreams.CloseFailsEveryone` | moxygen/UniStreamQueue.cpp:34-44 | close() ends with every pending request failed or cancelled and no new one accepted, unless a grant destroys the queue |
| `UniStreams.CloseGivesNoStream` | moxygen/UniStreamQueue.cpp:34-44 | the failures given while closing carry no stream |
| `UniStreams.CloseCallsAtMostPending` | moxygen/UniStreamQueue.cpp:34-44 | close() calls at most as many grants as were pending, whatever they do |
| `UniStreams.FailedCreditHasNoBound` | moxygen/UniStreamQueue.cpp:63-79 | for every n one pending request after which a failed credit wait calls n + 1 grants |
| `UniStreams.ReadyCreditMakesProgress` | moxygen/UniStreamQueue.cpp:86-91 | a wait that was ready at once always answers someone, so failing stream creation cannot make the queue spin |
| `UniStreams.GrantExtends` | moxygen/UniStreamQueue.cpp:97-104 | answers and cancellations are never taken back, however grants call back |
| `UniStreamsClass.UniStreamQueue.RequestStream` | moxygen/UniStreamQueue.cpp:13-26 | returns the next id and the new queue, or nothing once closed |
| `UniStreamsClass.UniStreamQueue.CancelRequest` | moxygen/UniStreamQueue.cpp:28-32 | removes a pending request from map and order without calling it |
| `UniStreamsClass.UniStreamQueue.CloseAll` | moxygen/UniStreamQueue.cpp:34-38 | computes CloseQueue in place through re-entrant grants |
| `UniStreamsClass.UniStreamQueue.FailPending` | moxygen/UniStreamQueue.cpp:40-44 | the failing loop computes FailAll |
| `UniStreamsClass.UniStreamQueue.GrantNext` | moxygen/UniStreamQueue.cpp:97-104 | takes the head of the order and runs its grant |
| `UniStreamsClass.UniStreamQueue.OnCreditReady` | moxygen/UniStreamQueue.cpp:63-95 | the credit callback computes OnCredit and leaves the queue served |
| `ReceiverClaims.AccountsAreExact` | moxygen/StreamingObjectReceiver.h:300-400 | over every run, with callbacks that make any calls: every consumer gets at most the declared length, endOfObject on the one call that reaches it, an error at most once and last, and the whole object or one error once it is no longer in flight, exactly if none slipped; ReceiverRules has the condition on the calls made |
| `ReceiverRules.BeginlessRunsAreAccounted` | moxygen/StreamingObjectReceiver.h:300-400 | if no call that a callback makes begins an object or hands in an empty payload, every object of every run is accounted for in this sense |
| `ReceiverRules.ShortObjectsFail` | moxygen/StreamingObjectReceiver.h:439-445 | in particular, under the same rule on the callbacks' calls, an object left short gets exactly one onError, and one without an error is whole |
| `ReceiverRules.BeginlessFetchesSettle` | moxygen/StreamingObjectReceiver.h:119-129 | under the same rule, after the destructor of a fetch every accepted object is whole or failed once |
| `ReceiverRules.EndlessFetchesAgree` | moxygen/StreamingObjectReceiver.h:93-96 | if no call that a callback makes ends the fetch or carries the FIN, a failed fetch never reports all data, and no fetch does so twice |
| `ReceiverRules.ApplyGentle` | moxygen/StreamingObjectReceiver.h:161-260 | a call that keeps to one of the two rules, as its callbacks do whatever else they call, lets nothing slip, or no fetch complete early |
| `ReceiverTightness.NoBeginIsTight` | moxygen/StreamingObjectReceiver.h:161-260 | each of the six kinds of call that the first rule excludes, made from a callback and alone, leaves an object unaccounted for in some run |
| `ReceiverTightness.NoEndIsTight` | moxygen/StreamingObjectReceiver.h:594-727 | each of the five kinds of call that the second rule excludes, made from a callback and alone, makes some fetch fail and report all data |
| `ReceiverTightness.PuttingInsideEndsUnread` | moxygen/StreamingObjectReceiver.h:300-380 | a whole object from inside the onObjectBegin of another: the outer one, of five bytes, is told of its end after none |
| `ReceiverClaims.ErrorsOnceAndLast` | moxygen/StreamingObjectReceiver.h:439-445 | whatever callbacks call, onError comes at most once and last |
| `ReceiverClaims.DestructorSettles` | moxygen/StreamingObjectReceiver.h:119-129 | the destructor of a fetch receiver tells the object in flight and no other, after which every accepted object is whole or failed once, exactly as before unless one slipped |
| `ReceiverClaims.FailuresAgree` | moxygen/StreamingObjectReceiver.h:300-328 | the error a consumer is told of is the one its subgroup's terminal callback reports, or MALFORMED_TRACK when the subgroup ended without one during onObjectBegin |
| `ReceiverClaims.NothingInFlight` | moxygen/StreamingObjectReceiver.h:460-469 | a finished subgroup of a subscription has no object in flight |
| `ReceiverClaims.OneTerminalEach` | moxygen/StreamingObjectReceiver.h:402-469 | each subscription subgroup gets exactly one terminal callback when it ends and none before |
| `ReceiverClaims.OpenSubgroupsAreCounted` | moxygen/StreamingObjectReceiver.h:734-739 | openSubgroups_ is the number of unfinished subgroups, and onAllDataReceived has been called once if PUBLISH_DONE has come and all have ended, otherwise not at all |
| `ReceiverClaims.ObjectIdsIncrease` | moxygen/StreamingObjectReceiver.h:278-298 | the IDs of the objects announced on one subscription subgroup strictly increase |
| `ReceiverClaims.FetchIsMonotone` | moxygen/StreamingObjectReceiver.h:758-787 | the locations a fetch delivers (objects, statuses, unknown ranges) are strictly monotone in its group order |
| `ReceiverClaims.FetchCompletesOnce` | moxygen/StreamingObjectReceiver.h:837-844 | onAllDataReceived is called at most once on a fetch, and nothing is delivered after it |
| `ReceiverClaims.FailedFetchCompletes` | moxygen/StreamingObjectReceiver.h:674-691 | a fetch both fails and reports all data exactly if it completed from inside a callback of a delivery; ReceiverRules has the condition on the calls made |
| `ReceiverRuns.ApplyKeeps` | moxygen/StreamingObjectReceiver.h:161-260 | every call, from outside or from inside any callback, keeps the invariant and what the frames below it rely on, whatever its own callbacks call in turn |
| `ReceiverRuns.TerminateKeeps` | moxygen/StreamingObjectReceiver.h:460-469 | so does terminateWithError, which leaves the subgroup finished |
| `ReceiverRuns.DeliverKeeps` | moxygen/StreamingObjectReceiver.h:355-400 | so does deliverPayload |
| `ReceiverRuns.AdmitKeeps` | moxygen/StreamingObjectReceiver.h:300-328 | so does admitObject |
| `ReceiverLimits.EndingInsideBreaksCompletion` | moxygen/StreamingObjectReceiver.h:674-691 | ending a fetch from inside onObjectBegin: all data is reported and the fetch then fails |
| `ReceiverLimits.EndingInsideErrorBreaksCompletion` | moxygen/StreamingObjectReceiver.h:278-298 | so does ending it from inside the onError of an object interrupted by another |
| `ReceiverLimits.BeginningInsideUnknownRange` | moxygen/StreamingObjectReceiver.h:693-714 | an object begun from inside onUnknownRange breaks neither promise; it stays in flight until the destructor |
| `ReceiverLimits.PayingInsideBreaksCompletion` | moxygen/StreamingObjectReceiver.h:370-396 | an empty payload from inside the completing onPayload: endOfObject is set twice |
| `ReceiverLimits.BeginningInsideLosesAnObject` | moxygen/StreamingObjectReceiver.h:300-328 | a new object from inside onObjectBegin: the inner consumer is never told of its end |
| `ReceiverClass.StreamingObjectReceiver.TerminateWithError` | moxygen/StreamingObjectReceiver.h:460-469 | computes Terminate in place |
| `ReceiverClass.StreamingObjectReceiver.AdmitObject` | moxygen/StreamingObjectReceiver.h:300-328 | computes Admit in place, the callback in the middle |
| `ReceiverClass.StreamingObjectReceiver.DeliverPayload` | moxygen/StreamingObjectReceiver.h:355-400 | computes Deliver in place, the callback in the middle |
| `ReceiverClass.StreamingObjectReceiver.DeliverStatus` | moxygen/StreamingObjectReceiver.h:402-426 | computes SubStatus in place |
| `ReceiverClass.StreamingObjectReceiver.PrepareFetchLocation` | moxygen/StreamingObjectReceiver.h:758-777 | computes PrepareFetch in place |
| `ReceiverClass.StreamingObjectReceiver.DispatchFetch` | moxygen/StreamingObjectReceiver.h:594-727 | computes every FETCH call in place |
| `ReceiverClass.StreamingObjectReceiver.Handle` | moxygen/StreamingObjectReceiver.h:161-257 | a call from outside computes Apply in place; it leaves the receiver quiet, the open subgroups counted, all data reported when it should be, the locations of a fetch ascending, and every object accounted for exactly unless one slipped |
| `ReceiverClass.StreamingObjectReceiver.Dispatch` | moxygen/StreamingObjectReceiver.h:161-257 | a call from anywhere computes Apply in place |
| `ReceiverClass.StreamingObjectReceiver.Destroy` | moxygen/StreamingObjectReceiver.h:119-129 | the destructor of a fetch receiver leaves no accepted object without its end |
| `ControlFrames.ChunkingIsIrrelevant` | moxygen/MoQCodec.cpp:62-132 | however the bytes are split, the same frames are announced and dispatched, with the same ids, error and final state |
| `ControlFrames.DrainPaired` | moxygen/MoQCodec.cpp:19-40 | every frame is announced once, after the allowed-check, and dispatched once before the next |
| `ControlFrames.DispatchesFrames` | moxygen/MoQCodec.cpp:62-114 | until an error the frames dispatched are exactly the complete frames in the bytes, and the codec is at a boundary exactly when nothing is left over |
| `ControlFrames.FramesDelivered` | moxygen/MoQFramer.cpp:3947-3971 | frames written and fed in any chunks come out as they went in, unless one is refused |
| `ControlFrames.SetupComesFirst` | moxygen/MoQCodec.cpp:448-520 | on a control stream the first frame dispatched is SETUP and no later one is |
| `ControlFrames.TruncationNoticed` | moxygen/MoQCodec.cpp:116-132 | a FIN inside a frame is reported exactly unless it comes alone with nothing buffered |
| `ControlFrames.TruncationMissed` | moxygen/MoQCodec.cpp:62-66 | a concrete stream whose truncation a lone FIN hides and a FIN with data does not |
| `ControlCodec.MoQControlCodec.OnIngress` | moxygen/MoQCodec.cpp:62-132 | the loop with its fall-through phases, working in place, makes the callbacks and reaches the state of the specification, with FIN and without |
| `ControlCodec.MoQControlCodec.ParseFrame` | moxygen/MoQCodec.cpp:448-520 | setup gating, payload errors and the attached request id |
| `FrameGate.RepliesInSendOrder` | moxygen/MoQCodec.h:280-348 | over every interleaving of sent updates and received frames, the ids attached to accepted replies are the primary id followed by the update ids in send order |
| `FrameGate.ReplyIdsNeverMissing` | moxygen/MoQCodec.h:280-348 | no accepted reply lacks an id, exactly when the follow-up frames name no other kind of OK |
| `FrameGate.StrayOk` | moxygen/MoQCodec.h:280-308 | the run in which one does |
| `FrameGate.MoQBidiStreamCodec.CheckFrameAllowed` | moxygen/MoQCodec.h:280-308 | accepts exactly the allowed frames and records the first |
| `FrameGate.MoQBidiStreamCodec.TakeNextResponseRequestId` | moxygen/MoQCodec.h:332-345 | hands out the primary id once, then the queue from its front |

## Left out

- Client, server, WebTransport and QMUX set-up, TLS, executors, timers, statistics, logging, GOAWAY timeouts, ALPN: outside the protocol core.
- The bodies of control messages other than location filters, fill parameters, extension blocks and auth tokens: wide but finite tables. They enter as a function of exactly their payload bytes; a body parser that stops short of its declared length or reads past it is not modelled.
- Wire formats of drafts below 18, QUIC varints (section 16 of RFC 9000), and on the control stream the frame types only those drafts allow.
- Datagram framing, and objectStream and datagram delivery in the streaming receiver (moxygen/StreamingObjectReceiver.h:553-582, 846-916): one-call versions of what is modelled.
- Payload contents in the receiver, and the endOfSubgroup, lastInGroup and forwarding metadata passed along with them: only lengths, order and terminals are modelled.
- The writer side of end-of-range markers: the repository has none. The parser and the chunking theorem cover them.
- The relay hop path codec (moxygen/MoQFramer.cpp:621-673), parameter allowlists and enum translation tables.
- EgressAckTracker, ObjectReceiver, MoQFilters and the queueing callbacks: bookkeeping around, or simpler versions of, what is modelled.
- Sharing and moves of buffers: byte queues are values, so aliasing of buffers is not captured. The subgroup receivers of a subscription are entries of one object rather than objects of their own, so the sharing of the parent pointer appears only as the flag that says whether it is still held.
- A receiver of FETCH kind that is also driven as a subscription: such calls are ignored here, while the code accepts some of them.
- Errors after the first: when a codec has failed, the code reports the error again on each further read; the model stops at the first, as the session's read loops do.
- A codec whose callback answers with a terminating error is left in a state that is not specified further than the callbacks made so far.
- 64-bit overflow of the cache's total size and of alias and request counters: they are unbounded here, except that aliases on the wire are 64-bit.
