# ASE: a verified model of its hard parts

ASE (Abstract Script Engines) lets programs in several languages share objects, inside one process and across two.
This project models, in Dafny, the parts of it where a mistake is hard to see, and proves what they promise.

**The remoting protocol** (`ase/asermt_protocol.cpp`). Two `remote_handle`s share one stream. Each keeps a table of the
objects it exports, a table of proxies for the objects it imports, reference counts, and a set of proxies nobody refers
to any more. Calls nest in both directions; before every write an end may insert `op_destroy` handshakes; any read or
write may fail, and closing the connection frees proxies from inside other activations.
`RemoteHandle` gives one end as a value with its operations, `RemoteReferences` what its references mean: identity, names
and counts. `RemoteHandleObject` is the same end as an object updated in place. `RemoteSystem` has the two ends as a
system of steps over their own C++ stacks (nothing there says that the stacks fit together), `RemoteSafety` and
`RemoteCoupling` the invariant, `RemoteTheorems`, `RemoteNumbers` and `RemoteCollection` what it guarantees over every run.
Over every run too, `RemoteDelivery` shows that what is said is what is heard, `RemoteCounts` that references are counted
exactly, and `RemoteFailures` what closes a connection and where the exception goes.

**The compact serializer** (`ase/aseserialize.cpp`) and what it stands on. `CompactFormat` is the format as functions;
`CompactSerializer` and `CompactDeserializer` are the encoders and decoders as the source writes them, over the growing
`StringBuffer` and a moving cursor; `CompactProofs` holds the round trips and their exact domains, `CompactBytes` the bytes themselves; `StringMap` the sorted
map and its enumerator; `PacketStream` the buffered stream that cuts packets out of bytes arriving in pieces;
`PacketReferences` joins the bytes of a packet to the lists of object references the protocol exchanges. `Bytes` has
little-endian integers.

**UTF-8 and UTF-16** (`ase/aseutfconv.cpp`, `ase/aseutf16.cpp`, `ase/asestr.cpp`). `Utf` states the encodings of RFC 3629
(sections 3 and 4) and RFC 2781 (sections 2.1 and 2.2) and the two converters, one character a round; `UtfConverter` has
their loops over buffers, `UtfProofs` the round trips and exactly what each accepts, `Utf16String` the permissive,
resynchronising conversion and the two string constructors. `Wrappers` has `Option`.

**The Lua guards** (`ase/aselua_sctx.cpp`). `LuaGuards` interleaves the single accesses of any number of threads to a
recursive mutex and to the vector of cached contexts, with a nest of guards per thread; `LuaScriptEngine` has the
constructors and destructors themselves.

**Java overloads** (`ase/asejni_classinfo.cpp`, `ase/asejni_jobjpr.cpp`). `Overloads` has the comparison the methods are
sorted by and the search for the one to call.

Four results differ from what the code's own words suggest.

- The two-byte branch of `pmc_uconv_8to16` does not test the second byte, so the converter accepts more than UTF-8;
  `UtfProofs.AcceptsUtf8` states the missing test.
- A truncated character at the very end of the input can be reported as a full buffer rather than as incomplete.
  `UtfProofs.Conv8Full` and `UtfProofs.Conv16Full` say exactly when for the two converters, and
  `Utf16String.PermissiveFull` when the permissive conversion fails for it.
- `uemutex` is recursive, and guards into Lua stand inside each other: a method called by its number on an object that is
  not multithreaded runs without a guard out of Lua. So a call out to a multithreaded object frees the mutex only if it
  is the last lock of its thread; `LuaGuards.CallOutReleases` says exactly when, and `LuaGuards.GuardInsideGuard` gives a
  nest without any live guard out of Lua in which it does not.
- `luaimpl_getdouble` and `luaimpl_getstring` (`ase/aselua_asepr.cpp:138-157`) push their result while their guard out of
  Lua is alive. A finalizer that runs then and calls out to a multithreaded object unlocks a mutex its thread no longer
  owns: `LuaGuards.MisplacedHappens`. By `LuaGuards.OnlyTheOwner` a step goes wrong if and only if it is a call-out that
  unlocks on a thread with as many unlocking call-outs alive as guards into Lua; the other results about the guards are
  about all the states reached without it.

`dafny verify dfyconfig.toml` checks everything.

## Model

| member | source | states |
|---|---|---|
| RemoteTheorems.NeverAborts | ase/asermt_protocol.cpp:731-823 | In every reachable state of the two ends, connections that fail at any read or write included, none of the three `abort()`s on `last_op` has been reached and no missing entry of the proxy table dereferenced: an end that waits has not read last, an open one that does not has not written last, and every candidate and every proxy about to be deleted is in the table |
| RemoteTheorems.FlipFlop | ase/asermt_protocol.cpp:731-757 | While both streams are open at most one packet is in flight, to an end that waits for it; the two ends never both wait with nothing in flight; and both `last_op` values agree with the turn: the end that has it has read last and the other has written last, and the sender of a packet in flight has written last while its receiver has not read |
| RemoteTheorems.PeerOnlyServes | ase/asermt_protocol.cpp:805-811 | In every reachable state with both streams open, while one end collects or waits in a handshake, the other waits for its next packet in an event loop and collects nothing |
| RemoteTheorems.AnswersReachTheirRequest | ase/asermt_protocol.cpp:420-431 | Over every run with callbacks nested to any depth, an answer that arrives is to the request of the innermost waiting activation, and requests arrive only at event loops that serve them (what the answer says is `RemoteDelivery.SaidIsHeard`) |
| RemoteNumbers.OpenCallsDiffer | ase/asermt_protocol.cpp:833-857 | In every reachable state the open calls have different numbers, rising towards the innermost and below the next number to be given |
| RemoteNumbers.AnswerNamesOneCall | ase/asermt_protocol.cpp:420-431 | So at most one activation of an end can be the one an answer is for |
| RemoteTheorems.StacksMatch | ase/asermt_protocol.cpp:833-873 | Whenever a program has control, the stacks of the two ends are the two views of one alternating call stack |
| RemoteTheorems.NoUnknownObject | ase/asermt_protocol.cpp:551-562 | The packet an open end reads next names only objects in its table, so the unknown-object exception is never thrown |
| RemoteTheorems.TablesAgree | ase/asermt_protocol.cpp:519-583 | Each end exports exactly what the other imports, plus the new objects of the packet in flight, minus the one identifier between its erasure and the deletion of its proxy |
| RemoteTheorems.ProxyLifetime | ase/asermt_protocol.cpp:163-220 | On every path each proxy is freed at most once and only when unmapped, none is lost, every candidate is mapped, every mapped proxy without references is a candidate or being destroyed, and there is at most one handle owner, on the client and never a candidate |
| RemoteTheorems.OwnerStaysMapped | ase/asermt_protocol.cpp:163-174 | The client's handle owner stays the same mapped proxy through any further run until the client's stream is closed |
| RemoteTheorems.ClosedEndIsClean | ase/asermt_protocol.cpp:825-831 | A closed end exports nothing and has no candidates; any proxy still mapped that is not being destroyed is one its program refers to, and goes with its last reference |
| RemoteTheorems.PendingStaysMapped | ase/asermt_protocol.cpp:731-738 | The proxies a packet about to be sent refers to stay mapped while it waits for the collection |
| RemoteTheorems.StepOk | ase/asermt_protocol.cpp:593-873 | Every step of either end keeps the whole invariant: both handles in order, the inboxes readable, and, with both streams open, stacks, turns and tables coupled (what the packets say is `RemoteDelivery.SaidIsHeard`) |
| RemoteTheorems.RunKeeps | ase/asermt_protocol.cpp:593-873 | So does every run |
| RemoteDelivery.SendSays | ase/asermt_protocol.cpp:731-749 | Every write of a call or an answer puts one packet on its way that names each object of it in its place, a proxy as remote by its identifier and an object of the sender's own, now exported, by its rep pointer or else its vtable; a request for a call, and for an answer one to the same request, thrown or not as the program's |
| RemoteDelivery.SaidIsHeard | ase/asermt_protocol.cpp:593-621 | Over every run, what one program has been handed is, in order and one for one, what the other began to say: each request with its objects, each result or exception with its objects and as which of the two, for the very request it answers; with both streams open at most the last is still on its way, and exactly while it is being written or stands in front of its reader |
| RemoteDelivery.ContentArrives | ase/asermt_protocol.cpp:740-780 | From every reachable state with both streams open in which the collection before a write is over, one write and one read later the other end's program has been handed what was written, its own objects as the ones it exported, and has control, while the writer waits |
| RemoteDelivery.GetsThrough | ase/asermt_protocol.cpp:731-780 | A program that has control can begin a call with any objects it has references to, or answer the request it serves, and once the collection that comes first has taken all its moves that gets through |
| RemoteCounts.CountedExactly | ase/asermt_protocol.cpp:182-220 | Over every run, failures and closings included, the reference count of each proxy is how often its program was handed it or copied it, less how often it let it go |
| RemoteCounts.MayLetGo | ase/asermt_protocol.cpp:182-192 | At any time a program may copy a reference it has, and let go of one that no packet it is sending needs |
| RemoteFailures.ClosesExactly | ase/asermt_protocol.cpp:798-873 | In every reachable state a step closes an end's stream if and only if it fails: a write or a read that is lost, also of an op_destroy or of its answer, or the release of the handle owner or of a proxy there is no memory to remember |
| RemoteFailures.ExceptionLeaves | ase/asermt_protocol.cpp:839-873 | The exception of a write or a read of a packet leaves the activation that was at it and every event loop around that one, and nothing below |
| RemoteFailures.AnythingMayFail | ase/asermt_protocol.cpp:740-820 | Wherever an end waits for a packet or has one to write, that may fail, and the stream is closed |
| RemoteCollection.OneWay | ase/asermt_protocol.cpp:782-823 | At each point of a collection on a working connection exactly one move of the protocol is possible at either end: the next round of the loop, the service at the other end, or the read of its answer; none is if and only if the collection is over |
| RemoteCollection.EveryCollection | ase/asermt_protocol.cpp:782-823 | However a collection goes on while the connection works, and whatever proxies are released and copied at the other end meanwhile, by the objects it erases: it takes at most one move a candidate and two more a dead proxy; it cannot go on if and only if it has taken that many; and then this end has lost exactly its dead proxies and the other exactly their objects, at one request and one answer each, with its stack, its turn and the set of its proxies as before, and their counts too if nothing was released or copied |
| RemoteCollection.CollectionBeforeWrite | ase/asermt_protocol.cpp:731-749 | That holds of every way to go on from every reachable state in which a write collects; at the end no proxy without references is left at this end and everything the packet refers to is still mapped |
| RemoteHandle.CollectOk | ase/asermt_protocol.cpp:782-823 | Whatever each handshake does (answered, lost in the write, lost in the read with a nested close), a collection keeps the handle in order, empties the candidates, frees exactly the dead ones and asks once for each it asks for |
| RemoteHandle.ReleaseOk | ase/asermt_protocol.cpp:188-220 | `release` keeps the handle in order in all its cases: other references left, owner, no memory for the candidate, closed |
| RemoteHandle.ReleaseFrame | ase/asermt_protocol.cpp:188-220 | A release takes one reference away and leaves every other reference, the turn and, on an open stream, both tables alone |
| RemoteHandle.DrainOk | ase/asermt_protocol.cpp:782-831 | Collecting on a closed handle frees exactly the candidates without references, empties the export table and keeps the handle in order |
| RemoteHandle.SerializeAllOk | ase/asermt_protocol.cpp:519-549 | Serializing a packet's objects keeps the handle in order, exports exactly the identifiers it sends as its own, and sends as remote exactly the proxies among the objects |
| RemoteReferences.Identity | ase/asermt_protocol.cpp:505-514 | Two objects share an identifier if and only if their rep pointers are equal, or their vtables if neither has one, or the rep pointer of the one is the vtable of the other that has none |
| RemoteReferences.SerializeAllNames | ase/asermt_protocol.cpp:519-549 | Each object of a packet is named in its place, proxies as remote by their identifier, others by rep pointer or else vtable; what was exported stays as it was, and what is new is the first object of its name |
| RemoteReferences.DeserializeAllMeans | ase/asermt_protocol.cpp:551-583 | The references of a packet are resolved position by position, to the object this end has exported under the name or to its proxy for it; the count of each proxy grows by exactly how often it is named, from nothing if it is new, and proxies that exist stay the same ones |
| RemoteReferences.SentAndReturned | ase/asermt_protocol.cpp:519-583 | An object sent to the peer and sent back is one of the same identity while it is exported, and the very object unless another view of it was exported before |
| RemoteReferences.ReceivedSurvives | ase/asermt_protocol.cpp:563-797 | A proxy received again survives a collection, however its handshakes end, with its count grown and its serial unchanged |
| RemoteReferences.ReleaseDecides | ase/asermt_protocol.cpp:188-220 | What a release does to the count, the table, the candidates and the stream: the last reference makes a candidate, or deletes on a closed stream, or closes it for the owner and when there is no memory |
| RemoteReferences.CollectStopsAtFailure | ase/asermt_protocol.cpp:798-815 | A collection closes the stream if and only if a handshake fails, and that one is its last |
| RemoteHandle.DeserializeAllReceives | ase/asermt_protocol.cpp:551-583 | Reading a packet's references throws if and only if one the sender calls remote is unknown; otherwise it maps exactly the new ones (their counts are `RemoteReferences.DeserializeAllMeans`) |
| RemoteHandleObject.HandleObject.GarbageCollect | ase/asermt_protocol.cpp:782-823 | The loop over the candidate set, with the handshakes and the nested close inside it, computes the specified collection and ends |
| RemoteHandleObject.HandleObject.ReleaseProxy | ase/asermt_protocol.cpp:188-220 | The object's `release` does what the specification does and keeps the handle in order |
| RemoteHandleObject.HandleObject.PacketWrite | ase/asermt_protocol.cpp:731-749 | Collects, checks the connection, serializes and takes the turn, with the new state in each outcome; its `abort()` is unreachable |
| RemoteHandleObject.HandleObject.CloseConnection | ase/asermt_protocol.cpp:825-831 | Closing, from inside a collection too, ends in the specified closed state with no candidate left |
| RemoteHandleObject.HandleObject.DeserializeObject | ase/asermt_protocol.cpp:551-583 | Yields the exported object or the proxy the reference means, counts one more reference to that proxy and to no other, and throws for an unknown object |
| RemoteHandleObject.HandleObject.SerializeObject | ase/asermt_protocol.cpp:519-549 | Names a proxy of this handle as remote and any other object by rep pointer or else vtable, exporting it if nothing is exported under that name, and nothing else |
| CompactProofs.RoundTrip | ase/aseserialize.cpp:435-496 | Wherever the encoding of a value stands in a buffer, decoding there returns its normal form and leaves the cursor right behind it |
| CompactProofs.RoundTripExactly | ase/aseserialize.cpp:113-129 | Decoding `enc(v) ++ t` gives back the normal form of `v` and the right cursor if and only if no string written is 2^56 bytes or longer |
| CompactProofs.ComesBackUnchanged | ase/aseserialize.cpp:174-191 | The very value comes back if and only if, besides, it has no long that fits 32 bits and no map with an empty key |
| CompactProofs.IntegerRoundTrip | ase/aseserialize.cpp:131-138 | Every 32- and 64-bit value is decoded to itself, as an int exactly when it fits 32 bits |
| CompactProofs.PacketRoundTrip | ase/aseserialize.cpp:271-280 | A packet followed by anything is decoded to the array of its values with the cursor right behind it if and only if its body is shorter than 2^56 bytes |
| CompactProofs.ObjectOpIsPacket | ase/aseserialize.cpp:282-289 | The `op_destroy` packet is the packet of an int and an object reference |
| CompactProofs.DecodedGood | ase/aseserialize.cpp:434-496 | Any byte string whatever is decoded, if at all, to a value with sorted maps and strings short enough to encode |
| CompactProofs.PacketLength | ase/aseserialize.cpp:507-538 | `get_length` of a packet followed by anything is the packet's length |
| CompactProofs.PacketDelimited | ase/aseserialize.cpp:507-538 | On every strict prefix of a packet `get_length` fails or asks for more than is there |
| CompactProofs.PacketsPrefixFree | ase/aseserialize.cpp:246-289 | No packet is a prefix of another, so a stream of packets splits in one way only |
| CompactProofs.LengthStable | ase/aseserialize.cpp:507-538 | A length once told is not changed by the bytes that follow |
| CompactBytes.EncodingIs | ase/aseserialize.cpp:113-244 | The bytes of every value: its tag, its size, and its number in the fewest little-endian two's complement bytes or its string |
| CompactBytes.PacketIs | ase/aseserialize.cpp:246-280 | The header of a packet: 0x80 and the size, or 0xe0, how many bytes the size has, and the size |
| CompactBytes.IntegerForms | ase/aseserialize.cpp:306-325 | Integers of any number of bytes up to eight are read, as ints if and only if there are at most four, and more throw |
| CompactBytes.DoubleForms | ase/aseserialize.cpp:327-338 | A double has eight bytes or throws |
| CompactBytes.ReferenceForms | ase/aseserialize.cpp:340-362 | A reference is remote if and only if its first byte is not zero; its identifier has any number of bytes up to eight, and no byte or more than nine throw |
| CompactBytes.CountedMap | ase/aseserialize.cpp:407-432 | A map with its size in front is read like one between tags |
| CompactBytes.ImmediateForms | ase/aseserialize.cpp:434-457 | Of the one-byte tags void, false and true are read, and those not in use throw |
| CompactBytes.CutShort | ase/aseserialize.cpp:477-480 | A payload that ends behind the end throws |
| CompactBytes.Misplaced | ase/aseserialize.cpp:383-432 | An end tag without its beginning, a key that is no string, and an array without its end each throw their exception |
| CompactBytes.LengthIsRead | ase/aseserialize.cpp:507-538 | The length told in front of anything that decodes is how far decoding reads, but for the bracketed forms, where it is 1 |
| PacketReferences.PacketKeepsReferences | ase/aseserialize.cpp:193-204 | Decoding a packet with anything behind it comes to exactly the object references that were written, in their order |
| PacketReferences.PacketIsItsReferences | ase/asermt_protocol.cpp:519-583 | If the objects in a packet were named as one end's `serialize_object` names them, the other end reads exactly those references from the bytes, and resolves them all if and only if it knows those called remote |
| PacketReferences.DestroyIsItsReference | ase/asermt_protocol.cpp:782-823 | The bytes of `op_destroy` are read as its operation and one reference, to an object of the receiver's |
| CompactDeserializer.DeserializeValue | ase/aseserialize.cpp:434-496 | For any bytes the mutually recursive decoder ends; each call throws or moves the cursor strictly forward without passing the end, reading only in between, and returns what the format says |
| CompactDeserializer.DeserializeArray | ase/aseserialize.cpp:383-405 | The array loop, up to an end tag or to the end of a payload, returns what the format says |
| CompactDeserializer.DeserializeAssoc | ase/aseserialize.cpp:407-432 | The map loop, up to an end tag or to the end of a payload, setting properties of a new string map, returns what the format says |
| CompactDeserializer.DeserializeIntegral | ase/aseserialize.cpp:291-304 | Copying the bytes into a wider variable and filling up with the sign gives the signed value of the bytes |
| CompactSerializer.ByteLengthSigned | ase/aseserialize.cpp:96-111 | The length found is the least at least 1 whose sign extension gives back the value, and the bytes kept are the shortest form |
| CompactSerializer.SerializeValue | ase/aseserialize.cpp:223-244 | Encoding a value appends exactly its encoding to the shared buffer |
| CompactSerializer.SerializeAssoc | ase/aseserialize.cpp:174-191 | The loop over the enumerator writes exactly the pairs with non-empty keys, in key order |
| CompactSerializer.SerializePacket | ase/aseserialize.cpp:246-280 | The values and the header in front make exactly the packet |
| Bytes.SBytesLength | ase/aseserialize.cpp:96-111 | The shortest signed form has at most `n` bytes if and only if the value fits in `n` |
| Bytes.DroppableFits | ase/aseserialize.cpp:96-111 | The test on the last two bytes holds if and only if the value fits in one byte less |
| Bytes.SignExtend | ase/aseserialize.cpp:291-304 | Filling up with the sign keeps the value |
| Bytes.LessIs | ase/ase/ase.hpp:474-483 | The order of strings is by the first byte that differs, a proper prefix first |
| StringBuffer.Buffer.MakeSpace | ase/asestrbuf.cpp:137-157 | Makes the room asked for, keeps the contents, and reallocates exactly when it has to |
| StringBuffer.Buffer.Append | ase/asestrbuf.cpp:166-172 | Appending is concatenation |
| StringMap.PutLookup | ase/asestrmap.cpp:57-73 | A property that was set reads back, and no other one changes |
| StringMap.PutSorted | ase/asestrmap.cpp:67-73 | Setting a property keeps the keys strictly increasing |
| StringMap.EnumeratedIncreases | ase/asestrmap.cpp:105-118 | Whatever is done to the map between calls, the keys an enumerator yields strictly increase |
| StringMap.EnumeratedComplete | ase/asestrmap.cpp:105-118 | A key that is there at every call, and is not empty, is yielded before the end is reported |
| StringMap.EnumeratesAll | ase/asestrmap.cpp:105-118 | On an unchanged map the enumerator yields exactly the non-empty keys, in order, and then ends |
| StringMap.Enumerator.EnumNext | ase/asestrmap.cpp:105-118 | Yields the least key greater than the last one, or the end if and only if there is none |
| PacketStream.Stream.PacketRead | ase/asermt_protocol.cpp:751-780 | The result, and the bytes left, depend on the bytes received and not on the pieces they came in; bytes are consumed only with the packet they make up |
| PacketStream.Stream.ReadMore | ase/aseio_bufstream.cpp:59-70 | One more piece goes to the end of the buffer, which holds what was received and not consumed |
| PacketStream.SessionRoundTrip | ase/asermt_protocol.cpp:751-780 | In the bytes of any sequence of packets, followed by anything, the packet in front is time after time the next one sent |
| PacketStream.ReadPackets | ase/asermt_protocol.cpp:751-780 | Successive reads of a stream, in whatever non-empty pieces the bytes arrive, return exactly the packets sent, in order, and leave exactly what followed them |
| PacketStream.FrontStable | ase/asermt_protocol.cpp:760-772 | What arrives later does not change the packet in front |
| UtfProofs.RoundTrip16 | ase/aseutfconv.cpp:123-190 | UTF-16 to UTF-8 and back is the identity on every well-formed UTF-16 string |
| UtfProofs.RoundTrip8 | ase/aseutfconv.cpp:24-121 | UTF-8 to UTF-16 and back is the identity on every well-formed UTF-8 string |
| UtfProofs.AcceptedReencodes | ase/aseutfconv.cpp:24-121 | Every accepted byte string, UTF-8 or not, is re-encoded as well-formed UTF-8 that reads as the same units |
| UtfProofs.Conv8WellFormed | ase/aseutfconv.cpp:24-121 | Whatever the bytes and wherever the conversion stops, the units written are well-formed UTF-16 |
| UtfProofs.AcceptsUtf8 | ase/aseutfconv.cpp:42-58 | A byte string is well-formed UTF-8 if and only if the converter accepts it and the second byte of each two-byte character is a trail byte |
| UtfProofs.AcceptsTooMuch | ase/aseutfconv.cpp:42-58 | The bytes c3 28, which are not UTF-8, are accepted |
| UtfProofs.Conv16Exact | ase/asestr.cpp:291-319 | With three bytes for each unit the conversion succeeds if and only if the units are well-formed UTF-16, and then writes the RFC 3629 encoding of their scalar values |
| UtfProofs.Conv8Full | ase/aseutfconv.cpp:81-92 | With a unit for each byte a full buffer is reported if and only if the room is exactly that and the string is one-byte characters and the lead byte of a four-byte character at the end |
| UtfProofs.Conv16Full | ase/aseutfconv.cpp:147-159 | With three bytes for each unit a full buffer is reported if and only if the room is exactly that and the string is three-byte characters and a high surrogate at the end |
| UtfProofs.Conv8Stops | ase/aseutfconv.cpp:24-121 | A conversion that does not come to the end stops in front of a character that cannot be read or for which there is no room, and its error says which: cut off, malformed, out of range, or no room |
| UtfProofs.Conv8Front | ase/aseutfconv.cpp:24-121 | What it consumed by then converts by itself to what it wrote |
| UtfProofs.Conv16Stops | ase/aseutfconv.cpp:123-190 | The same of the other direction: a high surrogate at the end, a surrogate out of place, or no room |
| UtfProofs.WellFormed8Iff | ase/aseutfconv.cpp:24-121 | The grammar in section 4 of RFC 3629 describes exactly the encodings of section 3 |
| UtfConverter.Uconv8to16 | ase/aseutfconv.cpp:24-121 | The loop writes exactly the units specified into the buffer, nothing outside them, and stops with the error and at the positions specified |
| UtfConverter.Uconv16to8 | ase/aseutfconv.cpp:123-190 | The same for the bytes |
| Utf16String.PermissiveFull | ase/aseutf16.cpp:23-54 | With a unit for each byte the permissive conversion fails if and only if the string ends behind the lead byte of a four-byte character and nothing before that left room over; then a unit was written for each byte consumed |
| Utf16String.PermissivePieces | ase/aseutf16.cpp:23-54 | Every string splits into characters the converter reads and bytes it cannot read with the trail bytes behind them, and, unless it fails, the permissive conversion writes each character in UTF-16 and 0xfffd for each of the others, in order |
| Utf16String.PermissiveWellFormed | ase/aseutf16.cpp:23-54 | It never writes ill-formed UTF-16 |
| Utf16String.PermissiveOnUtf8 | ase/aseutf16.cpp:23-54 | On well-formed UTF-8 it replaces nothing |
| Utf16String.StrictThenPermissive | ase/aseutf16.cpp:34-49 | Resuming the strict conversion behind each replacement is the same as deciding character by character |
| Utf16String.CreateBuffer | ase/aseutf16.cpp:23-54 | The loop ends, stays inside its buffer, and leaves exactly the specified units and a zero behind them |
| Utf16String.InitUtf16 | ase/aseutf16.cpp:58-81 | When the constructor throws, permissive or not, and what the string holds when it does not: permissively, the characters in UTF-16 with 0xfffd for each unreadable piece |
| Utf16String.InitUtf8 | ase/asestr.cpp:291-325 | Succeeds if and only if the units are well-formed UTF-16, and then stores exactly their RFC 3629 encoding and a nul |
| LuaGuards.OneThreadInLua | ase/aselua_sctx.cpp:256-302 | In every interleaving, guards standing directly inside each other included, a thread on the Lua side of its innermost guard owns the mutex, so no second thread is |
| LuaGuards.OnlyTheOwner | ase/aselua_sctx.cpp:282-323 | A step goes wrong if and only if it is an unlocking guard out of Lua on a thread that has as many unlocking ones alive as guards into Lua; all other unlocks and all accesses to the cached contexts are made by the owner, and `pop_back` removes the context that was read |
| LuaGuards.MisplacedHappens | ase/aselua_asepr.cpp:149-157 | That step can come up: a reachable state in which it is possible |
| LuaGuards.FinalizerLetsIn | ase/aselua_sctx.cpp:268-278 | A finalizer run by `lua_newthread` can call out and let another thread in while the context is still being made: a reachable state |
| LuaGuards.EachContextOnce | ase/aselua_sctx.cpp:256-302 | Every context created is in exactly one place: once in the vector, with one live guard, or closed because it could not be cached |
| LuaGuards.NotCachedIsClosed | ase/aselua_sctx.cpp:282-301 | A context that cannot be cached is closed and the vector left alone, and over any further run no guard gets it again |
| LuaGuards.QuietIsClean | ase/aselua_sctx.cpp:256-323 | When all guards are gone the mutex is free and no context is lost |
| LuaGuards.CallOutReleases | ase/aselua_sctx.cpp:304-314 | A call-out that unlocks finds at least as many guards into Lua on its thread as other unlocking call-outs: with just as many it goes wrong, with one more it frees the mutex, with more its thread keeps it; if all call-outs were made from Lua, it frees it if and only if an unlocking one stands directly inside each guard into Lua further out |
| LuaGuards.GuardInsideGuard | ase/aselua_asepr.cpp:260-273 | A guard into Lua directly inside another one is reachable, and there a call-out that unlocks frees nothing though no other call-out is live |
| LuaGuards.SomeoneMoves | ase/aselua_sctx.cpp:256-323 | The owner of the mutex can always move, and any thread can while there is none, so a thread that waits for the mutex waits for one that can move |
| LuaGuards.RunKeeps | ase/aselua_sctx.cpp:256-323 | Every interleaving of the guards' single accesses keeps the mutex, the nests and the contexts in order, unless it goes wrong |
| LuaScriptEngine.GuardComesAndGoes | ase/aselua_sctx.cpp:256-302 | A guard constructed and destroyed leaves mutex and vector as they were, or the new context in the vector if there was none |
| LuaScriptEngine.CallOutComesBack | ase/aselua_sctx.cpp:304-323 | A call-out can come back and leave everything as it was if and only if it is not the one that goes wrong |
| LuaScriptEngine.EnterLuaIs | ase/aselua_sctx.cpp:256-280 | The constructor's single accesses come to the mutex locked once more and a guard with the context from the back of the vector, or with a new one if there was none |
| LuaScriptEngine.ScriptEngine.ConstructCallFromAse | ase/aselua_sctx.cpp:256-280 | The constructor leaves exactly that state and yields the context its guard holds |
| LuaScriptEngine.ScriptEngine.DestroyCallFromAse | ase/aselua_sctx.cpp:282-302 | The destructor does the system's steps, with and without memory to cache the context |
| Overloads.CompareTotal | ase/asejni_classinfo.cpp:1521-1552 | Any two parameter lists are ordered one way round, and only identical ones compare equal |
| Overloads.CompareTransitive | ase/asejni_classinfo.cpp:1521-1552 | The order is transitive |
| Overloads.FirstDifference | ase/asejni_classinfo.cpp:1533-1549 | Lists of one length are ordered by their first different type: the kind that stands earlier in void, boolean, byte, char, short, int, long, float, double and then classes; of two classes the longer name, or of two as long the one with the greater character at their first difference |
| Overloads.LessIsBefore | ase/asejni_classinfo.hpp:17-28 | The whole order in those terms, after the number of parameters, more of them first |
| Overloads.CompareInternal | ase/asejni_classinfo.cpp:1525-1551 | The loop computes a number that is negative if and only if the first list comes before the second in that order, and zero if and only if they are the same |
| Overloads.PassedAs | ase/asejni_jobjpr.cpp:483-538 | What each kind of argument can be passed as: a number as any number, null as any class, a string as a string or a class that takes one, a Java object as a class it is of, and nothing else |
| Overloads.FindFuncOverloaded | ase/asejni_jobjpr.cpp:492-546 | The nested search returns the first method whose parameters all match, or null |
| Overloads.FindsLeast | ase/asejni_jobjpr.cpp:492-546 | On sorted methods the search fails if and only if none applies, and otherwise finds one whose parameter list comes before those of all others that do, in the order of `LessIsBefore` |
| Overloads.ListingDoesNotMatter | ase/asejni_classinfo.cpp:1659-1677 | The parameter list found does not depend on the order reflection lists the methods in, nor does the method if no two share a list |
| Overloads.AnyEqualMayBeFound | ase/asejni_classinfo.cpp:1659-1677 | Of methods that share the list found, the sort may put any first |

## Left out

Of the protocol:

- Peers that do not conform, and packets that are not requests or answers: both ends run this protocol.
- `remote_event_loop`, `call_remote` and `execute_request` as methods: they re-enter each other through arbitrary program code, so they are steps of the two-party system, with the activations on an explicit stack.
- In the results on every way a collection goes on: references released or copied at the end that collects, whose one thread is inside the collection; releases at the other end are in, except the last reference to its handle owner, or to a candidate there was no memory for, which closes the stream.
- Several threads on one handle, and finalizers that make remote calls while a packet is being built: one thread an end.
- Which operation a request asks for: all but `op_destroy` are one kind of request, whose program code may do anything the protocol allows; numbers on requests and answers are not on the wire and no step looks at them.
- Objects passed by value, and decoding errors other than an unknown object: a packet is its list of object references, and other errors take the path of a failed read.
- Which of two views of one object is exported: an identifier is the rep pointer, and the view entered first is the one that comes back.
- Proxies as heap objects: they are entries of a map with a serial number each, so that deletion twice or not at all shows; `freed` is that history and is not in the code, as `handed` is not, the history of what a program has been handed.
- Out of memory other than in `release`, where the insertion of a new candidate may fail.
- The other serializers (DER, XER), whose codec is not part of this model; processes, sockets and listeners, which are arbitrary failures and arbitrary pieces of bytes here.

Of the serializer, the map and the stream:

- Bit operations are written as the equal arithmetic; memory is little-endian and a size has 64 bits, as the code assumes.
- Sizes of 2^64 and more, arrays of 2^31 elements and more, and the overflow branch of `get_length`, which no three-bit length of a length reaches.
- Objects serialized or deserialized without an object serializer; objects the object serializer declines other than maps and arrays.
- Doubles are eight opaque bytes.
- The mutex of the string map, and other programs that change a map between an enumerator's key and the lookup of its value while it is being serialized.
- The number of bytes asked for at a time: a piece may have any length.

Of the converters:

- Out of memory. `Resize` copies where the code shrinks the allocation in place.
- Reference counts of strings.

Of the Lua engine:

- Other engines lock and unlock the same mutex (`ase/asejs_sctx.cpp:631-665`): "the mutex is free" means free of the Lua guards.
- What a thread does between its guards, and with which context: that `luaimpl_getdouble` and `luaimpl_getstring` touch the Lua stack while their guard out of Lua has unlocked is outside `LuaGuards.OneThreadInLua`, which is about guards.
- Start-up and clean-up of the engine, which use the default context without a guard, the registry beyond the contexts it keeps, errors thrown through Lua.
- LuaScriptEngine.ScriptEngine.ConstructCallFromAse: states the constructor undisturbed; that others cannot disturb it is `LuaGuards.OnlyTheOwner`.

Of the Java bridge:

- Calls, conversions and reflection: which classes a string can be assigned to and which classes an object has are unknown functions, and `std::sort` is taken at its contract.
- Parameter counts beyond `int`.

Not modelled because they would only add easy members, or repeat a shape that is here: the method-id tables, command lines and paths, the JavaScript context pool, the engines for Perl, COM and the CLR.
