# rclweb in Dafny

A model of the parts of rclweb where a mistake would be hard to see from any one function, with
proofs about all inputs, all runs and all interleavings of that model.

| files | part of the system |
|---|---|
| `ByteOrder`, `Utf8`, `CdrLimits`, `Outcomes`, `CdrSyntax`, `CdrRoundTrip` | CDR1 as mathematics: octets, UTF-8, ceilings, what a value stands for at an offset, lists of fields |
| `CdrReader`, `CdrWriter`, `PointCloud2`, `PointCloudLaws` | the Rust cursor classes and the PointCloud2 codec over them |
| `HostDecoder` | the host's own little-endian decoder, and why it reads what Rust reads |
| `HostValue`, `HostLayout`, `HostValueCodec` | the packed layout of the eight generated types |
| `Inbox` | length-prefixed frames over a byte stream, producer and reassembler |
| `Qos`, `Session`, `Client`, `ClientEngine`, `ClientLaws`, `LeasePayload` | QoS resolution, the session state machine, the client poll engine, its buffer leases and what they show |
| `ClientCommands`, `ClientHears`, `Heartbeats` | what each command sends, what each control message does, when a heartbeat is due |
| `WriteQueue`, `Gateway`, `GatewayConnection`, `GatewayLaws` | the gateway connection, its sample queue and its loop |
| `GatewayAccess`, `GatewayPublishes`, `GatewayCalls` | what the gateway grants, admits and answers, whatever its client sends |
| `LinkItems`, `LinkClient`, `LinkGateway`, `Link` | both peers joined by first-in first-out links |
| `Replay`, `LinkSessions`, `LinkHeartbeats` | over the link: the two session state machines, and the heartbeats |
| `LeasedSamples`, `LinkSamples`, `LinkPayloads` | subscription samples from the gateway's stamp to what the client's leases show |
| `Operations`, `CallStreams`, `CallAdmission`, `LinkOperations` | service and action frames, numbered by one rule and admitted by another |
| `CallWitness`, `LeaseWitness`, `HeartbeatWitness`, `LateWitness` | concrete runs into the cases that fail |
| `AuditChain`, `AuditSink`, `AuditRuns`, `AuditCuts` | the hash-chained audit log: sealing, verification, rotation, restart, export |
| `Graphs`, `Acyclic`, `TopoSort` | cycle detection and class ordering of the generators |

Code that updates state in place is a class or a method with loops, proved against functions on
values (`CdrReader` against `CdrSyntax`, `ClientEngine` against `Client`, `GatewayConnection`
against `Gateway`, `HostValueCodec` against `HostValue`, `Sink` and `Open` against `AuditSink`'s
step functions); the laws are then proved about those functions. Calls into code outside the
model (parsing and encoding of frames and CBOR, authentication, ACL, the ROS backend, file writes,
SHA-256) are parameters of each step, so every statement holds whatever they answer.

The encoding is CDR transfer syntax, section 9.3 of OMG CORBA 3.3 Part 2, with the encapsulation
identifiers of clause 10 of OMG DDSI-RTPS 2.3; string well-formedness is section 4 of RFC 3629.
Where the code makes its own choice it is followed: alignment counts from octet 4, and a wide
string is a count of 4-octet scalar slots.

## What the proofs turned up

- A string's payload is charged twice against the reader's temporary budget, a writer charges it
  once, so some strings a writer accepts cannot be read back under the same limits:
  `RoundTrip` says exactly which, `RoundTripNeedsBudget` shows one.
- `decode_std_msgs_string` accepts big-endian payloads that the host decoder answers with null;
  `StdMsgsStringAgrees` is exact, `BigEndianStringIsRefused` shows one.
- A restart that finds an empty live audit file behind rotated ones starts the chain over at
  genesis. `RestartKeepsInv` says exactly when a restart is safe, `BrokenStitch` what follows
  otherwise; a record and a failed write get there (`EmptyLiveIsReached`, `BrokenStitchHappens`).
- A host that names an inbound buffer a lease still points into loses the reference count;
  `NamingLeasedBufferBreaks` is exact, `NamingItBreaks` a run into it.
- The client numbers service and action frames per channel, and takes the number before it knows
  whether the frame can be sent; the gateway admits them per operation. All frames of a channel are
  admitted iff every call up to the last one sent was sent and all belong to one operation
  (`OneOperationPerChannel`); over a link the gateway fails the session for this reason exactly when
  some channel's calls are not like that (`OperationsFailExactly`). Two operations at once fail
  (`TwoOperationsFail`), and so does one operation after a call of it the client refused
  (`RefusedCallFails`).
- Both peers answer a heartbeat with a heartbeat, so none is ever used up: while both run,
  everything that ever fell due is still going back and forth (`HeartbeatsNeverEnd`), and one that
  fell due once is answered as often as one likes (`OneBeatGoesOn`).
- The two session state machines agree on everything but one thing: data that was on its way when
  the client unsubscribed. It ends the session (`SessionsAgree`, `LateDataCloses`);
  `UnsubscribeEndsSession` is a run into it. Unsubscribing from a channel that is not open, one still
  being opened included, does so at once (`UnsubscribeExactly`).
- The gateway reports a refused publish or call as an error about that channel; the client takes an
  error about an open channel as the end of the session (`RefusalIsAnswered`, `ChannelErrorCloses`).
  The comment in `apply_error` says only an error without a channel does that; the code is followed.
- Reliable samples stay contiguous because the loop empties the queue after every admission, not
  because of the queue, whose eviction ignores the reliability of what it evicts.
- An injective 32-octet hash of unbounded records does not exist, so tamper evidence is proved
  without assuming one: equal files, or two records at one position that collide.

## Model

| member | source | states |
|---|---|---|
| `ByteOrder.DecodeEncode` | rclweb/src/cdr/writer.rs:146-188 | An unsigned integer written in either byte order in as many octets as it needs is read back unchanged. |
| `ByteOrder.EncodeDecode` | rclweb/src/cdr/reader.rs:177-227 | Any octets are exactly the encoding of the integer they decode to, which is in range. |
| `ByteOrder.SignedBijection` | rclweb/src/cdr/reader.rs:244-262 | The casts between signed and unsigned of one width are inverse to each other on the full ranges. |
| `ByteOrder.OctetIs` | rclweb/src/cdr/writer.rs:146-188 | Octet `i` of an encoding is the base-256 digit of weight `i`, counted from the first octet in little-endian order and from the last in big-endian. |
| `ByteOrder.WeightOf` | rclweb/src/cdr/reader.rs:187-227 | Decoding gives the first octet the least weight in little-endian order and the last in big-endian. |
| `ByteOrder.SignedIs` | rclweb/src/cdr/reader.rs:244-262 | The signed cast is the number itself or the number less the span, whichever is in the signed range. |
| `Utf8.FromToUtf8` | rclweb/src/cdr/reader.rs:363-443 | Decoding the UTF-8 form of any string of scalars gives that string. |
| `Utf8.ToFromUtf8` | rclweb/src/cdr/reader.rs:363-443 | Whatever octets the strict grammar accepts are the UTF-8 form of what they decode to. |
| `Utf8.Rfc3629Examples` | rclweb/src/cdr/reader.rs:430-436 | The examples of section 7 of RFC 3629 have the octets given there. |
| `CdrLimits.Validate` | rclweb/src/cdr/limits.rs:94-118 | Limits are accepted exactly in the documented ranges, otherwise an invalid-limits fault at offset 0. |
| `CdrLimits.PaddingFor` | rclweb/src/cdr/limits.rs:134-142 | The padding is the least that aligns the offset, counted from octet 4. |
| `CdrSyntax.ParseOfHeld` | rclweb/src/cdr/reader.rs:187-586 | A field whose octets lie in the stream and that passes the ceilings reads as that field, cursor right after it, whatever the padding holds. |
| `CdrSyntax.HeldOfParse` | rclweb/src/cdr/reader.rs:187-586 | Whatever a read accepts has exactly the octets it was read from, its length and its ceilings. |
| `CdrSyntax.StringAccepted` | rclweb/src/cdr/reader.rs:363-443 | A string read succeeds iff prefix, bound, stream ceiling, doubled charge, terminator and UTF-8 all hold, with that text and end. |
| `CdrSyntax.AcceptanceIsHostIndependent` | rclweb/src/cdr/reader.rs:363-586 | What is accepted, and the kind of every fault, is the same for 32-bit and 64-bit `usize`. |
| `CdrRoundTrip.WriteFaultExact` | rclweb/src/cdr/writer.rs:128-371 | A field is written iff its bounds hold and its padded octets fit under the capacity. |
| `CdrRoundTrip.WriteAllExact` | rclweb/src/cdr/writer.rs:128-371 | A list is written iff every bound holds and the final stream fits; the result is the old stream and the list's octets. |
| `CdrRoundTrip.ParseAllExact` | rclweb/src/cdr/reader.rs:147-586 | A list of kinds reads as given fields, ending right after them, iff their octets lie there and pass the ceilings. |
| `CdrRoundTrip.RoundTrip` | rclweb/src/cdr/writer.rs:128-371 | Any list a writer accepts, in either byte order, is read back in full under the same limits iff every string's UTF-8 form is at most half the temporary budget. |
| `CdrRoundTrip.RoundTripNeedsBudget` | rclweb/src/cdr/reader.rs:406-419 | A concrete string that is written and then refused under one set of limits. |
| `CdrRoundTrip.Canonical` | rclweb/src/cdr/writer.rs:128-371 | Re-encoding any accepted list gives octets of the same length that differ at most in padding. |
| `CdrRoundTrip.WriteBack` | rclweb/src/cdr/writer.rs:24-42 | A list that was read can be written back iff what was read fits under the writer's capacity. |
| `CdrRoundTrip.ItemsOfParse` | rclweb/src/cdr/reader.rs:147-586 | Every accepted list of fields has typed items that spell it. |
| `CdrReader.OpenStream` | rclweb/src/cdr/reader.rs:51-75 | A view opens iff the limits are accepted, the length is in range and the representation is one of the two plain CDR identifiers. |
| `CdrReader.CdrReader.Preflight` | rclweb/src/cdr/reader.rs:147-168 | Alignment and room are checked before anything is read, for every size a `usize` holds; a failure puts the cursor at the field start; the overflow fault is reported exactly when padding and size exceed a `usize`, which no read of a field causes. |
| `CdrReader.CdrReader.ReadUnsigned` | rclweb/src/cdr/reader.rs:187-227 | Value and new cursor as the syntax prescribes, or the fault and the old cursor. |
| `CdrReader.CdrReader.ReadSigned` | rclweb/src/cdr/reader.rs:244-262 | The two's complement value, in range, or fault and old cursor. |
| `CdrReader.CdrReader.ReadBool` | rclweb/src/cdr/reader.rs:229-242 | Octets 0 and 1 only; any other is refused with the cursor put back. |
| `CdrReader.CdrReader.ReadBytes` | rclweb/src/cdr/reader.rs:285-296 | A span of the input itself iff that many octets are left, truncated otherwise, for every `usize`. |
| `CdrReader.CdrReader.ReadString` | rclweb/src/cdr/reader.rs:363-443 | As the syntax prescribes, cursor unmoved on every fault; none of the `usize` conversions or additions can fail. |
| `CdrReader.CdrReader.ReadWString` | rclweb/src/cdr/reader.rs:447-509 | The same for wide strings, on both pointer sizes. |
| `CdrReader.CdrReader.ReadSequenceLength` | rclweb/src/cdr/reader.rs:513-540 | The same for sequence lengths under their bound and the stream ceiling. |
| `CdrReader.CdrReader.ReadByteSequence` | rclweb/src/cdr/reader.rs:543-586 | The same for byte sequences; the result is the input's own octets ending at the cursor. |
| `CdrReader.CdrReader.EnsureCompleteWithZeroTail` | rclweb/src/cdr/reader.rs:336-359 | Succeeds iff the declaration is within the ceiling and the rest is empty or all zero of the declared length, which it consumes. |
| `CdrWriter.PrechecksExact` | rclweb/src/cdr/writer.rs:376-416 | The two capacity prechecks agree exactly with the reservation that follows them. |
| `CdrWriter.CdrWriter.AlignAndReserve` | rclweb/src/cdr/writer.rs:128-144 | Pads with zeros iff padding and field fit under the capacity; otherwise the buffer is untouched. |
| `CdrWriter.CdrWriter.WriteUnsigned` | rclweb/src/cdr/writer.rs:155-188 | The buffer grows by the canonical octets or stays as it was. |
| `CdrWriter.CdrWriter.WriteSigned` | rclweb/src/cdr/writer.rs:196-213 | The same for signed integers. |
| `CdrWriter.CdrWriter.WriteBool` | rclweb/src/cdr/writer.rs:191-193 | The same for booleans. |
| `CdrWriter.CdrWriter.WriteBytes` | rclweb/src/cdr/writer.rs:236-241 | All octets or none. |
| `CdrWriter.CdrWriter.WriteString` | rclweb/src/cdr/writer.rs:247-277 | The same for strings, with the fault the code reports; the 32-bit length conversion after the reservation never fails. |
| `CdrWriter.CdrWriter.WriteWString` | rclweb/src/cdr/writer.rs:283-321 | The same for wide strings, both passes over the text included. |
| `CdrWriter.CdrWriter.WriteSequenceLength` | rclweb/src/cdr/writer.rs:324-342 | The same for sequence lengths. |
| `CdrWriter.CdrWriter.WriteByteSequence` | rclweb/src/cdr/writer.rs:345-371 | The same for byte sequences. |
| `CdrWriter.NewWriter` | rclweb/src/cdr/writer.rs:24-42 | A writer exists iff the limits are accepted and leave room for the header. |
| `PointCloud2.DecodePointCloud2` | rclweb/src/cdr/point_cloud2.rs:49-85 | The reader methods in this order compute the parse of a cloud, field loop included, or report its first fault. |
| `PointCloud2.DecodePointCloud2Le` | rclweb/src/cdr/point_cloud2.rs:118-123 | One cloud and nothing after it. |
| `PointCloud2.EncodePointCloud2` | rclweb/src/cdr/point_cloud2.rs:88-114 | The writer methods in this order append exactly the cloud's item list, or report the first fault of writing it; a writer that allows one level of nesting refuses every cloud untouched. |
| `PointCloud2.EncodePointCloud2Le` | rclweb/src/cdr/point_cloud2.rs:126-130 | A header and the item list under the default limits. |
| `PointCloudLaws.CloudReads` | rclweb/src/cdr/point_cloud2.rs:56-85 | Decoding accepts a cloud at an offset iff the stream holds the cloud's item list there. |
| `PointCloudLaws.CastIsHarmless` | rclweb/src/cdr/point_cloud2.rs:104 | A cloud whose field count the truncating cast would change is never encoded. |
| `PointCloudLaws.DecodeOfEncode` | rclweb/src/cdr/point_cloud2.rs:118-130 | An encoded cloud decodes to itself iff its strings fit the doubled charge. |
| `PointCloudLaws.EncodeOfDecode` | rclweb/src/cdr/point_cloud2.rs:118-130 | Every accepted little-endian buffer re-encodes, to the same length, differing in option and padding octets only, and decodes to the same cloud again. |
| `HostDecoder.UnsignedAgrees` | typescript/src/cdr-le.ts:57-151 | Fixed-width reads of the two decoders agree on every input and offset, failures included. |
| `HostDecoder.BoolAgrees` | typescript/src/cdr-le.ts:153-157 | The same for booleans. |
| `HostDecoder.StrAgrees` | typescript/src/cdr-le.ts:159-173 | Rust accepts exactly the strings the host accepts whose prefix is not zero, whose payload is UTF-8 and fits the doubled charge; same payload octets, same end. |
| `HostDecoder.WStringAgrees` | typescript/src/cdr-le.ts:179-197 | Wide strings agree on every input under the default limits. |
| `HostDecoder.ByteSeqAgrees` | typescript/src/cdr-le.ts:199-205 | Byte sequences agree on every input. |
| `HostDecoder.StdMsgsStringAgrees` | typescript/src/cdr-le.ts:213-221 | For every payload Rust accepts the host yields the same payload octets iff the byte order octet says little-endian, and null otherwise. |
| `HostDecoder.BigEndianStringIsRefused` | rclweb/src/engine/mod.rs:220-223 | A concrete payload Rust accepts and the host refuses. |
| `HostDecoder.HostRefinesRust` | typescript/src/cdr-le.ts:224-263 | Every little-endian PointCloud2 buffer Rust accepts is decoded by the host to the same members and the same data span. |
| `HostDecoder.DecodePointCloud2` | typescript/src/cdr-le.ts:224-263 | The reads in this order over the cursor class compute that decoding, null on any error. |
| `Inbox.LengthPrefixedInbox.EnsureCapacity` | typescript/src/host.ts:809-827 | The unread bytes are unchanged by compaction and doubling, there is room for the chunk, and a new buffer is less than twice what is needed. |
| `Inbox.LengthPrefixedInbox.Push` | typescript/src/host.ts:834-856 | Emits exactly the frames this chunk completes and keeps exactly the unparsed tail. |
| `Inbox.ParseInParts` | typescript/src/host.ts:842-851 | Parsing a stream is parsing a first part and continuing on its tail with the rest. |
| `Inbox.ReadLoop` | typescript/src/host.ts:255-267 | For every split of a byte stream into chunks the emitted frames are the parse of the whole. |
| `Inbox.LengthPrefixedBiTransport.Send` | rclwebd/src/wt.rs:172-183 | A message up to the 32-bit limit goes out as prefix and octets, a longer one not at all. |
| `Inbox.SentIsReceived` | rclwebd/src/wt.rs:172-183 | What `send` put on the wire parses back to exactly the messages, in order, with nothing left over. |
| `Inbox.PrefixIsReceived` | typescript/src/host.ts:834-856 | Cut anywhere, the inbox has emitted a prefix of the messages and the rest completes the others. |
| `HostValue.HostValueRoundTrip` | typescript/src/generated-value.ts:34-63 | For all eight types, decoding an encoding gives the same value and consumes every byte iff every integer is in range and every text and list is countable. |
| `HostValue.GetPutScalars` | typescript/src/generated-value.ts:325-390 | The fifteen scalars are read back from in front of any tail. |
| `HostValue.GetPutCollections` | typescript/src/generated-value.ts:392-446 | So are the array, the two lists and the two texts. |
| `HostValue.ReadFits` | typescript/src/generated-value.ts:187-222 | Whatever decodes is in range. |
| `HostLayout.LayoutIs` | typescript/src/generated-value.ts:290-470 | Every member of every type lies at its offset in a table, as a little-endian number cut to its width, and there is nothing else. |
| `HostLayout.EncodeOfDecode` | typescript/src/generated-value.ts:187-222 | Octets that decode are the encoding of what they decode to, but for a boolean written as another number than one. |
| `HostValueCodec.EncodeGeneratedHostValue` | typescript/src/generated-value.ts:34-63 | Setters at a moving offset into buffers sized in advance fill them with exactly the layout; nothing for a type that is not generated. |
| `HostValueCodec.DecodeGeneratedHostValue` | typescript/src/generated-value.ts:187-222 | The cursor reads exactly the layout, with truncation, trailing bytes and unknown types reported as such. |
| `Qos.EffectiveIsFixed` | rclwebd/src/qos.rs:22-91 | An effective QoS sent as a request resolves to itself, with a depth of at least one or none. |
| `Qos.ReliabilityIsCarried` | rclwebd/src/qos.rs:79-90 | The client's test on the wire map recovers exactly the gateway's reliability. |
| `Qos.FromWire` | rclwebd/src/qos.rs:25-44 | The loop takes the last value of each key, cast down, and skips the rest. |
| `Qos.LastDecides` | rclwebd/src/qos.rs:25-44 | Each member of a request is the last unsigned value under its own key, cast down; nothing else in the map matters. |
| `Qos.RequestIsHonoured` | rclwebd/src/qos.rs:60-76 | From the wire map: best effort iff reliability 2, transient local iff durability 1, all kept iff history 2, manual iff liveliness 2; depth as asked, 10 if not asked, never zero; an absent key is the system default. |
| `Session.FramesAdvance` | rclweb/src/session/transition.rs:259-629 | Whatever frame either peer applies, channel ids only move forward, kinds never change, and a ready session stays ready. |
| `Session.SenderByFamily` | rclweb/src/session/channel.rs:56-113 | An opcode is legal on a channel exactly if it is of the channel's family; samples, calls, goals and cancellations come from the initiating peer, everything else from the other. |
| `Session.DataAccepted` | rclweb/src/session/transition.rs:559-629 | A data frame is accepted iff the session is ready, the channel active, the opcode that peer's to send there, and operation id and reliability are as its kind needs; it changes nothing. |
| `ClientEngine.ClientEngine.DoPoll` | rclweb/src/engine/mod.rs:231-270 | A turn of the engine on its fields is the turn function: at most one batch, stopping at the event that closes, then the sweep. |
| `ClientEngine.ClientEngine.SweepReleased` | rclweb/src/engine/mod.rs:1319-1330 | Reports and removes exactly the finished buffers without leases. |
| `ClientEngine.ClientEngine.ReceiveBytes` | rclweb/src/engine/mod.rs:848-872 | Retains the bytes under a fresh or named id, handles them by phase, and marks the ingest done. |
| `ClientEngine.ClientEngine.ReceiveFrame` | rclweb/src/engine/mod.rs:904-952 | Session, control sequence check and dispatch in this order. |
| `ClientEngine.ClientEngine.ReceiveControl` | rclweb/src/engine/mod.rs:954-1119 | Every control kind changes what the abstract step changes, and nothing else. |
| `ClientEngine.ClientEngine.ReceiveData` | rclweb/src/engine/mod.rs:1121-1242 | A lease inside the declared length, counted on its buffer, or a failed session. |
| `ClientEngine.ClientEngine.SendSampleData` | rclweb/src/engine/mod.rs:668-716 | The sequence of a publication is consumed iff the frame is recorded and queued. |
| `ClientEngine.ClientEngine.SendOperationData` | rclweb/src/engine/mod.rs:758-846 | The channel-wide sequence is consumed even when the frame is not sent. |
| `ClientLaws.EventSound` | rclweb/src/engine/mod.rs:272-283 | One event of any kind keeps reference counts exact and leases inside live buffers. |
| `ClientLaws.NamingLeasedBufferBreaks` | rclweb/src/engine/mod.rs:854-860 | Inbound bytes under a host-chosen name keep the slab sound iff no lease is outstanding on that name. |
| `ClientLaws.LeaseIsStable` | rclweb/src/engine/mod.rs:1309-1361 | Over every run without its release, a lease stays outstanding with the same extent and bytes, its view does not change, and its buffer is never reported released. |
| `ClientLaws.LeaseLiesInside` | rclweb/src/engine/mod.rs:1131-1136 | A lease lies inside its buffer's declared length, and a fully retained frame is viewed exactly there. |
| `LeasePayload.DeclaredIs` | rclweb/src/protocol/frame.rs:140-160 | A whole frame and a header-and-extension prefix count as the whole frame, anything else as the octets there are. |
| `LeasePayload.LeaseShowsPayload` | rclweb/src/engine/mod.rs:1121-1242 | Of an accepted data frame retained whole, the event names its opcode, channel, number and operation, and the lease shows exactly the payload. |
| `LeasePayload.LeaseOfPrefix` | rclweb/src/engine/mod.rs:1131-1180 | Of a frame whose payload stayed with the host the lease says where the payload lies, and shows nothing. |
| `LeasePayload.ShortFrameCloses` | rclweb/src/engine/mod.rs:1131-1136 | A frame that claims more than was declared closes the engine and leases nothing. |
| `ClientLaws.RunSound` | rclweb/src/engine/mod.rs:252-270 | After every run the counts are exact, retained buffers and leases are in bijection, and ingested plus initially retained equals released plus retained, as multisets. |
| `ClientLaws.BuffersAreConserved` | rclweb/src/engine/mod.rs:231-270 | From a new engine: every ingested buffer is either reported released or still leased. |
| `ClientLaws.ReleasedExactlyOnce` | rclweb/src/engine/mod.rs:1319-1330 | With engine-named buffers each is reported released exactly once, when its lease is gone, and never before. |
| `LeaseWitness.LeaseIsReached` | rclweb/src/engine/mod.rs:1131-1136 | A run of a new engine, safe at every step, that ends with one lease outstanding on a buffer. |
| `LeaseWitness.NamingItBreaks` | rclweb/src/engine/mod.rs:854-860 | From there any inbound bytes that name that buffer leave wrong reference counts. |
| `ClientCommands.SampleGoesOut` | rclweb/src/engine/mod.rs:656-716 | A sample goes out iff it was encoded and framed and the channel is an open publication, with its reliability, next number and whole payload; otherwise the host is told and no number is used. |
| `ClientCommands.CallGoesOut` | rclweb/src/engine/mod.rs:758-846 | An operation frame goes out iff it was encoded and framed and may be sent there by a client, reliably unless feedback or status; the number is used up either way. |
| `ClientCommands.UnsubscribeExactly` | rclweb/src/engine/mod.rs:558-570 | Unsubscribing closes an open channel and forgets it; on any other channel it ends the session. |
| `ClientCommands.StartExactly` | rclweb/src/engine/mod.rs:286-314 | Starting sends the hello once; a second start does nothing; a hello that cannot be sent stops the engine. |
| `ClientCommands.LoginExactly` | rclweb/src/engine/mod.rs:316-321 | Credentials go out once, after the hello was answered; at any other time a login ends the session. |
| `ClientCommands.OpenExactly` | rclweb/src/engine/mod.rs:580-623 | An open asks for the channel under a fresh nonzero id; any other id ends the session. |
| `ClientCommands.RequestedQosIsGiven` | rclweb/src/engine/mod.rs:580-623 | What the gateway resolves a client's request to: the reliability asked for on a topic, reliable otherwise, volatile, keep last, with the depth asked for or five, normal priority. |
| `ClientHears.OpenIsAnswered` | rclweb/src/engine/mod.rs:973-1060 | Results 0 and 2 open a pending channel at the effective reliability, 1 and 3 fail it, anything else ends the session. |
| `ClientHears.ErrorIsScoped` | rclweb/src/session/transition.rs:425-454 | An error about an operation on an open channel is reported, one about a pending channel fails the open, any other ends the session. |
| `ClientHears.GraphFollows` | rclweb/src/engine/mod.rs:1076-1086 | A snapshot sets the graph generation; a delta advances it by one and must start from it, or the session ends. |
| `ClientHears.DisorderStops` | rclweb/src/engine/mod.rs:904-931 | A message out of sequence, one only a client may send, and a frame that does not parse end the session. |
| `ClientHears.HelloIsAnswered` | rclweb/src/engine/mod.rs:874-902 | The gateway's hello takes the client on; a bootstrap error, and anything else, stops it. |
| `ClientHears.LoginIsRefused` | rclweb/src/session/transition.rs:416-424 | A login answered with an error stops the client. |
| `Heartbeats.TimerIsExact` | rclweb/src/engine/mod.rs:1244-1259 | A timer sends one heartbeat exactly when the session is ready and the deadline reached, moves the deadline by 15 seconds then, and changes nothing else. |
| `Heartbeats.IntervalIsKept` | rclweb/src/engine/mod.rs:1244-1259 | Over every run of a ready engine heartbeats fall due at the first timer at or after the deadline and then every 15 seconds at the earliest, whatever else happens; each turn reports the next deadline. |
| `Heartbeats.ScheduleBegins` | rclweb/src/engine/mod.rs:963-972 | The deadline is set when the session becomes ready, 15 seconds after the last timer if there was one. |
| `LinkClient.NothingIsDropped` | rclweb/src/engine/mod.rs:1273-1295 | A turn queues at most one message per event, so the silent drop is never taken, and exactly the control numbers it consumed go out in order. |
| `WriteQueue.SampleWriteQueue.AdmitBestEffort` | rclwebd/src/budgets.rs:94-113 | A frame over the byte budget is refused and evicts nothing; any other is queued behind exactly the longest old tail that leaves room, and everything lost is a counted gap. |
| `WriteQueue.SurvivorsAreLongest` | rclwebd/src/budgets.rs:100-107 | What survives an eviction keeps both budgets with the new frame, and no longer tail of the queue does. |
| `WriteQueue.SampleWriteQueue.PushReliable` | rclwebd/src/budgets.rs:124-128 | The frame is queued last and nothing is evicted, within budget after a successful reservation; an empty queue takes any frame. |
| `WriteQueue.SampleWriteQueue.PopFront` | rclwebd/src/budgets.rs:130-147 | First in, first out, with the byte total and the account of offered frames kept. |
| `WriteQueue.SampleWriteQueue.CanFit` | rclwebd/src/budgets.rs:83-88 | Exactly when one more frame of that length keeps both budgets. |
| `GatewayConnection.ConnState.Receive` | rclwebd/src/connection.rs:218-237 | One inbound message changes the fields and queues replies as the abstract step does. |
| `GatewayConnection.ConnState.Open` | rclwebd/src/connection.rs:450-596 | Refusal, creation, announcement with the effective QoS, rollback and graph delta in this order. |
| `GatewayConnection.ConnState.ReceivePublish` | rclwebd/src/connection.rs:598-651 | Flags against the effective QoS, then the sequence, then the backend. |
| `GatewayConnection.ConnState.ReceiveOperation` | rclwebd/src/connection.rs:673-826 | One exact sequence per operation id, then the reply or error its kind calls for. |
| `GatewayConnection.ConnState.StampSample` | rclwebd/src/connection.rs:829-850 | A sequence is consumed iff a frame was stamped with it. |
| `GatewayConnection.Connection.AdmitSample` | rclwebd/src/connection.rs:853-883 | On an empty queue a sample is queued stamped, or lost because it alone exceeds the byte budget, numbered first only if best effort. |
| `GatewayConnection.Connection.FlushWriteQueue` | rclwebd/src/connection.rs:1073-1085 | Everything queued goes out in order and the queue is empty. |
| `GatewayConnection.Connection.Step` | rclwebd/src/connection.rs:995-1068 | One turn of the loop, queue empty before and after. |
| `GatewayLaws.StampReads` | rclwebd/src/connection.rs:834-849 | The receiver reads a stamped frame as a sample of its channel, with the channel's reliability, next number and priority, no extension, source time zero, and the length of the payload, which is untouched. |
| `GatewayLaws.SubscriptionsStayInOrder` | rclwebd/src/connection.rs:995-1085 | Every turn of every run keeps what was sent on each subscription in order. |
| `GatewayLaws.ReliableIsContiguous` | rclwebd/src/connection.rs:829-883 | On the wire every subscription there ever was, closed by now or not, carries exactly 0, 1, ..., n-1 if reliable and an increasing sequence otherwise, in any interleaving and with dropped samples; n is the next number of one that is still open. |
| `GatewayAccess.AccessIsEarned` | rclwebd/src/connection.rs:379-596 | Over every run, whatever arrives: nothing but bootstrap records and errors is sent before a login was accepted, which needs an accepted hello; a channel is open only if a request for it was allowed and created, and is as that request asked. |
| `GatewayAccess.OpenIsAnswered` | rclwebd/src/connection.rs:450-596 | A fresh open is answered with success, and for a topic the reliability it got, iff it was allowed and created; with failure and no channel otherwise. |
| `GatewayAccess.CloseIsTaken` | rclwebd/src/connection.rs:429-436 | A close of an open channel takes its port away and sends nothing. |
| `GatewayAccess.LoginIsAnswered` | rclwebd/src/connection.rs:390-421 | An accepted login is answered with readiness and then the graph, a refused one with an error and the end. |
| `GatewayAccess.HelloIsAnswered` | rclwebd/src/connection.rs:239-277 | A first message that is an acceptable hello is answered with a hello, anything else with a bootstrap error and the end. |
| `GatewayAccess.ErrorIsHeard` | rclwebd/src/connection.rs:442-444 | An error of the client closes the connection unless it is about an operation on an open channel or about a pending one. |
| `GatewayPublishes.SampleIsJudged` | rclwebd/src/connection.rs:598-651 | From any client a sample is admitted iff its flags fit the effective QoS and its number the channel; a stale best effort one is dropped, any other ends the session. |
| `GatewayPublishes.AdmissionsInOrder` | rclwebd/src/connection.rs:598-651 | Over every run, whatever arrives, what is admitted on a channel increases, and is exactly 0, 1, 2, ... on an open reliable one. |
| `GatewayCalls.CallIsAnswered` | rclwebd/src/connection.rs:673-740 | A call or goal the backend accepts is answered by one frame, of the answering kind, for the same operation on the same channel, with that operation's next number; or the connection closes. |
| `GatewayCalls.RefusalIsAnswered` | rclwebd/src/connection.rs:722-729 | One it refuses is answered by an error about its channel, or the connection closes. |
| `GatewayCalls.ForwardIsAnswered` | rclwebd/src/connection.rs:742-826 | A frame only handed on is answered by nothing if taken and by such an error if not. |
| `GatewayCalls.RequestIsForwarded` | rclwebd/src/connection.rs:886-943 | A request of the ROS side goes out on its server channel with its operation's next number, or the connection closes. |
| `GatewayCalls.OperationsAreNumbered` | rclwebd/src/connection.rs:653-658 | Over every run, whatever arrives, the operation frames sent on a channel for one operation are numbered 0, 1, 2, ... |
| `LinkItems.ClientMoveKeeps` | rclweb/src/engine/mod.rs:956-1119 | Any client move on a channel keeps the two ends and what is in flight between them consistent. |
| `LinkItems.GateMoveKeeps` | rclwebd/src/connection.rs:279-338 | So does any gateway move. |
| `LinkClient.CommandMoves` | rclweb/src/engine/mod.rs:285-577 | Every command is one of those moves for every channel, and sends exactly the control numbers it consumes. |
| `LinkClient.DeliveryMoves` | rclweb/src/engine/mod.rs:848-952 | So is taking any message off the wire, whatever the parser makes of it. |
| `LinkGateway.InboundStep` | rclwebd/src/connection.rs:218-338 | Every inbound message is one of the gateway's moves for every channel. |
| `LinkGateway.InboundCounts` | rclwebd/src/connection.rs:142-159 | Every inbound message accounts for its control numbers in both directions. |
| `Link.ControlStreamsAgree` | rclweb/src/engine/mod.rs:925-931 | In every reachable state, for each peer still running, the sender's counter is the receiver's plus the control frames in flight, and no sequence mismatch was ever reported. |
| `Link.PublishesAgree` | rclwebd/src/connection.rs:598-640 | Every sample a client sent is admitted at the number the gateway expects, and no reachable state has reported a reliability, retention or sequence problem, a gap or a stale sample. |
| `Link.PublishesAreContiguous` | rclwebd/src/connection.rs:623-640 | What the gateway has admitted on any publication there ever was is exactly 0, 1, 2, ..., and on an open one everything below the next expected number. |
| `Replay.OneEach` | rclweb/src/session/transition.rs:259-629 | A client's message and a gateway's, both acceptable now, are accepted in either order and end in the same session, but for data on the channel the client's message closes. |
| `LinkSessions.SessionsAgree` | rclweb/src/session/transition.rs:259-629 | Over every run and interleaving the gateway never refuses a message; the client refuses the next one iff it is data on a channel it has closed since; and both sessions are the same once everything in flight has arrived. |
| `LinkSessions.LateDataCloses` | rclweb/src/session/transition.rs:559-569 | Taking such late data off the wire, and nothing else, closes the client with a refused session. |
| `LateWitness.UnsubscribeEndsSession` | rclweb/src/engine/mod.rs:558-570 | A run from the start in which a client unsubscribes while a sample is in flight and loses its session. |
| `LinkSessions.ChannelErrorCloses` | rclweb/src/session/transition.rs:441-454 | In every reachable state a client that takes an error about a channel off the wire closes, whatever that channel. |
| `LinkHeartbeats.HeartbeatsNeverEnd` | rclwebd/src/connection.rs:437-441 | Over every run the heartbeats in flight are at most those that fell due, and while both peers run and each can be encoded they are exactly those. |
| `HeartbeatWitness.OneBeatGoesOn` | rclweb/src/engine/mod.rs:1068-1075 | For every number a run in which one heartbeat fell due and the client answered that many times. |
| `LeasedSamples.DeliveryLeases` | rclweb/src/engine/mod.rs:1121-1180 | Taking a message off the wire leases exactly the sample it is, under its own channel and number, or closes the engine. |
| `LinkSamples.SamplesAreLeasedInOrder` | rclwebd/src/connection.rs:829-883 | Over every run of both peers, on every subscription there ever was, the client has leased 0, 1, 2, ... if it is reliable and an increasing sequence otherwise; while it is open, leased and in flight are together all that was stamped. |
| `LinkPayloads.PayloadsArriveIntact` | rclwebd/src/connection.rs:829-883 | Over every run of both peers, what the client's leases show on a subscription is, octet for octet and in order, what the ROS side offered and the gateway sent, under the numbers 0, 1, 2, ... if it is reliable. |
| `Operations.OneOperationPerChannel` | rclwebd/src/connection.rs:660-671 | Of the attempts made on a channel since it was opened, every frame sent is admitted iff every attempt up to the last one sent was sent and all belong to one operation. |
| `CallStreams.EventMade` | rclweb/src/engine/mod.rs:768-843 | Whatever the event, a stream moves by one for each attempt on it and queues that attempt's frame with that number iff it was not refused; a channel that had attempts is never opened again. |
| `CallAdmission.InboundAdmitsCalls` | rclwebd/src/connection.rs:660-693 | Whatever the message, a call is admitted at the number its operation is expected at and remembered, or the session ends; it ends as out of sequence only for a call at another number. |
| `LinkOperations.CallsAreConserved` | rclwebd/src/connection.rs:660-671 | In every reachable state the calls admitted on a channel and those in flight are exactly the frames of the attempts made there. |
| `LinkOperations.OperationsFailExactly` | rclweb/src/engine/mod.rs:768-776 | Over every run, once all calls are off the wire and the gateway did not stop for another reason, it failed the session as out of sequence iff some channel's attempts are not all sent, up to the last one sent, and of one operation. |
| `CallWitness.TwoOperationsFail` | rclwebd/src/connection.rs:664-667 | A run from the start in which two operations on one channel fail the session. |
| `CallWitness.RefusedCallFails` | rclweb/src/engine/mod.rs:836-842 | A run from the start in which one operation fails the session after a call of it was refused locally. |
| `Operations.HandlerFollowsTheRule` | rclwebd/src/connection.rs:673-693 | The handler fails a frame as out of sequence exactly when the per-operation rule does not admit it. |
| `AuditChain.RewindUndoesNextLine` | rclwebd/src/audit.rs:537-578 | Rewinding after sealing restores the chain exactly, for every event, reserved keys in it included. |
| `AuditChain.SealedVerifies` | rclwebd/src/audit.rs:497-563 | A sealed line verifies with the next number and the previous digest. |
| `AuditChain.VerifyFile` | rclwebd/src/audit.rs:412-453 | Accepts exactly the non-empty chained files; a rejected line is the first that does not follow on, with its reason. |
| `AuditChain.TamperEvidence` | rclwebd/src/audit.rs:412-453 | Two verifying files with as many records and the same last digest are identical, or records at one position collide under the hash. |
| `AuditChain.HexInjective` | rclwebd/src/audit.rs:669-677 | Distinct digests have distinct hexadecimal forms. |
| `AuditSink.Sink.RotateLive` | rclwebd/src/audit.rs:589-612 | Every retained copy moves up one place, the live file becomes the first, the one at the limit goes, gaps and copies beyond the limit included. |
| `AuditSink.Sink.Emit` | rclwebd/src/audit.rs:318-353 | A record is appended and the chain moves, or neither; counters and integrity accordingly. |
| `AuditSink.Open` | rclwebd/src/audit.rs:214-289 | Continues a verifying file, starts afresh on an empty one, refuses or sets aside a corrupt one. |
| `AuditSink.ExportChain` | rclwebd/src/audit.rs:457-495 | Succeeds iff the stack is non-empty, verifies and stitches; the final re-verification and record count cannot fail. |
| `AuditSink.StitchedIsOneFile` | rclwebd/src/audit.rs:489-493 | Stitched files concatenated are one verifying file with the last digest of the last. |
| `AuditRuns.EmitKeepsInv` | rclwebd/src/audit.rs:318-353 | An event keeps the log one genuine chain, written or not, rotation included. |
| `AuditRuns.RestartKeepsInv` | rclwebd/src/audit.rs:214-289 | A restart always succeeds on the sink's own files, resumes exactly where it was if the live file is not empty, and keeps the chain iff that or nothing was ever rotated. |
| `AuditRuns.OpenExactly` | rclwebd/src/audit.rs:214-289 | Over any directory: opening fails iff the policy is out of range or the live file does not verify and it is to fail then; otherwise copies stay, the live file goes on, and a corrupt one is set aside with a record of that as the new file's first. |
| `AuditRuns.BrokenStitch` | rclwebd/src/audit.rs:466-474 | After the other kind of restart the next record makes export fail, unless the last digest is all zeros. |
| `AuditRuns.EmptyLiveIsReached` | rclwebd/src/audit.rs:318-353 | A record and then a failed write leave an empty live file behind a closed one, where a restart breaks the chain. |
| `AuditRuns.BrokenStitchHappens` | rclwebd/src/audit.rs:466-474 | Under a hash without all-zero digests, that run, a restart and one more record make export fail. |
| `AuditRuns.RunsKeepTheChain` | rclwebd/src/audit.rs:318-353 | After any sequence of events, failed writes, rotations and safe restarts the whole log is one chain with contiguous numbers, of exactly the records written, and each rotation is the right closed file. |
| `AuditRuns.HistoryStitches` | rclwebd/src/audit.rs:412-453 | Every file ever closed verifies and continues the one before it. |
| `AuditRuns.ExportOfRun` | rclwebd/src/audit.rs:457-495 | Export succeeds iff the live file is not empty, and holds the retained tail of the history, all of it while nothing was dropped. |
| `AuditCuts.FilesEndWhenFull` | rclwebd/src/audit.rs:332-340 | After any run every closed file reached the size limit with its last line and not before, and the live file has not reached it before its last. |
| `AuditCuts.CutIsUnique` | rclwebd/src/audit.rs:332-340 | A log can be cut into such files in one way only. |
| `AuditCuts.FilesAreTheCut` | rclwebd/src/audit.rs:332-340 | So the files are the cut of the log, whatever the run. |
| `AuditCuts.LogIsTheEvents` | rclwebd/src/audit.rs:340-349 | The records of the log are the written events, in order. |
| `Acyclic.IsAcyclic` | scripts/generated-types.ts:280-309 | True iff the edge list has no directed cycle, loops included. |
| `Acyclic.Search.Visit` | scripts/generated-types.ts:294-304 | Finishes a name and all it reaches with successors before it, or there is a cycle; terminates on every graph. |
| `TopoSort.EveryClassOnce` | scripts/rosidl-dts.ts:796-817 | On any input, cyclic or not, one class per distinct name, the last one given for it. |
| `TopoSort.DependenciesComeFirst` | scripts/rosidl-dts.ts:801-813 | Every class comes after all its known dependencies iff there is no dependency cycle. |
| `TopoSort.OrderOfInputIsIrrelevant` | scripts/rosidl-dts.ts:796-817 | The order of the output depends on the names and on who depends on whom, not on the order classes or their dependencies are given in. |
| `TopoSort.NameOrder` | scripts/rosidl-dts.ts:806-815 | Classes come in name order but for what a dependency pulls forward: ahead of a class there are only classes found from names not above it. |
| `TopoSort.IndependentAscend` | scripts/rosidl-dts.ts:806-815 | A class no known class depends on is not above anything listed after it. |
| `TopoSort.BelowIsLexicographic` | scripts/rosidl-dts.ts:814 | The order of names is lexicographic. |
| `TopoSort.TopoSortClasses` | scripts/rosidl-dts.ts:796-817 | The search with its two sets and its output list computes that order. |

## Left out

- PointCloud2.EncodePointCloud2Le: asks that no string or slice is longer than `isize::MAX`, which Rust guarantees.
- HostValueCodec.EncodeGeneratedHostValue: takes a message of the named type; the checks that a JavaScript object has the fields of that type are not modelled.
- Session.FramesAdvance: correlation ids, which change no transition, are not part of this model; ids and kinds of control messages are already decoded.
- GatewayLaws.ReliableIsContiguous: stated for counters below 2^64 and channel ids of 32 bits, the widths of the header fields.
- LinkSamples.SamplesAreLeasedInOrder: the same, and a parser that reads a sample's octets as its header says or refuses them.
- LinkPayloads.PayloadsArriveIntact: the same, for a host that hands the octets of a frame on whole.
- LinkSessions.SessionsAgree: the same widths and the same parser.
- LinkSessions.LateDataCloses: the same.
- LinkSessions.ChannelErrorCloses: the same.
- ClientLaws.LeaseIsStable: stated for runs below the saturation of the 32-bit id counters and buffer names that are zero or not retained.
- Link.PublishesAgree: a client turn delivers at most one batch of 64 events, which is all `poll` looks at; events beyond it are discarded by the engine.
- AuditRuns.RunsKeepTheChain: a write appends a whole line or nothing, renames and removals succeed, and the retention setting does not change between restarts.
- Frame, extension and CBOR octets: messages between the peers are decoded records, except subscription samples, whose headers are octets.
- The payload length and schema identity of control messages, graph contents, telemetry counters, and the text of error messages.
- 64-bit control, heartbeat and publication counters are unbounded.
- Sockets and failed sends: a failed send ends the connection, and what was sent before it is a prefix.
- The client's WebTransport sender, whose two writes are not awaited.
- The stderr-only audit mode, JSON text and SHA-256 themselves, file permissions and timestamps.
- `decodeGeneratedCdr`, the host-meta writers of PointCloud2, `checked_span_length` and `checked_alloc_length`, the NaN canonicalisation of JavaScript floats, and the text decoder's treatment of a byte order mark.
- The order in which a sweep reports buffers, which is a hash map's.
- ACL matching, authentication, limit negotiation, URL selection and support rows: each is one answer of the world to a step.
- Name order is by Unicode scalar; JavaScript sorts by UTF-16 unit, which differs only beyond the Basic Multilingual Plane.
