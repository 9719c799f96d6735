# charoite signalling and stream repackaging, modelled in Dafny

charoite carries live video from edge devices to browsers over WebRTC.
The edge machine (a drone camera, or a monitor camera behind a deport) is the
publisher. It reads H.264 from an RTMP or RTSP source and repackages it as an
Annex B byte stream (ITU-T H.264, Annex B.1) for a local WebRTC track. It
signals its offer and ICE candidates over MQTT. The cloud hub is the other
side. It answers each edge publisher, records the publisher's track in a
session map keyed by machine id and track source, and gives each browser
subscriber a peer that sends that track. Browsers signal over a WebSocket or
HTTP POST. All signalling messages are protocol buffers of one small schema,
with the session description inside them as JSON.

This project models the sequential logic at the core of that system and
proves what it promises:

- the RTMP handler (`Rtmp`) and the RTSP packet loop (`Rtsp`) that produce
  Annex B samples. The RTMP handler also keeps the SPS and PPS caches and
  walks the AVCDecoderConfigurationRecord (ISO/IEC 14496-15, section
  5.2.4.1);
- the signalling schema (`SignalPb`), its proto3 wire encoding
  (`ProtoWire`), the encode/decode helpers (`SignalEncoding`), and the
  older record schemas of the edge (`EdgeSignal`) and of the older broadcast
  service (`BroadcastRtc`);
- the session keys and MQTT topics (`Topics`), the hub's publisher side
  (`HubPublisher`), the hub's subscriber side (`HubSubscriber`), and the
  older broadcast service's registry and routing (`Broadcast`);
- the peer state machines: the hub's shared WebRTC session (`HubWebRtc`,
  `PeerClose`, `Attempts`) and the edge publisher's subscriber counter,
  burst retries and candidate buffer (`EdgePublisher`);
- the two browser test clients (`E2eClients`);
- the small helpers: the public-key line (`PubKey`), the machine id and
  publisher constructors (`LivestreamInit`), and the error-code table
  (`HttpxErrors`).

Code that changes state step by step is modelled as methods with
`modifies` clauses and loops:

- the RTMP handler's caches;
- the publisher fields;
- the candidate buffers and their flush loops;
- the per-track channels;
- the JavaScript peer connections.

Each such method is tied by its `ensures` to a reference function, and
lemmas state the properties of that function. Pure code (the codecs, the
enum tables, the getters, the key and topic strings) is modelled as
functions with lemmas.

The library calls (pion, MQTT, WebSocket, `fetch`) become parameters. They
are the values a call returns and the set of steps that fail. A blocking
channel receive is the boundary between two steps, and a Go panic is an
explicit outcome.

The source files come from different revisions and use three different
shapes of the signalling schema. Each file is modelled against its own
text:

- `internal/livestream/signal.go` nests `Sdp{Type, Description}` next to
  `Id` and `TrackSource`;
- `internal/broadcast/webrtc.go` and `broadcast.go` use a flat record;
- `internal/pb/signal` has `meta` plus an `sdp` string.

Some behaviour of the sources is kept exactly as written:

- the RTMP sequence header appends the PPS entries to the SPS cache and
  leaves the PPS cache alone;
- the hub's candidate buffer is never emptied after its flush;
- the edge's subscriber counter wraps at 2^32.

## Model

| member | source | states |
|---|---|---|
| Attempts.Completed | internal/broadcast/webrtc/webrtc.go:207-212 | a loop that stops at the first failing item completes a prefix free of failures, and stops short exactly at a failing position |
| Attempts.CompletedIs | internal/broadcast/webrtc/webrtc.go:207-212 | any index with only successes before it that ends at the end or at a failure is the completed count |
| Attempts.CompletedAll | internal/broadcast/webrtc/webrtc.go:207-212 | with no failure every item completes |
| PeerClose.FirstFailure | internal/broadcast/webrtc/webrtc.go:249-256 | the first sender position whose Stop or RemoveTrack fails, with no failure before it; None means no position fails |
| PeerClose.ClosePeerConnection | internal/broadcast/webrtc/webrtc.go:245-258 | nil succeeds untouched; before the first failure every sender is stopped and removed; a failed Stop keeps the rest, a failed RemoveTrack keeps the stopped sender; without failure all senders are gone, the connection is closed and Close's error is the result; descriptions and candidates are never touched |
| PeerClose.FirstFailureIs | internal/broadcast/webrtc/webrtc.go:249-256 | the loop index where the first failure happens is the first failure |
| PeerClose.FirstFailureNone | internal/broadcast/webrtc/webrtc.go:249-256 | a loop that ran through every sender had no failure |
| PeerClose.NoSendersOnlyClose | internal/broadcast/webrtc/webrtc.go:249-257 | with no senders only Close can fail |
| HubWebRtc.Signal | internal/broadcast/webrtc/webrtc.go:141-215 | signalPeerConnection: blocks on an empty channel, panics on a nil offer, returns CouldNotSetRemote, CouldNotCreateAnswer or CouldNotSetLocal at the first failing library call with nothing emitted or sent, sets the remote description first, has a local description only after the answer was created; once the answer is emitted the pending candidates are sent in order up to the first send error, which is returned as CouldNotSendCandidate; success holds exactly when every step and every send succeeds |
| HubWebRtc.Create | internal/broadcast/webrtc/webrtc.go:81-139 | CreatePublisher/CreateSubscriber: a NewPeerConnection failure or an AddTrack failure returns its error with the channel untouched and nothing sent; otherwise the result is signalling from the fresh connection |
| HubWebRtc.CreateAnswers | internal/broadcast/webrtc/webrtc.go:183-201 | with one offer and nothing pending, a successful creation leaves exactly the answer on the channel, the offer as remote and the answer as local description |
| HubWebRtc.NoopSendCandidate | internal/broadcast/webrtc/webrtc.go:293-296 | the Noop sender never fails |
| HubWebRtc.NoopRecvCandidate | internal/broadcast/webrtc/webrtc.go:298-303 | the Noop receiver's closed channel yields nothing |
| HubWebRtc.Accepted | internal/broadcast/webrtc/webrtc.go:229-240 | the remote candidates signalCandidate adds are at most those received |
| HubWebRtc.AcceptedSnoc | internal/broadcast/webrtc/webrtc.go:232-239 | one more received candidate adds itself at the end, unless its AddICECandidate fails |
| HubWebRtc.AcceptedFromReceived | internal/broadcast/webrtc/webrtc.go:232-239 | every added candidate is one that was received |
| HubWebRtc.AcceptedAll | internal/broadcast/webrtc/webrtc.go:232-239 | with no failure every received candidate is added, in order |
| HubWebRtc.SignalCandidate | internal/broadcast/webrtc/webrtc.go:229-240 | the loop appends exactly the accepted candidates to the connection and changes nothing else |
| HubWebRtc.NoopRecvAddsNothing | internal/broadcast/webrtc/webrtc.go:298-303 | a subscriber with the Noop receiver adds no remote candidate |
| HubWebRtc.NoopSendFlushesAll | internal/broadcast/webrtc/webrtc.go:207-212 | with the Noop sender a signalling that reaches the flush succeeds and delivers every pending candidate |
| HubWebRtc.WebRtc.constructor | internal/broadcast/webrtc/webrtc.go:53-71 | New: an empty signal channel of capacity one, no pending or sent candidate |
| HubWebRtc.WebRtc.PutSignal | internal/broadcast/webrtc/webrtc.go:201 | a send on the channel appends the description, within the capacity of one |
| HubWebRtc.WebRtc.TakeSignal | internal/broadcast/webrtc/webrtc.go:142 | a receive takes the oldest description off the channel |
| HubWebRtc.WebRtc.OnIceCandidate | internal/broadcast/webrtc/webrtc.go:145-161 | nil is ignored; a candidate is buffered while there is no remote description and sent otherwise; a send error only loses that candidate |
| HubWebRtc.WebRtc.FlushPending | internal/broadcast/webrtc/webrtc.go:204-214 | the pending candidates are sent in order up to the first failure, which is reported; the buffer itself is not emptied |
| HubWebRtc.WebRtc.SignalPeerConnection | internal/broadcast/webrtc/webrtc.go:141-215 | the method's outcome, connection, channel and sent candidates are exactly those of the signalling function |
| HubWebRtc.WebRtc.CreatePeer | internal/broadcast/webrtc/webrtc.go:81-139 | the method's outcome, connection, channel and sent candidates are exactly those of the creation function |
| HubWebRtc.WebRtc.OnIceConnectionStateChange | internal/broadcast/webrtc/webrtc.go:165-181 | Connected calls hookStream then registerSession; Failed closes the connection and panics exactly when closing fails; every other state does nothing |
| HubWebRtc.SignalFresh | internal/broadcast/publisher/publisher.go:174-190 | a fresh signaller given one offer returns the creation's outcome and connection, and on success hands back exactly the answer |
| HttpxErrors.Iota | internal/broadcast/httpx/errors.go:6-15 | the k-th constant of the block is k plus 10000 |
| HttpxErrors.Message | internal/broadcast/httpx/errors.go:17-24 | looking a code up in Errors finds a message exactly for the five declared codes, the one the table holds |
| HttpxErrors.CodesConsecutive | internal/broadcast/httpx/errors.go:6-15 | the codes run from 10000 to 10004, each one more than the one before |
| HttpxErrors.CodesDistinct | internal/broadcast/httpx/errors.go:6-15 | no two codes share a value |
| HttpxErrors.CodesAreKeys | internal/broadcast/httpx/errors.go:17-24 | the table's keys are exactly the declared codes |
| HttpxErrors.MetadataNotMatchedMessage | internal/broadcast/httpx/errors.go:21 | ErrMetadataNotMatched reads "Metadata not matched with any existing session" |
| PubKey.Split | internal/pkg/pubkey/ed25519.go:22 | bytes.Split at single spaces gives one field more than there are spaces, none holding a space |
| PubKey.JoinSplit | internal/pkg/pubkey/ed25519.go:22 | splitting loses nothing: the fields joined with spaces give the content back |
| PubKey.SplitJoin | internal/pkg/pubkey/ed25519.go:22 | fields without spaces joined with spaces split back into exactly those fields |
| PubKey.SplitField | internal/pkg/pubkey/ed25519.go:22 | a space-free prefix extends the first field of what follows |
| PubKey.Ed25519PubKey | internal/pkg/pubkey/ed25519.go:12-27 | a failed user lookup or read panics with its error; the key is returned exactly when the content has two spaces, and it is the space-free middle field; any other count panics with "invalid id_ed25519 pub key" |
| PubKey.WellFormedLine | internal/pkg/pubkey/ed25519.go:18-26 | a "type key comment" line yields exactly its key |
| PubKey.DoubleSpaceGivesEmptyKey | internal/pkg/pubkey/ed25519.go:22-26 | two adjacent spaces give three fields and an empty key rather than an error |
| PubKey.SpacedCommentPanics | internal/pkg/pubkey/ed25519.go:23-25 | a comment holding a space makes four fields and a panic |
| LivestreamInit.TrimNewline | internal/livestream/livestream.go:21 | bytes.TrimSuffix removes one trailing newline when there is one and changes nothing otherwise |
| LivestreamInit.TrimNewlineOnce | internal/livestream/livestream.go:21 | of two trailing newlines one is kept |
| LivestreamInit.TrimNewlineIdempotence | internal/livestream/livestream.go:21 | trimming twice gives what trimming once gives exactly when the text does not end in two newlines |
| LivestreamInit.HostPort | internal/livestream/livestream.go:43-45 | host, a colon, then the decimal port |
| LivestreamInit.HostPortSplits | internal/livestream/livestream.go:43-45 | the text after the host and the colon reads back as the port |
| LivestreamInit.Machine.Init | internal/livestream/livestream.go:16-22 | a read error or a nil content panics and leaves the id unset; otherwise the id is the content without one trailing newline |
| LivestreamInit.Machine.NewDronePublisher | internal/livestream/livestream.go:31-49 | a DRONE publisher with the machine id, an RTP track, the RTP listener and host:port as its source |
| LivestreamInit.Machine.NewDeportPublisher | internal/livestream/livestream.go:51-81 | a MONITOR publisher with the machine id; RTP track, host:port and the RTP listener exactly when the protocol is "rtp", a sample track, the RTSP address and consumeRTSP otherwise |
| LivestreamInit.BothPublishers | internal/livestream/livestream.go:31-81 | two publishers made after one init share the machine id and differ in their track source |
| LivestreamInit.Machine.constructor | internal/livestream/livestream.go:13 | the package-level id starts as the empty string |
| LivestreamInit.Publisher.constructor | internal/livestream/livestream.go:32-48 | a publisher holds exactly the meta, track kind, stream source and consumer it is given |
| ByteStrings.Decimal | internal/livestream/livestream.go:44 | strconv.Itoa: at least one byte, all digits for a non-negative number, a leading minus otherwise; its partners are the DecimalInjective and AtoiDecimal rows |
| ByteStrings.DigitsValue | internal/livestream/livestream.go:44 | the decimal digits of a number denote that number |
| ByteStrings.DecimalInjective | internal/livestream/publisher.go:304 | equal decimal renderings come from equal numbers |
| ByteStrings.Atoi | internal/livestream/publisher.go:309 | strconv.Atoi on a 64-bit target: any number it returns fits an int64 |
| ByteStrings.AtoiDecimal | internal/livestream/publisher.go:309 | strconv.Atoi reads back every int64 strconv.Itoa writes |
| ByteStrings.AtoiRejectsNonDigit | internal/livestream/publisher.go:309-313 | a text holding a byte that is neither a digit nor a sign is an error |
| ByteStrings.IncUint32 | internal/livestream/publisher.go:322 | atomic.AddUint32 by one: the successor below 2^32, and 0 past 0xFFFFFFFF |
| ByteStrings.WrapInt32 | internal/livestream/signal.go:68 | the conversion to int32 gives an int32 congruent to its argument modulo 2^32, and the argument itself when it fits |
| ByteStrings.WrapInt64 | internal/livestream/rtsp.go:68 | int64 arithmetic gives an int64 congruent to the exact result modulo 2^64, and the result itself when it fits |
| ByteStrings.WrapInt64Congruent | internal/livestream/rtsp.go:68 | arguments equal modulo 2^64 wrap to the same int64 |
| ByteStrings.BigEndian16 | internal/livestream/rtmp.go:139 | binary.BigEndian.Uint16 gives a value below 2^16; its partner is the BigEndian16OfBytes row |
| ByteStrings.BigEndian16OfBytes | internal/livestream/rtmp.go:139 | the two big-endian bytes of a 16-bit number read back as it |
| ByteStrings.BigEndian32 | internal/livestream/rtmp.go:113 | binary.BigEndian.Uint32 gives a value below 2^32; its partner is the BigEndian32OfBytes row |
| ByteStrings.BigEndian32OfBytes | internal/livestream/rtmp.go:113 | the four big-endian bytes of a 32-bit number read back as it |
| Topics.Topic | internal/broadcast/publisher/publisher.go:147 | the answer topic is the prefix, a slash, the id, a slash and the decimal track source, each part where it belongs |
| Topics.SessionKey | internal/broadcast/publisher/publisher.go:198 | the session key is the id followed by the decimal track source |
| Topics.DecimalHasNoSlash | internal/broadcast/publisher/publisher.go:147 | the decimal of a track source never holds a '/' |
| Topics.TopicInjective | internal/broadcast/publisher/publisher.go:147 | under one prefix a topic names exactly one (id, track source) pair, for every track source, ids with '/' included |
| Topics.SessionKeyInjective | internal/broadcast/publisher/publisher.go:198 | with one-digit track sources the session key determines the pair |
| Topics.SessionKeyCollision | internal/broadcast/publisher/publisher.go:198 | beyond one digit keys collide: ("a", 10) and ("a1", 0) share "a10" |
| SignalPb.NameOf | internal/pb/signal/signal.pb.go:31-43 | exactly the three declared values have a name, and the name maps back to the value |
| SignalPb.ValueOf | internal/pb/signal/signal.pb.go:38-42 | exactly the three names have a value, and the value maps back to the name |
| SignalPb.TrackSourceTablesInverse | internal/pb/signal/signal.pb.go:31-43 | TrackSource_name and TrackSource_value are mutually inverse over exactly three entries |
| SignalPb.GetMetaOfSessionDescription | internal/pb/signal/signal.pb.go:113-118 | GetMeta of nil is nil, otherwise the field |
| SignalPb.GetSdp | internal/pb/signal/signal.pb.go:120-125 | GetSdp of nil is "", otherwise the field |
| SignalPb.GetMetaOfIceCandidate | internal/pb/signal/signal.pb.go:168-173 | GetMeta of nil is nil, otherwise the field |
| SignalPb.GetCandidate | internal/pb/signal/signal.pb.go:175-180 | GetCandidate of nil is "", otherwise the field |
| SignalPb.GetId | internal/pb/signal/signal.pb.go:223-228 | GetId of nil is "", otherwise the field |
| SignalPb.GetTrackSource | internal/pb/signal/signal.pb.go:230-235 | GetTrackSource of nil is UNKNOWN, otherwise the field |
| SignalPb.GettersChainOnNil | internal/pb/signal/signal.pb.go:113-235 | getters chain through nil without failing |
| SignalPb.MetaJson | internal/pb/signal/signal.pb.go:187-188 | Meta as JSON holds `id` and `track_source`, each exactly when it is not its zero value |
| SignalPb.SessionDescriptionJson | internal/pb/signal/signal.pb.go:77-78 | SessionDescription as JSON holds `meta` exactly when it is non-nil and `sdp` exactly when it is non-empty |
| SignalPb.IceCandidateJson | internal/pb/signal/signal.pb.go:132-133 | ICECandidate as JSON holds `meta` exactly when it is non-nil and `candidate` exactly when it is non-empty |
| SignalPb.MetaOfJson | internal/pb/signal/signal.pb.go:187-188 | reading a Meta from JSON fails exactly when `id` is neither a string nor null, or `track_source` is neither null nor an integer literal within int32; a missing or null key leaves its zero value |
| SignalPb.MetaMemberOfJson | internal/pb/signal/signal.pb.go:77 | a missing or null `meta` member is a nil Meta, and one that is not an object is an error |
| SignalPb.SessionDescriptionOfJson | internal/pb/signal/signal.pb.go:77-78 | a SessionDescription read from JSON has a meta exactly when the object has a non-null `meta` member, and an `sdp` that is neither a string nor null is an error |
| SignalPb.IceCandidateOfJson | internal/pb/signal/signal.pb.go:132-133 | an ICECandidate read from JSON has a meta exactly when the object has a non-null `meta` member, and a `candidate` that is neither a string nor null is an error |
| SignalPb.MetaJsonRoundTrip | internal/pb/signal/signal.pb.go:187-188 | the JSON of a Meta reads back as that Meta |
| SignalPb.SessionDescriptionJsonRoundTrip | internal/pb/signal/signal.pb.go:77-78 | the JSON of a SessionDescription reads back as that description, a nil meta included |
| SignalPb.IceCandidateJsonRoundTrip | internal/pb/signal/signal.pb.go:132-133 | the JSON of an ICECandidate reads back as that candidate, a nil meta included |
| SignalPb.NullMembersAreUnset | internal/pb/signal/signal.pb.go:77-78 | null members leave a fresh SessionDescription, ICECandidate and Meta at their zero values |
| SignalPb.TrackSourceMustBeInteger | internal/pb/signal/signal.pb.go:188 | a track_source written with a fraction or exponent, or given as a string, boolean or array, fails the read |
| SignalPb.EnumToUint64 | internal/pb/signal/signal.pb.go:188 | an enum goes on the wire as the 64-bit sign extension of its int32 |
| SignalPb.EnumWireRoundTrip | internal/pb/signal/signal.pb.go:188 | every int32 track source, negative ones included, survives the wire |
| SignalPb.MetaRoundTrip | internal/pb/signal/signal.pb.go:182-189 | decoding the encoding of a Meta gives it back |
| SignalPb.SessionDescriptionRoundTrip | internal/pb/signal/signal.pb.go:72-79 | decoding the encoding of a SessionDescription gives it back, nil meta included |
| SignalPb.IceCandidateRoundTrip | internal/pb/signal/signal.pb.go:127-134 | decoding the encoding of an ICECandidate gives it back, nil meta included |
| SignalPb.FoldMetaOfFields | internal/pb/signal/signal.pb.go:187-188 | applying a Meta's own records to the empty Meta rebuilds it |
| SignalPb.FoldSessionDescriptionOfFields | internal/pb/signal/signal.pb.go:77-78 | applying a description's own records to the empty message rebuilds it |
| SignalPb.FoldIceCandidateOfFields | internal/pb/signal/signal.pb.go:132-133 | applying a candidate's own records to the empty message rebuilds it |
| SignalPb.EmptyPayloadDecodes | internal/pb/signal/signal.pb.go:72-134 | the empty payload is a valid message with every field at its zero value |
| SignalPb.GroupFieldIgnored | internal/pb/signal/signal.pb.go:72-79 | an unknown group record leaves a SessionDescription as it is, wherever it stands among the records |
| SignalPb.EmptyGroupDecodes | internal/pb/signal/signal.pb.go:72-134 | the payload holding only an empty group for field 3 decodes to the empty SessionDescription and the empty ICECandidate |
| SignalPb.MarshalNonEmpty | internal/pb/signal/signal.pb.go:77-78 | a message with a non-empty field never encodes to the empty payload |
| SignalPb.MarshalMetaShort | internal/pb/signal/signal.pb.go:182-189 | the encoding of a Meta fits a length prefix |
| SignalPb.MarshalMeta | internal/pb/signal/signal.pb.go:182-189 | reference encoder of a Meta: the id record (field 1) and the track_source varint (field 2), each only when non-zero; its partners are the MetaRoundTrip and MarshalMetaShort rows |
| SignalPb.MarshalSessionDescription | internal/pb/signal/signal.pb.go:72-79 | reference encoder of a SessionDescription: the nested meta (field 1) when non-nil and the sdp (field 2) when non-empty; its partner is the SessionDescriptionRoundTrip row |
| SignalPb.MarshalIceCandidate | internal/pb/signal/signal.pb.go:127-134 | reference encoder of an ICECandidate: the nested meta (field 1) when non-nil and the candidate (field 2) when non-empty; its partner is the IceCandidateRoundTrip row |
| SignalPb.UnmarshalMetaInto | internal/pb/signal/signal.pb.go:182-189 | reference decoder of a Meta, folding the records over a given Meta as a repeated nested record does; its partner is the MetaRoundTrip row |
| SignalPb.UnmarshalSessionDescription | internal/pb/signal/signal.pb.go:72-79 | reference decoder of a SessionDescription; its partners are the SessionDescriptionRoundTrip, EmptyPayloadDecodes, GroupFieldIgnored and EmptyGroupDecodes rows |
| SignalPb.UnmarshalIceCandidate | internal/pb/signal/signal.pb.go:127-134 | reference decoder of an ICECandidate; its partners are the IceCandidateRoundTrip, EmptyPayloadDecodes and EmptyGroupDecodes rows |
| SignalPb.EnumFromUint64 | internal/pb/signal/signal.pb.go:188 | a decoded enum varint is cut to int32; its partner is the EnumWireRoundTrip row |
| ProtoWire.EncodeVarint | internal/pb/signal/signal.pb.go:188 | a varint takes at least one byte |
| ProtoWire.VarintAt | internal/pb/signal/signal.pb.go:188 | a varint read from a position within a budget starts inside the input, uses at most that many bytes and no more than remain, and its value fits the bits they carry |
| ProtoWire.DecodeVarint | internal/pb/signal/signal.pb.go:188 | a decoded varint uses at least one and at most the available bytes and is below 2^64 |
| ProtoWire.VarintAtEncode | internal/pb/signal/signal.pb.go:188 | an encoded varint reads back from wherever it starts, within any budget large enough for it |
| ProtoWire.VarintRoundTrip | internal/pb/signal/signal.pb.go:188 | decoding an encoded 64-bit varint gives the number and its length back, whatever follows |
| ProtoWire.DecodePlainValue | internal/pb/signal/signal.pb.go:77-78 | a varint, fixed or length-delimited value never reads past the input and keeps the tag's field number and wire type; end tags and wire types 6 and 7 are rejected |
| ProtoWire.DecodeValue | internal/pb/signal/signal.pb.go:75-78 | a record's value never reads past the input and keeps the tag's field number and wire type, a group included, whose bytes through its end tag make up the record |
| ProtoWire.ConsumeTag | internal/pb/signal/signal.pb.go:75 | a tag inside a group yields a positive int32 field number, a wire type below 8 and a length within the input |
| ProtoWire.GroupBody | internal/pb/signal/signal.pb.go:75 | the records of a group, nested groups included, end at the end tag of the group's own field and never run past the input |
| ProtoWire.DecodeField | internal/pb/signal/signal.pb.go:75-78 | a decoded record, an unknown group included, uses at least one byte and no more than the input |
| ProtoWire.DecodeVarintOfEncode | internal/pb/signal/signal.pb.go:188 | a varint record's value reads back |
| ProtoWire.DecodeLenOfEncode | internal/pb/signal/signal.pb.go:77-78 | a length-delimited record's value reads back, whatever follows |
| ProtoWire.DecodeValueOfEncode | internal/pb/signal/signal.pb.go:77-78 | every well-formed record value reads back with its length |
| ProtoWire.VarintAtPrefix | internal/pb/signal/signal.pb.go:188 | what follows a varint does not change how it reads |
| ProtoWire.DecodePlainValuePrefix | internal/pb/signal/signal.pb.go:77-78 | what follows a non-group value does not change how it reads |
| ProtoWire.DecodeValuePrefix | internal/pb/signal/signal.pb.go:75-78 | what follows any value, a group included, does not change how it reads |
| ProtoWire.ConsumeTagPrefix | internal/pb/signal/signal.pb.go:75 | what follows a tag does not change how it reads |
| ProtoWire.GroupBodyStep | internal/pb/signal/signal.pb.go:75 | a group's length is one record's length plus the length of the rest of the group |
| ProtoWire.GroupBodyPrefix | internal/pb/signal/signal.pb.go:75 | where a group ends does not depend on what follows it |
| ProtoWire.DecodeGroupOfEncode | internal/pb/signal/signal.pb.go:75 | a well-formed group record reads back, whatever follows |
| ProtoWire.DecodeFieldStep | internal/pb/signal/signal.pb.go:75-78 | a record is its tag followed by the value that tag announces |
| ProtoWire.DecodeTaggedValue | internal/pb/signal/signal.pb.go:75-78 | a tag followed by a value that reads back reads back as one record |
| ProtoWire.EmptyGroupParses | internal/pb/signal/signal.pb.go:75 | the payload 1B 1C is one record: field 3 as an empty group |
| ProtoWire.BadGroupsRejected | internal/pb/signal/signal.pb.go:75 | a stray end tag, a group closed by another field's end tag and an unclosed group are malformed |
| ProtoWire.TagSplits | internal/pb/signal/signal.pb.go:77-78 | a tag built from a field number and a wire type below 8 fits 64 bits and splits back into that number and that wire type |
| ProtoWire.TagWireType | internal/pb/signal/signal.pb.go:77-78 | a tag's wire type is below 8 |
| ProtoWire.TagParts | internal/pb/signal/signal.pb.go:77-78 | a tag's field number and wire type are its quotient and remainder by 8 |
| ProtoWire.TagThenValue | internal/pb/signal/signal.pb.go:188 | a tag written before a value reads back first, and what is left after it is that value and what follows |
| ProtoWire.DecodeFieldOfEncode | internal/pb/signal/signal.pb.go:77-78 | every well-formed record reads back with its length, whatever follows |
| ProtoWire.ParseFieldsOfEncode | internal/pb/signal/signal.pb.go:72-189 | the encoding of well-formed records splits back into those records |
| ProtoWire.EncodeFieldsAppend | internal/pb/signal/signal.pb.go:72-189 | encoding distributes over concatenation of records |
| SignalEncoding.DecodeSDP | internal/pb/signal/encoding.go:28-38 | an unmarshal failure is returned as an error; an `sdp` that is not JSON of a description panics |
| SignalEncoding.EncodeSDP | internal/pb/signal/encoding.go:12-23 | reference definition of the encoder: the description's JSON text in `sdp` and the given meta, marshalled; its properties are in the EncodeSDPContents, EncodeSDPNonEmpty and DecodeEncodeSDP rows |
| SignalEncoding.EncodeSDPContents | internal/pb/signal/encoding.go:12-23 | the payload holds exactly the JSON text and the meta it was given |
| SignalEncoding.EncodeSDPNonEmpty | internal/pb/signal/encoding.go:12-23 | an encoded description is never the empty payload |
| SignalEncoding.DecodeEncodeSDP | internal/pb/signal/encoding.go:12-38 | decoding an encoded description gives it back, whatever the meta |
| SignalEncoding.DecodeSDPIgnoresMeta | internal/pb/signal/encoding.go:25-27 | the meta never influences what is decoded, on any path |
| SignalEncoding.DecodeSDPUnknownTypePanics | internal/pb/signal/encoding.go:33-36 | a description whose type has no name encodes, but decoding it panics |
| SignalEncoding.DecodeSDPEmptyPayloadPanics | internal/pb/signal/encoding.go:28-38 | the empty payload is a valid message whose "" is not JSON, so decoding panics instead of returning an error |
| SignalEncoding.DecodeSDPEmptyGroupPanics | internal/pb/signal/encoding.go:28-38 | a payload with only an unknown group decodes to the empty message and panics the same way |
| SignalEncoding.DecodeCandidate | internal/pb/signal/encoding.go:48-55 | the candidate string exactly when the payload unmarshals |
| SignalEncoding.EncodeCandidate | internal/pb/signal/encoding.go:40-46 | reference definition of the encoder: only the `candidate:` line, no meta; its partner is the DecodeEncodeCandidate row |
| SignalEncoding.DecodeEncodeCandidate | internal/pb/signal/encoding.go:40-55 | decoding an encoded candidate gives its non-empty `candidate:` line |
| Pion.TypeTag | internal/pb/signal/encoding.go:13 | a known SDP type is written as itself, any other number as the one value the decoder rejects |
| Pion.DescriptionJson | internal/pb/signal/encoding.go:13 | the JSON text of a description is never empty, `null` for a nil pointer; its partners are the DescriptionJsonRoundTrip, ParseDescriptionJsonLeftInverse and DescriptionJsonInjective rows |
| Pion.ParseDescriptionJson | internal/pb/signal/encoding.go:34 | a decoded description other than `null` has a known type |
| Pion.DescriptionJsonRoundTrip | internal/pb/signal/encoding.go:13-34 | every description with a known type survives its JSON text |
| Pion.DescriptionJsonUnknownType | internal/pb/signal/encoding.go:13-34 | a description with an unknown type is written but not read back |
| Pion.ParseDescriptionJsonLeftInverse | internal/pb/signal/encoding.go:34 | whatever the decoder accepts other than `null` is the text of what it returns |
| Pion.DescriptionJsonInjective | internal/pb/signal/encoding.go:13 | the JSON text determines a description with a known type |
| Pion.EmptyIsNotJson | internal/pb/signal/encoding.go:34 | the empty string is not JSON |
| Pion.CandidateLine | internal/pb/signal/encoding.go:43 | `candidate:` followed by the candidate's fields |
| Pion.CandidateLineInjective | internal/pb/signal/encoding.go:43 | the `candidate:` line determines the candidate |
| Pion.CandidateInitJsonRoundTrip | internal/broadcast/subscriber/subscriber.go:183-187 | the JSON text of a candidate init reads back |
| Pion.NewPeerConnection | internal/broadcast/webrtc/webrtc.go:217-227 | reference definition of a fresh connection: no descriptions, the given senders, open, no remote candidates; its uses are the Create and CreatePeer rows |
| HubPublisher.MetaTopicInjective | internal/broadcast/publisher/publisher.go:147 | under one prefix, the answer topics of two metas coincide only when the metas do, whatever int32 track sources they carry |
| HubPublisher.MetaTopic | internal/broadcast/publisher/publisher.go:147 | reference definition of a meta's topic under a prefix; its properties are in the Topics.Topic, Topics.TopicInjective and MetaTopicInjective rows |
| HubPublisher.MetaKey | internal/broadcast/publisher/publisher.go:198 | reference definition of a meta's session key; its properties are in the Topics.SessionKey, Topics.SessionKeyInjective and Topics.SessionKeyCollision rows |
| HubPublisher.Registered | internal/broadcast/publisher/publisher.go:197-200 | reference definition of registerSession's store; its properties are in the RegisteredKeepsOtherPairs and RegisteredStores rows |
| HubPublisher.RegisteredKeepsOtherPairs | internal/broadcast/publisher/publisher.go:193-207 | registering one (id, track source) pair leaves every other declared pair's entry as it was |
| HubPublisher.RegisteredStores | internal/broadcast/publisher/publisher.go:198-200 | after registration the pair's key holds the new track and no other key is added |
| HubPublisher.Sessions.constructor | internal/broadcast/publisher/publisher.go:25-27 | the shared session map starts empty |
| HubPublisher.Received | internal/broadcast/publisher/publisher.go:89-115 | the candidate channel holds at most one entry per payload, each the decoded candidate of some payload |
| HubPublisher.ReceivedDropsUndecodable | internal/broadcast/publisher/publisher.go:96-100 | a payload that does not decode does not reach the channel |
| HubPublisher.ReceivedDecoded | internal/broadcast/publisher/publisher.go:96-101 | a payload that decodes adds its candidate at the end |
| HubPublisher.ReceivedEncoded | internal/broadcast/publisher/publisher.go:64-115 | candidates published by the other side's sendCandidate arrive as their `candidate:` lines, all of them and in order |
| HubPublisher.Lines | internal/broadcast/publisher/publisher.go:96 | one `candidate:` line per candidate |
| HubPublisher.Encoded | internal/broadcast/publisher/publisher.go:68 | one payload per candidate |
| HubPublisher.Handle | internal/broadcast/publisher/publisher.go:117-191 | an unmarshal failure is reported as such, a nil meta panics, a non-JSON sdp is rejected before anything is created, a track failure or a publisher failure ends the handler, and an answer is published only when everything succeeded, to the topic of the offer's meta with the library's answer and no meta |
| HubPublisher.NotJsonIgnoresEnv | internal/broadcast/publisher/publisher.go:163-166 | a non-JSON sdp is rejected whatever the library would have answered |
| HubPublisher.PublisherNeverBlocks | internal/broadcast/publisher/publisher.go:183-187 | the offer is on the channel before CreatePublisher reads it, so a failure is always a returned error, never a block or a panic |
| HubPublisher.AnswerDecodes | internal/broadcast/publisher/publisher.go:140-148 | the published answer carries no meta and the edge decodes it back to the library's answer |
| HubPublisher.AnswerPublication | internal/broadcast/publisher/publisher.go:140-148 | reference definition of the answer's publication: its topic, QoS, retained flag and payload; its properties are in the AnswerDecodes and AnswerTopicIdentifiesOffer rows |
| HubPublisher.AnswerTopicIdentifiesOffer | internal/broadcast/publisher/publisher.go:147 | answers to two offers share a topic only when the offers share their meta |
| HubPublisher.Publisher.constructor | internal/broadcast/publisher/publisher.go:30-44 | New keeps its configuration and the shared map and has published nothing |
| HubPublisher.Publisher.RegisterSession | internal/broadcast/publisher/publisher.go:193-207 | the key of the meta now holds the track, and the result says whether it was there before |
| HubPublisher.Publisher.SendCandidate | internal/broadcast/publisher/publisher.go:64-83 | the encoded candidate is published to the candidate topic of the meta; delivery errors are only logged, so the result is always nil |
| HubPublisher.Publisher.HandleMessage | internal/broadcast/publisher/publisher.go:117-191 | the handler's outcome is that of the handling function and it publishes the answer exactly when it answered |
| HubSubscriber.IncomingOfJson | internal/broadcast/subscriber/subscriber.go:114-170 | a missing `data`, or one that is neither an object nor null, fails both reads; a null `data` gives the two zero messages; an object is read as a SessionDescription and as an ICECandidate |
| HubSubscriber.OfferDataReadBack | internal/broadcast/subscriber/subscriber.go:114-118 | a SessionDescription sent as `data` is the offer the handler reads |
| HubSubscriber.CandidateDataReadBack | internal/broadcast/subscriber/subscriber.go:166-170 | an ICECandidate sent as `data` is the candidate the handler reads |
| HubSubscriber.NullDataEndsAtMeta | internal/broadcast/subscriber/subscriber.go:113-121 | an offer or candidate message whose `data` is null ends the loop at the metadata check |
| HubSubscriber.NonObjectDataIsBad | internal/broadcast/subscriber/subscriber.go:113-117 | a message without `data`, or with `data` that is neither an object nor null, ends the loop as bad data |
| HubSubscriber.CandidateQueue | internal/broadcast/subscriber/subscriber.go:188-192 | a candidate goes to the DRONE channel exactly when its track source is DRONE, to MONITOR otherwise |
| HubSubscriber.OfferStep | internal/broadcast/subscriber/subscriber.go:113-165 | the loop goes on after an offer only when it has a meta with a non-empty id, a registered session, a JSON sdp and a successful write; then exactly one answer is written, the candidate channels are untouched and one peer is added |
| HubSubscriber.CandidateStep | internal/broadcast/subscriber/subscriber.go:166-192 | the loop goes on after a candidate only when it has a meta with a non-empty id, a registered session and a JSON candidate, which is then queued at the end of the channel of its track source and nowhere else; a stop changes nothing |
| HubSubscriber.FrameStep | internal/broadcast/subscriber/subscriber.go:95-196 | a read error, a non-text frame and a non-JSON message each end the loop with nothing changed; an unknown event is skipped |
| HubSubscriber.RunStopsForGood | internal/broadcast/subscriber/subscriber.go:95-196 | once the loop has returned, later frames change nothing |
| HubSubscriber.RunWaitingContinues | internal/broadcast/subscriber/subscriber.go:95-196 | a loop still reading continues from where it stands when more frames come |
| HubSubscriber.RunExtends | internal/broadcast/subscriber/subscriber.go:95-196 | the loop only appends: earlier writes, candidates and peers stay where they are |
| HubSubscriber.FrameStepWritesAnswers | internal/broadcast/subscriber/subscriber.go:155-164 | every write of one step is a "video-answer" whose meta has a non-empty id |
| HubSubscriber.RunWritesAnswers | internal/broadcast/subscriber/subscriber.go:95-196 | every write of the whole loop is a "video-answer" whose meta has a non-empty id |
| HubSubscriber.Run | internal/broadcast/subscriber/subscriber.go:95-196 | reference definition of processMessage's loop over the frames read; its properties are in the RunStopsForGood, RunWaitingContinues, RunExtends, RunWritesAnswers and ProcessMessage rows |
| HubSubscriber.OfferPeerSendsRegisteredTrack | internal/broadcast/subscriber/subscriber.go:126-149 | the new peer sends exactly the track registered under the offer's key, with the offer as remote and the answer as local description |
| HubSubscriber.AnswerReplyParses | internal/broadcast/subscriber/subscriber.go:149-164 | the reply carries the offer's meta and its `sdp` reads back as the library's answer |
| HubSubscriber.UnknownCandidatesGoToMonitor | internal/broadcast/subscriber/subscriber.go:188-192 | a candidate with track source UNKNOWN is appended to the MONITOR queue and the DRONE queue is unchanged |
| HubSubscriber.CandidateChan.constructor | internal/broadcast/subscriber/subscriber.go:85-88 | a channel starts empty and open |
| HubSubscriber.CandidateChan.Send | internal/broadcast/subscriber/subscriber.go:189-191 | a send appends the candidate |
| HubSubscriber.CandidateChan.Close | internal/broadcast/subscriber/subscriber.go:89-93 | closing keeps the values |
| HubSubscriber.HandleFrame | internal/broadcast/subscriber/subscriber.go:95-196 | one turn in place: whether the loop stops, why, and the writes, channels and peers after it are exactly those of the step function |
| HubSubscriber.HandleOffer | internal/broadcast/subscriber/subscriber.go:113-165 | the offer case in place, exactly as the offer step |
| HubSubscriber.HandleCandidate | internal/broadcast/subscriber/subscriber.go:166-192 | the candidate case in place, exactly as the candidate step, sending on one channel only |
| HubSubscriber.ProcessMessage | internal/broadcast/subscriber/subscriber.go:84-197 | both candidate channels are fresh and closed however the loop ends, and the end, writes, channel contents and peers are those of running the step function over the frames |
| BroadcastRtc.ActorName | internal/broadcast/webrtc.go:25-30 | "publisher" exactly for peerPublisher, "subscriber" for every other value |
| BroadcastRtc.PbToWebRtc | internal/broadcast/webrtc.go:210-215 | the type and the bytes of the description, nothing else |
| BroadcastRtc.WebRtcToPb | internal/broadcast/webrtc.go:217-222 | the type cut to int32 and the text, with no id or track source |
| BroadcastRtc.WebRtcPbRoundTrip | internal/broadcast/webrtc.go:210-222 | a description whose type fits an int32 survives the conversion to this schema and back |
| BroadcastRtc.PbWebRtcRoundTrip | internal/broadcast/webrtc.go:210-222 | the other way round only the id and the track source are lost |
| BroadcastRtc.Chans.constructor | internal/broadcast/webrtc.go:119-130 | a channel pair starts empty |
| BroadcastRtc.Chans.SendOffer | internal/broadcast/broadcast.go:112 | a send appends the offer |
| BroadcastRtc.Chans.TakeAnswer | internal/broadcast/broadcast.go:114 | a receive takes the oldest answer |
| BroadcastRtc.Session.constructor | internal/broadcast/broadcast.go:64 | a new session shares the publisher channels, has its own empty subscriber channels and no identity yet |
| BroadcastRtc.Session.ChansOf | internal/broadcast/webrtc.go:122-130 | the publisher reads the shared publisher channels, every other actor the session's subscriber channels |
| BroadcastRtc.Session.CreatePeerConnection | internal/broadcast/webrtc.go:117-180 | blocks on an empty offer channel, panics on a nil offer, takes exactly one offer; only a publisher's offer sets the session's id and track source; the remote description is set first; the answer goes on the actor's answer channel exactly when every library step succeeded; the other actor's channels are untouched |
| BroadcastRtc.Session.CreatePeer | internal/broadcast/webrtc.go:43-115 | a NewPeerConnection or AddTrack failure changes nothing; otherwise the connection receives only (publisher) or sends the track (subscriber), and succeeding signalling answers on the actor's channel |
| BroadcastRtc.OnIceConnectionStateChange | internal/broadcast/webrtc.go:140-148 | Failed closes the connection, panicking when Close fails, and keeps its senders; every other state changes nothing |
| Broadcast.RegisterReplacesInner | internal/broadcast/broadcast.go:68-72 | the callback makes a fresh inner map: the registered track source is found, every other track source of that id is forgotten and other ids are untouched |
| Broadcast.Register | internal/broadcast/broadcast.go:68-72 | reference definition of the registry callback's update; its properties are in the RegisterReplacesInner, ShapeRegister and SecondSessionShadowsFirst rows |
| Broadcast.Lookup | internal/broadcast/broadcast.go:100-106 | channels are found exactly when both the id and the track source are registered |
| Broadcast.SecondSessionShadowsFirst | internal/broadcast/broadcast.go:68-72 | after two sessions of one id, only the later track source is found |
| Broadcast.FirstFailure | internal/broadcast/broadcast.go:63-75 | the first failing start, with every earlier start successful |
| Broadcast.ShapeRegister | internal/broadcast/broadcast.go:68-72 | registering sets the id's track sources to exactly the registered one |
| Broadcast.ExpectedLastWins | internal/broadcast/broadcast.go:63-75 | each registered id holds exactly the track source of its last start |
| Broadcast.FirstFailureAt | internal/broadcast/broadcast.go:63-75 | the index where the loop returns is the first failure |
| Broadcast.Service.constructor | internal/broadcast/broadcast.go:34-41 | New starts with no session |
| Broadcast.Service.Middle | internal/broadcast/broadcast.go:68-72 | the callback registers the channels under the pair, replacing the id's inner map |
| Broadcast.Service.Sessions | internal/broadcast/broadcast.go:62-75 | the loop returns an error exactly when a start fails, and the registry then holds the pairs of the starts before it, the last start of each id winning |
| Broadcast.Route | internal/broadcast/broadcast.go:91-112 | a failed read panics with nothing written; an unknown pair gets "wrong id" and then blocks on the nil channel, or panics when that write fails; a registered pair has the offer appended to its offer channel and nothing written |
| Broadcast.Reply | internal/broadcast/broadcast.go:114-119 | it waits while no answer is there; otherwise it writes exactly the oldest answer, takes it off the channel and closes normally unless the write fails |
| Broadcast.Subscribe | internal/broadcast/broadcast.go:80-121 | with the session's subscriber half running in between, a subscription to a registered pair forwards exactly one offer, the browser receives exactly the session's answer and the socket closes normally, leaving both channels empty |
| EdgeSignal.EncodeSDP | internal/livestream/signal.go:64-79 | the message carries the publisher's own id and track source, the description's text and its type cut to int32 |
| EdgeSignal.DecodeSDP | internal/livestream/signal.go:81-90 | an unmarshal error exactly when the payload does not parse, a panic exactly when the nested SDP is missing, otherwise the nested type and text |
| EdgeSignal.DecodeEncodeSDP | internal/livestream/signal.go:64-90 | decoding an encoded offer gives back the offer for every type an int32 holds |
| EdgeSignal.DecodeEncodeWraps | internal/livestream/signal.go:68 | a type outside int32 comes back as its low 32 bits |
| EdgeSignal.DecodeIgnoresIdentity | internal/livestream/signal.go:86-89 | the id and track source of a message never change what is decoded |
| EdgeSignal.EmptyMessagePanics | internal/livestream/signal.go:87 | an empty message has no nested SDP, so decoding it dereferences nil |
| EdgeSignal.AnswerTopic | internal/livestream/signal.go:34 | reference definition of the answer topic `AnswerTopic/id/trackSource`; its properties are in the Topics.Topic and Topics.TopicInjective rows |
| EdgeSignal.AnswerSubscription.constructor | internal/livestream/signal.go:32-36 | recvAnswer subscribes to AnswerTopic/id/trackSource with an empty open channel |
| EdgeSignal.AnswerSubscription.OnMessage | internal/livestream/signal.go:36-49 | the handler puts the answer on the channel exactly when it decodes, panics exactly when decoding panics, and always unsubscribes and closes the channel |
| EdgeSignal.AnswerSubscription.Receive | internal/livestream/signal.go:30-31 | a reader blocks exactly while the subscription stands, and gets nil exactly when the channel closed empty |
| EdgeSignal.ReceiveAfterMessage | internal/livestream/signal.go:36-49 | after the first message the reader gets the decoded answer, or nil when none decoded |
| EdgeSignal.Signaller.constructor | internal/livestream/publisher.go:22-45 | the signalling part of a publisher starts with nothing published |
| EdgeSignal.Signaller.SendOffer | internal/livestream/signal.go:14-28 | the encoded offer is published to OfferTopic with QoS 1, retained, and no error is returned |
| EdgeSignal.Signaller.RecvAnswer | internal/livestream/signal.go:32-62 | a fresh one-shot subscription to this publisher's answer topic |
| EdgePublisher.SubscriberStep | internal/livestream/publisher.go:305-355 | a payload that is not a number changes nothing; Connected counts one more subscriber with uint32 wrap-around and starts a stream under the current context only when there was none; Disconnected at 0 changes nothing, otherwise counts one fewer and renews the context exactly when the count reaches 0; every other state changes nothing |
| EdgePublisher.HookStreamTopic | internal/livestream/publisher.go:304 | reference definition of the hook-stream topic `prefix/id/trackSource`; its properties are in the Topics.Topic and Topics.TopicInjective rows |
| EdgePublisher.SubscriberSteps | internal/livestream/publisher.go:305-355 | the counter grows by at most one per message |
| EdgePublisher.LiveSnoc | internal/livestream/publisher.go:330-336 | a stream started under the current context adds one to the streams running under it |
| EdgePublisher.LiveNone | internal/livestream/publisher.go:350-352 | after the context is renewed no stream runs under the new one |
| EdgePublisher.SubscriberStepTracked | internal/livestream/publisher.go:294-357 | every message keeps exactly one stream under the live context while subscribers are counted and none otherwise, as long as the counter does not wrap |
| EdgePublisher.SubscriberStepsTracked | internal/livestream/publisher.go:294-357 | the same holds over any sequence of messages that does not wrap the counter |
| EdgePublisher.CounterWrapKeepsStream | internal/livestream/publisher.go:320-323 | one subscriber more at 0xFFFFFFFF wraps the counter to 0 while the stream keeps running |
| EdgePublisher.ReconnectThenSubscriberStartsSecondStream | internal/livestream/publisher.go:199-208 | the edge's own reconnection zeroes the counter without cancelling, so the next subscriber starts a second stream under the same context |
| EdgePublisher.BurstAfterFailure | internal/livestream/publisher.go:184-196 | below the maximum the retry count goes up by one; a full burst of 10 restarts the count at 1; the count stays within 1 to 10 |
| EdgePublisher.StartConnection | internal/livestream/publisher.go:84-142 | an offer is published exactly when no step fails, and then the connection holds the offer as its local description and one sender for the track; a connection exists unless NewPeerConnection failed, and has no remote description yet |
| EdgePublisher.Publisher.constructor | internal/livestream/publisher.go:48-54 | the counters start at 0, with no stream, no buffered candidate and nothing sent |
| EdgePublisher.Publisher.OnSubscriberMessage | internal/livestream/publisher.go:305-355 | the callback moves the counter, the context and the streams exactly as SubscriberStep says |
| EdgePublisher.Publisher.OnIceCandidate | internal/livestream/publisher.go:107-124 | nil is ignored; a candidate is buffered exactly while the connection has no remote description, and is sent at once otherwise |
| EdgePublisher.Publisher.CreatePeerConnection | internal/livestream/publisher.go:84-142 | the error and connection of StartConnection, with the offer appended to the published offers exactly when it is published |
| EdgePublisher.Publisher.FlushPending | internal/livestream/publisher.go:158-171 | the buffered candidates are sent in order up to the first failing send, an error is returned exactly when one failed, and the buffer is emptied either way |
| EdgePublisher.Publisher.OnAnswer | internal/livestream/publisher.go:145-171 | a nil answer returns success with nothing changed; a failed SetRemoteDescription returns its error with nothing changed; otherwise the answer becomes the remote description and the buffer is flushed |
| EdgePublisher.Publisher.OnIceConnectionStateChange | internal/livestream/publisher.go:174-210 | Failed with a failing close panics with nothing changed; Failed otherwise restarts the connection, waits exactly when the burst was full and counts the retry; Connected zeroes both counters; other states change nothing |
| Rtsp.ConsumeRtsp | internal/livestream/rtsp.go:19-83 | the loop writes exactly the samples of the reference run and ends the way it says: a dial error, a missing codec, a first stream that is not H.264, a packet too short to strip, a failed write, a done context, or the queue running dry |
| Rtsp.ConsumeSpec | internal/livestream/rtsp.go:19-83 | reference definition of consumeRTSP for one dial: a dial error, the two codec errors, otherwise the packet loop from time 0; its properties are in the CodecCheck row and the rows below |
| Rtsp.StreamFrom | internal/livestream/rtsp.go:49-81 | reference definition of the packet loop; its properties are in the StreamFromFirst, StreamSamples, StreamSamplesInOrder, StreamLastTime, OtherStreamSkipped, WriteErrorAborts and StreamFromEnds rows |
| Rtsp.Payload | internal/livestream/rtsp.go:57-66 | reference definition of a sample's data; its properties are in the PacketSample and PrependOrder rows |
| Rtsp.PacketSample | internal/livestream/rtsp.go:57-69 | a sample is the packet data without its first 4 bytes behind a start code, the SPS, a start code, the PPS and a start code on keyframes, lasting from the previous time with int64 wrap-around |
| Rtsp.PrependOrder | internal/livestream/rtsp.go:60-66 | the five prepends build start code, SPS, start code, PPS, start code, data in that order |
| Rtsp.StreamFromFirst | internal/livestream/rtsp.go:49-81 | one round of the inner loop at the queue's first packet |
| Rtsp.SamplesFromIndexed | internal/livestream/rtsp.go:49-81 | the step-by-step and the indexed description of samples made from video packets agree |
| Rtsp.StreamSamplesInOrder | internal/livestream/rtsp.go:49-81 | the loop turns the video packets into samples one after the other |
| Rtsp.StreamSamples | internal/livestream/rtsp.go:49-81 | the k-th sample is made of the k-th packet of stream 0, and lasts from the time of the packet before it |
| Rtsp.SamplesFromTotal | internal/livestream/rtsp.go:68-69 | the durations of consecutive samples add up, in int64, to the time of the last packet written |
| Rtsp.StreamLastTime | internal/livestream/rtsp.go:68-69 | the loop ends with previousTime at the time of the last packet it wrote |
| Rtsp.LastTimeFits | internal/livestream/rtsp.go:68-69 | the time of any video packet is an int64 |
| Rtsp.PreviousTimeIsTotal | internal/livestream/rtsp.go:48-69 | previousTime is the start time plus the durations written, in int64 |
| Rtsp.DurationTelescopes | internal/livestream/rtsp.go:68-69 | a duration from previousTime added back to previousTime telescopes, in int64 |
| Rtsp.PreviousTimeIsSum | internal/livestream/rtsp.go:48-69 | from zero and without wrap-around the durations sum to the last time written |
| Rtsp.OtherStreamSkipped | internal/livestream/rtsp.go:52-55 | a packet of another stream changes nothing |
| Rtsp.ClosedPipeTolerated | internal/livestream/rtsp.go:71 | a closed-pipe write error is treated exactly as a good write |
| Rtsp.WriteErrorAborts | internal/livestream/rtsp.go:71-73 | any other write error ends the loop with that one sample |
| Rtsp.StreamFromEnds | internal/livestream/rtsp.go:49-81 | the packet loop only ends on a short packet, a write error, a done context, or by running out of packets |
| Rtsp.CodecCheck | internal/livestream/rtsp.go:37-46 | no codec and a first stream other than H.264 are the two codec errors, each exactly in its case; behind an H.264 first stream the other streams change nothing |
| Rtmp.ReadNalu | internal/livestream/rtmp.go:112-131 | one turn of the NALU loop stops exactly at the end of the buffer or where the declared length from the header's offset reaches the end; panics exactly when the 4-byte header, the unit's first byte or its bytes lie past the end; otherwise the unit is the declared number of bytes after the header, its head the byte right after the header |
| Rtmp.ReadParameterSet | internal/livestream/rtmp.go:139-146 | one turn of a parameter-set loop: a mismatch exactly when the byte after the 2-byte length is not the expected id; out of range exactly when that byte lies past the end, or when a matching set runs past the end; otherwise the unit is the declared number of bytes after the length, taking 2 more bytes, behind a first byte equal to the id |
| Rtmp.ParseParameterSets | internal/livestream/rtmp.go:138-159 | the loop over count parameter sets never moves back, stays in the buffer, and can only fail when a set was still to read |
| Rtmp.FramedUnits | internal/livestream/rtmp.go:112-131 | the AVCC form of units lays each one out behind a length that reads back as its size |
| Rtmp.NaluScanFramed | internal/livestream/rtmp.go:112-132 | the loop converts every unit of well-formed AVCC input, in order, without panicking |
| Rtmp.OnVideoFramedUnits | internal/livestream/rtmp.go:111-174 | on well-formed AVCC input the sample is every unit behind a start code in input order, led by the cached SPS and PPS exactly on a keyframe with no SPS or PPS unit, lasting 1/30 s; the caches become the last SPS and the last PPS unit seen |
| Rtmp.NaluStep | internal/livestream/rtmp.go:120-129 | reference definition of one read unit: an SPS or PPS head replaces that cache and sets the flag, and every unit goes to the output behind a start code; its properties are in the NaluScanFramed and OnVideoFramedUnits rows |
| Rtmp.NaluScan | internal/livestream/rtmp.go:112-132 | reference definition of the NALU loop from an offset; its properties are in the NaluScanFramed, NaluScanStopsAtGuard, TruncatedUnitPanics and ConvertNalus rows |
| Rtmp.VideoStep | internal/livestream/rtmp.go:95-175 | reference definition of one OnVideo call on the caches; its properties are in the OnVideoFramedUnits, EmptyNaluPayload, SequenceHeaderOfRecord and UnknownPacketTypeIgnored rows |
| Rtmp.NaluScanStopsAtGuard | internal/livestream/rtmp.go:113-116 | a declared length that, from the header's offset, reaches the end stops the loop without error |
| Rtmp.TruncatedUnitPanics | internal/livestream/rtmp.go:113-129 | a length that passes the guard but does not fit behind the header panics |
| Rtmp.EmptyNaluPayload | internal/livestream/rtmp.go:106-174 | an empty keyframe payload is a sample of just the cached SPS and PPS |
| Rtmp.LengthPrefixedEntries | internal/livestream/rtmp.go:138-159 | parameter sets behind 2-byte lengths lie one after the other, each length reading back as its size |
| Rtmp.ParseAllSets | internal/livestream/rtmp.go:138-147 | well-formed entries are all parsed, each appended behind a start code, and the offset ends after them |
| Rtmp.ParseSetsThenMismatch | internal/livestream/rtmp.go:141-143 | good entries then one with a wrong first byte: the good ones are appended and the loop fails there |
| Rtmp.SpsEntriesParsed | internal/livestream/rtmp.go:134-147 | the SPS count is the low five bits of byte 5 and the SPS entries from byte 6 are all parsed |
| Rtmp.SequenceHeader | internal/livestream/rtmp.go:133-160 | reference definition of the sequence-header branch; its properties are in the SequenceHeaderParsed, SequenceHeaderOfRecord, SequenceHeaderBadSps, SequenceHeaderBadPps and ShortSequenceHeaderPanics rows |
| Rtmp.PpsEntries | internal/livestream/rtmp.go:148-160 | reference definition of the PPS half of the sequence header; its properties are in the PpsEntriesParsed and PpsEntriesMismatch rows |
| Rtmp.PpsEntriesParsed | internal/livestream/rtmp.go:148-160 | well-formed PPS entries after their count are appended to the SPS cache with no sample |
| Rtmp.PpsEntriesMismatch | internal/livestream/rtmp.go:150-155 | a PPS entry with a wrong first byte returns "failed to parse PPS" after the good ones |
| Rtmp.SequenceHeaderParsed | internal/livestream/rtmp.go:133-160 | SPS entries then PPS entries leave the SPS cache holding all of them behind start codes |
| Rtmp.SequenceHeaderSpsMismatch | internal/livestream/rtmp.go:138-143 | a bad SPS entry returns "failed to parse SPS" with the good ones cached |
| Rtmp.SequenceHeaderPpsMismatch | internal/livestream/rtmp.go:148-155 | a bad PPS entry returns "failed to parse PPS", every SPS and the good PPS entries cached |
| Rtmp.ConfigRecordLayout | internal/livestream/rtmp.go:134-150 | a configuration record holds the SPS count byte at 5, the SPS entries from 6 and the PPS count after them |
| Rtmp.SequenceHeaderOfRecord | internal/livestream/rtmp.go:133-160 | a well-formed AVCDecoderConfigurationRecord writes no sample, makes the SPS cache every SPS and then every PPS behind start codes, and leaves the PPS cache alone |
| Rtmp.SequenceHeaderBadSps | internal/livestream/rtmp.go:138-143 | an SPS entry not starting with 0x67 fails the header with "failed to parse SPS", keeping the entries before it |
| Rtmp.SequenceHeaderBadPps | internal/livestream/rtmp.go:150-155 | a PPS entry not starting with 0x68 fails the header with "failed to parse PPS", keeping every SPS and the PPS entries before it |
| Rtmp.ShortSequenceHeaderPanics | internal/livestream/rtmp.go:134-135 | a header without byte 5 panics with both caches untouched |
| Rtmp.UnknownPacketTypeIgnored | internal/livestream/rtmp.go:161-163 | any other packet type writes nothing and changes nothing |
| Rtmp.ConvertNaluAt | internal/livestream/rtmp.go:112-131 | one turn of the loop moves forward and continues the reference scan, or stops where it says |
| Rtmp.ConvertNalus | internal/livestream/rtmp.go:112-132 | the loop over the buffer ends in the state and with the panic flag of the reference scan |
| Rtmp.ReadSetAt | internal/livestream/rtmp.go:139-146 | one turn of a parameter-set loop continues the reference parse, or stops with its result |
| Rtmp.ReadParameterSets | internal/livestream/rtmp.go:138-159 | the parameter-set loop gives exactly the reference parse |
| Rtmp.OnPublish | internal/livestream/rtmp.go:85-93 | publishing is refused exactly for an empty publishing name |
| Rtmp.Handler.constructor | internal/livestream/rtmp.go:42-45 | a handler starts with empty caches |
| Rtmp.Handler.OnVideo | internal/livestream/rtmp.go:95-175 | the outcome and the new caches are those of the reference step VideoStep, whose properties the lemmas above state |
| E2eClients.Envelope | e2e/broadcast/index.js:31-35 | the offer envelope is an object with the keys id, track_source and sdp in that order |
| E2eClients.Keys | e2e/broadcast/index.js:37 | the keys of an object's members, one per member, in order |
| E2eClients.Find | e2e/broadcast/index.js:54-55 | a key is found exactly when some member has it, and its value is that of such a member |
| E2eClients.EnvelopeFields | e2e/broadcast/index.js:31-35 | each member of an envelope is found under its own key: the hard-coded machine id, the loop index and the offer |
| E2eClients.Member | e2e/broadcast/index.js:55 | reading a property throws exactly on null, and finds a value only on an object holding the key; arrays and other values give undefined |
| E2eClients.PeerConnection.constructor | e2e/broadcast/index.js:2 | a new peer connection has no transceiver and no description set |
| E2eClients.PeerConnection.AddTransceiver | e2e/broadcast/index.js:12 | a transceiver of the given kind is appended |
| E2eClients.PeerConnection.SetLocalDescription | e2e/broadcast/index.js:28 | the call is recorded, in order |
| E2eClients.PeerConnection.SetRemoteDescription | e2e/broadcast/index.js:55 | the call is recorded, in order, undefined included |
| E2eClients.Sent | e2e/broadcast/index.js:25-43 | no more envelopes are sent than offers are made |
| E2eClients.Locals | e2e/broadcast/index.js:26-28 | no more local descriptions are set than offers are made |
| E2eClients.SentCarriesLocals | e2e/broadcast/index.js:26-40 | the k-th envelope sent carries the machine id and, as its sdp, the k-th description set locally |
| E2eClients.OfferStep | e2e/broadcast/index.js:25-43 | each offer adds its envelope and local description when it succeeds and an alert when it fails |
| E2eClients.BothOffersInOrder | e2e/broadcast/index.js:25-43 | when both offers succeed, the envelope of track source 0 is sent before that of track source 1 |
| E2eClients.Applied | e2e/broadcast/index.js:47-59 | a message that does not parse, or parses to null, sets no remote description; otherwise the sdp member (or undefined) is set |
| E2eClients.AppliedIgnoresTrackSource | e2e/broadcast/index.js:54-55 | the reply's track source never changes what is applied |
| E2eClients.EnvelopeReplyApplied | e2e/broadcast/index.js:54-55 | a reply shaped like the envelope applies its sdp |
| E2eClients.NonObjectReplyAppliesUndefined | e2e/broadcast/index.js:54-55 | a reply that parses to an array, number, string or boolean sets `undefined` as the remote description |
| E2eClients.Page.constructor | e2e/broadcast/index.js:1-14 | page load adds one video transceiver and dials once, with nothing sent or logged |
| E2eClients.Page.OnOpen | e2e/broadcast/index.js:22-44 | the open handler sends exactly the envelopes of the successful offers, sets their local descriptions, and alerts for each failure |
| E2eClients.Page.OnMessage | e2e/broadcast/index.js:47-59 | the message handler sets the remote description exactly when the reply applies, and logs the error otherwise |
| E2eClients.Page.OnClose | e2e/broadcast/index.js:17-21 | the close handler logs the code and the reason |
| E2eClients.SignalUrl | e2e/broadcast/static/index.js:39 | the signal URL is "http://", the page's host name and ":8080/v1/broadcast/signal" |
| E2eClients.ChainPost | e2e/broadcast/static/index.js:28-48 | chain i posts exactly when its offer succeeds, and the body is its envelope |
| E2eClients.ChainRemote | e2e/broadcast/static/index.js:49-53 | the whole parsed response becomes the remote description exactly when the offer, the fetch and the JSON parse succeed |
| E2eClients.ChainFails | e2e/broadcast/static/index.js:54 | the catch handler logs exactly when no remote description is set |
| E2eClients.EnvelopeResponseNotUnwrapped | e2e/broadcast/static/index.js:49-51 | a response in the envelope's shape is applied whole, not its sdp member |
| E2eClients.LoadStatic | e2e/broadcast/static/index.js:1-56 | two separate peer connections, each with one video transceiver, each posting its own envelope and applying its own response |

## Left out

- Network and message I/O: MQTT publish/subscribe and their delivery tokens, the WebSocket accept/read/write, HTTP `fetch` and the DOM are out of the model. Each read is an input value, and each write is appended to a sequence the methods expose.
- Concurrency: each callback is one sequential step on explicit state. This covers goroutines, `sync.Map`, mutexes and atomics. Channels become sequences, and their buffer sizes are not modelled except the hub's one-slot `SignalChan`. The `burstRetriesGroupInterval` timer is a flag in the outcome. The order of deliveries is not modelled either. `EdgeSignal.AnswerSubscription.OnMessage` requires the subscription to stand, so a second MQTT delivery that arrives before `c.Unsubscribe` takes effect is out of the model; in Go it panics, as it sends on the channel the first delivery closed.
- The pion WebRTC library: peer connections are records of their description slots, their senders and a closed flag. Answer creation, ICE, RTCP reading (`processRTCP`, `sendRTCP`), the `OnTrack` forwarding loops and the wait for ICE gathering to complete are out of the model. Their results are parameters.
- JSON: the pb messages are read from a JSON tree of null, booleans, strings, integer literals, other numbers, arrays and objects over the five keys the messages declare. Unknown keys, which `encoding/json` skips, cannot appear in the tree; duplicate keys and its case-insensitive key match are not modelled. Pion's session-description JSON is an injective stand-in text with a proved left-inverse decoder, not the JSON grammar. In the browser clients, `JSON.stringify` and `JSON.parse` are taken as inverses on a JSON tree.
- Protocol Buffers: the schema of `internal/pb/signal` is modelled down to the wire bytes. This does not cover UTF-8 validation of string fields, or the reflection and descriptor code of the generated file. Skipped unknown fields, groups among them, are not stored in the decoded messages, so a re-encoding does not carry them. The two older schemas have no field table among the sources, so they are modelled as records, and the result of `proto.Unmarshal` is an input.
- FLV tag decoding (`flvtag.DecodeVideoData`) on the RTMP side and dialling the camera (`rtspv2.Dial`) on the RTSP side: the model starts from the packet type, the frame type and the data bytes, and from the dial's codec list and packet queue.
- The RTMP and RTSP server set-up in `consumeRTMP` and the UDP forwarder are I/O wiring. So are `internal/broadcast/publisher.go`, `internal/broadcast/session.go` and `Publish()`, which are channel hand-off and orchestration loops.
- The reads of `/etc/machine-id` and `~/.ssh/id_ed25519.pub`: their results are parameters.
- Configuration options: only the fields the modelled code reads appear, as records.
- Rtmp.Handler.OnVideo: where Go slices past a buffer's length but within its spare capacity, it reads those bytes. The model treats every read past the length as the panic Go gives without spare capacity. When a parameter set's bytes run past the end, Go has already appended that set's start code to the SPS cache when it panics; the model keeps the cache as it was before that set. The panic ends the connection, so the difference is never read.
- EdgePublisher.Publisher.OnIceConnectionStateChange: this models the retry's `createPeerConnection` only up to the published offer. Its wait for the answer and the flush are `OnAnswer`, a later step. The retry counter is incremented right after that first part, while Go increments it once the whole nested call returns.
- EdgePublisher.SubscriberStepTracked: the one-stream invariant is proved only while the counter does not wrap. At 2^32 - 1 subscribers the counter wraps, which `CounterWrapKeepsStream` shows.
- EdgePublisher.Publisher.OnSubscriberMessage: `listenSubscriber`'s goroutine reads the context variable when the goroutine starts. The model hands each stream the context current at the Connected message.
- HubSubscriber.HandleOffer: `subscriber.go:133` passes four arguments to the six-parameter `webrtcx.New` at `webrtc/webrtc.go:54-61`. The model builds the subscriber peer from the four given and omits its ICE state handler, which would use the two missing callbacks. Sending the subscriber peer's own candidates over the WebSocket is left out as well.
- BroadcastRtc.WebRtcPbRoundTrip: holds only for types that fit an `int32`, as `webrtcSdp2pbSdp` truncates the type. Every SDP type pion defines does fit.
- E2eClients: JavaScript promises are taken as settling in the order they were created. A rejected promise that is not awaited, and the unawaited `setLocalDescription`, are modelled as plain calls in that order. The implicit globals (`msg`, `str`, `answer`, `sdp`) are local values.
- E2eClients.ChainRemote: `mode: "no-cors"` would make the response opaque in a browser. The model treats the response as readable JSON.
- `machineID` is defined twice, in `signal.go` and `livestream.go`. Only the read in `init` is modelled.
