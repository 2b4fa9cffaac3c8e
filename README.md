# DtlsPacketTransformer in Dafny

A model of libjitsi's `DtlsPacketTransformer`, the packet transformer that runs
DTLS-SRTP over the socket of a media stream. It does three things:

- **Record sniffing.** `isDtlsRecord` decides whether a datagram looks like a DTLS
  record. The record header is 13 bytes (section 4.1 of RFC 6347, section 4.1 of
  RFC 4347): a content type, a version, an epoch, a sequence number and a
  big-endian body length. The sniffer accepts the content types
  change_cipher_spec, alert, handshake and application_data (20 to 23, section
  6.2.1 of RFC 5246). It accepts the versions DTLS 1.0 (254, 255) and DTLS 1.2
  (254, 253). The whole body must be present.
- **Lifecycle.** `setMediaType`, `start`, `stop`, `setConnector`,
  `setDtlsProtocol` and `close` manage a connect thread, a datagram transport and
  an established DTLS session. The connect thread installs its session only if it
  is still the current thread and its transport still the current transport.
- **Data plane.** `reverseTransform` queues inbound records into the datagram
  transport. Once a session exists, it resizes the packet to the session's receive
  limit and returns the decoded application data. `transform` passes DTLS records
  through and hands everything else to the session's `send`.

Files:

- `wire.dfy` (module `Wire`): bytes, `Option`, big-endian integers, `readUint16`.
- `record.dfy` (module `DtlsRecord`): content types, versions, the header codec,
  the sniffer and its lemmas.
- `packet.dfy` (module `Packet`): the `RawPacket` buffer with `Grow` and `Shrink`.
- `transformer.dfy` (module `Transformer`): the class `DtlsPacketTransformer`.
- `scenarios.dfy` (module `Scenarios`): client programs. Each builds a fresh
  transformer, drives it through one sequence of calls (a stale handshake, a
  double stop, a restart after close, a loop-back, ...) and states the outcome.

How the model is built:

- Threads, transports, sessions and connectors are objects. The model uses only
  their identity.
- Every call the transformer makes into them (bind, queue, receive, send, close)
  is appended to the ghost sequence `trace`.
- Answers from the DTLS engine are parameters of the operation that receives
  them. These are `getReceiveLimit`, the outcome of `receive`, the handshake
  result and whether `Thread.start` succeeded.
- The end of the connect thread is the method `Complete(t, result)`. It models the
  installation step of `runInConnectThread` and the `finally` block of the
  thread's `run` (DtlsPacketTransformer.java:519-526), which clears
  `connectThread` only if the field still refers to that thread.
- Java exceptions thrown by `start` become a `StartError` result.

The object invariant `Valid()` says:

- a connect thread in flight belongs to the current datagram transport;
- a session exists only together with a transport;
- a transport exists only while a media type is set.

Two facts follow:

- When `setMediaType` calls `start`, no transport exists. `SetMediaType` asserts
  this before it calls `Start`. `start` is private (DtlsPacketTransformer.java:461)
  and its only caller is `setMediaType` (line 454), so the duplicate-start guard
  (lines 463-473) is dead code in the program. `Start` still models the guard, and
  the scenario `DuplicateStartIgnored` exercises it by calling `Start` directly, a
  path no Java caller can take.
- In the completion check, the thread comparison already implies the transport
  comparison (`CurrentThreadOwnsCurrentTransport`).

Restart after `close` is allowed by the code: `close` only clears the connector
and the media type. The scenario `RestartAfterClose` shows it.

## Model

| member | source | states |
|---|---|---|
| `DtlsRecord.IsDtlsRecord` | src/org/jitsi/impl/neomedia/transform/dtls/DtlsPacketTransformer.java:56-103 | false whenever len < 13; true only for a known content type, a supported version and a declared body length that fits in len |
| `DtlsRecord.SnifferAcceptsOnlyKnownTypesAndVersions` | src/org/jitsi/impl/neomedia/transform/dtls/DtlsPacketTransformer.java:62-99 | an accepted span has type 20..23 and version bytes (254, 255) or (254, 253) |
| `DtlsRecord.SnifferLengthCheck` | src/org/jitsi/impl/neomedia/transform/dtls/DtlsPacketTransformer.java:87-90 | once type and version pass, accepted exactly when 13 + buf[off+11]*256 + buf[off+12] <= len |
| `DtlsRecord.IsDtlsRecordIffFramesRecord` | src/org/jitsi/impl/neomedia/transform/dtls/DtlsPacketTransformer.java:56-103 | accepted exactly when the 13 header bytes decode to a header of known type and supported version whose body fits |
| `DtlsRecord.SnifferReadsOnlyTypeVersionLength` | src/org/jitsi/impl/neomedia/transform/dtls/DtlsPacketTransformer.java:62-90 | two spans that agree on bytes 0, 1, 2, 11, 12 get the same verdict: epoch, sequence number and body never matter |
| `DtlsRecord.SnifferMonotoneInLength` | src/org/jitsi/impl/neomedia/transform/dtls/DtlsPacketTransformer.java:87-90 | a span accepted with len stays accepted with any larger len |
| `DtlsRecord.EncodedRecordIsSniffed` | src/org/jitsi/impl/neomedia/transform/dtls/DtlsPacketTransformer.java:56-103 | any encoded header of known type and version followed by its whole body is accepted, whatever the body |
| `DtlsRecord.SniffedRecordHasHeader` | src/org/jitsi/impl/neomedia/transform/dtls/DtlsPacketTransformer.java:56-103 | every accepted span starts with the encoding of a well-formed, supported header whose body fits |
| `DtlsRecord.HandshakeExample` | src/org/jitsi/impl/neomedia/transform/dtls/DtlsPacketTransformer.java:56-103 | handshake, DTLS 1.2, body length 5: accepted with len 18, rejected with len 17 and len 10 |
| `DtlsRecord.ParseVersion` | src/org/jitsi/impl/neomedia/transform/dtls/DtlsPacketTransformer.java:70-84 | a version is found exactly when some supported version has those major and minor bytes |
| `DtlsRecord.ParseVersionRoundTrip` | src/org/jitsi/impl/neomedia/transform/dtls/DtlsPacketTransformer.java:72-84 | DTLS 1.0 and DTLS 1.2 are each recognised from their own bytes |
| `DtlsRecord.DecodeEncodeHeader` | src/org/jitsi/impl/neomedia/transform/dtls/DtlsPacketTransformer.java:26-29 | decoding an encoded 13-byte header gives the header back, whatever follows it |
| `DtlsRecord.EncodeDecodeHeader` | src/org/jitsi/impl/neomedia/transform/dtls/DtlsPacketTransformer.java:26-29 | re-encoding a decoded header gives back the 13 bytes it came from |
| `Wire.ReadUint16IsBigEndian` | src/org/jitsi/impl/neomedia/transform/dtls/DtlsPacketTransformer.java:87 | the length read at off + 11 is the big-endian value of bytes 11 and 12 |
| `Wire.FromToBigEndian` | src/org/jitsi/impl/neomedia/transform/dtls/DtlsPacketTransformer.java:87 | decoding a big-endian field gives back the encoded integer |
| `Wire.ToFromBigEndian` | src/org/jitsi/impl/neomedia/transform/dtls/DtlsPacketTransformer.java:87 | encoding a decoded field gives back its bytes |
| `Transformer.DtlsPacketTransformer.constructor` | src/org/jitsi/impl/neomedia/transform/dtls/DtlsPacketTransformer.java:158-164 | a new transformer has no thread, transport, session, connector or media type |
| `Transformer.DtlsPacketTransformer.CloseDatagramTransport` | src/org/jitsi/impl/neomedia/transform/dtls/DtlsPacketTransformer.java:179-201 | closes the transport if there is one and leaves it unset |
| `Transformer.DtlsPacketTransformer.Stop` | src/org/jitsi/impl/neomedia/transform/dtls/DtlsPacketTransformer.java:561-583 | leaves thread, transport and session unset; the only calls are closing the session and then the transport, if they existed |
| `Transformer.DtlsPacketTransformer.Start` | src/org/jitsi/impl/neomedia/transform/dtls/DtlsPacketTransformer.java:461-556 | with a transport present nothing changes; otherwise fails on a bad role, then on a null connector, with no change; a failed launch rolls back both handles; success installs a fresh thread in the configured role and a fresh transport bound to the connector |
| `Transformer.DtlsPacketTransformer.SetMediaType` | src/org/jitsi/impl/neomedia/transform/dtls/DtlsPacketTransformer.java:444-456 | no-op when unchanged; otherwise stops the old activation, stores the type, and starts when the type is set, with start's outcome; the trace is stop's calls (close session, close transport) followed by nothing when a check fails, by exactly one bind of a fresh transport to the connector when the thread cannot be started, and by that bind of the installed transport on success |
| `Transformer.DtlsPacketTransformer.SetConnector` | src/org/jitsi/impl/neomedia/transform/dtls/DtlsPacketTransformer.java:406-417 | stores the connector; rebinds an existing transport only when the connector changed |
| `Transformer.DtlsPacketTransformer.SetDtlsProtocol` | src/org/jitsi/impl/neomedia/transform/dtls/DtlsPacketTransformer.java:429-435 | stores the role and changes nothing else |
| `Transformer.DtlsPacketTransformer.Close` | src/org/jitsi/impl/neomedia/transform/dtls/DtlsPacketTransformer.java:169-173 | connector and media type unset, every handle unset; calls: rebind to null, close session, close transport |
| `Transformer.DtlsPacketTransformer.Complete` | src/org/jitsi/impl/neomedia/transform/dtls/DtlsPacketTransformer.java:388-396 | the result is installed only if the thread and its transport are still current; the thread field is cleared only if it still refers to the thread |
| `Transformer.CurrentThreadOwnsCurrentTransport` | src/org/jitsi/impl/neomedia/transform/dtls/DtlsPacketTransformer.java:390-391 | a thread that is still current was started with the current transport, so the second comparison never rejects it |
| `Transformer.DtlsPacketTransformer.Transform` | src/org/jitsi/impl/neomedia/transform/dtls/DtlsPacketTransformer.java:588-625 | returns a DTLS record unchanged and everything else as null; sends the bytes exactly once when not a record and a session exists, else sends nothing |
| `Transformer.DtlsPacketTransformer.ReverseTransform` | src/org/jitsi/impl/neomedia/transform/dtls/DtlsPacketTransformer.java:228-329 | queues exactly the packet's bytes iff it is a record and a transport exists; receives with length equal to the limit iff a session exists too; the receive call waits DTLS_TRANSPORT_RECEIVE_WAITMILLIS (1 ms); returns the same packet holding exactly the decoded bytes iff receive produced a positive count; otherwise null |
| `Transformer.ResizeTo` | src/org/jitsi/impl/neomedia/transform/dtls/DtlsPacketTransformer.java:267-283 | grows or shrinks the packet to exactly the receive limit, keeping the bytes both lengths share as its prefix |
| `Transformer.DecodeInto` | src/org/jitsi/impl/neomedia/transform/dtls/DtlsPacketTransformer.java:285-306 | a positive count leaves the packet holding exactly the decoded bytes; a count <= 0 or an IOException leaves its length as it was and reports nothing decoded |
| `Packet.RawPacket.Grow` | src/org/jitsi/impl/neomedia/transform/dtls/DtlsPacketTransformer.java:270-276 | length grows by exactly delta, the old bytes stay as prefix, and the packet stays inside its buffer |
| `Packet.RawPacket.Shrink` | src/org/jitsi/impl/neomedia/transform/dtls/DtlsPacketTransformer.java:277-283 | length drops by the amount (floored at 0), keeping a prefix of the old bytes |
| `Scenarios.StaleHandshakeIgnored` | src/org/jitsi/impl/neomedia/transform/dtls/DtlsPacketTransformer.java:388-395 | start, restart, then the first thread completes: no session is installed; the current thread's session is |
| `Scenarios.StopTwiceHarmless` | src/org/jitsi/impl/neomedia/transform/dtls/DtlsPacketTransformer.java:561-583 | after an established session, setMediaType(null) twice and a further stop leave every handle unset |
| `Scenarios.FailedRestartClosesSession` | src/org/jitsi/impl/neomedia/transform/dtls/DtlsPacketTransformer.java:444-456 | after an established session and setConnector(null), a change of media type fails with the null-connector error, and its only calls are closing the session and then the transport |
| `Scenarios.DuplicateStartIgnored` | src/org/jitsi/impl/neomedia/transform/dtls/DtlsPacketTransformer.java:463-473 | start on a started transformer keeps the same thread and reports no error |
| `Scenarios.RestartAfterClose` | src/org/jitsi/impl/neomedia/transform/dtls/DtlsPacketTransformer.java:169-173 | after close, a new connector and media type start a new activation |
| `Scenarios.EncodedRecordPassesThrough` | src/org/jitsi/impl/neomedia/transform/dtls/DtlsPacketTransformer.java:594-599 | an encoded record of known type and version loops back through transform unchanged |
| `Scenarios.ReceiveAfterHandshake` | src/org/jitsi/impl/neomedia/transform/dtls/DtlsPacketTransformer.java:263-300 | with a session, an inbound record is queued into the transport, one receive of the limit's length is made, and the packet comes back as exactly the decoded bytes |
| `Scenarios.ReceiveBeforeHandshake` | src/org/jitsi/impl/neomedia/transform/dtls/DtlsPacketTransformer.java:250-262 | before a session exists, an inbound record is queued into the datagram transport as exactly its bytes, no receive is made, and nothing is returned |

## Left out

- DtlsRecord.IsDtlsRecord: Java reads the buffer as it goes, so a span shorter
  than 13 bytes inside the array but with `len >= 13` returns false after an
  unknown content type, or throws ArrayIndexOutOfBoundsException on a later read.
  The model requires the 13 header bytes to lie inside the buffer whenever
  `len >= 13`, so the out-of-range exception is not modelled. Every caller passes
  a packet that lies inside its buffer, which meets this requirement.
- Threads, `synchronized` and `notifyAll`: the model is sequential. The connect
  thread's completion is the explicit step `Complete`. The unsynchronised reads of
  `dtlsTransport` (lines 252 and 607) are modelled as plain reads.
- The Bouncy Castle engine: `DTLSClientProtocol.connect`, `DTLSServerProtocol.accept`,
  and record encryption in `DTLSTransport.receive` and `send`. Their results are
  parameters. `EngineHonours` states what the model assumes of `receive`: a
  positive count is the number of bytes written, and it is at most the length
  offered.
- `TlsClientImpl`, `TlsServerImpl` and `SecureRandom`. The thread records only
  its role (client or server) and its transport.
- The `IllegalStateException` at line 386 of `runInConnectThread`. The protocol
  object is always a client or a server protocol, so this branch cannot happen.
- The internals of `DatagramTransportImpl`: queueing, relaying toward the socket
  and `setConnector`. Calls into it are recorded in `trace`. `close` succeeds or
  fails with the same logged-and-swallowed outcome, so only the call is recorded.
  The same holds for `DTLSTransport.close`, and for `send`, whose IOException is
  swallowed.
- Logging and the warning of the duplicate-start guard. The accessors
  `getDtlsControl` and `getTransformEngine`, and the `transformEngine` field. The
  1 ms receive wait (`DTLS_TRANSPORT_RECEIVE_WAITMILLIS`) is recorded with each
  receive call; what the wait achieves is part of the outcome of `receive`, a
  parameter.
- `RawPacket.java`, `DtlsControl.java` and `MediaType.java` are not part of this
  model.
  - `Grow` and `Shrink` follow the role `reverseTransform` gives them. `grow`
    lengthens the packet by delta, reallocating the buffer when it lacks room.
    `shrink` shortens it, never below empty.
  - `DTLS_CLIENT_PROTOCOL` = 1 and `DTLS_SERVER_PROTOCOL` = 2. The model relies
    only on the two being distinct and different from the default 0.
  - `MediaType` is the enumeration of audio, video and data.
- `MediaStreamSentSSRCStats` delegates to a statistics engine that is not shown.
  `PacketTransformer` is an interface; its three operations are the methods
  `Close`, `ReverseTransform` and `Transform`.
- The engine's loop-back: what DTLS does with the bytes handed to `send`, and how they come
  back as a record, is the engine's business. `EncodedRecordPassesThrough` shows
  only that such a record, once framed, loops back through `Transform` unchanged.
