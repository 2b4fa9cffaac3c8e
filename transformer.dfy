/** DtlsPacketTransformer: demultiplexes DTLS records from the media packets sharing
    one socket, and drives the lifecycle of the DTLS session that protects them.

    The collaborators (the connector, the datagram transport that adapts it to the
    DTLS engine, the connect thread and the established DTLS session) are objects
    whose identity is all the transformer relies on; every call the transformer
    makes into them is recorded, in order, in the ghost `trace`. What the engine
    answers (a receive limit, a decoded record, a handshake result, whether a
    thread could be started) is a parameter of the operation that receives it. */
module Transformer {
  import opened Wire
  import opened DtlsRecord
  import opened Packet

  /** DtlsControl.DTLS_CLIENT_PROTOCOL and DtlsControl.DTLS_SERVER_PROTOCOL. */
  const DTLS_CLIENT_PROTOCOL: int := 1
  const DTLS_SERVER_PROTOCOL: int := 2

  /** How long, in milliseconds, reverseTransform lets the session's receive wait. */
  const DTLS_TRANSPORT_RECEIVE_WAITMILLIS: nat := 1

  /** The media types of the stream a transformer works for. */
  datatype MediaType = Audio | Video | Data

  /** The RTP connector that carries the packets. */
  class AbstractRTPConnector { }

  /** The adapter from the connector to the DTLS engine's datagram transport. */
  class DatagramTransportImpl {
    const componentID: int
    constructor (componentID: int)
      ensures this.componentID == componentID
    {
      this.componentID := componentID;
    }
  }

  /** An established DTLS session (Bouncy Castle's DTLSTransport). */
  class DtlsSession { }

  /** The background thread that runs the handshake (connect as a client, accept as
      a server) over the datagram transport it was started with. */
  class ConnectThread {
    const client: bool
    const transport: DatagramTransportImpl
    constructor (client: bool, transport: DatagramTransportImpl)
      ensures this.client == client && this.transport == transport
    {
      this.client, this.transport := client, transport;
    }
  }

  /** A call from the transformer into its collaborators. */
  datatype Call =
    | Bind(transport: DatagramTransportImpl, connector: AbstractRTPConnector?)
    | Queue(transport: DatagramTransportImpl, bytes: seq<byte>)
    | CloseTransport(transport: DatagramTransportImpl)
    | Receive(session: DtlsSession, length: nat, waitMillis: nat)
    | Send(session: DtlsSession, bytes: seq<byte>)
    | CloseSession(session: DtlsSession)

  /** What the session's receive did: decoded count bytes into the packet (the
      engine's timeout answer is a count <= 0), or raised an IOException. */
  datatype ReceiveOutcome = Received(count: int, plaintext: seq<byte>) | ReceiveFailed

  /** The engine writes at most the length it was offered, and exactly count bytes. */
  predicate EngineHonours(outcome: ReceiveOutcome, offered: nat) {
    outcome.Received? && outcome.count > 0 ==> |outcome.plaintext| == outcome.count <= offered
  }

  /** Why start() throws: the role is neither client nor server, there is no
      connector, or the connect thread could not be started. */
  datatype StartError = IllegalDtlsProtocol | NullConnector | ThreadNotStarted

  /** The calls stop() makes: close the session, then close the datagram transport. */
  ghost function StopCalls(session: DtlsSession?, transport: DatagramTransportImpl?): (calls: seq<Call>)
    ensures session == null && transport == null <==> calls == []
  {
    (if session != null then [CloseSession(session)] else [])
      + (if transport != null then [CloseTransport(transport)] else [])
  }

  class DtlsPacketTransformer {
    const componentID: int
    var connectThread: ConnectThread?
    var connector: AbstractRTPConnector?
    var datagramTransport: DatagramTransportImpl?
    var dtlsProtocol: int
    var dtlsTransport: DtlsSession?
    var mediaType: Option<MediaType>
    ghost var trace: seq<Call>

    /** The handles change together: a connect thread in flight belongs to the
        current datagram transport, a session exists only with its transport, and
        a transport exists only while a media type is set. */
    ghost predicate Valid()
      reads this
    {
      && (connectThread != null ==> connectThread.transport == datagramTransport)
      && (dtlsTransport != null ==> datagramTransport != null)
      && (datagramTransport != null ==> mediaType.Some?)
    }

    /** No handshake in flight, no transport, no session. */
    ghost predicate Idle()
      reads this
    {
      connectThread == null && datagramTransport == null && dtlsTransport == null
    }

    constructor (componentID: int)
      ensures Valid() && Idle()
      ensures this.componentID == componentID
      ensures connector == null && mediaType.None? && dtlsProtocol == 0 && trace == []
    {
      this.componentID := componentID;
      connectThread, connector, datagramTransport := null, null, null;
      dtlsProtocol, dtlsTransport, mediaType := 0, null, None;
      trace := [];
    }

    /** Closes the datagram transport, if any (a failure to close is logged and
        swallowed), and forgets it. */
    method CloseDatagramTransport()
      requires Valid() && dtlsTransport == null && connectThread == null
      modifies this`datagramTransport, this`trace
      ensures Valid() && Idle()
      ensures trace == old(trace) + StopCalls(null, old(datagramTransport))
    {
      if datagramTransport != null {
        trace := trace + [CloseTransport(datagramTransport)];
        datagramTransport := null;
      }
    }

    /** Stops: abandons the connect thread, closes the session and then the datagram
        transport (failures logged and swallowed). Stopping twice is harmless. */
    method Stop()
      requires Valid()
      modifies this
      ensures Valid() && Idle()
      ensures trace == old(trace) + StopCalls(old(dtlsTransport), old(datagramTransport))
      ensures connector == old(connector) && dtlsProtocol == old(dtlsProtocol) && mediaType == old(mediaType)
    {
      if connectThread != null {
        connectThread := null;
      }
      if dtlsTransport != null {
        trace := trace + [CloseSession(dtlsTransport)];
        dtlsTransport := null;
      }
      CloseDatagramTransport();
    }

    /** Starts: unless already started, binds a fresh datagram transport to the
        connector and launches a fresh connect thread in the configured role;
        launched is whether Thread.start succeeded. */
    method Start(launched: bool) returns (err: Option<StartError>)
      requires Valid() && mediaType.Some?
      modifies this
      ensures Valid()
      ensures connector == old(connector) && dtlsProtocol == old(dtlsProtocol) && mediaType == old(mediaType)
      ensures dtlsTransport == old(dtlsTransport)
      // the duplicate-start guard
      ensures old(datagramTransport) != null ==>
        err.None? && connectThread == old(connectThread) && datagramTransport == old(datagramTransport)
        && trace == old(trace)
      ensures old(datagramTransport) == null ==>
        err == (if dtlsProtocol != DTLS_CLIENT_PROTOCOL && dtlsProtocol != DTLS_SERVER_PROTOCOL then Some(IllegalDtlsProtocol)
                else if connector == null then Some(NullConnector)
                else if !launched then Some(ThreadNotStarted)
                else None)
      // fail-fast checks change nothing
      ensures old(datagramTransport) == null && (err == Some(IllegalDtlsProtocol) || err == Some(NullConnector)) ==>
        Idle() && trace == old(trace)
      // a thread that cannot be started is rolled back, its transport already bound
      ensures old(datagramTransport) == null && err == Some(ThreadNotStarted) ==>
        Idle() && |trace| == |old(trace)| + 1 && trace[..|old(trace)|] == old(trace)
        && trace[|old(trace)|].Bind? && fresh(trace[|old(trace)|].transport)
        && trace[|old(trace)|].connector == connector
      ensures old(datagramTransport) == null && err.None? ==>
        connectThread != null && datagramTransport != null
        && fresh(connectThread) && fresh(datagramTransport)
        && connectThread.transport == datagramTransport
        && connectThread.client == (dtlsProtocol == DTLS_CLIENT_PROTOCOL)
        && datagramTransport.componentID == componentID
        && trace == old(trace) + [Bind(datagramTransport, connector)]
    {
      if datagramTransport != null {
        // A warning is logged when neither a thread nor a session exists.
        return None;
      }
      var protocol := dtlsProtocol;
      if protocol != DTLS_CLIENT_PROTOCOL && protocol != DTLS_SERVER_PROTOCOL {
        return Some(IllegalDtlsProtocol);
      }
      var c := connector;
      if c == null {
        return Some(NullConnector);
      }
      var transport := new DatagramTransportImpl(componentID);
      trace := trace + [Bind(transport, c)];
      var thread := new ConnectThread(protocol == DTLS_CLIENT_PROTOCOL, transport);
      connectThread := thread;
      datagramTransport := transport;
      if !launched {
        if thread == connectThread {
          connectThread := null;
        }
        if transport == datagramTransport {
          datagramTransport := null;
        }
        return Some(ThreadNotStarted);
      }
      err := None;
    }

    /** setMediaType: a change of media type stops the old activation (if any),
        stores the new type and starts a new activation (if the type is set). */
    method SetMediaType(m: Option<MediaType>, launched: bool) returns (err: Option<StartError>)
      requires Valid()
      modifies this
      ensures Valid() && mediaType == m
      ensures connector == old(connector) && dtlsProtocol == old(dtlsProtocol)
      ensures m == old(mediaType) ==>
        err.None? && connectThread == old(connectThread) && datagramTransport == old(datagramTransport)
        && dtlsTransport == old(dtlsTransport) && trace == old(trace)
      ensures m != old(mediaType) && m.None? ==>
        err.None? && Idle() && trace == old(trace) + StopCalls(old(dtlsTransport), old(datagramTransport))
      ensures m != old(mediaType) && m.Some? ==>
        dtlsTransport == null
        && err == (if dtlsProtocol != DTLS_CLIENT_PROTOCOL && dtlsProtocol != DTLS_SERVER_PROTOCOL then Some(IllegalDtlsProtocol)
                   else if connector == null then Some(NullConnector)
                   else if !launched then Some(ThreadNotStarted)
                   else None)
        && (err.Some? ==> connectThread == null && datagramTransport == null)
        // stop's calls come first; a failed check adds nothing after them
        && ((err == Some(IllegalDtlsProtocol) || err == Some(NullConnector)) ==>
              trace == old(trace) + StopCalls(old(dtlsTransport), old(datagramTransport)))
        // a thread that cannot be started leaves one bind of a fresh transport after them
        && (err == Some(ThreadNotStarted) ==>
              var stopped := old(trace) + StopCalls(old(dtlsTransport), old(datagramTransport));
              |trace| == |stopped| + 1 && trace[..|stopped|] == stopped
              && trace[|stopped|].Bind? && fresh(trace[|stopped|].transport)
              && trace[|stopped|].connector == connector)
        && (err.None? ==>
              connectThread != null && datagramTransport != null
              && fresh(connectThread) && fresh(datagramTransport)
              && connectThread.transport == datagramTransport
              && connectThread.client == (dtlsProtocol == DTLS_CLIENT_PROTOCOL)
              && trace == old(trace) + StopCalls(old(dtlsTransport), old(datagramTransport))
                          + [Bind(datagramTransport, connector)])
    {
      err := None;
      if mediaType != m {
        if mediaType.Some? {
          Stop();
        }
        mediaType := m;
        if mediaType.Some? {
          // Either stop has just run or no media type was set: no transport exists.
          assert datagramTransport == null;
          err := Start(launched);
        }
      }
    }

    /** setConnector: a new connector is stored and the existing datagram transport,
        if any, is rebound to it. */
    method SetConnector(c: AbstractRTPConnector?)
      requires Valid()
      modifies this`connector, this`trace
      ensures Valid() && connector == c
      ensures trace == old(trace) + (if c != old(connector) && datagramTransport != null
                                     then [Bind(datagramTransport, c)] else [])
    {
      if connector != c {
        connector := c;
        var transport := datagramTransport;
        if transport != null {
          trace := trace + [Bind(transport, c)];
        }
      }
    }

    /** setDtlsProtocol: the role the next start uses. */
    method SetDtlsProtocol(protocol: int)
      requires Valid()
      modifies this`dtlsProtocol
      ensures Valid() && dtlsProtocol == protocol
    {
      if dtlsProtocol != protocol {
        dtlsProtocol := protocol;
      }
    }

    /** close: forgets the connector, then clears the media type, which stops the
        activation. A later setConnector and setMediaType start afresh. */
    method Close()
      requires Valid()
      modifies this
      ensures Valid() && Idle()
      ensures connector == null && mediaType.None? && dtlsProtocol == old(dtlsProtocol)
      ensures trace == old(trace)
        + (if old(connector) != null && old(datagramTransport) != null
           then [Bind(old(datagramTransport), null)] else [])
        + StopCalls(old(dtlsTransport), old(datagramTransport))
    {
      SetConnector(null);
      var _ := SetMediaType(None, true);
    }

    /** The end of the connect thread t's run: the handshake produced result (null
        when connect/accept failed). It is installed only if t is still the current
        thread and its transport the current transport; then t clears the
        connect thread field if the field still refers to it. */
    method Complete(t: ConnectThread, result: DtlsSession?)
      requires Valid()
      modifies this`dtlsTransport, this`connectThread
      ensures Valid()
      ensures dtlsTransport ==
        if t == old(connectThread) && t.transport == datagramTransport then result else old(dtlsTransport)
      ensures connectThread == if t == old(connectThread) then null else old(connectThread)
    {
      if t == connectThread && t.transport == datagramTransport {
        dtlsTransport := result;
      }
      if t == connectThread {
        connectThread := null;
      }
    }

    /** transform (outbound): a DTLS record passes through untouched; anything else
        is application data, handed to the session's send when a session exists
        (an IOException is logged and swallowed) and dropped from the pipeline. */
    method Transform(pkt: RawPacket) returns (r: RawPacket?)
      requires Valid() && pkt.Valid()
      modifies this`trace
      ensures Valid()
      ensures r == if IsRecordPacket(pkt) then pkt else null
      ensures trace == old(trace) +
        (if !IsRecordPacket(pkt) && dtlsTransport != null
         then [Send(dtlsTransport, pkt.Bytes())] else [])
    {
      if !IsDtlsRecord(pkt.buffer[..], pkt.offset, pkt.length) {
        r := null;
        var session := dtlsTransport;
        if session != null {
          trace := trace + [Send(session, pkt.Bytes())];
        }
      } else {
        r := pkt;
      }
    }

    /** reverseTransform (inbound): a DTLS record is queued into the datagram
        transport when there is one; with a session, the packet is resized to the
        session's receive limit (limit is None when getReceiveLimit raised an
        IOException), decoded into, and returned holding exactly the decoded bytes.
        Every other case drops the packet. */
    method ReverseTransform(pkt: RawPacket, limit: Option<nat>, outcome: ReceiveOutcome) returns (r: RawPacket?)
      requires Valid() && pkt.Valid()
      requires limit.Some? ==> EngineHonours(outcome, limit.value)
      modifies this`trace, pkt, pkt.buffer
      ensures Valid() && pkt.Valid()
      ensures r == null || r == pkt
      ensures r != null <==>
        old(IsRecordPacket(pkt)) && datagramTransport != null && dtlsTransport != null
        && limit.Some? && outcome.Received? && outcome.count > 0
      ensures trace == old(trace) +
        (if old(IsRecordPacket(pkt)) && datagramTransport != null
         then [Queue(datagramTransport, old(pkt.Bytes()))]
              + (if dtlsTransport != null && limit.Some? then [Receive(dtlsTransport, limit.value, DTLS_TRANSPORT_RECEIVE_WAITMILLIS)] else [])
         else [])
      ensures r != null ==> pkt.Bytes() == outcome.plaintext
      ensures (old(IsRecordPacket(pkt)) && datagramTransport != null && dtlsTransport != null
               && limit.Some? && r == null) ==> pkt.length == limit.value
      ensures !(old(IsRecordPacket(pkt)) && datagramTransport != null && dtlsTransport != null && limit.Some?) ==>
        pkt.buffer == old(pkt.buffer) && pkt.offset == old(pkt.offset) && pkt.length == old(pkt.length)
        && pkt.buffer[..] == old(pkt.buffer[..])
    {
      if !IsDtlsRecord(pkt.buffer[..], pkt.offset, pkt.length) {
        // Not a DTLS record, so not a packet of this secure channel.
        return null;
      }
      var transport := datagramTransport;
      if transport == null {
        // A DTLS record, but unexpected in the current state.
        return null;
      }
      trace := trace + [Queue(transport, pkt.Bytes())];
      var session := dtlsTransport;
      if session == null {
        // Consumed by the handshake.
        return null;
      }
      if limit.None? {
        return null;
      }
      ResizeTo(pkt, limit.value);
      trace := trace + [Receive(session, pkt.length, DTLS_TRANSPORT_RECEIVE_WAITMILLIS)];
      var decoded := DecodeInto(pkt, outcome);
      r := if decoded then pkt else null;
    }
  }

  /** While the invariant holds, the connect thread that is current was started
      with the current transport, so the transport half of the completion check
      never rejects a current thread. */
  lemma CurrentThreadOwnsCurrentTransport(x: DtlsPacketTransformer, t: ConnectThread)
    requires x.Valid() && t == x.connectThread
    ensures t.transport == x.datagramTransport
  {
  }

  /** Whether the packet's bytes look like a DTLS record. */
  ghost predicate IsRecordPacket(pkt: RawPacket)
    reads pkt, pkt.buffer
    requires pkt.Valid()
  {
    IsDtlsRecord(pkt.buffer[..], pkt.offset, pkt.length)
  }

  /** Grows or shrinks pkt so that its length is target, keeping the bytes both
      lengths share. */
  method ResizeTo(pkt: RawPacket, target: nat)
    requires pkt.Valid()
    modifies pkt
    ensures pkt.Valid() && pkt.length == target
    ensures pkt.buffer == old(pkt.buffer) || fresh(pkt.buffer)
    ensures target <= old(pkt.length) ==> pkt.Bytes() == old(pkt.Bytes())[..target]
    ensures target >= old(pkt.length) ==> pkt.Bytes()[..old(pkt.length)] == old(pkt.Bytes())
  {
    var delta := target - pkt.length;
    if delta > 0 {
      pkt.Grow(delta);
    } else if delta < 0 {
      pkt.Shrink(-delta);
    }
  }

  /** The session's receive into pkt and what follows it: the packet is cut down
      to the decoded bytes, or reported as holding no application data. */
  method DecodeInto(pkt: RawPacket, outcome: ReceiveOutcome) returns (decoded: bool)
    requires pkt.Valid() && EngineHonours(outcome, pkt.length)
    modifies pkt`length, pkt.buffer
    ensures pkt.Valid() && pkt.buffer == old(pkt.buffer) && pkt.offset == old(pkt.offset)
    ensures decoded == (outcome.Received? && outcome.count > 0)
    ensures decoded ==> pkt.Bytes() == outcome.plaintext
    ensures !decoded ==> pkt.length == old(pkt.length)
  {
    match outcome {
      case ReceiveFailed =>
        // An IOException is logged and the packet dropped.
        decoded := false;
      case Received(received, plaintext) =>
        if received <= 0 {
          // No application data was decoded.
          decoded := false;
        } else {
          CopyInto(plaintext, pkt.buffer, pkt.offset);
          assert pkt.buffer[pkt.offset..pkt.offset + received] == plaintext;
          var delta := pkt.length - received;
          if delta > 0 {
            pkt.Shrink(delta);
          }
          decoded := true;
        }
    }
  }
}
