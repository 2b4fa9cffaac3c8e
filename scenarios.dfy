/** Client programs that drive a fresh transformer through the sequences the design
    cares about, and state what a caller observes at the end. */
module Scenarios {
  import opened Wire
  import opened DtlsRecord
  import opened Packet
  import opened Transformer

  /** The handles of a transformer after it has been activated as a client. */
  method NewActiveClient(c: AbstractRTPConnector) returns (x: DtlsPacketTransformer)
    ensures fresh(x) && x.Valid() && x.connectThread != null && x.dtlsTransport == null
    ensures x.connectThread.client && x.connector == c && x.mediaType == Some(Audio)
    ensures x.dtlsProtocol == DTLS_CLIENT_PROTOCOL
  {
    x := new DtlsPacketTransformer(0);
    x.SetConnector(c);
    x.SetDtlsProtocol(DTLS_CLIENT_PROTOCOL);
    var err := x.SetMediaType(Some(Audio), true);
  }

  /** A handshake of an activation that has since been replaced completes late: its
      session is not installed, while the current activation's session is. */
  method StaleHandshakeIgnored(c: AbstractRTPConnector, stale: DtlsSession, current: DtlsSession)
    returns (afterStale: DtlsSession?, afterCurrent: DtlsSession?)
    ensures afterStale == null && afterCurrent == current
  {
    var x := NewActiveClient(c);
    var first := x.connectThread;
    var err := x.SetMediaType(Some(Video), true);
    var second := x.connectThread;
    x.Complete(first, stale);
    afterStale := x.dtlsTransport;
    x.Complete(second, current);
    afterCurrent := x.dtlsTransport;
  }

  /** Deactivating twice (two setMediaType(null) calls after an established
      session) leaves every handle unset both times. */
  method StopTwiceHarmless(c: AbstractRTPConnector, s: DtlsSession)
    returns (thread: ConnectThread?, transport: DatagramTransportImpl?, session: DtlsSession?, established: bool)
    ensures established && thread == null && transport == null && session == null
  {
    var x := NewActiveClient(c);
    x.Complete(x.connectThread, s);
    established := x.dtlsTransport == s && x.datagramTransport != null;
    var err := x.SetMediaType(None, true);
    assert x.Idle();
    err := x.SetMediaType(None, true);
    x.Stop();
    thread, transport, session := x.connectThread, x.datagramTransport, x.dtlsTransport;
  }

  /** A restart that fails for want of a connector still stops the old activation
      first: the established session and its transport are closed, in that order,
      and nothing else is called. */
  method FailedRestartClosesSession(c: AbstractRTPConnector, s: DtlsSession)
    returns (err: Option<StartError>, transport: DatagramTransportImpl?, ghost calls: seq<Call>)
    ensures err == Some(NullConnector) && transport != null
    ensures calls == [CloseSession(s), CloseTransport(transport)]
  {
    var x := NewActiveClient(c);
    x.Complete(x.connectThread, s);
    transport := x.datagramTransport;
    x.SetConnector(null);
    ghost var before := x.trace;
    err := x.SetMediaType(Some(Video), true);
    calls := x.trace[|before|..];
  }

  /** Starting an activation that is already started keeps its thread and transport. */
  method DuplicateStartIgnored(c: AbstractRTPConnector)
    returns (first: ConnectThread?, second: ConnectThread?, err: Option<StartError>)
    ensures first != null && first == second && err.None?
  {
    var x := NewActiveClient(c);
    first := x.connectThread;
    err := x.Start(true);
    second := x.connectThread;
  }

  /** A transformer that was closed can be configured and started again. */
  method RestartAfterClose(c: AbstractRTPConnector) returns (err: Option<StartError>, restarted: bool)
    ensures err.None? && restarted
  {
    var x := NewActiveClient(c);
    x.Close();
    x.SetConnector(c);
    err := x.SetMediaType(Some(Data), true);
    restarted := x.connectThread != null && x.datagramTransport != null;
  }

  /** A packet holding the bytes s, at offset 0. */
  method PacketOf(s: seq<byte>) returns (pkt: RawPacket)
    ensures fresh(pkt) && fresh(pkt.buffer) && pkt.Valid() && pkt.offset == 0 && pkt.length == |s|
    ensures pkt.buffer[..] == s
  {
    var a := new byte[|s|](i requires 0 <= i < |s| => s[i]);
    pkt := new RawPacket(a, 0, |s|);
  }

  /** The engine's own output loops back through transform: a framed record of a
      known type and version comes back unchanged, whatever its body. */
  method EncodedRecordPassesThrough(c: AbstractRTPConnector, s: DtlsSession, h: RecordHeader, body: seq<byte>)
    returns (sent: RawPacket, r: RawPacket?)
    requires WellFormed(h) && IsKnownContentType(h.contentType) && ParseVersion(h.major, h.minor).Some?
    requires h.length <= |body|
    ensures r == sent
  {
    var x := NewActiveClient(c);
    x.Complete(x.connectThread, s);
    sent := PacketOf(EncodeHeader(h) + body);
    EncodedRecordIsSniffed(h, body);
    r := x.Transform(sent);
  }

  /** An inbound record after the handshake is queued, then one receive of the
      limit's length is made, and the packet comes back as the decoded bytes. */
  method ReceiveAfterHandshake(c: AbstractRTPConnector, s: DtlsSession, record: seq<byte>,
                               limit: nat, plaintext: seq<byte>)
    returns (r: RawPacket?, decoded: seq<byte>, transport: DatagramTransportImpl?, ghost calls: seq<Call>)
    requires IsDtlsRecord(record, 0, |record|)
    requires 0 < |plaintext| <= limit
    ensures r != null && decoded == plaintext
    ensures transport != null
    ensures calls == [Queue(transport, record), Receive(s, limit, DTLS_TRANSPORT_RECEIVE_WAITMILLIS)]
  {
    var x := NewActiveClient(c);
    x.Complete(x.connectThread, s);
    var pkt := PacketOf(record);
    assert pkt.Bytes() == record;
    ghost var before := x.trace;
    transport := x.datagramTransport;
    r := x.ReverseTransform(pkt, Some(limit), Received(|plaintext|, plaintext));
    decoded := r.buffer[r.offset..r.offset + r.length];
    calls := x.trace[|before|..];
  }

  /** The same inbound record before the handshake completes is consumed: it is
      queued into the datagram transport, nothing is received from a session, and
      nothing is returned. */
  method ReceiveBeforeHandshake(c: AbstractRTPConnector, record: seq<byte>, limit: nat, plaintext: seq<byte>)
    returns (r: RawPacket?, transport: DatagramTransportImpl?, ghost calls: seq<Call>)
    requires IsDtlsRecord(record, 0, |record|)
    requires 0 < |plaintext| <= limit
    ensures r == null
    ensures transport != null && calls == [Queue(transport, record)]
  {
    var x := NewActiveClient(c);
    var pkt := PacketOf(record);
    assert pkt.Bytes() == record;
    ghost var before := x.trace;
    transport := x.datagramTransport;
    r := x.ReverseTransform(pkt, Some(limit), Received(|plaintext|, plaintext));
    calls := x.trace[|before|..];
  }
}
