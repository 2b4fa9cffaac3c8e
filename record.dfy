/** The DTLS record header (section 4.1 of RFC 6347 for DTLS 1.2, section 4.1
    of RFC 4347 for DTLS 1.0) and the sniffer that tells DTLS records apart
    from the media packets sharing the same socket. */
module DtlsRecord {
  import opened Wire

  /** Bytes of a record header: type (1), version (2), epoch (2), sequence number (6), length (2). */
  const DTLS_RECORD_HEADER_LENGTH: nat := 13

  /** ContentType codes of section 6.2.1 of RFC 5246. */
  const CHANGE_CIPHER_SPEC: byte := 20
  const ALERT: byte := 21
  const HANDSHAKE: byte := 22
  const APPLICATION_DATA: byte := 23

  /** The content types the sniffer recognises; any other code is not a record. */
  predicate IsKnownContentType(t: byte) {
    t == ALERT || t == APPLICATION_DATA || t == CHANGE_CIPHER_SPEC || t == HANDSHAKE
  }

  /** The two record-layer versions the sniffer recognises, with their wire bytes. */
  datatype ProtocolVersion = DTLSv10 | DTLSv12 {
    function MajorVersion(): byte { 254 }
    function MinorVersion(): byte { if DTLSv10? then 255 else 253 }
  }

  /** The version a (major, minor) pair denotes, trying DTLS 1.0 before DTLS 1.2. */
  function ParseVersion(major: byte, minor: byte): (v: Option<ProtocolVersion>)
    ensures v.Some? ==> v.value.MajorVersion() == major && v.value.MinorVersion() == minor
    ensures v.None? ==> forall pv: ProtocolVersion :: pv.MajorVersion() != major || pv.MinorVersion() != minor
  {
    var version :=
      if major == DTLSv10.MajorVersion() && minor == DTLSv10.MinorVersion() then Some(DTLSv10) else None;
    if version.None? && major == DTLSv12.MajorVersion() && minor == DTLSv12.MinorVersion() then Some(DTLSv12)
    else version
  }

  /** Every supported version is recognised from its own wire bytes. */
  lemma ParseVersionRoundTrip(pv: ProtocolVersion)
    ensures ParseVersion(pv.MajorVersion(), pv.MinorVersion()) == Some(pv)
  {
  }

  /** The fields of a record header, as integers. */
  datatype RecordHeader = RecordHeader(
    contentType: byte, major: byte, minor: byte,
    epoch: nat, sequenceNumber: nat, length: nat)

  /** Each field fits its width on the wire. */
  predicate WellFormed(h: RecordHeader) {
    h.epoch < Pow256(2) && h.sequenceNumber < Pow256(6) && h.length < Pow256(2)
  }

  /** The 13 header bytes of h. */
  function EncodeHeader(h: RecordHeader): (r: seq<byte>)
    requires WellFormed(h)
    ensures |r| == DTLS_RECORD_HEADER_LENGTH
  {
    [h.contentType, h.major, h.minor]
      + ToBigEndian(h.epoch, 2) + ToBigEndian(h.sequenceNumber, 6) + ToBigEndian(h.length, 2)
  }

  /** The header spelt by the first 13 bytes of s. */
  function DecodeHeader(s: seq<byte>): (h: RecordHeader)
    requires |s| >= DTLS_RECORD_HEADER_LENGTH
    ensures WellFormed(h)
  {
    RecordHeader(s[0], s[1], s[2], FromBigEndian(s[3..5]), FromBigEndian(s[5..11]), FromBigEndian(s[11..13]))
  }

  /** Where the fields of a header sit among its bytes. */
  lemma HeaderLayout(a: seq<byte>, e: seq<byte>, s: seq<byte>, l: seq<byte>, rest: seq<byte>)
    requires |a| == 3 && |e| == 2 && |s| == 6 && |l| == 2
    ensures var all := a + e + s + l + rest;
            all[0] == a[0] && all[1] == a[1] && all[2] == a[2]
            && all[3..5] == e && all[5..11] == s && all[11..13] == l
  {
  }

  /** Decoding the bytes of an encoded header, whatever follows it, gives the header back. */
  lemma DecodeEncodeHeader(h: RecordHeader, rest: seq<byte>)
    requires WellFormed(h)
    ensures DecodeHeader(EncodeHeader(h) + rest) == h
  {
    var e, s := ToBigEndian(h.epoch, 2), ToBigEndian(h.sequenceNumber, 6);
    var l := ToBigEndian(h.length, 2);
    HeaderLayout([h.contentType, h.major, h.minor], e, s, l, rest);
    FromToBigEndian(h.epoch, 2);
    FromToBigEndian(h.sequenceNumber, 6);
    FromToBigEndian(h.length, 2);
  }

  /** Re-encoding a decoded header gives back exactly the 13 bytes it came from. */
  lemma EncodeDecodeHeader(s: seq<byte>)
    requires |s| >= DTLS_RECORD_HEADER_LENGTH
    ensures EncodeHeader(DecodeHeader(s)) == s[..DTLS_RECORD_HEADER_LENGTH]
  {
    ToFromBigEndian(s[3..5]);
    ToFromBigEndian(s[5..11]);
    ToFromBigEndian(s[11..13]);
    assert s[..13] == s[..3] + s[3..5] + s[5..11] + s[11..13];
  }

  /** What makes `available` bytes that start with header h a DTLS record: a known
      content type, a supported version, and the whole body present. */
  predicate FramesRecord(h: RecordHeader, available: int) {
    IsKnownContentType(h.contentType) && ParseVersion(h.major, h.minor).Some?
    && DTLS_RECORD_HEADER_LENGTH + h.length <= available
  }

  /** The sniffer needs its 13 header bytes to exist only when len admits a header. */
  predicate ReadableSpan(buf: seq<byte>, off: int, len: int) {
    len >= DTLS_RECORD_HEADER_LENGTH ==> 0 <= off && off + DTLS_RECORD_HEADER_LENGTH <= |buf|
  }

  /** DtlsPacketTransformer.isDtlsRecord: whether buf[off..off + len] appears to hold a DTLS record. */
  function IsDtlsRecord(buf: seq<byte>, off: int, len: int): (b: bool)
    requires ReadableSpan(buf, off, len)
    ensures len < DTLS_RECORD_HEADER_LENGTH ==> !b
    ensures b ==> IsKnownContentType(buf[off]) && ParseVersion(buf[off + 1], buf[off + 2]).Some?
    ensures b ==> DTLS_RECORD_HEADER_LENGTH + ReadUint16(buf, off + 11) <= len
  {
    if len >= DTLS_RECORD_HEADER_LENGTH then
      var t := buf[off];
      if IsKnownContentType(t) then
        match ParseVersion(buf[off + 1], buf[off + 2])
        case Some(_) => DTLS_RECORD_HEADER_LENGTH + ReadUint16(buf, off + 11) <= len
        case None => false
      else false
    else false
  }

  /** The sniffer accepts only content types 20 to 23 and only the version bytes
      (254, 255) of DTLS 1.0 or (254, 253) of DTLS 1.2. */
  lemma SnifferAcceptsOnlyKnownTypesAndVersions(buf: seq<byte>, off: int, len: int)
    requires ReadableSpan(buf, off, len) && IsDtlsRecord(buf, off, len)
    ensures 20 <= buf[off] <= 23
    ensures buf[off + 1] == 254 && (buf[off + 2] == 255 || buf[off + 2] == 253)
  {
  }

  /** Once type and version pass, the verdict is exactly whether the declared body
      length fits in the span. */
  lemma SnifferLengthCheck(buf: seq<byte>, off: int, len: int)
    requires len >= DTLS_RECORD_HEADER_LENGTH && 0 <= off && off + DTLS_RECORD_HEADER_LENGTH <= |buf|
    requires 20 <= buf[off] <= 23
    requires buf[off + 1] == 254 && (buf[off + 2] == 255 || buf[off + 2] == 253)
    ensures IsDtlsRecord(buf, off, len)
        <==> DTLS_RECORD_HEADER_LENGTH + (buf[off + 11] as int * 256 + buf[off + 12] as int) <= len
  {
  }

  /** The sniffer accepts a span exactly when its first 13 bytes decode to a header
      that frames a record within the span. */
  lemma IsDtlsRecordIffFramesRecord(buf: seq<byte>, off: int, len: int)
    requires len >= DTLS_RECORD_HEADER_LENGTH && 0 <= off && off + DTLS_RECORD_HEADER_LENGTH <= |buf|
    ensures IsDtlsRecord(buf, off, len)
        <==> FramesRecord(DecodeHeader(buf[off..off + DTLS_RECORD_HEADER_LENGTH]), len)
  {
    var hdr := buf[off..off + DTLS_RECORD_HEADER_LENGTH];
    ReadUint16IsBigEndian(buf, off + 11);
    assert hdr[11..13] == buf[off + 11..off + 13];
  }

  /** Only bytes 0, 1, 2, 11 and 12 of the span and len decide the result: epoch,
      sequence number and body never do. */
  lemma SnifferReadsOnlyTypeVersionLength(buf: seq<byte>, off: int, buf': seq<byte>, off': int, len: int)
    requires ReadableSpan(buf, off, len) && ReadableSpan(buf', off', len)
    requires len >= DTLS_RECORD_HEADER_LENGTH ==>
      buf[off] == buf'[off'] && buf[off + 1] == buf'[off' + 1] && buf[off + 2] == buf'[off' + 2]
      && buf[off + 11] == buf'[off' + 11] && buf[off + 12] == buf'[off' + 12]
    ensures IsDtlsRecord(buf, off, len) == IsDtlsRecord(buf', off', len)
  {
  }

  /** A record recognised in a span is still recognised when more bytes follow it. */
  lemma SnifferMonotoneInLength(buf: seq<byte>, off: int, len: int, len': int)
    requires ReadableSpan(buf, off, len) && ReadableSpan(buf, off, len')
    requires len <= len' && IsDtlsRecord(buf, off, len)
    ensures IsDtlsRecord(buf, off, len')
  {
  }

  /** Any record the engine frames (a supported header followed by its whole body)
      is recognised by the sniffer, whatever the body holds. */
  lemma EncodedRecordIsSniffed(h: RecordHeader, body: seq<byte>)
    requires WellFormed(h) && IsKnownContentType(h.contentType) && ParseVersion(h.major, h.minor).Some?
    requires h.length <= |body|
    ensures IsDtlsRecord(EncodeHeader(h) + body, 0, DTLS_RECORD_HEADER_LENGTH + |body|)
  {
    var buf := EncodeHeader(h) + body;
    DecodeEncodeHeader(h, []);
    IsDtlsRecordIffFramesRecord(buf, 0, DTLS_RECORD_HEADER_LENGTH + |body|);
    assert buf[0..DTLS_RECORD_HEADER_LENGTH] == EncodeHeader(h) + [];
  }

  /** Conversely, every span the sniffer accepts starts with the encoding of a
      supported header whose body fits in the span. */
  lemma SniffedRecordHasHeader(buf: seq<byte>, off: int, len: int)
    requires ReadableSpan(buf, off, len) && IsDtlsRecord(buf, off, len)
    ensures exists h :: WellFormed(h) && FramesRecord(h, len)
                       && buf[off..off + DTLS_RECORD_HEADER_LENGTH] == EncodeHeader(h)
  {
    var hdr := buf[off..off + DTLS_RECORD_HEADER_LENGTH];
    var h := DecodeHeader(hdr);
    IsDtlsRecordIffFramesRecord(buf, off, len);
    EncodeDecodeHeader(hdr);
    assert hdr[..DTLS_RECORD_HEADER_LENGTH] == hdr;
  }

  /** The worked example: a handshake header of DTLS 1.2 declaring a 5-byte body
      is a record in 18 bytes and not in 17 (nor in 10). */
  lemma HandshakeExample(body: seq<byte>)
    requires |body| == 5
    ensures var buf := [22, 254, 253, 0, 0, 0, 0, 0, 0, 0, 0, 0, 5] + body;
            IsDtlsRecord(buf, 0, 18) && !IsDtlsRecord(buf, 0, 17) && !IsDtlsRecord(buf, 0, 10)
  {
    var buf: seq<byte> := [22, 254, 253, 0, 0, 0, 0, 0, 0, 0, 0, 0, 5] + body;
    assert buf[0] == 22 && buf[1] == 254 && buf[2] == 253 && buf[11] == 0 && buf[12] == 5;
  }
}
