/** Bytes, optional values and the big-endian integer encoding used by the
    fields of a DTLS record header. */
module Wire {

  /** An unsigned octet, as Java's `b & 0xff` (or TlsUtils.readUint8) sees it. */
  newtype byte = b: int | 0 <= b < 256

  /** A value that may be absent, standing for a Java reference that may be null. */
  datatype Option<+T> = None | Some(value: T)

  /** 256 to the power k: the number of values a k-byte field can hold. */
  function Pow256(k: nat): (r: nat)
    ensures r >= 1
    ensures k >= 1 ==> r >= 256
  {
    if k == 0 then 1 else 256 * Pow256(k - 1)
  }

  /** The unsigned integer that the bytes of s spell, most significant byte first. */
  function FromBigEndian(s: seq<byte>): (r: nat)
    ensures r < Pow256(|s|)
  {
    if s == [] then 0 else FromBigEndian(s[..|s| - 1]) * 256 + s[|s| - 1] as nat
  }

  /** The width-byte big-endian encoding of x. */
  function ToBigEndian(x: nat, width: nat): (r: seq<byte>)
    requires x < Pow256(width)
    ensures |r| == width
  {
    if width == 0 then [] else
      DivideByBase(x, width);
      ToBigEndian(x / 256, width - 1) + [(x % 256) as byte]
  }

  /** Dropping the last byte of a field divides the bound by 256. */
  lemma DivideByBase(x: nat, width: nat)
    requires width >= 1 && x < Pow256(width)
    ensures x / 256 < Pow256(width - 1)
  {
  }

  /** Decoding an encoded integer gives the integer back. */
  lemma {:induction false} FromToBigEndian(x: nat, width: nat)
    requires x < Pow256(width)
    ensures FromBigEndian(ToBigEndian(x, width)) == x
  {
    if width > 0 {
      DivideByBase(x, width);
      var hi := ToBigEndian(x / 256, width - 1);
      FromToBigEndian(x / 256, width - 1);
      assert (hi + [(x % 256) as byte])[..width - 1] == hi;
    }
  }

  /** Encoding a decoded field gives the field back: the encoding is onto. */
  lemma {:induction false} ToFromBigEndian(s: seq<byte>)
    ensures ToBigEndian(FromBigEndian(s), |s|) == s
  {
    if s != [] {
      var init, last := s[..|s| - 1], s[|s| - 1];
      var x := FromBigEndian(s);
      assert x == FromBigEndian(init) * 256 + last as nat;
      assert x / 256 == FromBigEndian(init) && x % 256 == last as nat;
      ToFromBigEndian(init);
      assert init + [last] == s;
    }
  }

  /** TlsUtils.readUint16: the big-endian 16-bit value at buf[i], buf[i + 1]. */
  function ReadUint16(buf: seq<byte>, i: int): (r: nat)
    requires 0 <= i && i + 2 <= |buf|
    ensures r < Pow256(2)
  {
    buf[i] as nat * 256 + buf[i + 1] as nat
  }

  /** ReadUint16 decodes the two-byte big-endian field at i. */
  lemma ReadUint16IsBigEndian(buf: seq<byte>, i: int)
    requires 0 <= i && i + 2 <= |buf|
    ensures ReadUint16(buf, i) == FromBigEndian(buf[i..i + 2])
  {
  }
}
