/** The packet buffer the media pipeline hands to a packet transformer: a byte
    array with the offset and length of the packet inside it, resized in place. */
module Packet {
  import opened Wire

  /** System.arraycopy of src into dst at position at; the rest of dst is kept. */
  method CopyInto(src: seq<byte>, dst: array<byte>, at: nat)
    requires at + |src| <= dst.Length
    modifies dst
    ensures dst[..] == old(dst[..at]) + src + old(dst[at + |src|..])
  {
    var i := 0;
    while i < |src|
      invariant 0 <= i <= |src|
      invariant dst[..at] == old(dst[..at])
      invariant dst[at..at + i] == src[..i]
      invariant dst[at + |src|..] == old(dst[at + |src|..])
    {
      dst[at + i] := src[i];
      i := i + 1;
      assert dst[at..at + i] == dst[at..at + i - 1] + [src[i - 1]];
    }
    assert dst[..] == dst[..at] + dst[at..at + |src|] + dst[at + |src|..];
  }

  class RawPacket {
    var buffer: array<byte>
    var offset: nat
    var length: nat

    /** The packet lies inside its buffer. */
    ghost predicate Valid()
      reads this
    {
      offset + length <= buffer.Length
    }

    /** The bytes of the packet. */
    ghost function Bytes(): (s: seq<byte>)
      reads this, buffer
      requires Valid()
      ensures |s| == length
    {
      buffer[offset..offset + length]
    }

    constructor (buffer: array<byte>, offset: nat, length: nat)
      requires offset + length <= buffer.Length
      ensures Valid()
      ensures this.buffer == buffer && this.offset == offset && this.length == length
    {
      this.buffer, this.offset, this.length := buffer, offset, length;
    }

    /** Makes the packet howMuch bytes longer, keeping its bytes as its prefix; the
        buffer is replaced by a fresh one only when it has no room left. */
    method Grow(howMuch: nat)
      requires Valid()
      modifies this
      ensures Valid()
      ensures length == old(length) + howMuch
      ensures Bytes()[..old(length)] == old(Bytes())
      ensures old(offset + length + howMuch <= buffer.Length) ==> buffer == old(buffer) && offset == old(offset)
      ensures old(offset + length + howMuch > buffer.Length) ==> fresh(buffer) && offset == 0
    {
      var newLength := length + howMuch;
      if newLength > buffer.Length - offset {
        var newBuffer := new byte[newLength];
        CopyInto(buffer[offset..offset + length], newBuffer, 0);
        offset := 0;
        buffer := newBuffer;
      }
      length := newLength;
    }

    /** Makes the packet n bytes shorter (no shorter than empty); n <= 0 changes nothing. */
    method Shrink(n: int)
      requires Valid()
      modifies this`length
      ensures Valid()
      ensures length == if n <= 0 then old(length) else if n < old(length) then old(length) - n else 0
      ensures Bytes() == old(Bytes())[..length]
    {
      if n > 0 {
        length := if n < length then length - n else 0;
      }
    }
  }
}
