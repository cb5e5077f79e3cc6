/**
  Fixed-width unsigned kernel integers (`u8`, `u16`, `u32`) and the host
  byte order used when a `struct ctl_msg` is laid over raw bytes.

  The C code never fixes the byte order: it copies bytes into a struct and
  reads the fields back in host order. The model picks little-endian and
  keeps that choice behind DecodeU16 / DecodeU32 and their inverses.
 */
module Words {

  newtype u8 = x: int | 0 <= x < 0x100
  newtype u16 = x: int | 0 <= x < 0x1_0000
  newtype u32 = x: int | 0 <= x < 0x1_0000_0000

  /** The two host-order bytes of a `u16`. */
  function EncodeU16(w: u16): (bytes: seq<u8>)
    ensures |bytes| == 2
  {
    [(w as int % 0x100) as u8, (w as int / 0x100) as u8]
  }

  /** Reads the `u16` stored at `off` in host order. */
  function DecodeU16(bytes: seq<u8>, off: nat): (w: u16)
    requires off + 2 <= |bytes|
    ensures EncodeU16(w) == bytes[off..off + 2]
  {
    (bytes[off] as int + 0x100 * bytes[off + 1] as int) as u16
  }

  /** The four host-order bytes of a `u32`. */
  function EncodeU32(w: u32): (bytes: seq<u8>)
    ensures |bytes| == 4
  {
    EncodeU16((w as int % 0x1_0000) as u16) + EncodeU16((w as int / 0x1_0000) as u16)
  }

  /** Reads the `u32` stored at `off` in host order. */
  function DecodeU32(bytes: seq<u8>, off: nat): (w: u32)
    requires off + 4 <= |bytes|
    ensures EncodeU32(w) == bytes[off..off + 4]
  {
    var lo := DecodeU16(bytes, off);
    var hi := DecodeU16(bytes, off + 2);
    assert bytes[off..off + 4] == bytes[off..off + 2] + bytes[off + 2..off + 4];
    (lo as int + 0x1_0000 * hi as int) as u32
  }

  /** Decoding the bytes of an encoded `u16` gives the word back. */
  lemma DecodeEncodeU16(w: u16, bytes: seq<u8>, off: nat)
    requires off + 2 <= |bytes| && bytes[off..off + 2] == EncodeU16(w)
    ensures DecodeU16(bytes, off) == w
  {
  }

  /** Decoding the bytes of an encoded `u32` gives the word back. */
  lemma DecodeEncodeU32(w: u32, bytes: seq<u8>, off: nat)
    requires off + 4 <= |bytes| && bytes[off..off + 4] == EncodeU32(w)
    ensures DecodeU32(bytes, off) == w
  {
  }
}
