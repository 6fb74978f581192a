/** Fixed-width integers of the C source (uint8_t, uint16_t) and the
    little-endian byte order that BlueZ's `htobs` produces on the wire. */
module Bytes {

  newtype byte = x: int | 0 <= x < 0x100
  newtype uint16 = x: int | 0 <= x < 0x1_0000

  /** The two bytes `htobs(v)` stores through a `uint16_t*`: low byte first. */
  function LittleEndian16(v: uint16): (b: seq<byte>)
    ensures |b| == 2
    ensures b[0] as int + 0x100 * b[1] as int == v as int
  {
    [(v as int % 0x100) as byte, (v as int / 0x100) as byte]
  }

  /** Reads back a 16-bit value stored low byte first. */
  function FromLittleEndian16(b: seq<byte>): (v: uint16)
    requires |b| == 2
    ensures v as int % 0x100 == b[0] as int && v as int / 0x100 == b[1] as int
  {
    (b[0] as int + 0x100 * b[1] as int) as uint16
  }

  lemma LittleEndian16RoundTrip(v: uint16)
    ensures FromLittleEndian16(LittleEndian16(v)) == v
  {
  }

  lemma FromLittleEndian16RoundTrip(b: seq<byte>)
    requires |b| == 2
    ensures LittleEndian16(FromLittleEndian16(b)) == b
  {
  }
}
