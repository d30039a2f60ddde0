/** Fixed-width helpers shared by the register file, the bus model and the
    instruction handlers. Everything is stated on Dafny bit-vectors so that
    Go's uint8/uint16 wrap-around is the default behaviour. */
module Bits {

  /** Go's `uint8(w)`: the low byte of a word. */
  function Lo(w: bv16): bv8 {
    (w & 0xFF) as bv8
  }

  /** Go's `uint8(w >> 8)`: the high byte of a word. */
  function Hi(w: bv16): bv8 {
    (w >> 8) as bv8
  }

  /** The word whose high byte is `hi` and whose low byte is `lo`
      (little-endian `binary.LittleEndian.Uint16([]uint8{lo, hi})`). */
  function Join(hi: bv8, lo: bv8): (w: bv16)
    ensures Hi(w) == hi && Lo(w) == lo
  {
    (hi as bv16 << 8) | lo as bv16
  }

  /** Splitting a word into its two bytes and joining them back is the identity. */
  lemma SplitJoin(w: bv16)
    ensures Join(Hi(w), Lo(w)) == w
  {
  }

  /** A word is determined by its two bytes. */
  lemma BytesDetermineWord(w: bv16, v: bv16)
    requires Hi(w) == Hi(v) && Lo(w) == Lo(v)
    ensures w == v
  {
    SplitJoin(w);
    SplitJoin(v);
  }

  /** The value of a byte read as a two's-complement `int8`. */
  function Signed(b: bv8): (v: int)
    ensures -128 <= v < 128
    ensures v % 256 == b as int
  {
    if b < 0x80 then b as int else b as int - 256
  }

  /** Go's `uint16(int8(b))`: sign extension of a byte to a word. */
  function SignExtend(b: bv8): (w: bv16)
    ensures Lo(w) == b
    ensures Hi(w) == (if b < 0x80 then 0x00 else 0xFF)
  {
    if b & 0x80 == 0 then b as bv16 else 0xFF00 | b as bv16
  }

  /** Go's `uint16(len(s))`: the length of a byte slice modulo 2^16. */
  function Len16(s: seq<bv8>): bv16 {
    (|s| % 0x1_0000) as bv16
  }

  /** The lengths of the one-, two- and three-byte instructions. */
  lemma Len16Small(s: seq<bv8>)
    ensures |s| == 1 ==> Len16(s) == 1
    ensures |s| == 2 ==> Len16(s) == 2
    ensures |s| == 3 ==> Len16(s) == 3
  {
  }

  /** Bit `i` of a byte, as a boolean. */
  predicate Bit(x: bv8, i: bv8)
    requires i < 8
  {
    (x >> i) & 1 == 1
  }

  /** The value of a sum of at most nine bits: its low byte plus 256 when
      bit 8 is set. Used to read a byte result as an integer modulo 256. */
  lemma NineBitValue(x: bv16)
    requires x < 0x200
    ensures x as int == Lo(x) as int + (if x >= 0x100 then 256 else 0)
  {
  }

  /** The value of a sum of at most seventeen bits: its low word plus 65536
      when bit 16 is set. */
  lemma SeventeenBitValue(x: bv32)
    requires x < 0x2_0000
    ensures x as int == ((x & 0xFFFF) as bv16) as int + (if x >= 0x1_0000 then 65536 else 0)
  {
  }

  /** The low nibble of a byte is its value modulo 16. */
  lemma NibbleValue(x: bv8)
    ensures x as int % 16 == (x & 0x0F) as int
  {
    assert x as int == ((x >> 4) as int) * 16 + (x & 0x0F) as int;
  }
}
