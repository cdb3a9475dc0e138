/** Byte and word helpers shared by the register file and the instructions:
    the little-endian split and join of a 16-bit word (`to_le_bytes` and
    `from_le_bytes` in the register file) and the sign extension of a branch
    offset (the cast of an `i8` to `u16` in the branch instructions). */
module Bytes {

  /** The low byte of a word. */
  function Lo(w: bv16): bv8 {
    (w & 0xFF) as bv8
  }

  /** The high byte of a word. */
  function Hi(w: bv16): bv8 {
    (w >> 8) as bv8
  }

  /** The word whose little-endian bytes are `lo` then `hi`. */
  function FromLe(lo: bv8, hi: bv8): (w: bv16)
    ensures Lo(w) == lo && Hi(w) == hi
  {
    ((hi as bv16) << 8) | lo as bv16
  }

  /** Splitting a word and joining its bytes again gives the word back. */
  lemma FromLeOfBytes(w: bv16)
    ensures FromLe(Lo(w), Hi(w)) == w
  {
  }

  /** `to_le_bytes` splits a word into its value modulo 256 (first) and its
      value divided by 256 (second). */
  lemma LeBytesValue(w: bv16)
    ensures Lo(w) as bv16 == w % 0x100
    ensures Hi(w) as bv16 == w / 0x100
  {
  }

  /** Bit 7 of a byte, the sign of the byte read as a two's-complement number. */
  predicate Negative(b: bv8) {
    b & 0x80 != 0
  }

  /** A byte read as a signed 8-bit number, widened to 16 bits with its sign
      (`byte as u16` for a byte of type `i8`). */
  function SignExtend(b: bv8): (w: bv16)
    ensures Lo(w) == b
    ensures Hi(w) == if Negative(b) then 0xFF else 0x00
  {
    if Negative(b) then 0xFF00 | b as bv16 else b as bv16
  }

  /** Adding a sign-extended offset moves a 16-bit address forward by the
      offset when bit 7 is clear and back by 256 minus the offset when it is
      set, wrapping around at 0x10000 either way. */
  lemma Displacement(pc: bv16, off: bv8)
    ensures !Negative(off) ==> pc + SignExtend(off) == pc + off as bv16
    ensures Negative(off) ==> pc + SignExtend(off) == pc - (0x100 - off as bv16)
  {
  }

  /** A 16-bit two's-complement value lies in the range of a signed byte,
      -128 to 127. */
  predicate FitsSignedByte(s: bv16) {
    s + 0x80 < 0x100
  }
}
