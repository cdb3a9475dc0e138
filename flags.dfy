/** The processor status flags held in the `flags` field of the CPU.

    Each field holds either its own mask or zero, so the packed status byte
    is the OR of the fields and bit 5; the carry mask is 1, so the carry
    field is also the carry bit that ADC adds and ROL/ROR shift in. The
    break bit B is not part of the live state: it is ORed in only when the
    status byte is pushed (BRK, PHP) and is dropped when it is pulled. */
module Flags {
  import opened Bytes

  const C: bv8 := 0x01
  const Z: bv8 := 0x02
  const I: bv8 := 0x04
  const D: bv8 := 0x08
  const B: bv8 := 0x10
  const U: bv8 := 0x20
  const V: bv8 := 0x40
  const N: bv8 := 0x80

  datatype Flags = Flags(c: bv8, z: bv8, i: bv8, d: bv8, v: bv8, n: bv8)
  {
    /** Every flag field holds its mask or 0. */
    predicate Valid() {
      (c == 0 || c == C) && (z == 0 || z == Z) && (i == 0 || i == I) &&
      (d == 0 || d == D) && (v == 0 || v == V) && (n == 0 || n == N)
    }

    /** `z` and `n` describe the byte `b`: Z iff it is zero, N iff bit 7 is set. */
    predicate DescribesZN(b: bv8) {
      (z == Z || z == 0) && (n == N || n == 0) &&
      (z == Z <==> b == 0) && (n == N <==> Negative(b))
    }

    /** The status byte N V 1 B D I Z C (bit 7 down to bit 0); its layout
        is stated by `PackLayout` and `UnpackOfPack`. */
    function Pack(): bv8
    {
      c | z | i | d | U | v | n
    }

    /** `set_zn`: sets Z and N from `b` and leaves the other flags alone (the
        source also returns `b`, which callers here use directly). */
    function SetZN(b: bv8): (r: Flags)
      ensures r.DescribesZN(b)
      ensures r.c == c && r.i == i && r.d == d && r.v == v
      ensures Valid() ==> r.Valid()
    {
      this.(z := if b == 0 then Z else 0, n := if Negative(b) then N else 0)
    }
  }

  /** The flags after power-on (`Flags::new()`): only I set, so the status
      byte reads 0x24, the `P:24` the first line of the nestest log expects. */
  function PowerOn(): (f: Flags)
    ensures f.Valid()
    ensures f.Pack() == 0x24
    ensures Unpack(0x24) == f
  {
    Flags(0, 0, I, 0, 0, 0)
  }

  /** `unpack`: the six live flags from a status byte; bits 4 and 5 are ignored. */
  function Unpack(p: bv8): (f: Flags)
    ensures f.Valid()
  {
    Flags(p & C, p & Z, p & I, p & D, p & V, p & N)
  }

  /** Bit 5 of the packed byte is always set, and B is clear when every
      flag field holds its mask or 0; each flag sits at its own mask. */
  lemma PackLayout(f: Flags)
    ensures f.Pack() & U == U
    ensures f.Valid() ==> f.Pack() & B == 0
    ensures f.Valid() ==> (f.Pack() & C == C <==> f.c == C) && (f.Pack() & N == N <==> f.n == N)
  {
  }

  /** Packing and unpacking gives the flags back. */
  lemma UnpackOfPack(f: Flags)
    requires f.Valid()
    ensures Unpack(f.Pack()) == f
  {
  }

  /** Unpacking and packing again keeps every bit except B, which is cleared,
      and bit 5, which is set. */
  lemma PackOfUnpack(p: bv8)
    ensures Unpack(p).Pack() == (p | U) & !B
  {
  }

  /** The status byte as BRK and PHP push it unpacks to the flags it was made of. */
  lemma UnpackPushedStatus(f: Flags)
    requires f.Valid()
    ensures Unpack(f.Pack() | B) == f
  {
  }

  /** `carry8`: C when `b` has a bit of `mask` set, otherwise 0. */
  function Carry8(b: bv8, mask: bv8): (r: bv8)
    ensures r == C <==> b & mask != 0
    ensures r == 0 || r == C
  {
    if b & mask != 0 then C else 0
  }

  /** `carry16`: C when `w` has a bit of `mask` set, otherwise 0. */
  function Carry16(w: bv16, mask: bv16): (r: bv8)
    ensures r == C <==> w & mask != 0
    ensures r == 0 || r == C
  {
    if w & mask != 0 then C else 0
  }

  /** `overflow_adc`: V when `a` and `m` have the same sign and the sum `res`
      has the other one. */
  function OverflowAdc(a: bv8, m: bv8, res: bv8): (r: bv8)
    ensures r == V <==> Negative(a) == Negative(m) && Negative(res) != Negative(a)
    ensures r == 0 || r == V
  {
    if (a ^ res) & (m ^ res) & 0x80 != 0 then V else 0
  }

  /** The sign rule of `overflow_adc` is the signed-overflow rule: for a sum
      `a + m + cin` it fires exactly when the sum of the sign-extended
      operands does not fit in a signed byte. */
  lemma OverflowAdcIsSignedOverflow(a: bv8, m: bv8, cin: bv8)
    requires cin == 0 || cin == 1
    ensures OverflowAdc(a, m, a + m + cin) == V
        <==> !FitsSignedByte(SignExtend(a) + SignExtend(m) + cin as bv16)
  {
    var res := a + m + cin;
    assert OverflowAdc(a, m, res) == V <==> Negative(a) == Negative(m) && Negative(res) != Negative(a);
    SignedSumFits(a, m, cin);
  }

  /** The sign rule in terms of the bits of the operands, for a fixed carry-in. */
  lemma SignedSumFits(a: bv8, m: bv8, cin: bv8)
    requires cin == 0 || cin == 1
    ensures (Negative(a) == Negative(m) && Negative(a + m + cin) != Negative(a))
        <==> !FitsSignedByte(SignExtend(a) + SignExtend(m) + cin as bv16)
  {
  }

  /** `overflow_arr`: V for ARR is bit 6 of the result XOR bit 5. */
  function OverflowArr(res: bv8): (r: bv8)
    ensures r == V <==> (res & 0x40 != 0) != (res & 0x20 != 0)
    ensures r == 0 || r == V
  {
    if ((res >> 6) ^ (res >> 5)) & 1 != 0 then V else 0
  }
}
