/** The arithmetic of the instruction bodies, as pure functions on bytes.

    Each function follows the statements of a source instruction body up to
    the point where the flags record is written; the instruction methods
    then store the results into the registers and the flags. The lemmas
    below state what the computations amount to (ADC is addition with carry,
    SBC subtraction with borrow, a comparison an unsigned `>=`, ROL and ROR
    inverse rotations through the carry). */
module Alu {
  import opened Bytes
  import opened Flags

  /** The outcome of ADC: the result byte and the new C and V flag values. */
  datatype Sum = Sum(value: bv8, carry: bv8, overflow: bv8)

  /** ADC, as the source computes it from A, the operand and the carry: the
      9-bit sum in a 16-bit word, whose low byte is the result and whose bit 8
      is the new carry, and V from the signs of the operands and the result. */
  function AddWithCarry(a: bv8, m: bv8, cin: bv8): (r: Sum)
    ensures r.carry == 0 || r.carry == C
    ensures r.overflow == 0 || r.overflow == V
  {
    var word := a as bv16 + m as bv16 + cin as bv16;
    var res := Lo(word);
    Sum(res, Carry16(word, 0x100), OverflowAdc(a, m, res))
  }

  /** What ADC computes, for a carry-in of 0 or 1: the result is A + m + C
      modulo 256, C ends up set iff the unsigned sum does not fit in a byte,
      and V ends up set iff the sum of the operands read as signed bytes does
      not fit in a signed byte. */
  lemma AdcMeaning(a: bv8, m: bv8, cin: bv8)
    requires cin == 0 || cin == 1
    ensures AddWithCarry(a, m, cin).value == a + m + cin
    ensures AddWithCarry(a, m, cin).carry == C <==> a as bv16 + m as bv16 + cin as bv16 >= 0x100
    ensures AddWithCarry(a, m, cin).overflow == V
        <==> !FitsSignedByte(SignExtend(a) + SignExtend(m) + cin as bv16)
  {
    OverflowAdcIsSignedOverflow(a, m, cin);
  }

  /** The sign rule ADC's V follows: set iff both operands have the same
      sign and the result has the other one. */
  lemma AdcSigns(a: bv8, m: bv8, cin: bv8)
    ensures AddWithCarry(a, m, cin).overflow == V
        <==> Negative(a) == Negative(m) && Negative(AddWithCarry(a, m, cin).value) != Negative(a)
  {
  }

  /** SBC adds the complemented operand, and that is subtraction with
      borrow: the result is A - m - (1 - C), C ends up set iff nothing had to
      be borrowed (A >= m + (1 - C) as unsigned numbers), and V ends up set
      iff the operands have different signs and the difference does not have
      the sign of A. */
  lemma SbcSubtracts(a: bv8, m: bv8, cin: bv8)
    requires cin == 0 || cin == 1
    ensures AddWithCarry(a, m ^ 0xFF, cin).value == a - m - (1 - cin)
    ensures AddWithCarry(a, m ^ 0xFF, cin).carry == C <==> a as bv16 >= m as bv16 + (1 - cin) as bv16
    ensures AddWithCarry(a, m ^ 0xFF, cin).overflow == V
        <==> Negative(a) != Negative(m) && Negative(a - m - (1 - cin)) != Negative(a)
  {
    SbcValue(a, m, cin);
    SbcCarry(a, m, cin);
    SbcOverflow(a, m, cin);
  }

  /** The result byte of SBC is the wrapping difference with borrow. */
  lemma SbcValue(a: bv8, m: bv8, cin: bv8)
    requires cin == 0 || cin == 1
    ensures AddWithCarry(a, m ^ 0xFF, cin).value == a - m - (1 - cin)
  {
    AdcMeaning(a, m ^ 0xFF, cin);
    ComplementSum(a, m, cin);
  }

  /** Adding the complement of `m` subtracts `m + 1`, modulo 256. */
  lemma ComplementSum(a: bv8, m: bv8, cin: bv8)
    ensures a + (m ^ 0xFF) + cin == a - m - (1 - cin)
  {
  }

  /** The carry out of SBC is set iff no borrow is needed. */
  lemma SbcCarry(a: bv8, m: bv8, cin: bv8)
    requires cin == 0 || cin == 1
    ensures AddWithCarry(a, m ^ 0xFF, cin).carry == C <==> a as bv16 >= m as bv16 + (1 - cin) as bv16
  {
    AdcMeaning(a, m ^ 0xFF, cin);
    ComplementCarry(a, m, cin);
  }

  /** The 9-bit sum with the complemented operand reaches 0x100 iff the
      unsigned subtraction needs no borrow. */
  lemma ComplementCarry(a: bv8, m: bv8, cin: bv8)
    requires cin == 0 || cin == 1
    ensures a as bv16 + (m ^ 0xFF) as bv16 + cin as bv16 >= 0x100 <==> a as bv16 >= m as bv16 + (1 - cin) as bv16
  {
  }

  /** The overflow of SBC in terms of the signs of A, m and the difference. */
  lemma SbcOverflow(a: bv8, m: bv8, cin: bv8)
    requires cin == 0 || cin == 1
    ensures AddWithCarry(a, m ^ 0xFF, cin).overflow == V
        <==> Negative(a) != Negative(m) && Negative(a - m - (1 - cin)) != Negative(a)
  {
    AdcSigns(a, m ^ 0xFF, cin);
    SbcValue(a, m, cin);
    ComplementSign(m);
  }

  /** Complementing a byte flips its sign bit. */
  lemma ComplementSign(m: bv8)
    ensures Negative(m ^ 0xFF) == !Negative(m)
  {
  }

  /** The outcome of a comparison: the new C flag value and the low byte of
      the difference, from which Z and N are set. */
  datatype Difference = Difference(carry: bv8, low: bv8)

  /** CMP, CPX, CPY, as the source computes them: the wrapping 16-bit
      difference reg - m, C from bit 8 of its complement, and its low byte. */
  function Compare(reg: bv8, m: bv8): (r: Difference)
    ensures r.carry == 0 || r.carry == C
  {
    var word := reg as bv16 - m as bv16;
    Difference(Carry16(!word, 0x100), Lo(word))
  }

  /** What a comparison computes: C is set iff reg >= m as unsigned bytes,
      and the low byte is reg - m, so Z is set iff they are equal. */
  lemma CompareMeaning(reg: bv8, m: bv8)
    ensures Compare(reg, m).carry == C <==> reg >= m
    ensures Compare(reg, m).low == reg - m
    ensures Compare(reg, m).low == 0 <==> reg == m
  {
  }

  /** The outcome of a shift or rotation: the result byte and the new C. */
  datatype Shifted = Shifted(value: bv8, carry: bv8)

  /** ASL: every bit moves up one place, bit 7 goes to C, bit 0 becomes 0. */
  function Asl(b: bv8): (r: Shifted)
    ensures r.value >> 1 == b & 0x7F && r.value & 0x01 == 0
    ensures r.carry == b >> 7
  {
    Shifted(b << 1, Carry8(b, 0x80))
  }

  /** LSR: every bit moves down one place, bit 0 goes to C, bit 7 becomes 0. */
  function Lsr(b: bv8): (r: Shifted)
    ensures r.value << 1 == b & 0xFE && r.value & 0x80 == 0
    ensures r.carry == b & 0x01
  {
    Shifted(b >> 1, Carry8(b, 0x01))
  }

  /** ROL: as ASL, but the old carry (0 or 1) enters bit 0. */
  function Rol(b: bv8, cin: bv8): (r: Shifted)
    requires cin == 0 || cin == 1
    ensures r.value >> 1 == b & 0x7F && r.value & 0x01 == cin
    ensures r.carry == b >> 7
  {
    Shifted((b << 1) | cin, Carry8(b, 0x80))
  }

  /** ROR: as LSR, but the old carry (0 or 1) enters bit 7. */
  function Ror(b: bv8, cin: bv8): (r: Shifted)
    requires cin == 0 || cin == 1
    ensures r.value << 1 == b & 0xFE && r.value >> 7 == cin
    ensures r.carry == b & 0x01
  {
    Shifted((b >> 1) | (cin << 7), Carry8(b, 0x01))
  }

  /** ROR undoes ROL: rotating left and then right through the carry gives
      back both the byte and the carry. */
  lemma RorUndoesRol(b: bv8, cin: bv8)
    requires cin == 0 || cin == 1
    ensures Ror(Rol(b, cin).value, Rol(b, cin).carry) == Shifted(b, cin)
  {
  }

  /** ROL undoes ROR. */
  lemma RolUndoesRor(b: bv8, cin: bv8)
    requires cin == 0 || cin == 1
    ensures Rol(Ror(b, cin).value, Ror(b, cin).carry) == Shifted(b, cin)
  {
  }

  /** ASL and LSR are the rotations with a clear carry. */
  lemma ShiftsAreRotationsOfClearCarry(b: bv8)
    ensures Asl(b) == Rol(b, 0)
    ensures Lsr(b) == Ror(b, 0)
  {
  }
}
