/** The instruction bodies (`impl Instruction for Cpu` in
    nes/src/cpu/instruction.rs), one method per instruction. The operand is
    passed in already fetched: a byte, a word for the jumps, a signed offset
    for the branches. Instructions that produce a byte for the caller to
    store (the stores, the memory shifts and increments, the fused
    read-modify-write opcodes) return it.

    Each method's `modifies` clause names the registers it may change, so
    every register it does not name keeps its value; its `ensures` give the
    new value of every register it names, through the functions of `Alu`,
    `Flags` and `Stack` whose meaning is proved there. */
module Instruction {
  import opened Bytes
  import opened Flags
  import opened Stack
  import Alu
  import opened CpuCore

  // ---------------------------------------------------------------- loads

  /** LDA: A = m, Z and N from m. */
  method Lda(cpu: Cpu, m: bv8)
    requires cpu.Valid()
    modifies cpu`a, cpu`flags
    ensures cpu.Valid()
    ensures cpu.a == m && cpu.flags == old(cpu.flags).SetZN(m)
  {
    cpu.flags := cpu.flags.SetZN(m);
    cpu.a := m;
  }

  /** LDX: X = m, Z and N from m. */
  method Ldx(cpu: Cpu, m: bv8)
    requires cpu.Valid()
    modifies cpu`x, cpu`flags
    ensures cpu.Valid()
    ensures cpu.x == m && cpu.flags == old(cpu.flags).SetZN(m)
  {
    cpu.flags := cpu.flags.SetZN(m);
    cpu.x := m;
  }

  /** LDY: Y = m, Z and N from m. */
  method Ldy(cpu: Cpu, m: bv8)
    requires cpu.Valid()
    modifies cpu`y, cpu`flags
    ensures cpu.Valid()
    ensures cpu.y == m && cpu.flags == old(cpu.flags).SetZN(m)
  {
    cpu.flags := cpu.flags.SetZN(m);
    cpu.y := m;
  }

  // --------------------------------------------------------------- stores

  /** STA: the byte to store is A; nothing changes. */
  method Sta(cpu: Cpu) returns (r: bv8)
    ensures r == cpu.a
  {
    r := cpu.a;
  }

  /** STX: the byte to store is X; nothing changes. */
  method Stx(cpu: Cpu) returns (r: bv8)
    ensures r == cpu.x
  {
    r := cpu.x;
  }

  /** STY: the byte to store is Y; nothing changes. */
  method Sty(cpu: Cpu) returns (r: bv8)
    ensures r == cpu.y
  {
    r := cpu.y;
  }

  // ------------------------------------------------------------ transfers

  /** TAX: X = A, Z and N from it. */
  method Tax(cpu: Cpu)
    requires cpu.Valid()
    modifies cpu`x, cpu`flags
    ensures cpu.Valid()
    ensures cpu.x == cpu.a && cpu.flags == old(cpu.flags).SetZN(cpu.a)
  {
    cpu.flags := cpu.flags.SetZN(cpu.a);
    cpu.x := cpu.a;
  }

  /** TAY: Y = A, Z and N from it. */
  method Tay(cpu: Cpu)
    requires cpu.Valid()
    modifies cpu`y, cpu`flags
    ensures cpu.Valid()
    ensures cpu.y == cpu.a && cpu.flags == old(cpu.flags).SetZN(cpu.a)
  {
    cpu.flags := cpu.flags.SetZN(cpu.a);
    cpu.y := cpu.a;
  }

  /** TXA: A = X, Z and N from it. */
  method Txa(cpu: Cpu)
    requires cpu.Valid()
    modifies cpu`a, cpu`flags
    ensures cpu.Valid()
    ensures cpu.a == cpu.x && cpu.flags == old(cpu.flags).SetZN(cpu.x)
  {
    cpu.flags := cpu.flags.SetZN(cpu.x);
    cpu.a := cpu.x;
  }

  /** TYA: A = Y, Z and N from it. */
  method Tya(cpu: Cpu)
    requires cpu.Valid()
    modifies cpu`a, cpu`flags
    ensures cpu.Valid()
    ensures cpu.a == cpu.y && cpu.flags == old(cpu.flags).SetZN(cpu.y)
  {
    cpu.flags := cpu.flags.SetZN(cpu.y);
    cpu.a := cpu.y;
  }

  /** TSX: X = S, Z and N from it. */
  method Tsx(cpu: Cpu)
    requires cpu.Valid()
    modifies cpu`x, cpu`flags
    ensures cpu.Valid()
    ensures cpu.x == cpu.s && cpu.flags == old(cpu.flags).SetZN(cpu.s)
  {
    cpu.flags := cpu.flags.SetZN(cpu.s);
    cpu.x := cpu.s;
  }

  /** TXS: S = X; the flags are left alone. */
  method Txs(cpu: Cpu)
    requires cpu.Valid()
    modifies cpu`s
    ensures cpu.Valid()
    ensures cpu.s == cpu.x
  {
    cpu.s := cpu.x;
  }

  // -------------------------------------------------- jumps and interrupts

  /** JMP: PC = the operand. */
  method Jmp(cpu: Cpu, target: bv16)
    requires cpu.Valid()
    modifies cpu`pc
    ensures cpu.Valid()
    ensures cpu.pc == target
  {
    cpu.pc := target;
  }

  /** JSR: pushes PC - 1 (high byte first), then PC = the operand. */
  method Jsr(cpu: Cpu, target: bv16)
    requires cpu.Valid()
    modifies cpu`s, cpu`pc, cpu.bus
    ensures cpu.Valid()
    ensures var ret := old(cpu.pc) - 1;
      cpu.bus[..] == Pushed(old(cpu.bus[..]), old(cpu.s), [Hi(ret), Lo(ret)])
    ensures cpu.s == old(cpu.s) - 2 && cpu.pc == target
  {
    var ret := cpu.pc - 1;
    cpu.Push16(ret);
    cpu.pc := target;
  }

  /** RTS: pops a word and continues one past it. */
  method Rts(cpu: Cpu)
    requires cpu.Valid()
    modifies cpu`s, cpu`pc
    ensures cpu.Valid()
    ensures [Lo(cpu.pc - 1), Hi(cpu.pc - 1)] == Popped(cpu.bus[..], old(cpu.s), 2)
    ensures cpu.s == old(cpu.s) + 2
  {
    var ret := cpu.Pop16();
    cpu.pc := ret + 1;
    assert cpu.pc - 1 == ret;
  }

  /** BRK: pushes PC + 1 (high byte first) and the status byte with B set,
      sets I and loads PC from the IRQ vector (which pushes, confined to
      page 1, never change: `Stack.PushedOutsidePage`). */
  method Brk(cpu: Cpu)
    requires cpu.Valid()
    modifies cpu`s, cpu`pc, cpu`flags, cpu.bus
    ensures cpu.Valid()
    ensures var ret := old(cpu.pc) + 1;
      cpu.bus[..] == Pushed(old(cpu.bus[..]), old(cpu.s), [Hi(ret), Lo(ret), old(cpu.flags).Pack() | B])
    ensures cpu.s == old(cpu.s) - 3
    ensures cpu.flags == old(cpu.flags).(i := I)
    ensures cpu.pc == cpu.Peek16(IrqVector)
  {
    ghost var mem, sp := cpu.bus[..], cpu.s;
    var ret := cpu.pc + 1;
    cpu.Push16(ret);
    var status := cpu.flags.Pack() | B;
    cpu.Push8(status);
    PushedThriceAfterTwice(mem, sp, Hi(ret), Lo(ret), status);
    cpu.flags := cpu.flags.(i := I);
    cpu.pc := cpu.Peek16(IrqVector);
  }

  /** RTI: pops the status byte into the flags (B and bit 5 dropped), then
      pops PC. */
  method Rti(cpu: Cpu)
    requires cpu.Valid()
    modifies cpu`s, cpu`pc, cpu`flags
    ensures cpu.Valid()
    ensures cpu.flags == Unpack(Popped(cpu.bus[..], old(cpu.s), 1)[0])
    ensures [Lo(cpu.pc), Hi(cpu.pc)] == Popped(cpu.bus[..], old(cpu.s) + 1, 2)
    ensures cpu.s == old(cpu.s) + 3
  {
    var status := cpu.Pop8();
    cpu.flags := Unpack(status);
    cpu.pc := cpu.Pop16();
  }

  // ----------------------------------------------------------- arithmetic

  /** ADC: the sum, C and V of `Alu.AddWithCarry` (A + m + C, the unsigned
      carry out and the signed overflow, as `Alu.AdcMeaning` shows), Z and N
      from the sum. */
  method Adc(cpu: Cpu, m: bv8)
    requires cpu.Valid()
    modifies cpu`a, cpu`flags
    ensures cpu.Valid()
    ensures var r := Alu.AddWithCarry(old(cpu.a), m, old(cpu.flags).c);
      cpu.a == r.value && cpu.flags == old(cpu.flags).(v := r.overflow, c := r.carry).SetZN(r.value)
  {
    var r := Alu.AddWithCarry(cpu.a, m, cpu.flags.c);
    cpu.flags := cpu.flags.(v := r.overflow, c := r.carry).SetZN(r.value);
    cpu.a := r.value;
  }

  /** SBC: exactly ADC of the complemented operand (what that amounts to is
      `Alu.SbcSubtracts`). */
  method Sbc(cpu: Cpu, m: bv8)
    requires cpu.Valid()
    modifies cpu`a, cpu`flags
    ensures cpu.Valid()
    ensures var r := Alu.AddWithCarry(old(cpu.a), m ^ 0xFF, old(cpu.flags).c);
      cpu.a == r.value && cpu.flags == old(cpu.flags).(v := r.overflow, c := r.carry).SetZN(r.value)
  {
    Adc(cpu, m ^ 0xFF);
  }

  // -------------------------------------------------------------- logical

  /** AND: A = A & m, Z and N from it. */
  method And(cpu: Cpu, m: bv8)
    requires cpu.Valid()
    modifies cpu`a, cpu`flags
    ensures cpu.Valid()
    ensures cpu.a == old(cpu.a) & m && cpu.flags == old(cpu.flags).SetZN(cpu.a)
  {
    var r := cpu.a & m;
    cpu.flags := cpu.flags.SetZN(r);
    cpu.a := r;
  }

  /** ORA: A = A | m, Z and N from it. */
  method Ora(cpu: Cpu, m: bv8)
    requires cpu.Valid()
    modifies cpu`a, cpu`flags
    ensures cpu.Valid()
    ensures cpu.a == old(cpu.a) | m && cpu.flags == old(cpu.flags).SetZN(cpu.a)
  {
    var r := cpu.a | m;
    cpu.flags := cpu.flags.SetZN(r);
    cpu.a := r;
  }

  /** EOR: A = A ^ m, Z and N from it. */
  method Eor(cpu: Cpu, m: bv8)
    requires cpu.Valid()
    modifies cpu`a, cpu`flags
    ensures cpu.Valid()
    ensures cpu.a == old(cpu.a) ^ m && cpu.flags == old(cpu.flags).SetZN(cpu.a)
  {
    var r := cpu.a ^ m;
    cpu.flags := cpu.flags.SetZN(r);
    cpu.a := r;
  }

  /** BIT: Z iff A & m is zero, N from bit 7 of m, V from bit 6 of m; A
      and the other flags are left alone. */
  method Bit(cpu: Cpu, m: bv8)
    requires cpu.Valid()
    modifies cpu`flags
    ensures cpu.Valid()
    ensures cpu.flags.z == Z <==> cpu.a & m == 0
    ensures cpu.flags.n == N <==> Negative(m)
    ensures cpu.flags.v == V <==> m & 0x40 != 0
    ensures cpu.flags.c == old(cpu.flags).c && cpu.flags.i == old(cpu.flags).i
    ensures cpu.flags.d == old(cpu.flags).d
  {
    cpu.flags := cpu.flags.(z := if cpu.a & m == 0 then Z else 0,
                            n := if m & 0x80 != 0 then N else 0,
                            v := if m & 0x40 != 0 then V else 0);
  }

  // -------------------------------------------------------------- compare

  /** CMP: C iff A >= m, Z iff A == m, N from A - m; A is left alone. */
  method Cmp(cpu: Cpu, m: bv8)
    requires cpu.Valid()
    modifies cpu`flags
    ensures cpu.Valid()
    ensures var d := Alu.Compare(cpu.a, m);
      cpu.flags == old(cpu.flags).(c := d.carry).SetZN(d.low)
    ensures cpu.flags.c == C <==> cpu.a >= m
    ensures cpu.flags.z == Z <==> cpu.a == m
    ensures cpu.flags.n == N <==> Negative(cpu.a - m)
  {
    var d := Alu.Compare(cpu.a, m);
    Alu.CompareMeaning(cpu.a, m);
    cpu.flags := cpu.flags.(c := d.carry).SetZN(d.low);
  }

  /** CPX: C iff X >= m, Z iff X == m, N from X - m; X is left alone. */
  method Cpx(cpu: Cpu, m: bv8)
    requires cpu.Valid()
    modifies cpu`flags
    ensures cpu.Valid()
    ensures var d := Alu.Compare(cpu.x, m);
      cpu.flags == old(cpu.flags).(c := d.carry).SetZN(d.low)
    ensures cpu.flags.c == C <==> cpu.x >= m
    ensures cpu.flags.z == Z <==> cpu.x == m
    ensures cpu.flags.n == N <==> Negative(cpu.x - m)
  {
    var d := Alu.Compare(cpu.x, m);
    Alu.CompareMeaning(cpu.x, m);
    cpu.flags := cpu.flags.(c := d.carry).SetZN(d.low);
  }

  /** CPY: C iff Y >= m, Z iff Y == m, N from Y - m; Y is left alone. */
  method Cpy(cpu: Cpu, m: bv8)
    requires cpu.Valid()
    modifies cpu`flags
    ensures cpu.Valid()
    ensures var d := Alu.Compare(cpu.y, m);
      cpu.flags == old(cpu.flags).(c := d.carry).SetZN(d.low)
    ensures cpu.flags.c == C <==> cpu.y >= m
    ensures cpu.flags.z == Z <==> cpu.y == m
    ensures cpu.flags.n == N <==> Negative(cpu.y - m)
  {
    var d := Alu.Compare(cpu.y, m);
    Alu.CompareMeaning(cpu.y, m);
    cpu.flags := cpu.flags.(c := d.carry).SetZN(d.low);
  }

  // ----------------------------------------------------------- flag ops

  /** CLC: C cleared. */
  method Clc(cpu: Cpu)
    requires cpu.Valid()
    modifies cpu`flags
    ensures cpu.Valid()
    ensures cpu.flags == old(cpu.flags).(c := 0)
  {
    cpu.flags := cpu.flags.(c := 0);
  }

  /** SEC: C set. */
  method Sec(cpu: Cpu)
    requires cpu.Valid()
    modifies cpu`flags
    ensures cpu.Valid()
    ensures cpu.flags == old(cpu.flags).(c := C)
  {
    cpu.flags := cpu.flags.(c := C);
  }

  /** CLI: I cleared. */
  method Cli(cpu: Cpu)
    requires cpu.Valid()
    modifies cpu`flags
    ensures cpu.Valid()
    ensures cpu.flags == old(cpu.flags).(i := 0)
  {
    cpu.flags := cpu.flags.(i := 0);
  }

  /** SEI: I set. */
  method Sei(cpu: Cpu)
    requires cpu.Valid()
    modifies cpu`flags
    ensures cpu.Valid()
    ensures cpu.flags == old(cpu.flags).(i := I)
  {
    cpu.flags := cpu.flags.(i := I);
  }

  /** CLV: V cleared. */
  method Clv(cpu: Cpu)
    requires cpu.Valid()
    modifies cpu`flags
    ensures cpu.Valid()
    ensures cpu.flags == old(cpu.flags).(v := 0)
  {
    cpu.flags := cpu.flags.(v := 0);
  }

  /** CLD: D cleared. */
  method Cld(cpu: Cpu)
    requires cpu.Valid()
    modifies cpu`flags
    ensures cpu.Valid()
    ensures cpu.flags == old(cpu.flags).(d := 0)
  {
    cpu.flags := cpu.flags.(d := 0);
  }

  /** SED: D set. */
  method Sed(cpu: Cpu)
    requires cpu.Valid()
    modifies cpu`flags
    ensures cpu.Valid()
    ensures cpu.flags == old(cpu.flags).(d := D)
  {
    cpu.flags := cpu.flags.(d := D);
  }

  // ------------------------------------------------------------- branches

  /** BPL: taken iff N is clear. */
  method Bpl(cpu: Cpu, off: bv8)
    requires cpu.Valid()
    modifies cpu`pc
    ensures cpu.Valid()
    ensures cpu.pc == if cpu.flags.n == 0 then old(cpu.pc) + SignExtend(off) else old(cpu.pc)
  {
    if cpu.flags.n == 0 {
      cpu.pc := cpu.pc + SignExtend(off);
    }
  }

  /** BMI: taken iff N is set. */
  method Bmi(cpu: Cpu, off: bv8)
    requires cpu.Valid()
    modifies cpu`pc
    ensures cpu.Valid()
    ensures cpu.pc == if cpu.flags.n == N then old(cpu.pc) + SignExtend(off) else old(cpu.pc)
  {
    if cpu.flags.n == N {
      cpu.pc := cpu.pc + SignExtend(off);
    }
  }

  /** BVC: taken iff V is clear. */
  method Bvc(cpu: Cpu, off: bv8)
    requires cpu.Valid()
    modifies cpu`pc
    ensures cpu.Valid()
    ensures cpu.pc == if cpu.flags.v == 0 then old(cpu.pc) + SignExtend(off) else old(cpu.pc)
  {
    if cpu.flags.v == 0 {
      cpu.pc := cpu.pc + SignExtend(off);
    }
  }

  /** BVS: taken iff V is set. */
  method Bvs(cpu: Cpu, off: bv8)
    requires cpu.Valid()
    modifies cpu`pc
    ensures cpu.Valid()
    ensures cpu.pc == if cpu.flags.v == V then old(cpu.pc) + SignExtend(off) else old(cpu.pc)
  {
    if cpu.flags.v == V {
      cpu.pc := cpu.pc + SignExtend(off);
    }
  }

  /** BCC: taken iff C is clear. */
  method Bcc(cpu: Cpu, off: bv8)
    requires cpu.Valid()
    modifies cpu`pc
    ensures cpu.Valid()
    ensures cpu.pc == if cpu.flags.c == 0 then old(cpu.pc) + SignExtend(off) else old(cpu.pc)
  {
    if cpu.flags.c == 0 {
      cpu.pc := cpu.pc + SignExtend(off);
    }
  }

  /** BCS: taken iff C is set. */
  method Bcs(cpu: Cpu, off: bv8)
    requires cpu.Valid()
    modifies cpu`pc
    ensures cpu.Valid()
    ensures cpu.pc == if cpu.flags.c == C then old(cpu.pc) + SignExtend(off) else old(cpu.pc)
  {
    if cpu.flags.c == C {
      cpu.pc := cpu.pc + SignExtend(off);
    }
  }

  /** BNE: taken iff Z is clear. */
  method Bne(cpu: Cpu, off: bv8)
    requires cpu.Valid()
    modifies cpu`pc
    ensures cpu.Valid()
    ensures cpu.pc == if cpu.flags.z == 0 then old(cpu.pc) + SignExtend(off) else old(cpu.pc)
  {
    if cpu.flags.z == 0 {
      cpu.pc := cpu.pc + SignExtend(off);
    }
  }

  /** BEQ: taken iff Z is set. */
  method Beq(cpu: Cpu, off: bv8)
    requires cpu.Valid()
    modifies cpu`pc
    ensures cpu.Valid()
    ensures cpu.pc == if cpu.flags.z == Z then old(cpu.pc) + SignExtend(off) else old(cpu.pc)
  {
    if cpu.flags.z == Z {
      cpu.pc := cpu.pc + SignExtend(off);
    }
  }

  // ----------------------------------------------------- shifts, rotates

  /** ASL: the shifted byte is returned, C gets its old bit 7, Z and N come
      from the result. */
  method Asl(cpu: Cpu, m: bv8) returns (r: bv8)
    requires cpu.Valid()
    modifies cpu`flags
    ensures cpu.Valid()
    ensures r == Alu.Asl(m).value
    ensures cpu.flags == old(cpu.flags).(c := Alu.Asl(m).carry).SetZN(r)
  {
    var sh := Alu.Asl(m);
    cpu.flags := cpu.flags.(c := sh.carry).SetZN(sh.value);
    r := sh.value;
  }

  /** LSR: the shifted byte is returned, C gets its old bit 0. */
  method Lsr(cpu: Cpu, m: bv8) returns (r: bv8)
    requires cpu.Valid()
    modifies cpu`flags
    ensures cpu.Valid()
    ensures r == Alu.Lsr(m).value
    ensures cpu.flags == old(cpu.flags).(c := Alu.Lsr(m).carry).SetZN(r)
  {
    var sh := Alu.Lsr(m);
    cpu.flags := cpu.flags.(c := sh.carry).SetZN(sh.value);
    r := sh.value;
  }

  /** ROL: the old C enters bit 0, bit 7 goes to C. */
  method Rol(cpu: Cpu, m: bv8) returns (r: bv8)
    requires cpu.Valid()
    modifies cpu`flags
    ensures cpu.Valid()
    ensures r == Alu.Rol(m, old(cpu.flags).c).value
    ensures cpu.flags == old(cpu.flags).(c := Alu.Rol(m, old(cpu.flags).c).carry).SetZN(r)
  {
    var sh := Alu.Rol(m, cpu.flags.c);
    cpu.flags := cpu.flags.(c := sh.carry).SetZN(sh.value);
    r := sh.value;
  }

  /** ROR: the old C enters bit 7, bit 0 goes to C. */
  method Ror(cpu: Cpu, m: bv8) returns (r: bv8)
    requires cpu.Valid()
    modifies cpu`flags
    ensures cpu.Valid()
    ensures r == Alu.Ror(m, old(cpu.flags).c).value
    ensures cpu.flags == old(cpu.flags).(c := Alu.Ror(m, old(cpu.flags).c).carry).SetZN(r)
  {
    var sh := Alu.Ror(m, cpu.flags.c);
    cpu.flags := cpu.flags.(c := sh.carry).SetZN(sh.value);
    r := sh.value;
  }

  // ------------------------------------------------ increments, decrements

  /** DEC: returns m - 1 (wrapping), Z and N from it. */
  method Dec(cpu: Cpu, m: bv8) returns (r: bv8)
    requires cpu.Valid()
    modifies cpu`flags
    ensures cpu.Valid()
    ensures r == m - 1 && cpu.flags == old(cpu.flags).SetZN(r)
  {
    r := m - 1;
    cpu.flags := cpu.flags.SetZN(r);
  }

  /** INC: returns m + 1 (wrapping), Z and N from it. */
  method Inc(cpu: Cpu, m: bv8) returns (r: bv8)
    requires cpu.Valid()
    modifies cpu`flags
    ensures cpu.Valid()
    ensures r == m + 1 && cpu.flags == old(cpu.flags).SetZN(r)
  {
    r := m + 1;
    cpu.flags := cpu.flags.SetZN(r);
  }

  /** DEX: X = X - 1 (wrapping), Z and N from it. */
  method Dex(cpu: Cpu)
    requires cpu.Valid()
    modifies cpu`x, cpu`flags
    ensures cpu.Valid()
    ensures cpu.x == old(cpu.x) - 1 && cpu.flags == old(cpu.flags).SetZN(cpu.x)
  {
    var r := cpu.x - 1;
    cpu.flags := cpu.flags.SetZN(r);
    cpu.x := r;
  }

  /** DEY: Y = Y - 1 (wrapping), Z and N from it. */
  method Dey(cpu: Cpu)
    requires cpu.Valid()
    modifies cpu`y, cpu`flags
    ensures cpu.Valid()
    ensures cpu.y == old(cpu.y) - 1 && cpu.flags == old(cpu.flags).SetZN(cpu.y)
  {
    var r := cpu.y - 1;
    cpu.flags := cpu.flags.SetZN(r);
    cpu.y := r;
  }

  /** INX: X = X + 1 (wrapping), Z and N from it. */
  method Inx(cpu: Cpu)
    requires cpu.Valid()
    modifies cpu`x, cpu`flags
    ensures cpu.Valid()
    ensures cpu.x == old(cpu.x) + 1 && cpu.flags == old(cpu.flags).SetZN(cpu.x)
  {
    var r := cpu.x + 1;
    cpu.flags := cpu.flags.SetZN(r);
    cpu.x := r;
  }

  /** INY: Y = Y + 1 (wrapping), Z and N from it. */
  method Iny(cpu: Cpu)
    requires cpu.Valid()
    modifies cpu`y, cpu`flags
    ensures cpu.Valid()
    ensures cpu.y == old(cpu.y) + 1 && cpu.flags == old(cpu.flags).SetZN(cpu.y)
  {
    var r := cpu.y + 1;
    cpu.flags := cpu.flags.SetZN(r);
    cpu.y := r;
  }

  // ---------------------------------------------------------------- stack

  /** PHA: pushes A. */
  method Pha(cpu: Cpu)
    requires cpu.Valid()
    modifies cpu`s, cpu.bus
    ensures cpu.Valid()
    ensures cpu.bus[..] == Write(old(cpu.bus[..]), old(cpu.s), cpu.a)
    ensures cpu.s == old(cpu.s) - 1
  {
    cpu.Push8(cpu.a);
  }

  /** PLA: pops into A, Z and N from it. */
  method Pla(cpu: Cpu)
    requires cpu.Valid()
    modifies cpu`s, cpu`a, cpu`flags
    ensures cpu.Valid()
    ensures cpu.a == Popped(cpu.bus[..], old(cpu.s), 1)[0]
    ensures cpu.flags == old(cpu.flags).SetZN(cpu.a)
    ensures cpu.s == old(cpu.s) + 1
  {
    var b := cpu.Pop8();
    cpu.flags := cpu.flags.SetZN(b);
    cpu.a := b;
  }

  /** PHP: pushes the status byte with B set. */
  method Php(cpu: Cpu)
    requires cpu.Valid()
    modifies cpu`s, cpu.bus
    ensures cpu.Valid()
    ensures cpu.bus[..] == Write(old(cpu.bus[..]), old(cpu.s), cpu.flags.Pack() | B)
    ensures cpu.s == old(cpu.s) - 1
  {
    var status := cpu.flags.Pack() | B;
    cpu.Push8(status);
  }

  /** PLP: pops the status byte into the flags (B and bit 5 dropped). */
  method Plp(cpu: Cpu)
    requires cpu.Valid()
    modifies cpu`s, cpu`flags
    ensures cpu.Valid()
    ensures cpu.flags == Unpack(Popped(cpu.bus[..], old(cpu.s), 1)[0])
    ensures cpu.s == old(cpu.s) + 1
  {
    var status := cpu.Pop8();
    cpu.flags := Unpack(status);
  }

  // -------------------------------------------------- undocumented opcodes

  /** ANC: A = A & m, Z and N from it, and C = bit 7 of it (a copy of N). */
  method Anc(cpu: Cpu, m: bv8)
    requires cpu.Valid()
    modifies cpu`a, cpu`flags
    ensures cpu.Valid()
    ensures cpu.a == old(cpu.a) & m
    ensures cpu.flags == old(cpu.flags).SetZN(cpu.a).(c := Carry8(cpu.a, 0x80))
    ensures cpu.flags.c == C <==> cpu.flags.n == N
  {
    var r := cpu.a & m;
    cpu.flags := cpu.flags.SetZN(r);
    cpu.a := r;
    cpu.flags := cpu.flags.(c := Carry8(r, 0x80));
  }

  /** ANE: A = (A | 0xEE) & X & m, Z and N from it. */
  method Ane(cpu: Cpu, m: bv8)
    requires cpu.Valid()
    modifies cpu`a, cpu`flags
    ensures cpu.Valid()
    ensures cpu.a == (old(cpu.a) | 0xEE) & cpu.x & m
    ensures cpu.flags == old(cpu.flags).SetZN(cpu.a)
  {
    var r := (cpu.a | 0xEE) & cpu.x & m;
    cpu.flags := cpu.flags.SetZN(r);
    cpu.a := r;
  }

  /** ARR: A = (m & A) rotated right through C; Z and N from it, C from
      bit 6 of it and V from bit 6 XOR bit 5. */
  method Arr(cpu: Cpu, m: bv8)
    requires cpu.Valid()
    modifies cpu`a, cpu`flags
    ensures cpu.Valid()
    ensures cpu.a == Alu.Ror(m & old(cpu.a), old(cpu.flags).c).value
    ensures cpu.flags == old(cpu.flags).SetZN(cpu.a).(c := Carry8(cpu.a, 0x40), v := OverflowArr(cpu.a))
  {
    var r := Alu.Ror(m & cpu.a, cpu.flags.c).value;
    cpu.flags := cpu.flags.SetZN(r);
    cpu.a := r;
    cpu.flags := cpu.flags.(c := Carry8(r, 0x40));
    cpu.flags := cpu.flags.(v := OverflowArr(r));
  }

  /** ASR (ALR): A = (A & m) shifted right, C from bit 0 of A & m. */
  method Asr(cpu: Cpu, m: bv8)
    requires cpu.Valid()
    modifies cpu`a, cpu`flags
    ensures cpu.Valid()
    ensures var sh := Alu.Lsr(old(cpu.a) & m);
      cpu.a == sh.value && cpu.flags == old(cpu.flags).(c := sh.carry).SetZN(sh.value)
  {
    var sh := Alu.Lsr(cpu.a & m);
    cpu.flags := cpu.flags.(c := sh.carry);
    cpu.flags := cpu.flags.SetZN(sh.value);
    cpu.a := sh.value;
  }

  /** DCP: DEC on memory, then CMP with the decremented byte. */
  method Dcp(cpu: Cpu, m: bv8) returns (r: bv8)
    requires cpu.Valid()
    modifies cpu`flags
    ensures cpu.Valid()
    ensures r == m - 1
    ensures var d := Alu.Compare(cpu.a, r);
      cpu.flags == old(cpu.flags).(c := d.carry).SetZN(d.low)
    ensures cpu.flags.c == C <==> cpu.a >= r
    ensures cpu.flags.z == Z <==> cpu.a == r
  {
    r := m - 1;
    Cmp(cpu, r);
  }

  /** ISB (ISC): INC on memory, then SBC with the incremented byte. */
  method Isb(cpu: Cpu, m: bv8) returns (r: bv8)
    requires cpu.Valid()
    modifies cpu`a, cpu`flags
    ensures cpu.Valid()
    ensures r == m + 1
    ensures var s := Alu.AddWithCarry(old(cpu.a), r ^ 0xFF, old(cpu.flags).c);
      cpu.a == s.value && cpu.flags == old(cpu.flags).(v := s.overflow, c := s.carry).SetZN(s.value)
  {
    r := m + 1;
    Sbc(cpu, r);
  }

  /** LAS: A, X and S all become S & m, Z and N from it. */
  method Las(cpu: Cpu, m: bv8)
    requires cpu.Valid()
    modifies cpu`a, cpu`x, cpu`s, cpu`flags
    ensures cpu.Valid()
    ensures cpu.a == old(cpu.s) & m && cpu.x == cpu.a && cpu.s == cpu.a
    ensures cpu.flags == old(cpu.flags).SetZN(cpu.a)
  {
    var r := cpu.s & m;
    cpu.x := r;
    cpu.a := r;
    cpu.s := r;
    cpu.flags := cpu.flags.SetZN(r);
  }

  /** LAX: A and X both become m, Z and N from it. */
  method Lax(cpu: Cpu, m: bv8)
    requires cpu.Valid()
    modifies cpu`a, cpu`x, cpu`flags
    ensures cpu.Valid()
    ensures cpu.a == m && cpu.x == m && cpu.flags == old(cpu.flags).SetZN(m)
  {
    cpu.a := m;
    cpu.x := m;
    cpu.flags := cpu.flags.SetZN(m);
  }

  /** LXA: as the source writes it, the same as LAX. */
  method Lxa(cpu: Cpu, m: bv8)
    requires cpu.Valid()
    modifies cpu`a, cpu`x, cpu`flags
    ensures cpu.Valid()
    ensures cpu.a == m && cpu.x == m && cpu.flags == old(cpu.flags).SetZN(m)
  {
    cpu.a := m;
    cpu.x := m;
    cpu.flags := cpu.flags.SetZN(m);
  }

  /** RLA: ROL on memory (the rotated byte is returned), then A = A & it. */
  method Rla(cpu: Cpu, m: bv8) returns (r: bv8)
    requires cpu.Valid()
    modifies cpu`a, cpu`flags
    ensures cpu.Valid()
    ensures var sh := Alu.Rol(m, old(cpu.flags).c);
      r == sh.value && cpu.a == old(cpu.a) & r &&
      cpu.flags == old(cpu.flags).(c := sh.carry).SetZN(cpu.a)
  {
    var sh := Alu.Rol(m, cpu.flags.c);
    cpu.flags := cpu.flags.(c := sh.carry);
    r := sh.value;
    var res := cpu.a & r;
    cpu.flags := cpu.flags.SetZN(res);
    cpu.a := res;
  }

  /** RRA: ROR on memory (the rotated byte is returned), then ADC with it,
      the carry that ADC adds being the bit ROR shifted out. */
  method Rra(cpu: Cpu, m: bv8) returns (r: bv8)
    requires cpu.Valid()
    modifies cpu`a, cpu`flags
    ensures cpu.Valid()
    ensures var sh := Alu.Ror(m, old(cpu.flags).c);
      var s := Alu.AddWithCarry(old(cpu.a), sh.value, sh.carry);
      r == sh.value && cpu.a == s.value &&
      cpu.flags == old(cpu.flags).(c := sh.carry).(v := s.overflow, c := s.carry).SetZN(s.value)
  {
    var sh := Alu.Ror(m, cpu.flags.c);
    cpu.flags := cpu.flags.(c := sh.carry);
    r := sh.value;
    Adc(cpu, r);
  }

  /** SAX: the byte to store is A & X; nothing changes. */
  method Sax(cpu: Cpu) returns (r: bv8)
    ensures r == cpu.a & cpu.x
  {
    r := cpu.a & cpu.x;
  }

  /** SBX (AXS) as the source writes it: the flags are those of comparing
      A & X with m, and no register is written, so X keeps its value. */
  method Sbx(cpu: Cpu, m: bv8)
    requires cpu.Valid()
    modifies cpu`flags
    ensures cpu.Valid()
    ensures var d := Alu.Compare(cpu.a & cpu.x, m);
      cpu.flags == old(cpu.flags).(c := d.carry).SetZN(d.low)
  {
    var d := Alu.Compare(cpu.a & cpu.x, m);
    cpu.flags := cpu.flags.(c := d.carry).SetZN(d.low);
  }

  /** SBX with A = X = 0xFF and m = 1: the difference is 0xFE, but X is
      still 0xFF afterwards. */
  method SbxKeepsX(cpu: Cpu)
    requires cpu.Valid() && cpu.a == 0xFF && cpu.x == 0xFF
    modifies cpu`flags
    ensures cpu.Valid()
    ensures cpu.x == 0xFF && Alu.Compare(cpu.a & cpu.x, 1).low == 0xFE
    ensures cpu.flags == old(cpu.flags).(c := C).SetZN(0xFE)
  {
    Sbx(cpu, 1);
  }

  /** SBX as the opcode is documented: X = (A & X) - m, with C iff
      A & X >= m, and Z and N from the new X. */
  method SbxToX(cpu: Cpu, m: bv8)
    requires cpu.Valid()
    modifies cpu`x, cpu`flags
    ensures cpu.Valid()
    ensures var d := Alu.Compare(old(cpu.a) & old(cpu.x), m);
      cpu.x == d.low && cpu.flags == old(cpu.flags).(c := d.carry).SetZN(d.low)
    ensures cpu.flags.c == C <==> cpu.a & old(cpu.x) >= m
  {
    var ax := cpu.a & cpu.x;
    var d := Alu.Compare(ax, m);
    Alu.CompareMeaning(ax, m);
    cpu.flags := cpu.flags.(c := d.carry).SetZN(d.low);
    cpu.x := d.low;
  }

  /** SLO: ASL on memory (the shifted byte is returned), then A = A | it. */
  method Slo(cpu: Cpu, m: bv8) returns (r: bv8)
    requires cpu.Valid()
    modifies cpu`a, cpu`flags
    ensures cpu.Valid()
    ensures var sh := Alu.Asl(m);
      r == sh.value && cpu.a == old(cpu.a) | r &&
      cpu.flags == old(cpu.flags).(c := sh.carry).SetZN(cpu.a)
  {
    var sh := Alu.Asl(m);
    cpu.flags := cpu.flags.(c := sh.carry);
    r := sh.value;
    var res := cpu.a | r;
    cpu.flags := cpu.flags.SetZN(res);
    cpu.a := res;
  }

  /** SRE: LSR on memory (the shifted byte is returned), then A = A ^ it. */
  method Sre(cpu: Cpu, m: bv8) returns (r: bv8)
    requires cpu.Valid()
    modifies cpu`a, cpu`flags
    ensures cpu.Valid()
    ensures var sh := Alu.Lsr(m);
      r == sh.value && cpu.a == old(cpu.a) ^ r &&
      cpu.flags == old(cpu.flags).(c := sh.carry).SetZN(cpu.a)
  {
    var sh := Alu.Lsr(m);
    cpu.flags := cpu.flags.(c := sh.carry);
    r := sh.value;
    var res := cpu.a ^ r;
    cpu.flags := cpu.flags.SetZN(res);
    cpu.a := res;
  }

  // ------------------------------------------------------------- no-ops

  /** DOP: reads an operand and does nothing with it. */
  method Dop(cpu: Cpu, m: bv8)
    requires cpu.Valid()
    ensures cpu.Valid()
  {
  }

  /** TOP: does nothing. */
  method Top(cpu: Cpu)
    requires cpu.Valid()
    ensures cpu.Valid()
  {
  }

  /** JAM: does nothing here (the processor is not halted). */
  method Jam(cpu: Cpu)
    requires cpu.Valid()
    ensures cpu.Valid()
  {
  }

  /** NOP: does nothing. */
  method Nop(cpu: Cpu)
    requires cpu.Valid()
    ensures cpu.Valid()
  {
  }

  // ------------------------------------------------------------ round trips

  /** The return address JSR pushes, popped and incremented as RTS does,
      is the PC before the JSR. */
  lemma ReturnAddress(mem: seq<bv8>, sp: bv8, pc: bv16, ret: bv16)
    requires |mem| == MemSize
    requires [Lo(ret - 1), Hi(ret - 1)] == Popped(Pushed(mem, sp, [Hi(pc - 1), Lo(pc - 1)]), sp - 2, 2)
    ensures ret == pc
  {
    PushedTwiceThenPopped(mem, sp, Hi(pc - 1), Lo(pc - 1));
    FromLeOfBytes(pc - 1);
    FromLeOfBytes(ret - 1);
  }

  /** What BRK pushes, popped as RTI pops it, gives back the flags exactly
      and PC + 1. */
  lemma InterruptReturn(mem: seq<bv8>, sp: bv8, pc: bv16, f: Flags,
                         pushed: seq<bv8>, below: bv8, ret: bv16)
    requires |mem| == MemSize && f.Valid()
    requires pushed == Pushed(mem, sp, [Hi(pc + 1), Lo(pc + 1), f.Pack() | B])
    requires below == sp - 3
    requires [Lo(ret), Hi(ret)] == Popped(pushed, below + 1, 2)
    ensures Unpack(Popped(pushed, below, 1)[0]) == f
    ensures ret == pc + 1
  {
    PushedThriceThenPoppedOneAndTwo(mem, sp, Hi(pc + 1), Lo(pc + 1), f.Pack() | B);
    UnpackPushedStatus(f);
    FromLeOfBytes(pc + 1);
    FromLeOfBytes(ret);
  }

  /** JSR followed by RTS returns to the PC the JSR started from, with S
      back where it was. */
  method JsrThenRts(cpu: Cpu, target: bv16)
    requires cpu.Valid()
    modifies cpu`s, cpu`pc, cpu.bus
    ensures cpu.Valid()
    ensures cpu.pc == old(cpu.pc) && cpu.s == old(cpu.s)
  {
    ghost var mem, sp, pc := cpu.bus[..], cpu.s, cpu.pc;
    Jsr(cpu, target);
    Rts(cpu);
    ReturnAddress(mem, sp, pc, cpu.pc);
  }

  /** BRK followed by RTI restores the flags exactly and S, and continues
      at the old PC + 1 (one past the byte that follows BRK). */
  method BrkThenRti(cpu: Cpu) returns (start: bv16)
    requires cpu.Valid()
    modifies cpu`s, cpu`pc, cpu`flags, cpu.bus
    ensures cpu.Valid()
    ensures start == old(cpu.pc) && cpu.pc == start + 1
    ensures cpu.flags == old(cpu.flags) && cpu.s == old(cpu.s)
  {
    ghost var mem, sp, f := cpu.bus[..], cpu.s, cpu.flags;
    start := cpu.pc;
    Brk(cpu);
    ghost var pushed, below := cpu.bus[..], cpu.s;
    Rti(cpu);
    InterruptReturn(mem, sp, start, f, pushed, below, cpu.pc);
  }

  /** PHA followed by PLA gives A back, with S where it was. */
  method PhaThenPla(cpu: Cpu)
    requires cpu.Valid()
    modifies cpu`s, cpu`a, cpu`flags, cpu.bus
    ensures cpu.Valid()
    ensures cpu.a == old(cpu.a) && cpu.s == old(cpu.s)
    ensures cpu.flags == old(cpu.flags).SetZN(cpu.a)
  {
    ghost var mem, sp := cpu.bus[..], cpu.s;
    Pha(cpu);
    Pla(cpu);
    PushedOnceThenPopped(mem, sp, old(cpu.a));
  }

  /** PHP followed by PLP gives the flags back exactly, with S where it was. */
  method PhpThenPlp(cpu: Cpu)
    requires cpu.Valid()
    modifies cpu`s, cpu`flags, cpu.bus
    ensures cpu.Valid()
    ensures cpu.flags == old(cpu.flags) && cpu.s == old(cpu.s)
  {
    ghost var mem, sp, f := cpu.bus[..], cpu.s, cpu.flags;
    Php(cpu);
    Plp(cpu);
    PushedOnceThenPopped(mem, sp, f.Pack() | B);
    UnpackPushedStatus(f);
  }
}
