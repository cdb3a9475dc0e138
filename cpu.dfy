/** The register file of the processor (`Cpu` in nes/src/cpu/mod.rs): the
    accumulator A, the index registers X and Y, the stack pointer S, the
    status flags, the program counter PC and the bus, modelled as the 64 KiB
    address space it decodes.

    Register arithmetic wraps around at the register width: `pc += 1`,
    `s -= 1` and the like are the additions of `bv8` and `bv16`. */
module CpuCore {
  import opened Bytes
  import opened Flags
  import opened Stack

  /** `IRQ_VECTOR`: BRK loads the program counter from this address. */
  const IrqVector: bv16 := 0xFFFE

  class Cpu {
    var a: bv8
    var x: bv8
    var y: bv8
    var s: bv8
    var flags: Flags
    var pc: bv16
    /** The bytes that `peek8` and `poke8` reach through the bus. */
    const bus: array<bv8>

    /** The bus spans the whole 16-bit address space and every flag field
        holds its mask or 0. */
    ghost predicate Valid()
      reads this
    {
      bus.Length == MemSize && flags.Valid()
    }

    /** `new`: registers cleared, S = 0xFD, PC = 0, power-on flags. */
    constructor ()
      ensures Valid()
      ensures a == 0 && x == 0 && y == 0
      ensures s == 0xFD && pc == 0 && flags == PowerOn()
      ensures fresh(bus)
    {
      a, x, y := 0, 0, 0;
      s := 0xFD;
      pc := 0;
      flags := PowerOn();
      bus := new bv8[MemSize];
    }

    /** `reset`: registers cleared, S = 0 and PC = 0xFD as the source writes
        them, power-on flags; the memory is not touched here. */
    method Reset()
      requires Valid()
      modifies this
      ensures Valid()
      ensures a == 0 && x == 0 && y == 0
      ensures s == 0 && pc == 0xFD && flags == PowerOn()
      ensures bus[..] == old(bus[..])
    {
      a, x, y := 0, 0, 0;
      s := 0;
      pc := 0xFD;
      flags := PowerOn();
    }

    /** `peek8`: the byte at `addr`. */
    function Peek8(addr: bv16): (b: bv8)
      requires Valid()
      reads this, bus
    {
      bus[Index(addr)]
    }

    /** `peek16`: the little-endian word at `addr`, its high byte at the next
        address (wrapping from 0xFFFF to 0). */
    function Peek16(addr: bv16): (w: bv16)
      requires Valid()
      reads this, bus
      ensures Lo(w) == bus[Index(addr)] && Hi(w) == bus[Index(addr + 1)]
    {
      FromLe(Peek8(addr), Peek8(addr + 1))
    }

    /** `poke8`: stores `b` at `addr` and changes no other byte. */
    method Poke8(addr: bv16, b: bv8)
      requires Valid()
      modifies bus
      ensures Valid()
      ensures bus[..] == old(bus[..])[Index(addr) := b]
    {
      var i := Index(addr);
      bus[i] := b;
    }

    /** `fetch8`: the byte at PC; PC moves past it. */
    method Fetch8() returns (b: bv8)
      requires Valid()
      modifies this`pc
      ensures Valid()
      ensures b == bus[Index(old(pc))] && pc == old(pc) + 1
    {
      b := Peek8(pc);
      pc := pc + 1;
    }

    /** `fetch16`: the little-endian word at PC; PC moves past both bytes. */
    method Fetch16() returns (w: bv16)
      requires Valid()
      modifies this`pc
      ensures Valid()
      ensures Lo(w) == bus[Index(old(pc))] && Hi(w) == bus[Index(old(pc) + 1)]
      ensures pc == old(pc) + 2
    {
      w := Peek16(pc);
      pc := pc + 2;
    }

    /** `push8`: stores `b` in the stack slot S selects, then moves S down. */
    method Push8(b: bv8)
      requires Valid()
      modifies this`s, bus
      ensures Valid()
      ensures bus[..] == Write(old(bus[..]), old(s), b)
      ensures s == old(s) - 1
    {
      var addr := StackAddr(s);
      Poke8(addr, b);
      s := s - 1;
    }

    /** `push16`: pushes the high byte of `w`, then the low byte. */
    method Push16(w: bv16)
      requires Valid()
      modifies this`s, bus
      ensures Valid()
      ensures bus[..] == Pushed(old(bus[..]), old(s), [Hi(w), Lo(w)])
      ensures s == old(s) - 2
    {
      ghost var mem, sp := bus[..], s;
      Push8(Hi(w));
      Push8(Lo(w));
      assert [Hi(w), Lo(w)][1..] == [Lo(w)];
      assert Pushed(Write(mem, sp, Hi(w)), sp - 1, [Lo(w)])
          == Write(Write(mem, sp, Hi(w)), sp - 1, Lo(w));
    }

    /** `pop8`: moves S up, then loads the stack slot it selects; memory is
        not changed. */
    method Pop8() returns (b: bv8)
      requires Valid()
      modifies this`s
      ensures Valid()
      ensures [b] == Popped(bus[..], old(s), 1)
      ensures s == old(s) + 1
    {
      s := s + 1;
      b := Peek8(StackAddr(s));
    }

    /** `pop16`: two pops, the first giving the low byte of the word. */
    method Pop16() returns (w: bv16)
      requires Valid()
      modifies this`s
      ensures Valid()
      ensures [Lo(w), Hi(w)] == Popped(bus[..], old(s), 2)
      ensures s == old(s) + 2
    {
      ghost var sp := s;
      var lo := Pop8();
      var hi := Pop8();
      w := FromLe(lo, hi);
      PoppedSplit(bus[..], sp, 1, 1);
    }
  }

  /** A poke followed by a peek at the same address gives the byte back; the
      poke changed that one cell. */
  method PokeThenPeek(cpu: Cpu, addr: bv16, b: bv8) returns (r: bv8)
    requires cpu.Valid()
    modifies cpu.bus
    ensures cpu.Valid()
    ensures r == b
    ensures cpu.bus[..] == old(cpu.bus[..])[Index(addr) := b]
  {
    cpu.Poke8(addr, b);
    r := cpu.Peek8(addr);
  }

  /** A push followed by a pop gives the pushed byte back and returns S to
      where it was; the byte stays in its slot. */
  method PushThenPop8(cpu: Cpu, b: bv8) returns (r: bv8)
    requires cpu.Valid()
    modifies cpu`s, cpu.bus
    ensures cpu.Valid()
    ensures r == b && cpu.s == old(cpu.s)
    ensures cpu.bus[..] == Write(old(cpu.bus[..]), old(cpu.s), b)
  {
    ghost var mem, sp := cpu.bus[..], cpu.s;
    cpu.Push8(b);
    r := cpu.Pop8();
    PushedOnceThenPopped(mem, sp, b);
  }

  /** A 16-bit push followed by a 16-bit pop gives the word back and returns
      S to where it was. */
  method PushThenPop16(cpu: Cpu, w: bv16) returns (r: bv16)
    requires cpu.Valid()
    modifies cpu`s, cpu.bus
    ensures cpu.Valid()
    ensures r == w && cpu.s == old(cpu.s)
    ensures cpu.bus[..] == Pushed(old(cpu.bus[..]), old(cpu.s), [Hi(w), Lo(w)])
  {
    ghost var mem, sp := cpu.bus[..], cpu.s;
    cpu.Push16(w);
    r := cpu.Pop16();
    PushedTwiceThenPopped(mem, sp, Hi(w), Lo(w));
    assert Lo(r) == Lo(w) && Hi(r) == Hi(w);
    FromLeOfBytes(r);
    FromLeOfBytes(w);
  }
}
