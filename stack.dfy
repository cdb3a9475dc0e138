/** The hardware stack: page 1 of the address space (0x0100-0x01FF) indexed
    by the 8-bit stack pointer S. A push stores at 0x100 + S and then
    decrements S; a pop increments S and then loads from 0x100 + S. S wraps
    around at 8 bits and nothing is bounds-checked.

    The functions here describe runs of pushes and pops on the contents of
    the address space as values; the register file's `push8` and `pop8`
    are stated in terms of them. */
module Stack {
  import opened Bytes

  /** Size of the address space seen through the bus. */
  const MemSize: int := 0x10000

  /** `0x100 + s as u16`: the address of the stack slot that S = `s` selects. */
  function StackAddr(s: bv8): (addr: bv16)
    ensures Lo(addr) == s && Hi(addr) == 0x01
  {
    0x100 + s as bv16
  }

  /** The position of the byte at bus address `addr` in the memory. */
  function Index(addr: bv16): (i: int)
    ensures 0 <= i < MemSize
  {
    addr as int
  }

  /** The position of the stack slot S = `s` selects. Whatever `s` is, it
      lies in page 1. */
  function Slot(s: bv8): (i: int)
    ensures InStackPage(i)
  {
    Index(StackAddr(s))
  }

  predicate InStackPage(addr: int) {
    0x100 <= addr < 0x200
  }

  /** The memory with `b` stored in slot `sp`. */
  function Write(mem: seq<bv8>, sp: bv8, b: bv8): (r: seq<bv8>)
    requires |mem| == MemSize
    ensures |r| == MemSize
  {
    mem[Slot(sp) := b]
  }

  /** The byte in slot `sp`. */
  function Read(mem: seq<bv8>, sp: bv8): bv8
    requires |mem| == MemSize
  {
    mem[Slot(sp)]
  }

  /** S after `n` pushes starting from `sp`. */
  function Lower(sp: bv8, n: nat): bv8
    decreases n
  {
    if n == 0 then sp else Lower(sp - 1, n - 1)
  }

  /** S after `n` pops starting from `sp`. */
  function Raise(sp: bv8, n: nat): bv8
    decreases n
  {
    if n == 0 then sp else Raise(sp + 1, n - 1)
  }

  /** After `n` pushes S is `sp - n` modulo 256. */
  lemma {:induction false} LowerIsSub(sp: bv8, n: nat)
    ensures Lower(sp, n) as int == (sp as int - n) % 256
    decreases n
  {
    if n > 0 {
      LowerIsSub(sp - 1, n - 1);
      Predecessor(sp);
      ModuloStepDown(sp as int, (sp - 1) as int, n);
    }
  }

  /** After `n` pops S is `sp + n` modulo 256. */
  lemma {:induction false} RaiseIsAdd(sp: bv8, n: nat)
    ensures Raise(sp, n) as int == (sp as int + n) % 256
    decreases n
  {
    if n > 0 {
      RaiseIsAdd(sp + 1, n - 1);
      Successor(sp);
      ModuloStepUp(sp as int, (sp + 1) as int, n);
    }
  }

  /** The wrapping decrement of S as a number. */
  lemma Predecessor(sp: bv8)
    ensures (sp - 1) as int == if sp == 0 then 255 else sp as int - 1
  {
  }

  /** The wrapping increment of S as a number. */
  lemma Successor(sp: bv8)
    ensures (sp + 1) as int == if sp == 255 then 0 else sp as int + 1
  {
  }

  /** One wrapping decrement followed by `n - 1` more is `n` of them. */
  lemma ModuloStepDown(t: int, u: int, n: int)
    requires 0 <= t < 256 && u == (if t == 0 then 255 else t - 1)
    ensures (u - (n - 1)) % 256 == (t - n) % 256
  {
    if t == 0 {
      assert u - (n - 1) == (t - n) + 256;
    }
  }

  /** One wrapping increment followed by `n - 1` more is `n` of them. */
  lemma ModuloStepUp(t: int, u: int, n: int)
    requires 0 <= t < 256 && u == (if t == 255 then 0 else t + 1)
    ensures (u + (n - 1)) % 256 == (t + n) % 256
  {
    if t == 255 {
      assert u + (n - 1) == (t + n) - 256;
    }
  }

  /** The memory after pushing the bytes of `vs`, first element first, with
      S starting at `sp`. */
  function Pushed(mem: seq<bv8>, sp: bv8, vs: seq<bv8>): (r: seq<bv8>)
    requires |mem| == MemSize
    ensures |r| == MemSize
    decreases |vs|
  {
    if vs == [] then mem else Pushed(Write(mem, sp, vs[0]), sp - 1, vs[1..])
  }

  /** The `n` bytes that pops starting with S = `sp` return, in the order
      they come off the stack. */
  function Popped(mem: seq<bv8>, sp: bv8, n: nat): (r: seq<bv8>)
    requires |mem| == MemSize
    ensures |r| == n
    decreases n
  {
    if n == 0 then [] else [Read(mem, sp + 1)] + Popped(mem, sp + 1, n - 1)
  }

  function Reverse(s: seq<bv8>): (r: seq<bv8>)
    ensures |r| == |s|
  {
    if s == [] then [] else Reverse(s[1..]) + [s[0]]
  }

  /** Any run of pushes changes page 1 only. */
  lemma {:induction false} PushedOutsidePage(mem: seq<bv8>, sp: bv8, vs: seq<bv8>, addr: int)
    requires |mem| == MemSize
    requires 0 <= addr < MemSize && !InStackPage(addr)
    ensures Pushed(mem, sp, vs)[addr] == mem[addr]
    decreases |vs|
  {
    if vs != [] {
      PushedOutsidePage(Write(mem, sp, vs[0]), sp - 1, vs[1..], addr);
    }
  }

  /** `n` pops undo `n` pushes on S, for every `n`. */
  lemma {:induction false} RaiseLower(sp: bv8, n: nat)
    ensures Raise(Lower(sp, n), n) == sp
    decreases n
  {
    if n > 0 {
      RaiseLower(sp - 1, n - 1);
      RaiseLast(Lower(sp - 1, n - 1), n);
    }
  }

  /** The last of `n` pops moves S up by one more than the first `n - 1` do. */
  lemma {:induction false} RaiseLast(sp: bv8, n: nat)
    requires n > 0
    ensures Raise(sp, n) == Raise(sp, n - 1) + 1
    decreases n
  {
    if n > 1 {
      RaiseLast(sp + 1, n - 1);
    }
  }

  /** Popping `a + b` bytes is popping `a` bytes, then `b` more. */
  lemma {:induction false} PoppedSplit(mem: seq<bv8>, sp: bv8, a: nat, b: nat)
    requires |mem| == MemSize
    ensures Popped(mem, sp, a + b) == Popped(mem, sp, a) + Popped(mem, Raise(sp, a), b)
    decreases a
  {
    if a > 0 {
      PoppedSplit(mem, sp + 1, a - 1, b);
    }
  }

  /** How many pushes from S = `sp` it takes to reach slot `u`. */
  function Distance(sp: bv8, u: bv8): int {
    (sp - u) as int
  }

  /** One push brings S one step closer to any slot below it. */
  lemma DistanceStep(sp: bv8, u: bv8)
    requires Distance(sp, u) > 0
    ensures Distance(sp - 1, u) == Distance(sp, u) - 1
  {
    assert sp - u != 0;
  }

  /** Writing slot `sp` leaves every slot below it alone. */
  lemma WriteLeavesOtherSlot(mem: seq<bv8>, sp: bv8, b: bv8, u: bv8)
    requires |mem| == MemSize
    requires Distance(sp, u) > 0
    ensures Read(Write(mem, sp, b), u) == Read(mem, u)
  {
    assert sp != u;
  }

  /** A run of pushes starting at S = `sp` writes the slots S, S-1, ...,
      S-|vs|+1 only: a slot at least |vs| below S keeps its byte. */
  lemma {:induction false} PushedLeavesSlot(mem: seq<bv8>, sp: bv8, vs: seq<bv8>, u: bv8)
    requires |mem| == MemSize
    requires |vs| <= Distance(sp, u)
    ensures Read(Pushed(mem, sp, vs), u) == Read(mem, u)
    decreases |vs|
  {
    if vs != [] {
      DistanceStep(sp, u);
      WriteLeavesOtherSlot(mem, sp, vs[0], u);
      PushedLeavesSlot(Write(mem, sp, vs[0]), sp - 1, vs[1..], u);
    }
  }

  /** The slot just above S is 255 pushes away from S. */
  lemma DistanceAround(sp: bv8)
    ensures Distance(sp - 1, sp) == 255
    ensures (sp - 1) + 1 == sp
  {
  }

  /** After at most 255 pushes starting one below `sp`, a pop from one
      below `sp` reads the byte in slot `sp`. */
  lemma PopOverPushes(mem: seq<bv8>, sp: bv8, rest: seq<bv8>)
    requires |mem| == MemSize
    requires |rest| <= 255
    ensures Popped(Pushed(mem, sp - 1, rest), sp - 1, 1) == [Read(mem, sp)]
  {
    DistanceAround(sp);
    PushedLeavesSlot(mem, sp - 1, rest, sp);
  }

  /** Up to 256 pushes followed by as many pops give the pushed bytes back in
      reverse order, and S returns to where it started. */
  lemma {:induction false} PushThenPop(mem: seq<bv8>, sp: bv8, vs: seq<bv8>)
    requires |mem| == MemSize
    requires |vs| <= 256
    ensures Popped(Pushed(mem, sp, vs), Lower(sp, |vs|), |vs|) == Reverse(vs)
    ensures Raise(Lower(sp, |vs|), |vs|) == sp
    decreases |vs|
  {
    RaiseLower(sp, |vs|);
    if vs != [] {
      var n, rest := |vs|, vs[1..];
      var mem1 := Write(mem, sp, vs[0]);
      var after := Pushed(mem1, sp - 1, rest);
      var bottom := Lower(sp - 1, n - 1);
      // The pushes of vs[1..] come off first and leave S one below sp ...
      PushThenPop(mem1, sp - 1, rest);
      PoppedSplit(after, bottom, n - 1, 1);
      // ... and the last pop reads the slot of vs[0], which they left alone.
      PopOverPushes(mem1, sp, rest);
      assert Read(mem1, sp) == vs[0];
      assert Reverse(vs) == Reverse(rest) + [vs[0]];
    }
  }

  /** One push and one pop give the byte back. */
  lemma PushedOnceThenPopped(mem: seq<bv8>, sp: bv8, b: bv8)
    requires |mem| == MemSize
    ensures Popped(Write(mem, sp, b), sp - 1, 1) == [b]
  {
    assert (sp - 1) + 1 == sp;
    assert Read(Write(mem, sp, b), sp) == b;
  }

  /** Two pushes and two pops give the bytes back in reverse order. */
  lemma PushedTwiceThenPopped(mem: seq<bv8>, sp: bv8, first: bv8, second: bv8)
    requires |mem| == MemSize
    ensures Popped(Pushed(mem, sp, [first, second]), sp - 2, 2) == [second, first]
  {
    PushThenPop(mem, sp, [first, second]);
    assert Lower(sp, 2) == sp - 2;
    assert Reverse([first, second]) == [second, first] by {
      assert [first, second][1..] == [second];
      assert Reverse([second]) == [second] by {
        assert [second][1..] == [];
      }
    }
  }

  /** Three pushes and three pops give the bytes back in reverse order. */
  lemma PushedThriceThenPopped(mem: seq<bv8>, sp: bv8, first: bv8, second: bv8, third: bv8)
    requires |mem| == MemSize
    ensures Popped(Pushed(mem, sp, [first, second, third]), sp - 3, 3) == [third, second, first]
  {
    PushThenPop(mem, sp, [first, second, third]);
    assert Lower(sp, 3) == sp - 3;
    assert Reverse([first, second, third]) == [third, second, first] by {
      assert [first, second, third][1..] == [second, third];
      assert Reverse([second, third]) == [third, second] by {
        assert [second, third][1..] == [third];
        assert Reverse([third]) == [third] by {
          assert [third][1..] == [];
        }
      }
    }
  }

  /** Pushing `vs + ws` is pushing `vs`, then `ws` from where S ended up. */
  lemma {:induction false} PushedAppend(mem: seq<bv8>, sp: bv8, vs: seq<bv8>, ws: seq<bv8>)
    requires |mem| == MemSize
    ensures Pushed(mem, sp, vs + ws) == Pushed(Pushed(mem, sp, vs), Lower(sp, |vs|), ws)
    decreases |vs|
  {
    if vs == [] {
      assert vs + ws == ws;
    } else {
      assert (vs + ws)[0] == vs[0];
      assert (vs + ws)[1..] == vs[1..] + ws;
      PushedAppend(Write(mem, sp, vs[0]), sp - 1, vs[1..], ws);
    }
  }

  /** One more push after a run of pushes extends the run. */
  lemma PushedThenWrite(mem: seq<bv8>, sp: bv8, vs: seq<bv8>, b: bv8)
    requires |mem| == MemSize
    ensures Write(Pushed(mem, sp, vs), Lower(sp, |vs|), b) == Pushed(mem, sp, vs + [b])
  {
    PushedAppend(mem, sp, vs, [b]);
    assert [b][1..] == [];
  }

  /** A third push after two extends the run of two. */
  lemma PushedThriceAfterTwice(mem: seq<bv8>, sp: bv8, first: bv8, second: bv8, third: bv8)
    requires |mem| == MemSize
    ensures Write(Pushed(mem, sp, [first, second]), sp - 2, third) == Pushed(mem, sp, [first, second, third])
  {
    PushedThenWrite(mem, sp, [first, second], third);
    assert Lower(sp, 2) == sp - 2;
    assert [first, second] + [third] == [first, second, third];
  }

  /** Three pushes, then one pop and two more: the first pop gives the last
      byte pushed, the next two the other two, last pushed first. */
  lemma PushedThriceThenPoppedOneAndTwo(mem: seq<bv8>, sp: bv8, first: bv8, second: bv8, third: bv8)
    requires |mem| == MemSize
    ensures Popped(Pushed(mem, sp, [first, second, third]), sp - 3, 1) == [third]
    ensures Popped(Pushed(mem, sp, [first, second, third]), (sp - 3) + 1, 2) == [second, first]
  {
    var pushed := Pushed(mem, sp, [first, second, third]);
    var below := sp - 3;
    PushedThriceThenPopped(mem, sp, first, second, third);
    PoppedSplit(pushed, below, 1, 2);
    assert Raise(below, 1) == below + 1;
    SplitOneAndTwo(Popped(pushed, below, 1), Popped(pushed, below + 1, 2), third, second, first);
  }

  /** A one-byte and a two-byte sequence that together spell out three
      bytes are the first byte and the other two. */
  lemma SplitOneAndTwo(u: seq<bv8>, v: seq<bv8>, a: bv8, b: bv8, c: bv8)
    requires |u| == 1 && |v| == 2 && u + v == [a, b, c]
    ensures u == [a] && v == [b, c]
  {
    assert u[0] == (u + v)[0];
    assert v[0] == (u + v)[1] && v[1] == (u + v)[2];
  }
}
