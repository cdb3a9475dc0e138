# NES 6502 CPU core

A Dafny model of the processor core of a NES emulator written in Rust. It
covers the register file in `nes/src/cpu/mod.rs` and every instruction body
in `impl Instruction for Cpu` in `nes/src/cpu/instruction.rs`.

The register file is the class `CpuCore.Cpu`. It has the accumulator A, the
index registers X and Y, the stack pointer S, the status flags and the
program counter PC. The bus is a 64 KiB byte array that `peek8` and `poke8`
read and write. Every instruction is a method of the module `Instruction`
that takes the `Cpu` as its first argument. The method takes the
already-fetched operand, changes the fields its `modifies` clause
names, and returns the byte to store where the source returns one. Each
instruction method's `ensures` gives the new value of every field it may
change. The pure computation behind it is stated by functions of four
modules, each with lemmas that say what the computation means:

- `Bytes`: little-endian words and sign extension.
- `Flags`: the flags record, `set_zn`, `pack`, `unpack`, the carry and
  overflow helpers.
- `Stack`: runs of pushes and pops on page 1, stated as functions on the
  memory contents.
- `Alu`: ADC, SBC, compares, shifts and rotates.

Register arithmetic wraps around at 8 and 16 bits, as release builds of the
source and the hardware do. This covers `pc += 1`, `s -= 1`, `pc - 1` in
JSR, `pop16() + 1` in RTS and `pc + 1` in BRK. Debug builds of the source
would panic instead.

`reset` is modelled as written: S = 0 and PC = 0xFD. `new` sets the
mirror-image values, S = 0xFD and PC = 0.

The flags module `nes/src/cpu/flags.rs` is not part of this model. The
instruction bodies only show that each helper gives its flag's mask or 0.
The rules below are the usual 6502 conventions, assumed rather than read
from the source; only bit 5 of `pack` is backed by the source, by the
`P:24` check at `nes/src/cpu/mod.rs:155`:

- Each flag field holds its mask or 0, and C is 1.
- `pack` is the OR of the fields and bit 5 (0x20), with B at 0x10 left clear.
- `unpack` masks out the six live flags.
- `carry8` and `carry16` give C when the masked bits are nonzero.
- `overflow_adc` is the sign rule `(a ^ r) & (m ^ r) & 0x80`.
- `overflow_arr` XORs bit 6 with bit 5.

The power-on flags `Flags::new()` have only I set, so the status byte reads
0x24. This follows from the nestest test at `nes/src/cpu/mod.rs:155`, which
compares the packed flags right after `Cpu::new()` with the log's `P:24`.
`reset` is taken to give the same flags.

`peek16` comes from the `IoMap` trait in `iomap.rs`, which is not part of
this model either. Here it reads a little-endian word whose high byte sits
at the next address, wrapping from 0xFFFF to 0. `IRQ_VECTOR` is 0xFFFE, as
in `nes/src/base.rs:249`.

## Model

| member | source | states |
|---|---|---|
| `CpuCore.Cpu.constructor` | nes/src/cpu/mod.rs:67-77 | A = X = Y = 0, S = 0xFD, PC = 0, power-on flags, and a fresh 64 KiB bus |
| `CpuCore.Cpu.Reset` | nes/src/cpu/mod.rs:79-87 | A = X = Y = 0, S = 0, PC = 0xFD, power-on flags; the memory is unchanged |
| `CpuCore.Cpu.Peek8` | nes/src/cpu/mod.rs:125-127 | the byte in the bus cell the address selects; after `poke8` it is the byte stored (`CpuCore.PokeThenPeek`) |
| `CpuCore.PokeThenPeek` | nes/src/cpu/mod.rs:125-131 | a peek right after a poke at the same address returns the poked byte, and the poke changed only that cell |
| `CpuCore.Cpu.Peek16` | nes/src/cpu/instruction.rs:207 | the low byte of the word is the byte at `addr`, and the high byte is the byte at `addr + 1` (wrapping) |
| `CpuCore.Cpu.Poke8` | nes/src/cpu/mod.rs:128-131 | the memory afterwards is the old memory with exactly the cell at `addr` replaced |
| `CpuCore.Cpu.Fetch8` | nes/src/cpu/mod.rs:89-93 | returns the byte at the old PC and advances PC by 1 (wrapping) |
| `CpuCore.Cpu.Fetch16` | nes/src/cpu/mod.rs:94-98 | returns the little-endian word at the old PC and advances PC by 2 |
| `CpuCore.Cpu.Push8` | nes/src/cpu/mod.rs:99-103 | stores the byte in slot 0x100 + S, changes no other cell, and decrements S |
| `CpuCore.Cpu.Push16` | nes/src/cpu/mod.rs:104-108 | pushes the high byte and then the low byte; S goes down by 2 |
| `CpuCore.Cpu.Pop8` | nes/src/cpu/mod.rs:109-113 | increments S, then returns the byte in slot 0x100 + S; memory is unchanged |
| `CpuCore.Cpu.Pop16` | nes/src/cpu/mod.rs:114-117 | the first byte popped is the low byte of the result and the second is the high byte; S goes up by 2 |
| `CpuCore.PushThenPop8` | nes/src/cpu/mod.rs:99-113 | `push8(b)` followed by `pop8()` returns b and restores S |
| `CpuCore.PushThenPop16` | nes/src/cpu/mod.rs:104-117 | `push16(w)` followed by `pop16()` returns w and restores S |
| `Stack.StackAddr` | nes/src/cpu/mod.rs:100 | the stack address has high byte 0x01 and low byte S |
| `Stack.Index` | nes/src/cpu/mod.rs:125-131 | every 16-bit address selects a cell of the 64 KiB memory |
| `Stack.Slot` | nes/src/cpu/mod.rs:111 | the memory cell of `0x100 + s`; whatever S is, it lies in page 1 (0x0100-0x01FF) |
| `Stack.LowerIsSub` | nes/src/cpu/mod.rs:102 | after n pushes, S is (S - n) mod 256 |
| `Stack.RaiseIsAdd` | nes/src/cpu/mod.rs:110 | after n pops, S is (S + n) mod 256 |
| `Stack.PushedOutsidePage` | nes/src/cpu/mod.rs:99-108 | no run of pushes changes any cell outside page 1 |
| `Stack.RaiseLower` | nes/src/cpu/mod.rs:102 | n pops restore an S that n pushes lowered, for every n (wrapping at 8 bits) |
| `Stack.PoppedSplit` | nes/src/cpu/mod.rs:114-116 | popping a + b bytes is popping a bytes and then b more |
| `Stack.PushedLeavesSlot` | nes/src/cpu/mod.rs:99-103 | a push run of length k from S leaves every slot at least k below S unchanged |
| `Stack.PopOverPushes` | nes/src/cpu/mod.rs:109-113 | after at most 255 further pushes below a slot, popping back to it reads its old byte |
| `Stack.PushThenPop` | nes/src/cpu/mod.rs:99-117 | up to 256 pushes followed by as many pops return the bytes in reverse order and restore S |
| `Stack.PushedOnceThenPopped` | nes/src/cpu/mod.rs:99-113 | one push and one pop give the byte back |
| `Stack.PushedTwiceThenPopped` | nes/src/cpu/mod.rs:104-117 | two pushes and two pops give the bytes back, last pushed first |
| `Stack.PushedThriceThenPopped` | nes/src/cpu/instruction.rs:203-212 | three pushes and three pops give the bytes back, last pushed first |
| `Stack.PushedAppend` | nes/src/cpu/mod.rs:104-108 | pushing vs + ws is pushing vs and then ws from where S ended up |
| `Stack.PushedThenWrite` | nes/src/cpu/instruction.rs:204-205 | one more push after a run of pushes extends the run |
| `Stack.PushedThriceAfterTwice` | nes/src/cpu/instruction.rs:204-205 | the status push after BRK's word push is the third push of one run |
| `Stack.PushedThriceThenPoppedOneAndTwo` | nes/src/cpu/instruction.rs:209-212 | after three pushes, one pop returns the last byte pushed and the next two pops return the other two |
| `Bytes.Lo` | nes/src/cpu/mod.rs:105 | byte 0 of `to_le_bytes`: the word mod 256 (`Bytes.LeBytesValue`) |
| `Bytes.Hi` | nes/src/cpu/mod.rs:105 | byte 1 of `to_le_bytes`: the word divided by 256 (`Bytes.LeBytesValue`) |
| `Bytes.LeBytesValue` | nes/src/cpu/mod.rs:105 | the low byte of a word is its value mod 256 and the high byte its value divided by 256 |
| `Bytes.FromLe` | nes/src/cpu/mod.rs:114-117 | the assembled word has exactly the given low and high bytes |
| `Bytes.FromLeOfBytes` | nes/src/cpu/mod.rs:104-117 | splitting a word into bytes and joining them again gives the word back |
| `Bytes.SignExtend` | nes/src/cpu/instruction.rs:280 | the `i8` offset widened to 16 bits keeps its low byte, and its high byte is 0xFF iff the offset is negative |
| `Bytes.Displacement` | nes/src/cpu/instruction.rs:278-316 | a branch moves PC forward by the offset when it is positive, and back by 256 minus it when it is negative (wrapping) |
| `Flags.PowerOn` | nes/src/cpu/mod.rs:74 | the power-on flags are valid, pack to 0x24 (the `P:24` the nestest test expects after `Cpu::new()`) and are what 0x24 unpacks to |
| `Flags.Flags.Pack` | nes/src/cpu/instruction.rs:369-372 | the status byte of `php` and `brk`: bit 5 set, B clear, each flag at its mask (`Flags.PackLayout`), and undone by `unpack` (`Flags.UnpackOfPack`, `Flags.PackOfUnpack`) |
| `Flags.Flags.SetZN` | nes/src/cpu/instruction.rs:155-157 | Z is set iff the byte is 0 and N iff its bit 7 is set; C, I, D and V are unchanged and stay valid |
| `Flags.Unpack` | nes/src/cpu/instruction.rs:373-376 | the flags unpacked from any status byte each hold their mask or 0 |
| `Flags.PackLayout` | nes/src/cpu/instruction.rs:369-372 | the packed byte always has bit 5 set and, for valid flags, B clear with C and N at their masks |
| `Flags.UnpackOfPack` | nes/src/cpu/instruction.rs:369-376 | unpacking the packed flags gives the flags back |
| `Flags.PackOfUnpack` | nes/src/cpu/instruction.rs:373-376 | packing unpacked flags keeps every bit of the byte, except that B is cleared and bit 5 is set |
| `Flags.UnpackPushedStatus` | nes/src/cpu/instruction.rs:205 | the status byte with B set, as BRK and PHP push it, unpacks to the same flags |
| `Flags.Carry8` | nes/src/cpu/instruction.rs:319 | the result is C iff the byte has a bit of the mask set, and 0 otherwise |
| `Flags.Carry16` | nes/src/cpu/instruction.rs:218 | the result is C iff the word has a bit of the mask set, and 0 otherwise |
| `Flags.OverflowAdc` | nes/src/cpu/instruction.rs:217 | V iff both operands have one sign and the result has the other |
| `Flags.OverflowAdcIsSignedOverflow` | nes/src/cpu/instruction.rs:214-217 | that sign rule fires exactly when the signed sum does not fit in a signed byte |
| `Flags.OverflowArr` | nes/src/cpu/instruction.rs:391 | V for ARR iff bit 6 and bit 5 of the result differ |
| `Alu.AddWithCarry` | nes/src/cpu/instruction.rs:215-218 | the new C and V each hold their mask or 0 |
| `Alu.AdcMeaning` | nes/src/cpu/instruction.rs:214-220 | ADC gives (A + m + C) mod 256, sets C iff A + m + C >= 256, and sets V iff the signed sum overflows |
| `Alu.AdcSigns` | nes/src/cpu/instruction.rs:217 | ADC's V is set iff A and m have one sign and the result has the other |
| `Alu.SbcSubtracts` | nes/src/cpu/instruction.rs:221-223 | ADC of the complemented operand gives A - m - (1 - C); C is set iff nothing is borrowed, and V follows the subtraction sign rule |
| `Alu.Compare` | nes/src/cpu/instruction.rs:242-243 | the new C holds its mask or 0 |
| `Alu.CompareMeaning` | nes/src/cpu/instruction.rs:241-255 | C is set iff reg >= m as unsigned bytes; the low byte is reg - m, which is 0 iff they are equal |
| `Alu.Asl` | nes/src/cpu/instruction.rs:318-321 | every bit moves up one place, bit 0 becomes 0, and the old bit 7 is the carry |
| `Alu.Lsr` | nes/src/cpu/instruction.rs:322-325 | every bit moves down one place, bit 7 becomes 0, and the old bit 0 is the carry |
| `Alu.Rol` | nes/src/cpu/instruction.rs:326-330 | as ASL, but the old carry enters bit 0 |
| `Alu.Ror` | nes/src/cpu/instruction.rs:331-335 | as LSR, but the old carry enters bit 7 |
| `Alu.RorUndoesRol` | nes/src/cpu/instruction.rs:326-335 | ROR after ROL gives back both the byte and the carry |
| `Alu.RolUndoesRor` | nes/src/cpu/instruction.rs:326-335 | ROL after ROR gives back both the byte and the carry |
| `Alu.ShiftsAreRotationsOfClearCarry` | nes/src/cpu/instruction.rs:318-335 | ASL and LSR are ROL and ROR with a clear carry |
| `Instruction.Lda` | nes/src/cpu/instruction.rs:155-157 | A = m, with Z and N from m |
| `Instruction.Ldx` | nes/src/cpu/instruction.rs:158-160 | X = m, with Z and N from m |
| `Instruction.Ldy` | nes/src/cpu/instruction.rs:161-163 | Y = m, with Z and N from m |
| `Instruction.Sta` | nes/src/cpu/instruction.rs:164-166 | the byte to store is A, and no field changes |
| `Instruction.Stx` | nes/src/cpu/instruction.rs:167-169 | the byte to store is X, and no field changes |
| `Instruction.Sty` | nes/src/cpu/instruction.rs:170-172 | the byte to store is Y, and no field changes |
| `Instruction.Tax` | nes/src/cpu/instruction.rs:173-175 | X = A, with Z and N from it |
| `Instruction.Tay` | nes/src/cpu/instruction.rs:176-178 | Y = A, with Z and N from it |
| `Instruction.Txa` | nes/src/cpu/instruction.rs:179-181 | A = X, with Z and N from it |
| `Instruction.Tya` | nes/src/cpu/instruction.rs:182-184 | A = Y, with Z and N from it |
| `Instruction.Tsx` | nes/src/cpu/instruction.rs:185-187 | X = S, with Z and N from it |
| `Instruction.Txs` | nes/src/cpu/instruction.rs:188-190 | S = X, and the flags are untouched |
| `Instruction.Jmp` | nes/src/cpu/instruction.rs:191-193 | PC = the operand, and nothing else changes |
| `Instruction.Jsr` | nes/src/cpu/instruction.rs:194-198 | pushes PC - 1, high byte first, so S goes down by 2; then PC = the operand |
| `Instruction.Rts` | nes/src/cpu/instruction.rs:199-202 | the new PC minus 1 is the word popped, low byte first; S goes up by 2 |
| `Instruction.Brk` | nes/src/cpu/instruction.rs:203-208 | pushes PC + 1 (high byte first) and then `pack() \| B`; S goes down by 3; I is set and the other flags kept; PC = the word at 0xFFFE |
| `Instruction.Rti` | nes/src/cpu/instruction.rs:209-213 | the flags are unpacked from the first byte popped, and PC is the word in the next two bytes; S goes up by 3 |
| `Instruction.Adc` | nes/src/cpu/instruction.rs:214-220 | A and the flags as `Alu.AddWithCarry` gives them from A, m and C; V and C are replaced, and Z and N come from the sum |
| `Instruction.Sbc` | nes/src/cpu/instruction.rs:221-223 | the same effect on A and on every flag as ADC of m ^ 0xFF |
| `Instruction.And` | nes/src/cpu/instruction.rs:224-227 | A = A & m, with Z and N from it |
| `Instruction.Ora` | nes/src/cpu/instruction.rs:228-231 | A = A \| m, with Z and N from it |
| `Instruction.Eor` | nes/src/cpu/instruction.rs:232-235 | A = A ^ m, with Z and N from it |
| `Instruction.Bit` | nes/src/cpu/instruction.rs:236-240 | Z iff A & m is 0, N iff bit 7 of m is set, V iff bit 6 of m is set; C, I, D and A are unchanged |
| `Instruction.Cmp` | nes/src/cpu/instruction.rs:241-245 | C iff A >= m, Z iff A == m, N from A - m; A is unchanged |
| `Instruction.Cpx` | nes/src/cpu/instruction.rs:246-250 | C iff X >= m, Z iff X == m, N from X - m; X is unchanged |
| `Instruction.Cpy` | nes/src/cpu/instruction.rs:251-255 | C iff Y >= m, Z iff Y == m, N from Y - m; Y is unchanged |
| `Instruction.Clc` | nes/src/cpu/instruction.rs:256-258 | C is cleared, and every other flag is kept |
| `Instruction.Sec` | nes/src/cpu/instruction.rs:259-261 | C is set, and every other flag is kept |
| `Instruction.Cli` | nes/src/cpu/instruction.rs:262-264 | I is cleared, and every other flag is kept |
| `Instruction.Sei` | nes/src/cpu/instruction.rs:265-267 | I is set, and every other flag is kept |
| `Instruction.Clv` | nes/src/cpu/instruction.rs:268-270 | V is cleared, and every other flag is kept |
| `Instruction.Cld` | nes/src/cpu/instruction.rs:271-273 | D is cleared, and every other flag is kept |
| `Instruction.Sed` | nes/src/cpu/instruction.rs:274-276 | D is set, and every other flag is kept |
| `Instruction.Bpl` | nes/src/cpu/instruction.rs:278-282 | PC moves by the sign-extended offset (mod 65536) iff N is clear; no flag changes |
| `Instruction.Bmi` | nes/src/cpu/instruction.rs:283-287 | PC moves by the sign-extended offset iff N is set; no flag changes |
| `Instruction.Bvc` | nes/src/cpu/instruction.rs:288-292 | PC moves by the sign-extended offset iff V is clear; no flag changes |
| `Instruction.Bvs` | nes/src/cpu/instruction.rs:293-297 | PC moves by the sign-extended offset iff V is set; no flag changes |
| `Instruction.Bcc` | nes/src/cpu/instruction.rs:298-302 | PC moves by the sign-extended offset iff C is clear; no flag changes |
| `Instruction.Bcs` | nes/src/cpu/instruction.rs:303-307 | PC moves by the sign-extended offset iff C is set; no flag changes |
| `Instruction.Bne` | nes/src/cpu/instruction.rs:308-312 | PC moves by the sign-extended offset iff Z is clear; no flag changes |
| `Instruction.Beq` | nes/src/cpu/instruction.rs:313-317 | PC moves by the sign-extended offset iff Z is set; no flag changes |
| `Instruction.Asl` | nes/src/cpu/instruction.rs:318-321 | returns the shifted byte, C gets the bit shifted out, Z and N come from the result; no register changes |
| `Instruction.Lsr` | nes/src/cpu/instruction.rs:322-325 | returns the shifted byte, C gets the bit shifted out, Z and N come from the result; no register changes |
| `Instruction.Rol` | nes/src/cpu/instruction.rs:326-330 | returns the byte rotated left through the old C, and C gets the bit shifted out |
| `Instruction.Ror` | nes/src/cpu/instruction.rs:331-335 | returns the byte rotated right through the old C, and C gets the bit shifted out |
| `Instruction.Dec` | nes/src/cpu/instruction.rs:336-339 | returns m - 1 (wrapping), with Z and N from it |
| `Instruction.Inc` | nes/src/cpu/instruction.rs:340-343 | returns m + 1 (wrapping), with Z and N from it |
| `Instruction.Dex` | nes/src/cpu/instruction.rs:344-347 | X = X - 1 (wrapping), with Z and N from it |
| `Instruction.Dey` | nes/src/cpu/instruction.rs:348-351 | Y = Y - 1 (wrapping), with Z and N from it |
| `Instruction.Inx` | nes/src/cpu/instruction.rs:352-355 | X = X + 1 (wrapping), with Z and N from it |
| `Instruction.Iny` | nes/src/cpu/instruction.rs:356-359 | Y = Y + 1 (wrapping), with Z and N from it |
| `Instruction.Pha` | nes/src/cpu/instruction.rs:361-364 | A is written to slot S, and S goes down by 1 |
| `Instruction.Pla` | nes/src/cpu/instruction.rs:365-368 | A is the popped byte, with Z and N from it; S goes up by 1 |
| `Instruction.Php` | nes/src/cpu/instruction.rs:369-372 | `pack() \| B` is written to slot S, and S goes down by 1 |
| `Instruction.Plp` | nes/src/cpu/instruction.rs:373-376 | the flags are unpacked from the popped byte; S goes up by 1 |
| `Instruction.Anc` | nes/src/cpu/instruction.rs:378-382 | A = A & m, with Z and N from it; C is bit 7 of the result, so C is set iff N is |
| `Instruction.Ane` | nes/src/cpu/instruction.rs:383-386 | A = (A \| 0xEE) & X & m, with Z and N from it |
| `Instruction.Arr` | nes/src/cpu/instruction.rs:387-392 | A = (m & A) rotated right through the old C; Z and N from it, C from its bit 6, V from bit 6 XOR bit 5 |
| `Instruction.Asr` | nes/src/cpu/instruction.rs:393-398 | A = (A & m) shifted right; C is bit 0 of A & m, and Z and N come from the result |
| `Instruction.Dcp` | nes/src/cpu/instruction.rs:399-403 | returns m - 1, with the flags of CMP against it: C iff A >= m - 1, Z iff A == m - 1 |
| `Instruction.Isb` | nes/src/cpu/instruction.rs:404-408 | returns m + 1, with A and the flags of SBC of it |
| `Instruction.Las` | nes/src/cpu/instruction.rs:409-415 | A, X and S all become S & m, with Z and N from it |
| `Instruction.Lax` | nes/src/cpu/instruction.rs:416-420 | A = X = m, with Z and N from m |
| `Instruction.Lxa` | nes/src/cpu/instruction.rs:421-425 | A = X = m, with Z and N from m (the same as LAX, as written) |
| `Instruction.Rla` | nes/src/cpu/instruction.rs:426-432 | returns m rotated left through C; A = A & it, with Z and N from A and C from the rotation |
| `Instruction.Rra` | nes/src/cpu/instruction.rs:433-439 | returns m rotated right through C; A and the flags are those of ADC of it, with the bit rotated out as the carry |
| `Instruction.Sax` | nes/src/cpu/instruction.rs:440-442 | the byte to store is A & X, and no field changes |
| `Instruction.Sbx` | nes/src/cpu/instruction.rs:443-447 | the flags of comparing A & X with m; no register is written |
| `Instruction.SbxKeepsX` | nes/src/cpu/instruction.rs:443-447 | with A = X = 0xFF and m = 1, the difference is 0xFE but X stays 0xFF; the flags become C set, Z clear, N set |
| `Instruction.SbxToX` | nes/src/cpu/instruction.rs:443-447 | X = (A & X) - m, with C iff A & X >= m and Z and N from the new X |
| `Instruction.Slo` | nes/src/cpu/instruction.rs:460-465 | returns m shifted left; A = A \| it, with Z and N from A and C from the shift |
| `Instruction.Sre` | nes/src/cpu/instruction.rs:466-471 | returns m shifted right; A = A ^ it, with Z and N from A and C from the shift |
| `Instruction.Dop` | nes/src/cpu/instruction.rs:472 | changes no field |
| `Instruction.Top` | nes/src/cpu/instruction.rs:473 | changes no field |
| `Instruction.Jam` | nes/src/cpu/instruction.rs:475 | changes no field |
| `Instruction.Nop` | nes/src/cpu/instruction.rs:478 | changes no field |
| `Instruction.ReturnAddress` | nes/src/cpu/instruction.rs:194-202 | the address JSR pushes, popped and incremented as RTS does, is the PC before the JSR |
| `Instruction.InterruptReturn` | nes/src/cpu/instruction.rs:203-213 | what BRK pushes, popped as RTI pops it, gives back the exact flags and PC + 1 |
| `Instruction.JsrThenRts` | nes/src/cpu/instruction.rs:194-202 | JSR followed by RTS leaves PC and S as they were before the JSR |
| `Instruction.BrkThenRti` | nes/src/cpu/instruction.rs:203-213 | BRK followed by RTI restores the flags and S exactly and continues at the old PC + 1 |
| `Instruction.PhaThenPla` | nes/src/cpu/instruction.rs:361-368 | PHA followed by PLA gives A back and restores S |
| `Instruction.PhpThenPlp` | nes/src/cpu/instruction.rs:369-376 | PHP followed by PLP gives the flags back exactly and restores S |

## Left out

- SHA, SHS, SHX and SHY (nes/src/cpu/instruction.rs:448-459): their bodies only panic. No method models them.
- The trace line that `poke8` prints (nes/src/cpu/mod.rs:129): it is logging only.
- The nestest trace test (nes/src/cpu/mod.rs:134-159): it needs a ROM file and a cartridge.
- `exec` and opcode dispatch (nes/src/cpu/mod.rs:118-121): the opcode table and addressing modes are in `opcode.rs` and `addressing.rs`, which are not part of this model. Operands are passed to the instruction methods already fetched.
- CpuCore.Cpu.Reset: does not model `self.bus.reset()` (nes/src/cpu/mod.rs:86), because `bus.rs` is not part of this model; the memory is left as it was. It also assumes that `self.flags.reset()` (nes/src/cpu/mod.rs:85) gives the power-on flags of `Flags::new()`; `flags.rs` is not part of this model.
- CpuCore.Cpu.constructor: the bus starts with unspecified contents, because what `Bus::new` puts in memory is not part of this model.
- The bus is a plain 64 KiB array. RAM mirroring and memory-mapped devices behind `bus.rs` and `iomap.rs` are not modelled.
- The debug-build overflow panics of `+` and `-` on `u8` and `u16` (nes/src/cpu/mod.rs:91, 96, 102, 110; nes/src/cpu/instruction.rs:195, 200, 204): every such operation wraps around instead.
- Instruction.Adc: the contract gives A and the flags through `Alu.AddWithCarry`. The arithmetic meaning (sum mod 256, unsigned carry, signed overflow) is stated once, in `Alu.AdcMeaning` and `Alu.AdcSigns`, and not repeated in the method's contract.
- Instruction.Sbc: likewise, what SBC amounts to is stated in `Alu.SbcSubtracts`, not in the method's contract.
- Instruction.Isb: likewise, through `Alu.AddWithCarry` and `Alu.SbcSubtracts`.
- Instruction.Rra: likewise, through `Alu.Ror` and `Alu.AddWithCarry`.
- Instruction.SbxToX: the contract states C as an unsigned comparison. It does not restate X and Z as an arithmetic difference, which `Alu.CompareMeaning` gives.
- Instruction.Brk: the new PC is stated as the word the bus holds at 0xFFFE after the pushes. The pushes never touch that word (`Stack.PushedOutsidePage`), but the method's contract does not restate it in terms of the old memory.
- Flags.OverflowArr: the rule that V is bit 6 XOR bit 5 of the result is the documented ARR behaviour, assumed because `flags.rs` is not part of this model.
- Flags.Unpack: masking out the six live flags (B and bit 5 dropped) is assumed, because `flags.rs` is not part of this model.
- Flags.OverflowAdc: the formula `(a ^ r) & (m ^ r) & 0x80` is assumed, because `flags.rs` is not part of this model.
- Flags.Flags.Pack: the layout N V 1 B D I Z C with B = 0x10 left clear is assumed; only bit 5 is backed by the `P:24` check at nes/src/cpu/mod.rs:155.
- Instruction.Jam: the processor is not halted, because the source's body is empty.

## Findings

| source | as written | input that shows it | evidently intended | confidence | as-written member | corrected member |
|---|---|---|---|---|---|---|
| nes/src/cpu/instruction.rs:443-447 | SBX computes (A & X) - m and sets C, Z and N from it, but never writes the difference to X | A = 0xFF, X = 0xFF, m = 1: the difference is 0xFE, yet X is still 0xFF afterwards | X = (A & X) - m, with C iff A & X >= m and Z and N from the new X, as the undocumented opcode SBX (also called AXS) behaves | not executed | `Instruction.SbxKeepsX` | `Instruction.SbxToX` |
