# A verified model of a small MOS 6502 emulator

This project models the core of a C emulator for the MOS 6502 processor and proves properties of that model. It covers three parts:

- **The instruction-level CPU of `6502.c`:** the `struct cpu_info` registers, the stack and status helpers, NMI/IRQ entry, the four 256-entry decode tables and the `step` function.
- **The memory interface of `memory.c`:** its flat 2 KiB layout mirrors every 16-bit address onto `addr % 2048`.
- **The NES address decoder of `nes_memory.c`:** it classifies an address into RAM, PPU registers, APU/IO, disabled APU or cartridge space.

The model follows the C code as written, not textbook 6502 hardware. Where the emulator's documented behaviour and its code differ, the code wins. That includes these departures:

- EOR never stores its result.
- ORA writes Y.
- ASL shifts A by the operand byte.
- ROL/ROR have no carry-in and take Z from bit 7.
- ADC/SBC set C as "result below old A" and never touch V.
- abx, aby, zpx and zpy sign-extend the index (izx and izy add it zero-extended), and zpx, zpy and izx are not confined to page 0.
- Interrupt vectors are read as a single byte.
- TXS sets Z and N.
- BRK only raises the halt indicator.

Each departure is stated as a lemma in the "As written" part of `cpu_properties.dfy`: ASL in `AslShiftsByOperand`, ROL and ROR in `RolWithoutCarryIn`, the indexed modes in `AbxSignExtends`, `AbySignExtends`, `ZpxLeavesZeroPage`, `ZpyLeavesZeroPage` and `IzxCrossesPage`, and the vectors in `VectorIsOneByte`. None is stated as an expectation of correct hardware behaviour.

Modules:

- `Bits` (`bits.dfy`): the C widths `uint8_t`/`uint16_t` as the subset types `Byte` and `Word`, and the 0/1 flag type `Bit`. Every implicit C truncation is written out explicitly.
- `Memory` (`memory.dfy`) covers the flat 2 KiB layout:
  - `decode_flat_2k`, plus the `Flat2k`/`Nes` choice of `decode_address`.
  - The pure `Load8`/`Load16`/`Store8`/`Store16` over a 2048-byte image.
  - The class `FlatMemory`, which owns an `array<Byte>` of 2048 cells. Its `Read8`, `Read16`, `Write8` and `Write16` are proved against those functions.
- `NesMemory` (`nes_memory.dfy`): `decode_nes` as a region classifier with an optional RAM cell.
- `Opcodes` (`opcodes.dfy`): the `OpCode` and `AddressMode` enumerations and the four decode tables.
- `CpuSpec` (`cpu_spec.dfy`): the pure semantics. It has a `Machine` value (all registers, flags, cycle counter, indicators and the memory image) and one function per helper of `6502.c`. `Execute` is the `switch(op)` and `Step` is `step`.
- `Cpu` (`cpu.dfy`): the class `Processor`. Its fields are those of `struct cpu_info`, and its `mem` is a `FlatMemory`. Its methods update the fields and the buffer in place. Each method's `ensures` says the new `State()` is the corresponding `CpuSpec` function applied to the old state.
- `CpuProperties` (`cpu_properties.dfy`): the properties of the `CpuSpec` functions, and so of the processor's methods.

## Model

| member | source | states |
|---|---|---|
| Bits.Pow2 | 6502.c:258-265 | the factor `v << k` multiplies by is at least 1 |
| Bits.Pow2LowByteZero | 6502.c:258-265 | from k = 8 on, 2^k is a multiple of 256, so its low byte is 0 |
| Bits.ShiftLeft8Truncates | 6502.c:258-265 | for every count k, `ShiftLeft8(v, k)` is `v * 2^k` truncated to 8 bits, the shortcut 0 for k >= 8 included |
| Memory.DecodeFlat2k | memory.c:43-46 | every 16-bit address maps to a cell below 2048 that is congruent to the address mod 2048 |
| Memory.DecodeAddress | memory.c:27-29 | the dispatched decoder yields a cell inside the buffer that is congruent to the address mod 2048, so it is that decoder's own cell; the flat layout always yields one, the NES layout exactly for addresses up to 0x1FFF |
| Memory.Flat2kMirrors | memory.c:43-46 | the 32 addresses `offset + 2048*k` all decode to the same cell |
| Memory.Load8AfterStore8 | memory.c:7-20 | `read8(r)` after `write8(w, v)` returns v when r and w alias mod 2048, and the old byte otherwise |
| Memory.Store8Frame | memory.c:17-20 | `write8` stores v in cell `addr % 2048` and leaves every other cell unchanged |
| Memory.NextCellDistinct | memory.c:11-15 | the two bytes of a 16-bit access are adjacent cells mod 2048, never the same cell |
| Memory.Load16Bytes | memory.c:11-15 | `read16(p)` is little-endian: its low byte is `read8(p)` and its high byte is `read8(p+1)` with p+1 wrapping in 16 bits |
| Memory.Load16Straddles | memory.c:11-15 | `read16(0x07FF)` and `read16(0xFFFF)` both read cell 2047 as the low byte and cell 0 as the high byte |
| Memory.Load16AfterStore16 | memory.c:11-25 | `read16(p)` after `write16(p, v)` returns v |
| Memory.Store16Frame | memory.c:22-25 | `write16(p, v)` changes only the two cells of p and p+1 |
| Memory.FlatMemory.constructor | memory.c:48-54 | a fresh 2048-cell buffer owned by the new memory object |
| Memory.FlatMemory.Read8 | memory.c:7-9 | returns the byte in cell `addr % 2048` and modifies nothing |
| Memory.FlatMemory.Read16 | memory.c:11-15 | returns the little-endian word read from p and p+1 and modifies nothing |
| Memory.FlatMemory.Write8 | memory.c:17-20 | the buffer afterwards is `Store8` of the old buffer |
| Memory.FlatMemory.Write16 | memory.c:22-25 | the buffer afterwards is `Store16` of the old buffer: low byte at p, high byte at p+1 |
| NesMemory.DecodeNes | nes_memory.c:19-34 | an address has a backing cell exactly when it is in RAM; that cell is below 0x800 and congruent to the address mod 0x800 |
| NesMemory.RegionBounds | nes_memory.c:13-33 | the cascade is total and disjoint: each of the five regions is exactly its address interval |
| NesMemory.OnlyRamIsBacked | nes_memory.c:22-33 | only addresses up to 0x1FFF get a cell; the PPU, APU, disabled-APU and cartridge branches return none |
| NesMemory.RamMirroring | nes_memory.c:22-24 | `a` and `a + 0x800*k` within 0x0000-0x1FFF decode to the same RAM cell `a & 0x7FF` |
| Opcodes.TableWidths | 6502.c:712-757 | every width is at most 3; a valid opcode's width is 1..3 and is the operand size its mode implies |
| Opcodes.TableCycles | 6502.c:695-709 | every base cycle count is at most 8; a valid opcode costs 2..7 cycles |
| Opcodes.BranchOpcodes | 6502.c:666-757 | a byte decodes to a branch exactly when it is one of 0x10, 0x30, ..., 0xF0; branches are relative and two bytes wide |
| Opcodes.InvalidWidthZero | 6502.c:712-757 | byte 0x02 decodes to BADOP with width 0 and 0 cycles |
| Cpu.Processor.constructor | 6502.c:41-55 | `init_cpu_info`: all registers and flags zero, not finished, display dirty, over the given memory |
| Cpu.Processor.Push8 | 6502.c:73-76 | the state afterwards is `CpuSpec.Push8` of the old state: byte at `0x100 + s`, then s decremented mod 256 |
| Cpu.Processor.Push16 | 6502.c:78-83 | the state afterwards is `CpuSpec.Push16`: high byte pushed first, then low byte |
| Cpu.Processor.Pull8 | 6502.c:85-88 | returns the byte and state of `CpuSpec.Pull8`: s incremented mod 256 first, then read |
| Cpu.Processor.Pull16 | 6502.c:90-94 | returns the word and state of `CpuSpec.Pull16`: low byte pulled first, then high byte |
| Cpu.Processor.PullStatus | 6502.c:110-119 | the state afterwards is `CpuSpec.PullStatus`: a byte pulled and its bits 7,6,3,2,1,0 loaded into N,V,D,I,Z,C |
| Cpu.Processor.PushStatus | 6502.c:121-130 | the state afterwards is `CpuSpec.PushStatus`: the status byte with bits 5-4 = 00 pushed |
| Cpu.Processor.PushStatusBrk | 6502.c:132-141 | the state afterwards is `CpuSpec.PushStatusBrk`: the status byte with bits 5-4 = 10 pushed |
| Cpu.Processor.TriggerNmi | 6502.c:143-149 | the state afterwards is `CpuSpec.TriggerNmi` (see InterruptFrame) |
| Cpu.Processor.TriggerIrq | 6502.c:151-159 | the state afterwards is `CpuSpec.TriggerIrq` (see IrqMasked and InterruptFrame) |
| Cpu.Processor.ResolveAddress | 6502.c:187-229 | the address is `CpuSpec.EffectiveAddress` for the current pc, X, Y and memory in each of the 11 modes, and memory is not modified |
| Cpu.Processor.Step | 6502.c:161-240 | the state afterwards is `CpuSpec.Step` of the old state: count down, or fetch, decode, advance pc and execute |
| Cpu.Processor.Execute | 6502.c:240-629 | the state afterwards is `CpuSpec.Execute` of the old state for the decoded operation |
| Cpu.Processor.ExecuteArithmetic | 6502.c:240-629 | the same for ADC, SBC, AND, EOR, ORA, BIT, CMP, CPX and CPY |
| Cpu.Processor.Adc | 6502.c:241-250 | A := (A + m + C) mod 256, C := result < old A, Z and N from the result, V untouched |
| Cpu.Processor.Sbc | 6502.c:546-556 | A := (A - m - (1 - C)) mod 256, C := result < old A, Z and N from the result, V untouched |
| Cpu.Processor.And | 6502.c:252-256 | A := A & m, with Z and N from the result |
| Cpu.Processor.Eor | 6502.c:394-400 | A and memory are unchanged, and Z and N are refreshed from A |
| Cpu.Processor.Ora | 6502.c:472-476 | Y := A OR m, with Z and N from the unchanged A |
| Cpu.Processor.Bit | 6502.c:285-292 | Z := (A & m == 0), N := bit 7 of m, V := bit 6 of m |
| Cpu.Processor.Cmp | 6502.c:346-353 | the compare flags of A against m (see CompareFlags) |
| Cpu.Processor.Cpx | 6502.c:355-362 | the compare flags of X against m |
| Cpu.Processor.Cpy | 6502.c:364-371 | the compare flags of Y against m |
| Cpu.Processor.ExecuteShift | 6502.c:240-629 | the state afterwards is `CpuSpec.Execute` for ASL, LSR, ROL and ROR |
| Cpu.Processor.Asl | 6502.c:258-265 | A := A shifted left by the operand byte, truncated to 8 bits, with C from bit 7 of the old A and Z and N from the result |
| Cpu.Processor.Lsr | 6502.c:451-467 | the state afterwards is `CpuSpec.ShiftRight` on A or on the memory byte, by mode |
| Cpu.Processor.ShiftRight | 6502.c:451-467 | a shift right by one of A (accumulator form) or of the memory byte, with C from the old bit 0, Z from the result and N := 0 |
| Cpu.Processor.Rol | 6502.c:494-513 | the state afterwards is `CpuSpec.RotateLeft` |
| Cpu.Processor.RotateLeft | 6502.c:494-513 | rotate left without carry-in; C from the old bit 0, Z from the new bit 7, N unchanged |
| Cpu.Processor.Ror | 6502.c:515-534 | the state afterwards is `CpuSpec.RotateRight` |
| Cpu.Processor.RotateRight | 6502.c:515-534 | rotate right without carry-in; C from the old bit 0, Z from the new bit 7, N unchanged |
| Cpu.Processor.ExecuteCountStep | 6502.c:240-629 | the state afterwards is `CpuSpec.Execute` for INC, DEC, INX, INY, DEX and DEY |
| Cpu.Processor.Inc | 6502.c:402-409 | the memory byte is written back plus one mod 256, with Z and N from it |
| Cpu.Processor.Dec | 6502.c:373-380 | the memory byte is written back minus one mod 256, with Z and N from it |
| Cpu.Processor.Inx | 6502.c:411-415 | X := X + 1 mod 256, with Z and N from it |
| Cpu.Processor.Iny | 6502.c:417-421 | Y := Y + 1 mod 256, with Z and N from it |
| Cpu.Processor.Dex | 6502.c:382-386 | X := X - 1 mod 256, with Z and N from it |
| Cpu.Processor.Dey | 6502.c:388-392 | Y := Y - 1 mod 256, with Z and N from it |
| Cpu.Processor.ExecuteMove | 6502.c:240-629 | the state afterwards is `CpuSpec.Execute` for loads, stores and transfers |
| Cpu.Processor.Lda | 6502.c:433-437 | A := m, with Z and N from it |
| Cpu.Processor.Ldx | 6502.c:439-443 | X := m, with Z and N from it |
| Cpu.Processor.Ldy | 6502.c:445-449 | Y := m, with Z and N from it |
| Cpu.Processor.Sta | 6502.c:570-576 | the state afterwards is `CpuSpec.StoreRegister` of A |
| Cpu.Processor.Stx | 6502.c:578-584 | the state afterwards is `CpuSpec.StoreRegister` of X |
| Cpu.Processor.Sty | 6502.c:586-592 | the state afterwards is `CpuSpec.StoreRegister` of Y |
| Cpu.Processor.StoreRegister | 6502.c:570-592 | writes the byte at the address, and marks the display dirty exactly when the address is in 0x0200-0x05FF |
| Cpu.Processor.Tax | 6502.c:594-598 | X := A, with Z and N from it |
| Cpu.Processor.Tay | 6502.c:600-604 | Y := A, with Z and N from it |
| Cpu.Processor.Tsx | 6502.c:606-610 | X := S, with Z and N from it |
| Cpu.Processor.Txa | 6502.c:612-616 | A := X, with Z and N from it |
| Cpu.Processor.Txs | 6502.c:618-622 | S := X, with Z and N from it |
| Cpu.Processor.Tya | 6502.c:624-628 | A := Y, with Z and N from it |
| Cpu.Processor.ExecuteFlagOrStack | 6502.c:240-629 | the state afterwards is `CpuSpec.Execute` for the flag and stack operations |
| Cpu.Processor.Clc | 6502.c:330-332 | C := 0 |
| Cpu.Processor.Cld | 6502.c:334-336 | D := 0 |
| Cpu.Processor.Cli | 6502.c:338-340 | I := 0 |
| Cpu.Processor.Clv | 6502.c:342-344 | V := 0 |
| Cpu.Processor.Sec | 6502.c:558-560 | C := 1 |
| Cpu.Processor.Sed | 6502.c:562-564 | D := 1 |
| Cpu.Processor.Sei | 6502.c:566-568 | I := 1 |
| Cpu.Processor.Pha | 6502.c:478-480 | pushes A |
| Cpu.Processor.Php | 6502.c:482-484 | pushes the status byte with bits 5-4 = 00 |
| Cpu.Processor.Pla | 6502.c:486-488 | pulls A and changes no flag |
| Cpu.Processor.Plp | 6502.c:490-492 | pulls the status flags |
| Cpu.Processor.ExecuteControl | 6502.c:240-629 | the state afterwards is `CpuSpec.Execute` for branches, jumps, returns, BRK, NOP and BADOP |
| Cpu.Processor.Bcc | 6502.c:267-271 | pc := the branch target when C = 0 |
| Cpu.Processor.Bcs | 6502.c:273-277 | pc := the branch target when C = 1 |
| Cpu.Processor.Beq | 6502.c:279-283 | pc := the branch target when Z = 1 |
| Cpu.Processor.Bmi | 6502.c:294-298 | pc := the branch target when N = 1 |
| Cpu.Processor.Bne | 6502.c:300-304 | pc := the branch target when Z = 0 |
| Cpu.Processor.Bpl | 6502.c:306-310 | pc := the branch target when N = 0 |
| Cpu.Processor.Bvc | 6502.c:318-322 | pc := the branch target when V = 0 |
| Cpu.Processor.Bvs | 6502.c:324-328 | pc := the branch target when V = 1 |
| Cpu.Processor.Brk | 6502.c:312-316 | only the halt indicator is raised |
| Cpu.Processor.Jmp | 6502.c:423-425 | pc := the effective address |
| Cpu.Processor.Jsr | 6502.c:427-431 | the state afterwards is `CpuSpec.JumpToSubroutine`: pushes pc - 1, then jumps |
| Cpu.Processor.Rti | 6502.c:536-539 | the state afterwards is `CpuSpec.ReturnFromInterrupt`: pulls the status, then pc |
| Cpu.Processor.Rts | 6502.c:541-544 | the state afterwards is `CpuSpec.ReturnFromSubroutine`: pc := pulled word + 1 |
| CpuProperties.StackInPageOne | 6502.c:73-94 | every stack address is in 0x0100-0x01FF and is stored unmirrored in the 2 KiB buffer |
| CpuProperties.Push8Effect | 6502.c:73-76 | `push8` writes the byte at `0x100 + s` and decrements s, wrapping 0x00 to 0xFF; no other cell or field changes |
| CpuProperties.Pull8Effect | 6502.c:85-88 | `pull8` increments s first, wrapping 0xFF to 0x00, and reads at `0x100 + s`; no other field changes |
| CpuProperties.Pull8AfterPush8 | 6502.c:73-88 | `pull8` right after `push8(v)` returns v and restores s |
| CpuProperties.StackSlots | 6502.c:78-94 | the slot arithmetic of two pushes or pulls, modulo 256 |
| CpuProperties.Push16Cells | 6502.c:78-83 | `push16` stores the high byte at `0x100 + s` and the low byte one slot below, and moves s down by two |
| CpuProperties.Push16Frame | 6502.c:78-83 | `push16` changes no other cell and no field besides s and memory |
| CpuProperties.Pull16Reads | 6502.c:90-94 | `pull16` returns the low byte one slot above s and the high byte two slots above |
| CpuProperties.Pull16Frame | 6502.c:90-94 | `pull16` moves s up by two and changes nothing else |
| CpuProperties.Pull16AfterPush16 | 6502.c:78-94 | `pull16` right after `push16(v)` returns v and restores s |
| CpuProperties.StatusBits | 6502.c:121-141 | the status byte carries N,V,brk,0,D,I,Z,C in bits 7..0 |
| CpuProperties.StatusRoundTrip | 6502.c:110-130 | `pull_status` after `push_status` restores every register and flag, including s |
| CpuProperties.IrqMasked | 6502.c:151-159 | `trigger_irq` with I = 1 changes nothing |
| CpuProperties.InterruptFrame | 6502.c:143-159 | interrupt entry: pc high, pc low and the status byte (bits 5-4 = 00) pushed, s down by 3, I := 1, pc := the single byte at the vector, nothing else changed |
| CpuProperties.NmiExample | 6502.c:143-149 | an NMI at pc 0x1234 with s = 0xFF lands at the vector byte and leaves 0x12, 0x34 and the status byte at 0x1FF..0x1FD |
| CpuProperties.StepCountsDown | 6502.c:164-169 | while cycles > 0, `step` only decrements the cycle counter |
| CpuProperties.StepFetches | 6502.c:171-240 | otherwise cycles := the table entry and pc := old pc + width mod 2^16, and then the decoded operation runs at the address computed from the old pc |
| CpuProperties.BadOpOnlyFetches | 6502.c:171-240 | for a byte decoded to BADOP only cycles and pc change |
| CpuProperties.WidthZeroStalls | 6502.c:171-240 | a BADOP of width 0 leaves the machine stuck: any number of steps changes nothing but the cycle counter |
| CpuProperties.StepBranch | 6502.c:204-205 | a branch sets pc to old pc + 2 + the sign-extended offset exactly when its flag test holds, and otherwise to old pc + 2 |
| CpuProperties.LoadZeroThenBranch | 6502.c:204-283 | `A9 00 F0 02` at 0x0600: after four steps A = 0, Z = 1 and pc = 0x0606 |
| CpuProperties.LoadZeroStep | 6502.c:433-437 | LDA #0 at 0x0600: A = 0, Z = 1, pc = 0x0602, two cycles charged, memory unchanged |
| CpuProperties.AssignLoads | 6502.c:433-628 | a register load sets that register, Z and N from the value, and changes nothing else |
| CpuProperties.Loads | 6502.c:433-449 | LDA, LDX and LDY load the operand byte into their register, with only Z and N changing besides |
| CpuProperties.Transfers | 6502.c:594-628 | TAX, TAY, TXA and TYA copy one register into the other, with only Z and N changing besides |
| CpuProperties.StackTransfers | 6502.c:606-622 | TSX copies S into X and TXS copies X into S, each with Z and N from the value |
| CpuProperties.Increments | 6502.c:411-421 | INX and INY add one mod 256 and set Z and N from the result; nothing else changes |
| CpuProperties.Decrements | 6502.c:382-392 | DEX and DEY subtract one mod 256 and set Z and N from the result; nothing else changes |
| CpuProperties.MemoryCounts | 6502.c:373-409 | INC and DEC write the memory byte back plus or minus one mod 256, with Z and N from it |
| CpuProperties.CompareFlags | 6502.c:346-371 | CMP, CPX and CPY set C iff reg >= m, Z iff reg == m, N from bit 7 of (reg - m) mod 256, and change no register or memory |
| CpuProperties.FlagOperationsIdempotent | 6502.c:330-568 | CLC, CLD, CLI, CLV, SEC, SED and SEI are idempotent and leave memory unchanged |
| CpuProperties.LoadImmediateExample | 6502.c:433-437 | LDA #5 at 0x0600: A = 5, Z = N = 0, pc = 0x0602, two cycles charged |
| CpuProperties.IncrementWrapsExample | 6502.c:411-415 | INX with X = 0xFF: X = 0, Z = 1 and pc = 0x0601 |
| CpuProperties.JsrPushes | 6502.c:427-431 | JSR leaves pc - 1 in the two slots just above the new s and jumps to the operand address |
| CpuProperties.RtsPulls | 6502.c:541-544 | RTS continues one byte after the word in the two slots above s, and moves s up by two |
| CpuProperties.ReturnAddress | 6502.c:427-544 | the address JSR pushes, plus one, is the pc it came from |
| CpuProperties.JsrThenRts | 6502.c:427-544 | RTS after JSR, with s and the two return slots untouched in between, resumes at the old pc with s restored |
| CpuProperties.SubroutineDispatch | 6502.c:427-544 | `step`'s JSR and RTS cases are exactly `JumpToSubroutine` and `ReturnFromSubroutine`, whole state included, whatever the mode and address |
| CpuProperties.JsrOpcode | 6502.c:666-757 | 0x20 is an absolute JSR three bytes wide and 0x60 an RTS one byte wide, so the return lands after the JSR |
| CpuProperties.EorKeepsAccumulator | 6502.c:394-400 | as written, EOR leaves A unchanged and only refreshes Z and N |
| CpuProperties.OraWritesY | 6502.c:472-476 | as written, ORA writes A OR m into Y, sets Z iff A = 0 and N iff A >= 0x80, and changes nothing else |
| CpuProperties.ArithmeticCarry | 6502.c:241-556 | as written, ADC and SBC never change V and set C iff the 8-bit result is below the old A |
| CpuProperties.AdcCarryExample | 6502.c:241-250 | 0xFF + 0xFF + 1 clears C as written |
| CpuProperties.SbcCarryExample | 6502.c:546-556 | 5 - 0 with C = 1 clears C as written |
| CpuProperties.AslShiftsByOperand | 6502.c:258-265 | as written, ASL with A = 1 and operand byte 3 gives A = 8 and leaves memory unchanged |
| CpuProperties.RolWithoutCarryIn | 6502.c:494-534 | as written, ROL and ROR have no carry-in (A = 0 with C = 1 stays 0 and clears C), take Z from bit 7 of the result (ROL 0x40 and ROR 1 give 0x80 with Z = 1) and leave N unchanged |
| CpuProperties.StackTransferFlags | 6502.c:486-622 | as written, TXS with X = 0 sets Z, and PLA changes neither Z nor N |
| CpuProperties.BrkOnlyHalts | 6502.c:312-316 | as written, BRK only raises the halt indicator |
| CpuProperties.VectorIsOneByte | 6502.c:143-159 | as written, an NMI loads pc from the single byte at 0xFFFA and a taken IRQ from the byte at 0xFFFE; the byte after each vector is ignored |
| CpuProperties.ZpxLeavesZeroPage | 6502.c:210-211 | as written, zero page,X adds X sign-extended with no wrap in page 0; the address is in page 0 exactly when the signed sum is (operand 0x05 with X = 0x80 yields 0xFF85) |
| CpuProperties.ZpyLeavesZeroPage | 6502.c:213-214 | as written, zero page,Y does the same with Y (operand 0xFF with Y = 1 yields 0x0100) |
| CpuProperties.AbySignExtends | 6502.c:196-197 | as written, absolute,Y with Y >= 0x80 lands 256 below the unsigned sum |
| CpuProperties.AbxSignExtends | 6502.c:193-194 | as written, absolute,X with X >= 0x80 lands 256 below the unsigned sum |
| CpuProperties.IzxCrossesPage | 6502.c:221-222 | as written, (indirect,X) reads the pointer's low byte at `operand + X` and its high byte at the next address, with no wrap in page 0 (operand 0xFF with X = 1 reads 0x0100-0x0101) |

## Left out

- `gui.c` and `main.c` are not part of this model: they hold X11 output, keyboard input, timing, random numbers and the program entry.
- `load_file_to_mem`: file input. The model starts from any memory image.
- `print_registers`, `print_bin` and the opcode and address-mode name tables: text output only.
- `rotr` and `rotl`: `step` never calls them.
- The `stats` counter: it is never initialised and only measures speed.
- PPU, APU and cartridge storage: the NES decoder only classifies these addresses, and the C code returns no cell for them.
- `make_nes_mem`: allocation only. It never allocates the `ram` buffer, so in the source every RAM access through the NES layout dereferences an uninitialised pointer; `DecodeNes` gives that window a well-defined cell offset instead. The NES layout is not wired to the CPU, because the function-pointer interface is not modelled as a trait. `Processor` runs over `FlatMemory`, and `DecodeAddress` records both choices of decoder.
- `Memory.FlatMemory.constructor`: Dafny fills the fresh buffer with zeros, while `malloc` leaves it undefined. The model states only that the buffer is fresh.
- `Bits.ShiftLeft8`: every count gives the 8-bit truncation of `v * 2^k` (0 from k = 8 on). In the C source the shift of the promoted `int` is undefined behaviour once `v * 2^k` exceeds `INT_MAX` (for example v = 0x80 with k = 24) and for every count of 32 or more.
- `CpuSpec.Step`: no lemma states that every operation leaves `cycles` alone. Only the fetch half of the cycle and pc update is stated, in `StepFetches`.
- Page-crossing cycle penalties, decimal mode and undocumented opcodes: the C code has none of them.
- The effective address of type `int16_t` in `step` is modelled as an unsigned 16-bit word. It is passed to the `uint16_t` memory interface, assigned to the `uint16_t` pc, or compared with 0x200..0x5FF. Each of these gives the same result for the signed and the unsigned reading.
