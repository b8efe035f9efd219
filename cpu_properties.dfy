/**
 * What 6502.c promises, and where it departs from the real 6502, stated as
 * lemmas over the functional model in `CpuSpec`. `Cpu.Processor` is proved
 * to compute exactly these functions, so every lemma here holds of the
 * imperative processor as well.
 */
module CpuProperties {
  import opened Bits
  import opened Memory
  import opened Opcodes
  import opened CpuSpec

  // ---------------------------------------------------------------------------
  // Stack

  /** Every stack access lands in page 1, and page 1 is stored unmirrored in the buffer. */
  lemma StackInPageOne(s: Byte)
    ensures 0x100 <= StackAddress(s) <= 0x1FF
    ensures DecodeFlat2k(StackAddress(s)) == StackAddress(s)
  {
  }

  /**
   * `push8` writes at `0x100 + s`, then decrements s, wrapping from 0x00 to
   * 0xFF; no other cell and no other field changes.
   */
  lemma Push8Effect(m: Machine, value: Byte)
    ensures Push8(m, value).ram[StackAddress(m.s)] == value
    ensures Push8(m, value).s == if m.s == 0 then 0xFF else m.s - 1
    ensures forall k :: 0 <= k < RamSize && k != StackAddress(m.s) ==> Push8(m, value).ram[k] == m.ram[k]
    ensures Push8(m, value).(ram := m.ram, s := m.s) == m
  {
  }

  /** `pull8` increments s first, wrapping from 0xFF to 0x00, and reads there; nothing else changes. */
  lemma Pull8Effect(m: Machine)
    ensures Pull8(m).1.s == if m.s == 0xFF then 0 else m.s + 1
    ensures Pull8(m).0 == m.ram[Pull8(m).1.s + 0x100]
    ensures Pull8(m).1.(s := m.s) == m
  {
  }

  /** `pull8` right after `push8` returns the pushed byte and restores s. */
  lemma Pull8AfterPush8(m: Machine, value: Byte)
    ensures Pull8(Push8(m, value)) == (value, Push8(m, value).(s := m.s))
  {
  }

  /** The slots a 16-bit push or pull uses, modulo 256. */
  lemma StackSlots(s: Byte)
    ensures Wrap8(Wrap8(s - 1) - 1) == Wrap8(s - 2)
    ensures Wrap8(Wrap8(s - 2) + 1) == Wrap8(s - 1)
    ensures Wrap8(Wrap8(s - 2) + 2) == s
    ensures Wrap8(Wrap8(s + 1) + 1) == Wrap8(s + 2)
  {
  }

  /** `push16` stores the high byte at `0x100 + s` and the low byte one slot below it. */
  lemma Push16Cells(m: Machine, value: Word)
    ensures Push16(m, value).s == Wrap8(m.s - 2)
    ensures Push16(m, value).ram[StackAddress(m.s)] == Hi(value)
    ensures Push16(m, value).ram[StackAddress(Wrap8(m.s - 1))] == Lo(value)
  {
    var high := Push8(m, Hi(value));
    assert high.s == Wrap8(m.s - 1) && high.ram[StackAddress(m.s)] == Hi(value);
    var low := Push8(high, Lo(value));
    assert low.ram[StackAddress(high.s)] == Lo(value);
    assert StackAddress(high.s) != StackAddress(m.s);
    StackSlots(m.s);
  }

  /** `push16` changes no other cell and no field besides s and memory. */
  lemma Push16Frame(m: Machine, value: Word)
    ensures forall k :: 0 <= k < RamSize && k != StackAddress(m.s) && k != StackAddress(Wrap8(m.s - 1)) ==>
      Push16(m, value).ram[k] == m.ram[k]
    ensures Push16(m, value).(ram := m.ram, s := m.s) == m
  {
    Push8Effect(m, Hi(value));
    Push8Effect(Push8(m, Hi(value)), Lo(value));
  }

  /** `pull16` reads the low byte one slot above s and the high byte two slots above. */
  lemma Pull16Reads(m: Machine)
    ensures Pull16(m).0 == m.ram[StackAddress(Wrap8(m.s + 1))] + 0x100 * m.ram[StackAddress(Wrap8(m.s + 2))] as int
  {
    StackSlots(m.s);
  }

  /** `pull16` moves s up by two and changes nothing else. */
  lemma Pull16Frame(m: Machine)
    ensures Pull16(m).1 == m.(s := Wrap8(m.s + 2))
  {
    StackSlots(m.s);
  }

  /** `pull16` right after `push16` returns the pushed word and restores s. */
  lemma Pull16AfterPush16(m: Machine, value: Word)
    ensures Pull16(Push16(m, value)) == (value, Push16(m, value).(s := m.s))
  {
    var pushed := Push16(m, value);
    Push16Cells(m, value);
    Pull16Reads(pushed);
    Pull16Frame(pushed);
    StackSlots(m.s);
  }

  // ---------------------------------------------------------------------------
  // Status register

  /**
   * The packed status byte carries N, V, D, I, Z and C in bits 7, 6, 3, 2, 1
   * and 0; bit 5 is set only by the BRK variant and bit 4 is always clear.
   */
  lemma StatusBits(m: Machine, brk: bool)
    ensures BitAt(StatusByte(m, brk), 7) == m.n
    ensures BitAt(StatusByte(m, brk), 6) == m.v
    ensures BitAt(StatusByte(m, brk), 5) == Flag(brk)
    ensures BitAt(StatusByte(m, brk), 4) == 0
    ensures BitAt(StatusByte(m, brk), 3) == m.d
    ensures BitAt(StatusByte(m, brk), 2) == m.i
    ensures BitAt(StatusByte(m, brk), 1) == m.z
    ensures BitAt(StatusByte(m, brk), 0) == m.c
  {
    // Halve the packed byte one bit at a time; each halving drops one flag.
    var b: int := Flag(brk);
    var p := StatusByte(m, brk);
    var p1: Byte := m.n * 0x40 + m.v * 0x20 + b * 0x10 + m.d * 0x04 + m.i * 0x02 + m.z;
    var p2: Byte := m.n * 0x20 + m.v * 0x10 + b * 0x08 + m.d * 0x02 + m.i;
    var p3: Byte := m.n * 0x10 + m.v * 0x08 + b * 0x04 + m.d;
    var p4: Byte := m.n * 0x08 + m.v * 0x04 + b * 0x02;
    var p5: Byte := m.n * 0x04 + m.v * 0x02 + b;
    var p6: Byte := m.n * 0x02 + m.v;
    assert p / 2 == p1 && p1 / 2 == p2 && p2 / 2 == p3 && p3 / 2 == p4 && p4 / 2 == p5 && p5 / 2 == p6 && p6 / 2 == m.n;
    assert BitAt(p, 1) == m.z;
    assert BitAt(p1, 1) == m.i && BitAt(p, 2) == m.i;
    assert BitAt(p2, 1) == m.d && BitAt(p1, 2) == m.d && BitAt(p, 3) == m.d;
    assert BitAt(p3, 1) == 0 && BitAt(p2, 2) == 0 && BitAt(p1, 3) == 0 && BitAt(p, 4) == 0;
    assert BitAt(p4, 1) == b && BitAt(p3, 2) == b && BitAt(p2, 3) == b && BitAt(p1, 4) == b && BitAt(p, 5) == b;
    assert BitAt(p5, 1) == m.v && BitAt(p4, 2) == m.v && BitAt(p3, 3) == m.v && BitAt(p2, 4) == m.v && BitAt(p1, 5) == m.v && BitAt(p, 6) == m.v;
    assert BitAt(p6, 1) == m.n && BitAt(p5, 2) == m.n && BitAt(p4, 3) == m.n && BitAt(p3, 4) == m.n && BitAt(p2, 5) == m.n && BitAt(p1, 6) == m.n && BitAt(p, 7) == m.n;
  }

  /**
   * `pull_status` right after `push_status` restores the six flags and s:
   * the machine is unchanged apart from the pushed byte in page 1.
   */
  lemma StatusRoundTrip(m: Machine)
    ensures PullStatus(PushStatus(m)) == m.(ram := PushStatus(m).ram)
  {
    var pushed := PushStatus(m);
    Pull8AfterPush8(m, StatusByte(m, false));
    StatusBits(m, false);
  }

  // ---------------------------------------------------------------------------
  // Interrupts

  /** `trigger_irq` does nothing while interrupts are disabled. */
  lemma IrqMasked(m: Machine)
    requires m.i == 1
    ensures TriggerIrq(m) == m
  {
  }

  /**
   * The interrupt entry of `trigger_nmi` and `trigger_irq`: the high byte of
   * pc, its low byte and the status byte (bits 5-4 clear) are pushed in that
   * order, I is set, and pc is the single byte stored at the vector, so it
   * always lies in page 0. Nothing else changes.
   */
  lemma InterruptFrame(m: Machine, vector: Word)
    requires vector == NmiVector || vector == IrqVector
    ensures var entered := Interrupt(m, vector);
      && entered.ram[StackAddress(m.s)] == Hi(m.pc)
      && entered.ram[StackAddress(Wrap8(m.s - 1))] == Lo(m.pc)
      && entered.ram[StackAddress(Wrap8(m.s - 2))] == StatusByte(m, false)
      && (forall k :: 0 <= k < RamSize && k !in {StackAddress(m.s), StackAddress(Wrap8(m.s - 1)), StackAddress(Wrap8(m.s - 2))} ==>
            entered.ram[k] == m.ram[k])
      && entered.s == Wrap8(m.s - 3)
      && entered.i == 1
      && entered.pc == Load8(m.ram, vector)
      && entered.pc < 0x100
      && entered.(ram := m.ram, s := m.s, i := m.i, pc := m.pc) == m
  {
    var m1 := Push16(m, m.pc);
    Push16Cells(m, m.pc);
    Push16Frame(m, m.pc);
    Push8Effect(m1, StatusByte(m1, false));
    assert StatusByte(m1, false) == StatusByte(m, false);
    assert Wrap8(m1.s) == Wrap8(m.s - 2);
    assert Wrap8(m1.s - 1) == Wrap8(m.s - 3);
    assert DecodeFlat2k(vector) >= 0x200;
  }

  /** An NMI taken at pc 0x1234 with an empty stack, the vector byte being 0x40. */
  lemma NmiExample(m: Machine)
    requires m.pc == 0x1234 && m.s == 0xFF && m.ram[0x7FA] == 0x40
    ensures TriggerNmi(m).pc == 0x40
    ensures TriggerNmi(m).ram[0x1FF] == 0x12 && TriggerNmi(m).ram[0x1FE] == 0x34
    ensures TriggerNmi(m).ram[0x1FD] == StatusByte(m, false)
    ensures TriggerNmi(m).s == 0xFC && TriggerNmi(m).i == 1
  {
    InterruptFrame(m, NmiVector);
  }

  // ---------------------------------------------------------------------------
  // One step

  /** `n` successive calls of `step`. */
  function Run(m: Machine, n: nat): Machine
    decreases n
  {
    if n == 0 then m else Run(Step(m), n - 1)
  }

  /** While an instruction is in flight, `step` only decrements the cycle counter. */
  lemma StepCountsDown(m: Machine)
    requires m.cycles > 0
    ensures Step(m).cycles == m.cycles - 1
    ensures Step(m).(cycles := m.cycles) == m
  {
  }

  /**
   * With no instruction in flight, `step` first loads the cycle counter from
   * the cycle table and moves pc past the instruction (modulo 2^16), changing
   * nothing else, and then dispatches on the decoded operation with the
   * address computed from the old pc.
   */
  lemma StepFetches(m: Machine)
    requires m.cycles <= 0
    ensures var opcode := m.ram[DecodeFlat2k(m.pc)];
      && Fetch(m).cycles == CyclesOf(opcode)
      && Fetch(m).pc == (m.pc + WidthOf(opcode)) % 0x1_0000
      && Fetch(m).(cycles := m.cycles, pc := m.pc) == m
      && Step(m) == Execute(Fetch(m), OpcodeOf(opcode), AddressModeOf(opcode),
                            EffectiveAddress(m.ram, m.pc, m.x, m.y, AddressModeOf(opcode), WidthOf(opcode)))
  {
  }

  /** An invalid byte only reloads the cycle counter and moves pc by its width. */
  lemma BadOpOnlyFetches(m: Machine)
    requires m.cycles <= 0 && OpcodeOf(CurrentOpcode(m)) == BADOP
    ensures Step(m).ram == m.ram
    ensures Step(m).pc == Wrap16(m.pc + WidthOf(CurrentOpcode(m)))
    ensures Step(m).(cycles := m.cycles, pc := m.pc) == m
  {
  }

  /**
   * An invalid byte of width 0 (such as 0x02) under pc stalls the processor
   * for good: however many steps follow, pc, memory, registers and flags
   * stay as they are; only the cycle counter moves.
   */
  lemma {:induction false} WidthZeroStalls(m: Machine, n: nat)
    requires OpcodeOf(CurrentOpcode(m)) == BADOP && WidthOf(CurrentOpcode(m)) == 0
    ensures Run(m, n).(cycles := m.cycles) == m
    decreases n
  {
    if n > 0 {
      var next := Step(m);
      assert next.(cycles := m.cycles) == m;
      assert CurrentOpcode(next) == CurrentOpcode(m);
      WidthZeroStalls(next, n - 1);
      assert Run(m, n) == Run(next, n - 1);
    }
  }

  // ---------------------------------------------------------------------------
  // Branches

  /** The flag test of each of the eight conditional branches. */
  predicate BranchCondition(op: Op, m: Machine) {
    match op
    case BCC => m.c == 0
    case BCS => m.c == 1
    case BEQ => m.z == 1
    case BNE => m.z == 0
    case BMI => m.n == 1
    case BPL => m.n == 0
    case BVC => m.v == 0
    case BVS => m.v == 1
    case _ => false
  }

  /**
   * A conditional branch moves pc to `pc + 2 + signext(offset)` when its flag
   * test holds and to `pc + 2` otherwise (both modulo 2^16); apart from the
   * fetch it changes nothing.
   */
  lemma StepBranch(m: Machine)
    requires m.cycles <= 0 && IsBranch(OpcodeOf(CurrentOpcode(m)))
    ensures var target := Wrap16(m.pc + 2 + SignExtend(Load8(m.ram, Wrap16(m.pc + 1))));
      Step(m) == Fetch(m).(pc := if BranchCondition(OpcodeOf(CurrentOpcode(m)), m) then target else Wrap16(m.pc + 2))
  {
    BranchOpcodes(CurrentOpcode(m));
  }

  /** `A9 00 F0 02` at 0x0600: LDA #0 sets Z, and four steps later BEQ has jumped to 0x0606. */
  lemma LoadZeroThenBranch(m: Machine)
    requires m.pc == 0x0600 && m.cycles == 0
    requires m.ram[0x600] == 0xA9 && m.ram[0x601] == 0x00 && m.ram[0x602] == 0xF0 && m.ram[0x603] == 0x02
    ensures Run(m, 4).a == 0 && Run(m, 4).z == 1 && Run(m, 4).pc == 0x0606
  {
    var m1 := Step(m);
    LoadZeroStep(m);
    StepCountsDown(m1);
    var m2 := Step(m1);
    StepCountsDown(m2);
    var m3 := Step(m2);
    assert m3 == m1.(cycles := 0);
    assert m3.pc == 0x0602 && m3.z == 1 && m3.ram == m.ram;
    assert CurrentOpcode(m3) == 0xF0;
    StepBranch(m3);
    assert Run(m, 4) == Run(m1, 3) == Run(m2, 2) == Run(m3, 1) == Step(m3);
  }

  /** The first step of the example above: LDA #0. */
  lemma LoadZeroStep(m: Machine)
    requires m.pc == 0x0600 && m.cycles == 0 && m.ram[0x600] == 0xA9 && m.ram[0x601] == 0x00
    ensures Step(m).a == 0 && Step(m).z == 1 && Step(m).pc == 0x0602 && Step(m).cycles == 2
    ensures Step(m).ram == m.ram
  {
    assert Step(m) == Assign(Fetch(m), A, 0);
  }

  // ---------------------------------------------------------------------------
  // Loads, transfers, increments, decrements and compares

  /**
   * `after` is `before` with register `r` holding `value`, Z and N describing
   * `value`, and every other register, flag, pc and memory unchanged.
   */
  predicate Loaded(before: Machine, after: Machine, r: Register, value: Byte) {
    && Get(after, r) == value
    && (after.z == 1 <==> value == 0)
    && (after.n == 1 <==> value >= 0x80)
    && (forall q: Register :: q != r ==> Get(after, q) == Get(before, q))
    && after.(a := before.a, x := before.x, y := before.y, s := before.s, z := before.z, n := before.n) == before
  }

  /** Every load, transfer, register increment and decrement ends in `Assign`, which loads as described. */
  lemma AssignLoads(m: Machine, r: Register, value: Byte)
    ensures Loaded(m, Assign(m, r, value), r, value)
  {
  }

  /** The register LDA, LDX or LDY loads. */
  function LoadTarget(op: Op): Register {
    match op
    case LDA => A
    case LDX => X
    case _ => Y
  }

  /** LDA, LDX and LDY load the operand byte. */
  lemma Loads(m: Machine, op: Op, mode: AddressMode, address: Word)
    requires op == LDA || op == LDX || op == LDY
    ensures Loaded(m, Execute(m, op, mode, address), LoadTarget(op), m.ram[DecodeFlat2k(address)])
  {
    AssignLoads(m, LoadTarget(op), m.ram[DecodeFlat2k(address)]);
    assert Execute(m, op, mode, address) == Assign(m, LoadTarget(op), m.ram[DecodeFlat2k(address)]);
  }

  /** The source and destination registers of each transfer. */
  function TransferOf(op: Op): (Register, Register) {
    match op
    case TAX => (A, X)
    case TAY => (A, Y)
    case TXA => (X, A)
    case TYA => (Y, A)
    case TSX => (S, X)
    case _ => (X, S)
  }

  /** TAX, TAY, TXA and TYA copy one register into another. */
  lemma Transfers(m: Machine, op: Op, mode: AddressMode, address: Word)
    requires op == TAX || op == TAY || op == TXA || op == TYA
    ensures Loaded(m, Execute(m, op, mode, address), TransferOf(op).1, Get(m, TransferOf(op).0))
  {
    var (from, to) := TransferOf(op);
    AssignLoads(m, to, Get(m, from));
    assert Execute(m, op, mode, address) == Assign(m, to, Get(m, from));
  }

  /** TSX copies s into X; TXS copies X into s and, as written, sets Z and N from it. */
  lemma StackTransfers(m: Machine, op: Op, mode: AddressMode, address: Word)
    requires op == TSX || op == TXS
    ensures Loaded(m, Execute(m, op, mode, address), TransferOf(op).1, Get(m, TransferOf(op).0))
  {
    var (from, to) := TransferOf(op);
    AssignLoads(m, to, Get(m, from));
    assert Execute(m, op, mode, address) == Assign(m, to, Get(m, from));
  }

  /** The register INX, INY, DEX or DEY counts. */
  function CountTarget(op: Op): Register {
    if op == INX || op == DEX then X else Y
  }

  /** INX and INY count up modulo 256. */
  lemma Increments(m: Machine, op: Op, mode: AddressMode, address: Word)
    requires op == INX || op == INY
    ensures var before := Get(m, CountTarget(op));
      Loaded(m, Execute(m, op, mode, address), CountTarget(op), if before == 0xFF then 0 else before + 1)
  {
    var r := CountTarget(op);
    var counted := Wrap8(Get(m, r) + 1);
    AssignLoads(m, r, counted);
    assert Execute(m, op, mode, address) == Assign(m, r, counted);
  }

  /** DEX and DEY count down modulo 256. */
  lemma Decrements(m: Machine, op: Op, mode: AddressMode, address: Word)
    requires op == DEX || op == DEY
    ensures var before := Get(m, CountTarget(op));
      Loaded(m, Execute(m, op, mode, address), CountTarget(op), if before == 0 then 0xFF else before - 1)
  {
    var r := CountTarget(op);
    var counted := Wrap8(Get(m, r) - 1);
    AssignLoads(m, r, counted);
    assert Execute(m, op, mode, address) == Assign(m, r, counted);
  }

  /** INC and DEC count the memory byte modulo 256 and write it back; Z and N describe the new byte. */
  lemma MemoryCounts(m: Machine, op: Op, mode: AddressMode, address: Word)
    requires op == INC || op == DEC
    ensures var operand := m.ram[DecodeFlat2k(address)];
      var counted := if op == INC then (if operand == 0xFF then 0 else operand + 1) else (if operand == 0 then 0xFF else operand - 1);
      var after := Execute(m, op, mode, address);
      && after.ram == m.ram[DecodeFlat2k(address) := counted]
      && (after.z == 1 <==> counted == 0)
      && (after.n == 1 <==> counted >= 0x80)
      && after.(ram := m.ram, z := m.z, n := m.n) == m
  {
  }

  /** The register a compare instruction reads. */
  function ComparedRegister(m: Machine, op: Op): Byte {
    if op == CMP then m.a else if op == CPX then m.x else m.y
  }

  /**
   * CMP, CPX and CPY: C tells reg >= operand, Z tells reg == operand, N is
   * bit 7 of the difference modulo 256, and nothing else changes.
   */
  lemma CompareFlags(m: Machine, op: Op, mode: AddressMode, address: Word)
    requires op == CMP || op == CPX || op == CPY
    ensures var reg := ComparedRegister(m, op);
      var operand := m.ram[DecodeFlat2k(address)];
      var after := Execute(m, op, mode, address);
      && (after.c == 1 <==> reg >= operand)
      && (after.z == 1 <==> reg == operand)
      && (after.n == 1 <==> (reg - operand) % 0x100 >= 0x80)
      && after.(c := m.c, z := m.z, n := m.n) == m
  {
  }

  /** CLC, CLD, CLI, CLV, SEC, SED and SEI: doing one twice is doing it once. */
  lemma FlagOperationsIdempotent(m: Machine, op: Op, mode: AddressMode, address: Word)
    requires op == CLC || op == CLD || op == CLI || op == CLV || op == SEC || op == SED || op == SEI
    ensures Execute(Execute(m, op, mode, address), op, mode, address) == Execute(m, op, mode, address)
    ensures Execute(m, op, mode, address).ram == m.ram
  {
  }

  /** LDA #5 at 0x0600: A becomes 5, Z and N clear, pc moves to 0x0602 and two cycles are charged. */
  lemma LoadImmediateExample(m: Machine)
    requires m.pc == 0x0600 && m.cycles == 0 && m.ram[0x600] == 0xA9 && m.ram[0x601] == 0x05
    ensures Step(m).a == 5 && Step(m).z == 0 && Step(m).n == 0
    ensures Step(m).pc == 0x0602 && Step(m).cycles == 2
  {
    assert Step(m) == Assign(Fetch(m), A, 5);
  }

  /** INX with X = 0xFF: X wraps to 0 and Z is set. */
  lemma IncrementWrapsExample(m: Machine)
    requires m.pc == 0x0600 && m.cycles == 0 && m.ram[0x600] == 0xE8 && m.x == 0xFF
    ensures Step(m).x == 0 && Step(m).z == 1 && Step(m).pc == 0x0601
  {
    assert Step(m) == Assign(Fetch(m), X, 0);
  }

  // ---------------------------------------------------------------------------
  // Subroutines

  /** JSR leaves the address of its own last byte, pc - 1, in the two slots just above the new s. */
  lemma JsrPushes(m: Machine, address: Word)
    ensures var called := JumpToSubroutine(m, address);
      && called.pc == address
      && called.s == Wrap8(m.s - 2)
      && called.ram[StackAddress(Wrap8(called.s + 1))] == Lo(Wrap16(m.pc - 1))
      && called.ram[StackAddress(Wrap8(called.s + 2))] == Hi(Wrap16(m.pc - 1))
  {
    Push16Cells(m, Wrap16(m.pc - 1));
    StackSlots(m.s);
  }

  /** RTS continues one byte after the word in the two slots above s, and moves s up by two. */
  lemma RtsPulls(m: Machine)
    ensures var lo := m.ram[StackAddress(Wrap8(m.s + 1))];
      var hi := m.ram[StackAddress(Wrap8(m.s + 2))];
      && ReturnFromSubroutine(m).pc == (lo + 0x100 * hi as int + 1) % 0x1_0000
      && ReturnFromSubroutine(m).s == Wrap8(m.s + 2)
  {
    Pull16Reads(m);
    Pull16Frame(m);
  }

  /** The address JSR pushes, plus one, is the address it was computed from. */
  lemma ReturnAddress(pc: Word)
    ensures (Wrap16(pc - 1) + 1) % 0x1_0000 == pc
  {
  }

  /**
   * JSR at pc, followed, with s and the two stacked bytes left alone, by an
   * RTS: execution resumes just past the JSR (at pc + 3) and s is back where
   * it was. `m` is the machine after JSR's fetch, so `m.pc` is already pc + 3.
   */
  lemma JsrThenRts(m: Machine, address: Word, between: Machine)
    requires between.s == JumpToSubroutine(m, address).s
    requires var called := JumpToSubroutine(m, address);
      && between.ram[StackAddress(Wrap8(called.s + 1))] == called.ram[StackAddress(Wrap8(called.s + 1))]
      && between.ram[StackAddress(Wrap8(called.s + 2))] == called.ram[StackAddress(Wrap8(called.s + 2))]
    ensures ReturnFromSubroutine(between).pc == m.pc
    ensures ReturnFromSubroutine(between).s == m.s
  {
    var pushed := Wrap16(m.pc - 1);
    JsrPushes(m, address);
    RtsPulls(between);
    var lo := between.ram[StackAddress(Wrap8(between.s + 1))];
    var hi := between.ram[StackAddress(Wrap8(between.s + 2))];
    assert lo == Lo(pushed) && hi == Hi(pushed);
    assert lo + 0x100 * hi as int == pushed;
    ReturnAddress(m.pc);
    StackSlots(m.s);
  }

  /** JSR and RTS in `step`'s dispatch are the two functions above, whatever the decoded mode and address. */
  lemma SubroutineDispatch(m: Machine, mode: AddressMode, address: Word)
    ensures Execute(m, JSR, mode, address) == JumpToSubroutine(m, address)
    ensures Execute(m, RTS, mode, address) == ReturnFromSubroutine(m)
  {
  }

  /** The JSR opcode 0x20 is absolute and three bytes wide, so the return lands at pc + 3. */
  lemma JsrOpcode()
    ensures OpcodeOf(0x20) == JSR && AddressModeOf(0x20) == Abso && WidthOf(0x20) == 3
    ensures OpcodeOf(0x60) == RTS && WidthOf(0x60) == 1
  {
  }

  // ---------------------------------------------------------------------------
  // As written: where 6502.c departs from the 6502

  /** EOR computes nothing: A and memory stay, Z and N describe the unchanged A. */
  lemma EorKeepsAccumulator(m: Machine, mode: AddressMode, address: Word)
    ensures Execute(m, EOR, mode, address).a == m.a
    ensures Execute(m, EOR, mode, address) == m.(z := if m.a == 0 then 1 else 0, n := if m.a >= 0x80 then 1 else 0)
  {
  }

  /** ORA puts the OR of A and the operand in Y and takes Z and N from the unchanged A. */
  lemma OraWritesY(m: Machine, mode: AddressMode, address: Word)
    ensures var after := Execute(m, ORA, mode, address);
      && after.y == Or8(m.a, m.ram[DecodeFlat2k(address)])
      && after.a == m.a
      && (after.z == 1 <==> m.a == 0)
      && (after.n == 1 <==> m.a >= 0x80)
      && after.(y := m.y, z := m.z, n := m.n) == m
  {
  }

  /** ADC and SBC never touch V, and C is "the 8-bit result is below the old A". */
  lemma ArithmeticCarry(m: Machine, mode: AddressMode, address: Word)
    ensures var operand := m.ram[DecodeFlat2k(address)];
      var sum := (m.a + operand + m.c) % 0x100;
      && Execute(m, ADC, mode, address).v == m.v
      && Execute(m, ADC, mode, address).a == sum
      && (Execute(m, ADC, mode, address).c == 1 <==> sum < m.a)
    ensures var operand := m.ram[DecodeFlat2k(address)];
      var difference := (m.a - operand - (1 - m.c)) % 0x100;
      && Execute(m, SBC, mode, address).v == m.v
      && Execute(m, SBC, mode, address).a == difference
      && (Execute(m, SBC, mode, address).c == 1 <==> difference < m.a)
  {
  }

  /** 0xFF + 0xFF + carry overflows 8 bits, yet ADC clears C (the 6502 sets it). */
  lemma AdcCarryExample(m: Machine, address: Word)
    requires m.a == 0xFF && m.c == 1 && m.ram[DecodeFlat2k(address)] == 0xFF
    ensures Execute(m, ADC, Imm, address).c == 0
    ensures Execute(m, ADC, Imm, address).a == 0xFF
  {
  }

  /** 5 - 0 with no borrow needs no borrow, yet SBC clears C (the 6502 sets it). */
  lemma SbcCarryExample(m: Machine, address: Word)
    requires m.a == 5 && m.c == 1 && m.ram[DecodeFlat2k(address)] == 0
    ensures Execute(m, SBC, Imm, address).c == 0
    ensures Execute(m, SBC, Imm, address).a == 5
  {
  }

  /** ASL shifts A by the operand byte (A = 1 and operand 3 give 8), even in the accumulator form. */
  lemma AslShiftsByOperand(m: Machine, mode: AddressMode, address: Word)
    requires m.a == 1 && m.ram[DecodeFlat2k(address)] == 3
    ensures Execute(m, ASL, mode, address).a == 8
    ensures Execute(m, ASL, mode, address).c == 0
    ensures Execute(m, ASL, mode, address).ram == m.ram
  {
  }

  /**
   * ROL and ROR have no carry in: with C set, A = 0 stays 0 and C is cleared.
   * Z is bit 7 of the result: ROL turns 0x40 into 0x80 and sets Z, ROR turns
   * 1 into 0x80, sets Z and takes C from the old bit 0.
   */
  lemma RolWithoutCarryIn(m: Machine, address: Word)
    ensures m.a == 0 && m.c == 1 ==>
      Execute(m, ROL, NoAddressMode, address).a == 0 && Execute(m, ROL, NoAddressMode, address).c == 0
    ensures m.a == 0x40 ==>
      Execute(m, ROL, NoAddressMode, address).a == 0x80 && Execute(m, ROL, NoAddressMode, address).z == 1
    ensures m.a == 0 && m.c == 1 ==>
      Execute(m, ROR, NoAddressMode, address).a == 0 && Execute(m, ROR, NoAddressMode, address).c == 0
    ensures m.a == 1 ==>
      && Execute(m, ROR, NoAddressMode, address).a == 0x80
      && Execute(m, ROR, NoAddressMode, address).z == 1
      && Execute(m, ROR, NoAddressMode, address).c == 1
    ensures Execute(m, ROL, NoAddressMode, address).n == m.n
    ensures Execute(m, ROR, NoAddressMode, address).n == m.n
  {
  }

  /** TXS refreshes Z and N: X = 0 sets Z. PLA leaves Z and N alone. */
  lemma StackTransferFlags(m: Machine, mode: AddressMode, address: Word)
    ensures m.x == 0 ==> Execute(m, TXS, mode, address).z == 1
    ensures Execute(m, PLA, mode, address).z == m.z && Execute(m, PLA, mode, address).n == m.n
  {
  }

  /** BRK only raises the halt indicator: nothing is pushed and pc is not loaded from a vector. */
  lemma BrkOnlyHalts(m: Machine, mode: AddressMode, address: Word)
    ensures Execute(m, BRK, mode, address).finished
    ensures Execute(m, BRK, mode, address).(finished := m.finished) == m
  {
  }

  /**
   * The vectors are read with `read8`: pc takes the byte at 0xFFFA (NMI) or
   * 0xFFFE (IRQ), stored in cell 0x7FA or 0x7FE, and the byte after it is
   * ignored, so an interrupt always enters page 0.
   */
  lemma VectorIsOneByte(m: Machine)
    ensures TriggerNmi(m).pc == m.ram[0x7FA]
    ensures m.i == 0 ==> TriggerIrq(m).pc == m.ram[0x7FE]
  {
    InterruptFrame(m, NmiVector);
    InterruptFrame(m, IrqVector);
  }

  /**
   * Zero page,X adds X sign-extended and does not wrap within page 0: the
   * address stays in page 0 only when the signed sum does. Operand 0x05 with
   * X = 0x80 yields 0xFF85 (the 6502 gives 0x0085).
   */
  lemma ZpxLeavesZeroPage(ram: Ram, pc: Word, x: Byte, y: Byte, width: nat)
    ensures var operand := Load8(ram, Wrap16(pc + 1));
      var address := EffectiveAddress(ram, pc, x, y, Zpx, width);
      && (x < 0x80 ==> address == operand + x)
      && (x >= 0x80 ==> address == (operand + x - 0x100) % 0x1_0000)
      && (address < 0x100 <==> 0 <= operand + SignExtend(x) < 0x100)
      && (operand == 0x05 && x == 0x80 ==> address == 0xFF85)
  {
  }

  /** Zero page,Y behaves the same with Y: it is not confined to page 0 either. */
  lemma ZpyLeavesZeroPage(ram: Ram, pc: Word, x: Byte, y: Byte, width: nat)
    ensures var operand := Load8(ram, Wrap16(pc + 1));
      var address := EffectiveAddress(ram, pc, x, y, Zpy, width);
      && (y < 0x80 ==> address == operand + y)
      && (y >= 0x80 ==> address == (operand + y - 0x100) % 0x1_0000)
      && (address < 0x100 <==> 0 <= operand + SignExtend(y) < 0x100)
      && (operand == 0xFF && y == 1 ==> address == 0x100)
  {
  }

  /** Absolute,Y likewise subtracts 256 from the effect of an index of 0x80 or more. */
  lemma AbySignExtends(ram: Ram, pc: Word, x: Byte, y: Byte, width: nat)
    requires y >= 0x80
    ensures EffectiveAddress(ram, pc, x, y, Aby, width) == (Load16(ram, Wrap16(pc + 1)) + y - 0x100) % 0x1_0000
  {
  }

  /** Absolute,X subtracts 256 from the effect of an index of 0x80 or more. */
  lemma AbxSignExtends(ram: Ram, pc: Word, x: Byte, y: Byte, width: nat)
    requires x >= 0x80
    ensures EffectiveAddress(ram, pc, x, y, Abx, width) == (Load16(ram, Wrap16(pc + 1)) + x - 0x100) % 0x1_0000
  {
  }

  /**
   * (Indirect,X) reads its pointer from `operand + X` and the byte after it,
   * with no wrap within page 0: operand 0xFF and X = 1 read the pointer from
   * 0x0100, not from 0x0000.
   */
  lemma IzxCrossesPage(ram: Ram, pc: Word, x: Byte, y: Byte, width: nat)
    ensures var operand := Load8(ram, Wrap16(pc + 1));
      var address := EffectiveAddress(ram, pc, x, y, Izx, width);
      && Lo(address) == Load8(ram, operand + x)
      && Hi(address) == Load8(ram, operand + x + 1)
      && (operand == 0xFF && x == 1 ==> address == ram[0x100] + 0x100 * ram[0x101] as int)
  {
    var operand := Load8(ram, Wrap16(pc + 1));
    Load16Bytes(ram, operand + x);
  }
}
