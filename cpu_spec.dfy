/**
 * The behaviour of the 6502 core of 6502.c as pure functions over a snapshot
 * of the processor (`struct cpu_info`) and its flat 2 KiB memory.
 *
 * These functions are the specification that the imperative `Cpu.Processor`
 * is proved against, and the object of the lemmas in `CpuProperties`. They
 * follow the C code as written, including its departures from the real 6502;
 * each departure is pointed out where it occurs.
 */
module CpuSpec {
  import opened Bits
  import opened Memory
  import opened Opcodes

  /**
   * `struct cpu_info` together with the contents of the memory it points to.
   * The `stats` speed counter is not part of the model.
   */
  datatype Machine = Machine(
    a: Byte, x: Byte, y: Byte,
    pc: Word,
    s: Byte,
    n: Bit, v: Bit, d: Bit, i: Bit, z: Bit, c: Bit,
    cycles: int,
    visualDirty: bool,
    finished: bool,
    ram: Ram)

  /** `init_cpu_info`: everything zero (the stack pointer too), the screen marked dirty. */
  function Reset(ram: Ram): Machine {
    Machine(0, 0, 0, 0, 0, 0, 0, 0, 0, 0, 0, 0, true, false, ram)
  }

  // ---------------------------------------------------------------------------
  // Stack

  /** `0x100 | s`: the stack lives in page 1. */
  function StackAddress(s: Byte): Word {
    0x100 + s
  }

  /** `push8`: write at the stack pointer, then decrement it modulo 256. */
  function Push8(m: Machine, value: Byte): Machine {
    m.(ram := Store8(m.ram, StackAddress(m.s), value), s := Wrap8(m.s - 1))
  }

  /** `pull8`: increment the stack pointer modulo 256, then read there. */
  function Pull8(m: Machine): (Byte, Machine) {
    var s' := Wrap8(m.s + 1);
    (Load8(m.ram, StackAddress(s')), m.(s := s'))
  }

  /** `push16`: the high byte first, then the low byte. */
  function Push16(m: Machine, value: Word): Machine {
    Push8(Push8(m, Hi(value)), Lo(value))
  }

  /** `pull16`: the low byte first, then the high byte. */
  function Pull16(m: Machine): (Word, Machine) {
    var (lo, m1) := Pull8(m);
    var (hi, m2) := Pull8(m1);
    (hi as int * 0x100 + lo, m2)
  }

  // ---------------------------------------------------------------------------
  // Status register

  /**
   * The packed status byte: N, V, D, I, Z, C in bits 7, 6, 3, 2, 1, 0 and
   * bits 5-4 equal to 0b00 (`push_status`) or 0b10 (`push_status_brk`). The
   * C code ORs the shifted flags; as each flag is 0 or 1 the bits are
   * disjoint and the OR is a sum.
   */
  function StatusByte(m: Machine, brk: bool): Byte {
    m.n * 0x80 + m.v * 0x40 + (if brk then 0x20 else 0) + m.d * 0x08 + m.i * 0x04 + m.z * 0x02 + m.c
  }

  /** `push_status`. */
  function PushStatus(m: Machine): Machine {
    Push8(m, StatusByte(m, false))
  }

  /** `push_status_brk`; nothing in the source calls it. */
  function PushStatusBrk(m: Machine): Machine {
    Push8(m, StatusByte(m, true))
  }

  /** `pull_status`: each flag becomes `(p >> k) & 1` of the pulled byte. */
  function PullStatus(m: Machine): Machine {
    var (p, m1) := Pull8(m);
    m1.(n := BitAt(p, 7), v := BitAt(p, 6), d := BitAt(p, 3), i := BitAt(p, 2), z := BitAt(p, 1), c := BitAt(p, 0))
  }

  // ---------------------------------------------------------------------------
  // Interrupts

  const NmiVector: Word := 0xFFFA
  const IrqVector: Word := 0xFFFE

  /**
   * The entry sequence shared by `trigger_nmi` and `trigger_irq`: push pc and
   * the status (bits 5-4 = 00), set I, and load pc from the vector. The source
   * reads the vector with `read8`, so only its low byte is used and the new
   * pc is below 0x100.
   */
  function Interrupt(m: Machine, vector: Word): Machine {
    var pushed := PushStatus(Push16(m, m.pc));
    pushed.(i := 1, pc := Load8(pushed.ram, vector))
  }

  /** `trigger_nmi`: always taken. */
  function TriggerNmi(m: Machine): Machine {
    Interrupt(m, NmiVector)
  }

  /** `trigger_irq`: taken only while I is clear. */
  function TriggerIrq(m: Machine): Machine {
    if m.i == 0 then Interrupt(m, IrqVector) else m
  }

  // ---------------------------------------------------------------------------
  // Addressing

  /**
   * The effective address of the instruction at `pc`, computed before pc
   * moves. The C code keeps it in an `int16_t`; every use converts it back to
   * `uint16_t` (and the display test compares it with 0x200..0x5FF, where the
   * signed and unsigned readings agree), so it is modelled by its unsigned
   * 16-bit value.
   *
   * As written: abx, aby, zpx and zpy add the index register sign-extended
   * (`(int8_t)`); zpx, zpy and izx are not confined to page 0; izx and izy
   * add the register zero-extended (`(int16_t)` of a `uint8_t`).
   */
  function EffectiveAddress(ram: Ram, pc: Word, x: Byte, y: Byte, mode: AddressMode, width: nat): Word {
    var operand := Wrap16(pc + 1);
    match mode
    case Abso => Load16(ram, operand)
    case Abx => Wrap16(Load16(ram, operand) + SignExtend(x))
    case Aby => Wrap16(Load16(ram, operand) + SignExtend(y))
    case Imm => operand
    case Rel => Wrap16(pc + width + SignExtend(Load8(ram, operand)))
    case Zp => Load8(ram, operand)
    case Zpx => Wrap16(Load8(ram, operand) + SignExtend(x))
    case Zpy => Wrap16(Load8(ram, operand) + SignExtend(y))
    case Ind => Load16(ram, Load16(ram, operand))
    case Izx => Load16(ram, Load8(ram, operand) + x)
    case Izy => Wrap16(Load16(ram, Load8(ram, operand)) + y)
    case NoAddressMode => 0
  }

  // ---------------------------------------------------------------------------
  // Operations

  /** The registers an operation can load into or transfer between. */
  datatype Register = A | X | Y | S

  function Get(m: Machine, r: Register): Byte {
    match r
    case A => m.a
    case X => m.x
    case Y => m.y
    case S => m.s
  }

  function Put(m: Machine, r: Register, value: Byte): Machine {
    match r
    case A => m.(a := value)
    case X => m.(x := value)
    case Y => m.(y := value)
    case S => m.(s := value)
  }

  /** Z and N refreshed from `value`: `Z = value == 0`, `N = (value >> 7) & 1`. */
  function SetZN(m: Machine, value: Byte): Machine {
    m.(z := IsZero(value), n := Bit7(value))
  }

  /** A load, transfer, increment or decrement: the register takes `value`, then Z and N follow it. */
  function Assign(m: Machine, r: Register, value: Byte): Machine {
    SetZN(Put(m, r, value), value)
  }

  /**
   * CMP, CPX and CPY: C = reg >= operand, Z = reg == operand, and N is bit 7
   * of the `int` difference; the source shifts a possibly negative `int`
   * right (an arithmetic shift), which is bit 7 of the difference taken
   * modulo 256.
   */
  function Compare(m: Machine, reg: Byte, operand: Byte): Machine {
    m.(c := Flag(reg >= operand), z := Flag(reg == operand), n := Bit7(Wrap8(reg - operand)))
  }

  /** A conditional branch: pc becomes the relative address when taken. */
  function Branch(m: Machine, taken: bool, address: Word): Machine {
    if taken then m.(pc := address) else m
  }

  /** STA, STX and STY: write, and mark the screen dirty for a write into 0x200..0x5FF. */
  function StoreRegister(m: Machine, value: Byte, address: Word): Machine {
    m.(ram := Store8(m.ram, address, value),
       visualDirty := if 0x200 <= address <= 0x5FF then true else m.visualDirty)
  }

  /** INC and DEC: write the new value back, then Z and N follow it. */
  function StoreResult(m: Machine, address: Word, value: Byte): Machine {
    SetZN(m.(ram := Store8(m.ram, address, value)), value)
  }

  /** ADC as written: C is set when the 8-bit sum is below the old A; V is never touched. */
  function AddWithCarry(m: Machine, operand: Byte): Machine {
    var sum := Wrap8(m.a + operand + m.c);
    SetZN(m.(c := Flag(sum < m.a), a := sum), sum)
  }

  /**
   * SBC as written: the borrow is `1 - C`; C is set when the 8-bit
   * difference is below the old A; V is never touched.
   */
  function SubtractWithBorrow(m: Machine, operand: Byte): Machine {
    var difference := Wrap8(m.a - operand - (1 - m.c));
    SetZN(m.(c := Flag(difference < m.a), a := difference), difference)
  }

  /** ORA as written: the OR lands in Y, and Z and N are taken from A. */
  function InclusiveOr(m: Machine, operand: Byte): Machine {
    SetZN(m.(y := Or8(m.a, operand)), m.a)
  }

  /** BIT: V and N copy bits 6 and 7 of the operand, Z tells whether A AND operand is zero. */
  function BitTest(m: Machine, operand: Byte): Machine {
    m.(v := BitAt(operand, 6), n := Bit7(operand), z := IsZero(And8(m.a, operand)))
  }

  /** ASL as written: A is shifted left by the operand byte, C takes the old bit 7. */
  function ShiftLeft(m: Machine, operand: Byte): Machine {
    var shifted := ShiftLeft8(m.a, operand);
    SetZN(m.(c := Bit7(m.a), a := shifted), shifted)
  }

  /** LSR: A or the memory byte shifted right by one, C takes the old bit 0. */
  function ShiftRight(m: Machine, mode: AddressMode, address: Word): Machine {
    if mode == NoAddressMode then
      SetZN(m.(c := m.a % 2, a := m.a / 2), m.a / 2)
    else
      var operand := Load8(m.ram, address);
      StoreResult(m.(c := operand % 2), address, operand / 2)
  }

  /**
   * ROL as written: a rotation by one without carry in; C takes the old
   * bit 0, Z takes bit 7 of the result, and N is untouched.
   */
  function RotateLeft(m: Machine, mode: AddressMode, address: Word): Machine {
    if mode == NoAddressMode then
      m.(a := RotateLeft8(m.a), z := Bit7(RotateLeft8(m.a)), c := m.a % 2)
    else
      var operand := Load8(m.ram, address);
      m.(ram := Store8(m.ram, address, RotateLeft8(operand)), c := operand % 2, z := Bit7(RotateLeft8(operand)))
  }

  /** ROR as written: the same flag updates as ROL around a right rotation. */
  function RotateRight(m: Machine, mode: AddressMode, address: Word): Machine {
    if mode == NoAddressMode then
      m.(a := RotateRight8(m.a), z := Bit7(RotateRight8(m.a)), c := m.a % 2)
    else
      var operand := Load8(m.ram, address);
      m.(ram := Store8(m.ram, address, RotateRight8(operand)), c := operand % 2, z := Bit7(RotateRight8(operand)))
  }

  /** PLA: A takes the pulled byte; the source sets no flags. */
  function PullAccumulator(m: Machine): Machine {
    var (value, m1) := Pull8(m);
    m1.(a := value)
  }

  /** JSR: push the address of the last byte of the instruction, then jump. */
  function JumpToSubroutine(m: Machine, address: Word): Machine {
    Push16(m, Wrap16(m.pc - 1)).(pc := address)
  }

  /** RTS: pull the pushed address and continue one byte after it. */
  function ReturnFromSubroutine(m: Machine): Machine {
    var (target, m1) := Pull16(m);
    m1.(pc := Wrap16(target + 1))
  }

  /** RTI: pull the status, then pc. */
  function ReturnFromInterrupt(m: Machine): Machine {
    var (target, m1) := Pull16(PullStatus(m));
    m1.(pc := target)
  }

  /**
   * The body of `step`'s `switch(op)`, applied to the machine after pc has
   * moved past the instruction; `mode` and `address` are the decoded
   * addressing mode and effective address. A BADOP matches no case.
   */
  function Execute(m: Machine, op: Op, mode: AddressMode, address: Word): Machine {
    var operand := Load8(m.ram, address);
    match op
    case BADOP => m
    case ADC => AddWithCarry(m, operand)
    case AND => Assign(m, A, And8(m.a, operand))
    case ASL => ShiftLeft(m, operand)
    case BCC => Branch(m, m.c == 0, address)
    case BCS => Branch(m, m.c == 1, address)
    case BEQ => Branch(m, m.z == 1, address)
    case BIT => BitTest(m, operand)
    case BMI => Branch(m, m.n == 1, address)
    case BNE => Branch(m, m.z == 0, address)
    case BPL => Branch(m, m.n == 0, address)
    // As written: a placeholder that only raises the halt indicator.
    case BRK => m.(finished := true)
    case BVC => Branch(m, m.v == 0, address)
    case BVS => Branch(m, m.v == 1, address)
    case CLC => m.(c := 0)
    case CLD => m.(d := 0)
    case CLI => m.(i := 0)
    case CLV => m.(v := 0)
    case CMP => Compare(m, m.a, operand)
    case CPX => Compare(m, m.x, operand)
    case CPY => Compare(m, m.y, operand)
    case DEC => StoreResult(m, address, Wrap8(operand - 1))
    case DEX => Assign(m, X, Wrap8(m.x - 1))
    case DEY => Assign(m, Y, Wrap8(m.y - 1))
    // As written: the exclusive or is computed and dropped; Z and N are taken from the unchanged A.
    case EOR => SetZN(m, m.a)
    case INC => StoreResult(m, address, Wrap8(operand + 1))
    case INX => Assign(m, X, Wrap8(m.x + 1))
    case INY => Assign(m, Y, Wrap8(m.y + 1))
    case JMP => m.(pc := address)
    case JSR => JumpToSubroutine(m, address)
    case LDA => Assign(m, A, operand)
    case LDX => Assign(m, X, operand)
    case LDY => Assign(m, Y, operand)
    case LSR => ShiftRight(m, mode, address)
    case NOP => m
    case ORA => InclusiveOr(m, operand)
    case PHA => Push8(m, m.a)
    case PHP => PushStatus(m)
    case PLA => PullAccumulator(m)
    case PLP => PullStatus(m)
    case ROL => RotateLeft(m, mode, address)
    case ROR => RotateRight(m, mode, address)
    case RTI => ReturnFromInterrupt(m)
    case RTS => ReturnFromSubroutine(m)
    case SBC => SubtractWithBorrow(m, operand)
    case SEC => m.(c := 1)
    case SED => m.(d := 1)
    case SEI => m.(i := 1)
    case STA => StoreRegister(m, m.a, address)
    case STX => StoreRegister(m, m.x, address)
    case STY => StoreRegister(m, m.y, address)
    case TAX => Assign(m, X, m.a)
    case TAY => Assign(m, Y, m.a)
    case TSX => Assign(m, X, m.s)
    case TXA => Assign(m, A, m.x)
    // As written: TXS refreshes Z and N from the new stack pointer.
    case TXS => Assign(m, S, m.x)
    case TYA => Assign(m, A, m.y)
  }

  /** The opcode byte under the program counter. */
  function CurrentOpcode(m: Machine): Byte {
    Load8(m.ram, m.pc)
  }

  /**
   * The fetch half of `step`: the cycle counter is reloaded from the opcode's
   * table entry and the program counter moves past the whole instruction.
   */
  function Fetch(m: Machine): Machine {
    var opcode := CurrentOpcode(m);
    m.(cycles := CyclesOf(opcode), pc := Wrap16(m.pc + WidthOf(opcode)))
  }

  /** The operand address of the instruction under the program counter. */
  function CurrentAddress(m: Machine): Word {
    var opcode := CurrentOpcode(m);
    EffectiveAddress(m.ram, m.pc, m.x, m.y, AddressModeOf(opcode), WidthOf(opcode))
  }

  /**
   * `step`. While an instruction is in flight (`cycles > 0`) the step only
   * counts down. Otherwise it fetches the byte at pc, decodes it through the
   * four tables, computes the effective address from the old pc, sets the
   * cycle counter to the base cost, advances pc by the width (modulo 2^16)
   * and executes the operation.
   */
  function Step(m: Machine): Machine {
    if m.cycles > 0 then
      m.(cycles := m.cycles - 1)
    else
      var opcode := CurrentOpcode(m);
      Execute(Fetch(m), OpcodeOf(opcode), AddressModeOf(opcode), CurrentAddress(m))
  }

}
