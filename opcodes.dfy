/**
 * The opcode enumerations of 6502.h and the four 256-entry decode tables of
 * 6502.c (`int_address_modes`, `int_opcodes`, `int_cycles`, `int_width`).
 *
 * Each table is a total function on the opcode byte laid out as a 16 x 16
 * grid: the outer match picks the row (high nibble), the inner one the column
 * (low nibble), so entry `b` of the C initialiser sits in row `b / 16`,
 * column `b % 16`. A `case _` arm stands for row or column 0xF.
 */
module Opcodes {
  import opened Bits

  /** `enum OpCode`: the 56 operations, and BADOP (0) for every invalid byte. */
  datatype Op =
    | BADOP
    | ADC | AND | ASL | BCC | BCS | BEQ | BIT | BMI | BNE | BPL | BRK | BVC | BVS | CLC
    | CLD | CLI | CLV | CMP | CPX | CPY | DEC | DEX | DEY | EOR | INC | INX | INY | JMP
    | JSR | LDA | LDX | LDY | LSR | NOP | ORA | PHA | PHP | PLA | PLP | ROL | ROR | RTI
    | RTS | SBC | SEC | SED | SEI | STA | STX | STY | TAX | TAY | TSX | TXA | TXS | TYA

  /** `enum AddressMode`: abso, abx, aby, zp, zpx, zpy, izx, izy, ind, imm, rel, noAddressMode. */
  datatype AddressMode =
    | Abso | Abx | Aby | Zp | Zpx | Zpy | Izx | Izy | Ind | Imm | Rel | NoAddressMode

  /** The eight conditional branches. */
  predicate IsBranch(op: Op) {
    op in {BCC, BCS, BEQ, BMI, BNE, BPL, BVC, BVS}
  }

  /** Opcode byte plus operand bytes, as the addressing mode implies. */
  function OperandWidth(mode: AddressMode): nat {
    match mode
    case NoAddressMode => 1
    case Imm | Zp | Zpx | Zpy | Izx | Izy | Rel => 2
    case Abso | Abx | Aby | Ind => 3
  }

  /** `int_address_modes`. */
  function AddressModeOf(b: Byte): AddressMode {
    match b / 16
    case 0x0 => (match b % 16
      case 0x0 => NoAddressMode case 0x1 => Izx case 0x2 => NoAddressMode case 0x3 => Izx case 0x4 => Zp case 0x5 => Zp case 0x6 => Zp case 0x7 => Zp
      case 0x8 => NoAddressMode case 0x9 => Imm case 0xA => NoAddressMode case 0xB => Imm case 0xC => Abso case 0xD => Abso case 0xE => Abso case _ => Abso)
    case 0x1 => (match b % 16
      case 0x0 => Rel case 0x1 => Izy case 0x2 => NoAddressMode case 0x3 => Izy case 0x4 => Zpx case 0x5 => Zpx case 0x6 => Zpx case 0x7 => Zpx
      case 0x8 => NoAddressMode case 0x9 => Aby case 0xA => NoAddressMode case 0xB => Aby case 0xC => Abx case 0xD => Abx case 0xE => Abx case _ => Abx)
    case 0x2 => (match b % 16
      case 0x0 => Abso case 0x1 => Izx case 0x2 => NoAddressMode case 0x3 => Izx case 0x4 => Zp case 0x5 => Zp case 0x6 => Zp case 0x7 => Zp
      case 0x8 => NoAddressMode case 0x9 => Imm case 0xA => NoAddressMode case 0xB => Imm case 0xC => Abso case 0xD => Abso case 0xE => Abso case _ => Abso)
    case 0x3 => (match b % 16
      case 0x0 => Rel case 0x1 => Izy case 0x2 => NoAddressMode case 0x3 => Izy case 0x4 => Zpx case 0x5 => Zpx case 0x6 => Zpx case 0x7 => Zpx
      case 0x8 => NoAddressMode case 0x9 => Aby case 0xA => NoAddressMode case 0xB => Aby case 0xC => Abx case 0xD => Abx case 0xE => Abx case _ => Abx)
    case 0x4 => (match b % 16
      case 0x0 => NoAddressMode case 0x1 => Izx case 0x2 => NoAddressMode case 0x3 => Izx case 0x4 => Zp case 0x5 => Zp case 0x6 => Zp case 0x7 => Zp
      case 0x8 => NoAddressMode case 0x9 => Imm case 0xA => NoAddressMode case 0xB => Imm case 0xC => Abso case 0xD => Abso case 0xE => Abso case _ => Abso)
    case 0x5 => (match b % 16
      case 0x0 => Rel case 0x1 => Izy case 0x2 => NoAddressMode case 0x3 => Izy case 0x4 => Zpx case 0x5 => Zpx case 0x6 => Zpx case 0x7 => Zpx
      case 0x8 => NoAddressMode case 0x9 => Aby case 0xA => NoAddressMode case 0xB => Aby case 0xC => Abx case 0xD => Abx case 0xE => Abx case _ => Abx)
    case 0x6 => (match b % 16
      case 0x0 => NoAddressMode case 0x1 => Izx case 0x2 => NoAddressMode case 0x3 => Izx case 0x4 => Zp case 0x5 => Zp case 0x6 => Zp case 0x7 => Zp
      case 0x8 => NoAddressMode case 0x9 => Imm case 0xA => NoAddressMode case 0xB => Imm case 0xC => Ind case 0xD => Abso case 0xE => Abso case _ => Abso)
    case 0x7 => (match b % 16
      case 0x0 => Rel case 0x1 => Izy case 0x2 => NoAddressMode case 0x3 => Izy case 0x4 => Zpx case 0x5 => Zpx case 0x6 => Zpx case 0x7 => Zpx
      case 0x8 => NoAddressMode case 0x9 => Aby case 0xA => NoAddressMode case 0xB => Aby case 0xC => Abx case 0xD => Abx case 0xE => Abx case _ => Abx)
    case 0x8 => (match b % 16
      case 0x0 => Imm case 0x1 => Izx case 0x2 => Imm case 0x3 => Izx case 0x4 => Zp case 0x5 => Zp case 0x6 => Zp case 0x7 => Zp
      case 0x8 => NoAddressMode case 0x9 => Imm case 0xA => NoAddressMode case 0xB => Imm case 0xC => Abso case 0xD => Abso case 0xE => Abso case _ => Abso)
    case 0x9 => (match b % 16
      case 0x0 => Rel case 0x1 => Izy case 0x2 => NoAddressMode case 0x3 => Izy case 0x4 => Zpx case 0x5 => Zpx case 0x6 => Zpy case 0x7 => Zpy
      case 0x8 => NoAddressMode case 0x9 => Aby case 0xA => NoAddressMode case 0xB => Aby case 0xC => Abx case 0xD => Abx case 0xE => Aby case _ => Aby)
    case 0xA => (match b % 16
      case 0x0 => Imm case 0x1 => Izx case 0x2 => Imm case 0x3 => Izx case 0x4 => Zp case 0x5 => Zp case 0x6 => Zp case 0x7 => Zp
      case 0x8 => NoAddressMode case 0x9 => Imm case 0xA => NoAddressMode case 0xB => Imm case 0xC => Abso case 0xD => Abso case 0xE => Abso case _ => Abso)
    case 0xB => (match b % 16
      case 0x0 => Rel case 0x1 => Izy case 0x2 => NoAddressMode case 0x3 => Izy case 0x4 => Zpx case 0x5 => Zpx case 0x6 => Zpy case 0x7 => Zpy
      case 0x8 => NoAddressMode case 0x9 => Aby case 0xA => NoAddressMode case 0xB => Aby case 0xC => Abx case 0xD => Abx case 0xE => Aby case _ => Aby)
    case 0xC => (match b % 16
      case 0x0 => Imm case 0x1 => Izx case 0x2 => Imm case 0x3 => Izx case 0x4 => Zp case 0x5 => Zp case 0x6 => Zp case 0x7 => Zp
      case 0x8 => NoAddressMode case 0x9 => Imm case 0xA => NoAddressMode case 0xB => Imm case 0xC => Abso case 0xD => Abso case 0xE => Abso case _ => Abso)
    case 0xD => (match b % 16
      case 0x0 => Rel case 0x1 => Izy case 0x2 => NoAddressMode case 0x3 => Izy case 0x4 => Zpx case 0x5 => Zpx case 0x6 => Zpx case 0x7 => Zpx
      case 0x8 => NoAddressMode case 0x9 => Aby case 0xA => NoAddressMode case 0xB => Aby case 0xC => Abx case 0xD => Abx case 0xE => Abx case _ => Abx)
    case 0xE => (match b % 16
      case 0x0 => Imm case 0x1 => Izx case 0x2 => Imm case 0x3 => Izx case 0x4 => Zp case 0x5 => Zp case 0x6 => Zp case 0x7 => Zp
      case 0x8 => NoAddressMode case 0x9 => Imm case 0xA => NoAddressMode case 0xB => Imm case 0xC => Abso case 0xD => Abso case 0xE => Abso case _ => Abso)
    case _   => (match b % 16
      case 0x0 => Rel case 0x1 => Izy case 0x2 => NoAddressMode case 0x3 => Izy case 0x4 => Zpx case 0x5 => Zpx case 0x6 => Zpx case 0x7 => Zpx
      case 0x8 => NoAddressMode case 0x9 => Aby case 0xA => NoAddressMode case 0xB => Aby case 0xC => Abx case 0xD => Abx case 0xE => Abx case _ => Abx)
  }

  /** `int_opcodes`. */
  function OpcodeOf(b: Byte): Op {
    match b / 16
    case 0x0 => (match b % 16
      case 0x0 => BRK case 0x1 => ORA case 0x2 => BADOP case 0x3 => BADOP case 0x4 => BADOP case 0x5 => ORA case 0x6 => ASL case 0x7 => BADOP
      case 0x8 => PHP case 0x9 => ORA case 0xA => ASL case 0xB => BADOP case 0xC => BADOP case 0xD => ORA case 0xE => ASL case _ => BADOP)
    case 0x1 => (match b % 16
      case 0x0 => BPL case 0x1 => ORA case 0x2 => BADOP case 0x3 => BADOP case 0x4 => BADOP case 0x5 => ORA case 0x6 => ASL case 0x7 => BADOP
      case 0x8 => CLC case 0x9 => ORA case 0xA => BADOP case 0xB => BADOP case 0xC => BADOP case 0xD => ORA case 0xE => ASL case _ => BADOP)
    case 0x2 => (match b % 16
      case 0x0 => JSR case 0x1 => AND case 0x2 => BADOP case 0x3 => BADOP case 0x4 => BIT case 0x5 => AND case 0x6 => ROL case 0x7 => BADOP
      case 0x8 => PLP case 0x9 => AND case 0xA => ROL case 0xB => BADOP case 0xC => BIT case 0xD => AND case 0xE => ROL case _ => BADOP)
    case 0x3 => (match b % 16
      case 0x0 => BMI case 0x1 => AND case 0x2 => BADOP case 0x3 => BADOP case 0x4 => BADOP case 0x5 => AND case 0x6 => ROL case 0x7 => BADOP
      case 0x8 => SEC case 0x9 => AND case 0xA => BADOP case 0xB => BADOP case 0xC => BADOP case 0xD => AND case 0xE => ROL case _ => BADOP)
    case 0x4 => (match b % 16
      case 0x0 => RTI case 0x1 => EOR case 0x2 => BADOP case 0x3 => BADOP case 0x4 => BADOP case 0x5 => EOR case 0x6 => LSR case 0x7 => BADOP
      case 0x8 => PHA case 0x9 => EOR case 0xA => LSR case 0xB => BADOP case 0xC => JMP case 0xD => EOR case 0xE => LSR case _ => BADOP)
    case 0x5 => (match b % 16
      case 0x0 => BVC case 0x1 => EOR case 0x2 => BADOP case 0x3 => BADOP case 0x4 => BADOP case 0x5 => EOR case 0x6 => LSR case 0x7 => BADOP
      case 0x8 => CLI case 0x9 => EOR case 0xA => BADOP case 0xB => BADOP case 0xC => BADOP case 0xD => EOR case 0xE => LSR case _ => BADOP)
    case 0x6 => (match b % 16
      case 0x0 => RTS case 0x1 => ADC case 0x2 => BADOP case 0x3 => BADOP case 0x4 => BADOP case 0x5 => ADC case 0x6 => ROR case 0x7 => BADOP
      case 0x8 => PLA case 0x9 => ADC case 0xA => ROR case 0xB => BADOP case 0xC => JMP case 0xD => ADC case 0xE => ROR case _ => BADOP)
    case 0x7 => (match b % 16
      case 0x0 => BVS case 0x1 => ADC case 0x2 => BADOP case 0x3 => BADOP case 0x4 => BADOP case 0x5 => ADC case 0x6 => ROR case 0x7 => BADOP
      case 0x8 => SEI case 0x9 => ADC case 0xA => BADOP case 0xB => BADOP case 0xC => BADOP case 0xD => ADC case 0xE => ROR case _ => BADOP)
    case 0x8 => (match b % 16
      case 0x0 => BADOP case 0x1 => STA case 0x2 => BADOP case 0x3 => BADOP case 0x4 => STY case 0x5 => STA case 0x6 => STX case 0x7 => BADOP
      case 0x8 => DEY case 0x9 => BADOP case 0xA => TXA case 0xB => BADOP case 0xC => STY case 0xD => STA case 0xE => STX case _ => BADOP)
    case 0x9 => (match b % 16
      case 0x0 => BCC case 0x1 => STA case 0x2 => BADOP case 0x3 => BADOP case 0x4 => STY case 0x5 => STA case 0x6 => STX case 0x7 => BADOP
      case 0x8 => TYA case 0x9 => STA case 0xA => TXS case 0xB => BADOP case 0xC => BADOP case 0xD => STA case 0xE => BADOP case _ => BADOP)
    case 0xA => (match b % 16
      case 0x0 => LDY case 0x1 => LDA case 0x2 => LDX case 0x3 => BADOP case 0x4 => LDY case 0x5 => LDA case 0x6 => LDX case 0x7 => BADOP
      case 0x8 => TAY case 0x9 => LDA case 0xA => TAX case 0xB => BADOP case 0xC => LDY case 0xD => LDA case 0xE => LDX case _ => BADOP)
    case 0xB => (match b % 16
      case 0x0 => BCS case 0x1 => LDA case 0x2 => BADOP case 0x3 => BADOP case 0x4 => LDY case 0x5 => LDA case 0x6 => LDX case 0x7 => BADOP
      case 0x8 => CLV case 0x9 => LDA case 0xA => TSX case 0xB => BADOP case 0xC => LDY case 0xD => LDA case 0xE => LDX case _ => BADOP)
    case 0xC => (match b % 16
      case 0x0 => CPY case 0x1 => CMP case 0x2 => BADOP case 0x3 => BADOP case 0x4 => CPY case 0x5 => CMP case 0x6 => DEC case 0x7 => BADOP
      case 0x8 => INY case 0x9 => CMP case 0xA => DEX case 0xB => BADOP case 0xC => CPY case 0xD => CMP case 0xE => DEC case _ => BADOP)
    case 0xD => (match b % 16
      case 0x0 => BNE case 0x1 => CMP case 0x2 => BADOP case 0x3 => BADOP case 0x4 => BADOP case 0x5 => CMP case 0x6 => DEC case 0x7 => BADOP
      case 0x8 => CLD case 0x9 => CMP case 0xA => BADOP case 0xB => BADOP case 0xC => BADOP case 0xD => CMP case 0xE => DEC case _ => BADOP)
    case 0xE => (match b % 16
      case 0x0 => CPX case 0x1 => SBC case 0x2 => BADOP case 0x3 => BADOP case 0x4 => CPX case 0x5 => SBC case 0x6 => INC case 0x7 => BADOP
      case 0x8 => INX case 0x9 => SBC case 0xA => NOP case 0xB => BADOP case 0xC => CPX case 0xD => SBC case 0xE => INC case _ => BADOP)
    case _   => (match b % 16
      case 0x0 => BEQ case 0x1 => SBC case 0x2 => BADOP case 0x3 => BADOP case 0x4 => BADOP case 0x5 => SBC case 0x6 => INC case 0x7 => BADOP
      case 0x8 => SED case 0x9 => SBC case 0xA => BADOP case 0xB => BADOP case 0xC => BADOP case 0xD => SBC case 0xE => INC case _ => BADOP)
  }

  /** `int_cycles`. */
  function CyclesOf(b: Byte): nat {
    match b / 16
    case 0x0 => (match b % 16
      case 0x0 => 7 case 0x1 => 6 case 0x2 => 0 case 0x3 => 8 case 0x4 => 3 case 0x5 => 3 case 0x6 => 5 case 0x7 => 5
      case 0x8 => 3 case 0x9 => 2 case 0xA => 2 case 0xB => 2 case 0xC => 4 case 0xD => 4 case 0xE => 6 case _ => 6)
    case 0x1 => (match b % 16
      case 0x0 => 3 case 0x1 => 5 case 0x2 => 0 case 0x3 => 8 case 0x4 => 4 case 0x5 => 4 case 0x6 => 6 case 0x7 => 6
      case 0x8 => 2 case 0x9 => 4 case 0xA => 2 case 0xB => 7 case 0xC => 4 case 0xD => 4 case 0xE => 7 case _ => 7)
    case 0x2 => (match b % 16
      case 0x0 => 6 case 0x1 => 6 case 0x2 => 0 case 0x3 => 8 case 0x4 => 3 case 0x5 => 3 case 0x6 => 5 case 0x7 => 5
      case 0x8 => 4 case 0x9 => 2 case 0xA => 2 case 0xB => 2 case 0xC => 4 case 0xD => 4 case 0xE => 6 case _ => 6)
    case 0x3 => (match b % 16
      case 0x0 => 2 case 0x1 => 5 case 0x2 => 0 case 0x3 => 8 case 0x4 => 4 case 0x5 => 4 case 0x6 => 6 case 0x7 => 6
      case 0x8 => 2 case 0x9 => 4 case 0xA => 2 case 0xB => 7 case 0xC => 4 case 0xD => 4 case 0xE => 7 case _ => 7)
    case 0x4 => (match b % 16
      case 0x0 => 6 case 0x1 => 6 case 0x2 => 0 case 0x3 => 8 case 0x4 => 3 case 0x5 => 3 case 0x6 => 5 case 0x7 => 5
      case 0x8 => 3 case 0x9 => 2 case 0xA => 2 case 0xB => 2 case 0xC => 3 case 0xD => 4 case 0xE => 6 case _ => 6)
    case 0x5 => (match b % 16
      case 0x0 => 3 case 0x1 => 5 case 0x2 => 0 case 0x3 => 8 case 0x4 => 4 case 0x5 => 4 case 0x6 => 6 case 0x7 => 6
      case 0x8 => 2 case 0x9 => 4 case 0xA => 2 case 0xB => 7 case 0xC => 4 case 0xD => 4 case 0xE => 7 case _ => 7)
    case 0x6 => (match b % 16
      case 0x0 => 6 case 0x1 => 6 case 0x2 => 0 case 0x3 => 8 case 0x4 => 3 case 0x5 => 3 case 0x6 => 5 case 0x7 => 5
      case 0x8 => 4 case 0x9 => 2 case 0xA => 2 case 0xB => 2 case 0xC => 5 case 0xD => 4 case 0xE => 6 case _ => 6)
    case 0x7 => (match b % 16
      case 0x0 => 2 case 0x1 => 5 case 0x2 => 0 case 0x3 => 8 case 0x4 => 4 case 0x5 => 4 case 0x6 => 6 case 0x7 => 6
      case 0x8 => 2 case 0x9 => 4 case 0xA => 2 case 0xB => 7 case 0xC => 4 case 0xD => 4 case 0xE => 7 case _ => 7)
    case 0x8 => (match b % 16
      case 0x0 => 2 case 0x1 => 6 case 0x2 => 2 case 0x3 => 6 case 0x4 => 3 case 0x5 => 3 case 0x6 => 3 case 0x7 => 3
      case 0x8 => 2 case 0x9 => 2 case 0xA => 2 case 0xB => 2 case 0xC => 4 case 0xD => 4 case 0xE => 4 case _ => 4)
    case 0x9 => (match b % 16
      case 0x0 => 3 case 0x1 => 6 case 0x2 => 0 case 0x3 => 6 case 0x4 => 4 case 0x5 => 4 case 0x6 => 4 case 0x7 => 4
      case 0x8 => 2 case 0x9 => 5 case 0xA => 2 case 0xB => 5 case 0xC => 5 case 0xD => 5 case 0xE => 5 case _ => 5)
    case 0xA => (match b % 16
      case 0x0 => 2 case 0x1 => 6 case 0x2 => 2 case 0x3 => 6 case 0x4 => 3 case 0x5 => 3 case 0x6 => 3 case 0x7 => 3
      case 0x8 => 2 case 0x9 => 2 case 0xA => 2 case 0xB => 2 case 0xC => 4 case 0xD => 4 case 0xE => 4 case _ => 4)
    case 0xB => (match b % 16
      case 0x0 => 2 case 0x1 => 5 case 0x2 => 0 case 0x3 => 5 case 0x4 => 4 case 0x5 => 4 case 0x6 => 4 case 0x7 => 4
      case 0x8 => 2 case 0x9 => 4 case 0xA => 2 case 0xB => 4 case 0xC => 4 case 0xD => 4 case 0xE => 4 case _ => 4)
    case 0xC => (match b % 16
      case 0x0 => 2 case 0x1 => 6 case 0x2 => 2 case 0x3 => 8 case 0x4 => 3 case 0x5 => 3 case 0x6 => 5 case 0x7 => 5
      case 0x8 => 2 case 0x9 => 2 case 0xA => 2 case 0xB => 2 case 0xC => 4 case 0xD => 4 case 0xE => 6 case _ => 6)
    case 0xD => (match b % 16
      case 0x0 => 3 case 0x1 => 5 case 0x2 => 0 case 0x3 => 8 case 0x4 => 4 case 0x5 => 4 case 0x6 => 6 case 0x7 => 6
      case 0x8 => 2 case 0x9 => 4 case 0xA => 2 case 0xB => 7 case 0xC => 4 case 0xD => 4 case 0xE => 7 case _ => 7)
    case 0xE => (match b % 16
      case 0x0 => 2 case 0x1 => 6 case 0x2 => 2 case 0x3 => 8 case 0x4 => 3 case 0x5 => 3 case 0x6 => 5 case 0x7 => 5
      case 0x8 => 2 case 0x9 => 2 case 0xA => 2 case 0xB => 2 case 0xC => 4 case 0xD => 4 case 0xE => 6 case _ => 6)
    case _   => (match b % 16
      case 0x0 => 2 case 0x1 => 5 case 0x2 => 0 case 0x3 => 8 case 0x4 => 4 case 0x5 => 4 case 0x6 => 6 case 0x7 => 6
      case 0x8 => 2 case 0x9 => 4 case 0xA => 2 case 0xB => 7 case 0xC => 4 case 0xD => 4 case 0xE => 7 case _ => 7)
  }

  /** `int_width`. */
  function WidthOf(b: Byte): nat {
    match b / 16
    case 0x0 => (match b % 16
      case 0x0 => 1 case 0x1 => 2 case 0x2 => 0 case 0x3 => 0 case 0x4 => 2 case 0x5 => 2 case 0x6 => 2 case 0x7 => 0
      case 0x8 => 1 case 0x9 => 2 case 0xA => 1 case 0xB => 0 case 0xC => 3 case 0xD => 3 case 0xE => 3 case _ => 0)
    case 0x1 => (match b % 16
      case 0x0 => 2 case 0x1 => 2 case 0x2 => 0 case 0x3 => 0 case 0x4 => 2 case 0x5 => 2 case 0x6 => 2 case 0x7 => 0
      case 0x8 => 1 case 0x9 => 3 case 0xA => 1 case 0xB => 0 case 0xC => 3 case 0xD => 3 case 0xE => 3 case _ => 0)
    case 0x2 => (match b % 16
      case 0x0 => 3 case 0x1 => 2 case 0x2 => 0 case 0x3 => 0 case 0x4 => 2 case 0x5 => 2 case 0x6 => 2 case 0x7 => 0
      case 0x8 => 1 case 0x9 => 2 case 0xA => 1 case 0xB => 0 case 0xC => 3 case 0xD => 3 case 0xE => 3 case _ => 0)
    case 0x3 => (match b % 16
      case 0x0 => 2 case 0x1 => 2 case 0x2 => 0 case 0x3 => 0 case 0x4 => 2 case 0x5 => 2 case 0x6 => 2 case 0x7 => 0
      case 0x8 => 1 case 0x9 => 3 case 0xA => 1 case 0xB => 0 case 0xC => 3 case 0xD => 3 case 0xE => 3 case _ => 0)
    case 0x4 => (match b % 16
      case 0x0 => 1 case 0x1 => 2 case 0x2 => 0 case 0x3 => 0 case 0x4 => 2 case 0x5 => 2 case 0x6 => 2 case 0x7 => 0
      case 0x8 => 1 case 0x9 => 2 case 0xA => 1 case 0xB => 0 case 0xC => 3 case 0xD => 3 case 0xE => 3 case _ => 0)
    case 0x5 => (match b % 16
      case 0x0 => 2 case 0x1 => 2 case 0x2 => 0 case 0x3 => 0 case 0x4 => 2 case 0x5 => 2 case 0x6 => 2 case 0x7 => 0
      case 0x8 => 1 case 0x9 => 3 case 0xA => 1 case 0xB => 0 case 0xC => 3 case 0xD => 3 case 0xE => 3 case _ => 0)
    case 0x6 => (match b % 16
      case 0x0 => 1 case 0x1 => 2 case 0x2 => 0 case 0x3 => 0 case 0x4 => 2 case 0x5 => 2 case 0x6 => 2 case 0x7 => 0
      case 0x8 => 1 case 0x9 => 2 case 0xA => 1 case 0xB => 0 case 0xC => 3 case 0xD => 3 case 0xE => 3 case _ => 0)
    case 0x7 => (match b % 16
      case 0x0 => 2 case 0x1 => 2 case 0x2 => 0 case 0x3 => 0 case 0x4 => 2 case 0x5 => 2 case 0x6 => 2 case 0x7 => 0
      case 0x8 => 1 case 0x9 => 3 case 0xA => 1 case 0xB => 0 case 0xC => 3 case 0xD => 3 case 0xE => 3 case _ => 0)
    case 0x8 => (match b % 16
      case 0x0 => 2 case 0x1 => 2 case 0x2 => 0 case 0x3 => 0 case 0x4 => 2 case 0x5 => 2 case 0x6 => 2 case 0x7 => 0
      case 0x8 => 1 case 0x9 => 0 case 0xA => 1 case 0xB => 0 case 0xC => 3 case 0xD => 3 case 0xE => 3 case _ => 0)
    case 0x9 => (match b % 16
      case 0x0 => 2 case 0x1 => 2 case 0x2 => 0 case 0x3 => 0 case 0x4 => 2 case 0x5 => 2 case 0x6 => 2 case 0x7 => 0
      case 0x8 => 1 case 0x9 => 3 case 0xA => 1 case 0xB => 0 case 0xC => 0 case 0xD => 3 case 0xE => 0 case _ => 0)
    case 0xA => (match b % 16
      case 0x0 => 2 case 0x1 => 2 case 0x2 => 2 case 0x3 => 0 case 0x4 => 2 case 0x5 => 2 case 0x6 => 2 case 0x7 => 0
      case 0x8 => 1 case 0x9 => 2 case 0xA => 1 case 0xB => 0 case 0xC => 3 case 0xD => 3 case 0xE => 3 case _ => 0)
    case 0xB => (match b % 16
      case 0x0 => 2 case 0x1 => 2 case 0x2 => 0 case 0x3 => 0 case 0x4 => 2 case 0x5 => 2 case 0x6 => 2 case 0x7 => 0
      case 0x8 => 1 case 0x9 => 3 case 0xA => 1 case 0xB => 0 case 0xC => 3 case 0xD => 3 case 0xE => 3 case _ => 0)
    case 0xC => (match b % 16
      case 0x0 => 2 case 0x1 => 2 case 0x2 => 0 case 0x3 => 0 case 0x4 => 2 case 0x5 => 2 case 0x6 => 2 case 0x7 => 0
      case 0x8 => 1 case 0x9 => 2 case 0xA => 1 case 0xB => 0 case 0xC => 3 case 0xD => 3 case 0xE => 3 case _ => 0)
    case 0xD => (match b % 16
      case 0x0 => 2 case 0x1 => 2 case 0x2 => 0 case 0x3 => 0 case 0x4 => 2 case 0x5 => 2 case 0x6 => 2 case 0x7 => 0
      case 0x8 => 1 case 0x9 => 3 case 0xA => 1 case 0xB => 0 case 0xC => 3 case 0xD => 3 case 0xE => 3 case _ => 0)
    case 0xE => (match b % 16
      case 0x0 => 2 case 0x1 => 2 case 0x2 => 0 case 0x3 => 0 case 0x4 => 2 case 0x5 => 2 case 0x6 => 2 case 0x7 => 0
      case 0x8 => 1 case 0x9 => 2 case 0xA => 1 case 0xB => 0 case 0xC => 3 case 0xD => 3 case 0xE => 3 case _ => 0)
    case _   => (match b % 16
      case 0x0 => 2 case 0x1 => 2 case 0x2 => 0 case 0x3 => 0 case 0x4 => 2 case 0x5 => 2 case 0x6 => 2 case 0x7 => 0
      case 0x8 => 1 case 0x9 => 3 case 0xA => 1 case 0xB => 0 case 0xC => 3 case 0xD => 3 case 0xE => 3 case _ => 0)
  }

  /**
   * Every valid instruction is exactly as wide as its addressing mode implies,
   * so 1..3 bytes, and fetching it moves the program counter forward.
   * Invalid bytes have widths 0..3.
   */
  lemma TableWidths(b: Byte)
    ensures WidthOf(b) <= 3
    ensures OpcodeOf(b) != BADOP ==> 1 <= WidthOf(b) && WidthOf(b) == OperandWidth(AddressModeOf(b))
  {
  }

  /** The base cost of every valid instruction lies in 2..7; some invalid bytes cost 0. */
  lemma TableCycles(b: Byte)
    ensures CyclesOf(b) <= 8
    ensures OpcodeOf(b) != BADOP ==> 2 <= CyclesOf(b) <= 7
  {
  }

  /** The branches are exactly the bytes xx y 10000; all are relative and two bytes wide. */
  lemma BranchOpcodes(b: Byte)
    ensures IsBranch(OpcodeOf(b)) <==> b in {0x10, 0x30, 0x50, 0x70, 0x90, 0xB0, 0xD0, 0xF0}
    ensures IsBranch(OpcodeOf(b)) ==> AddressModeOf(b) == Rel && WidthOf(b) == 2
  {
  }

  /** An invalid byte may have width 0: 0x02 decodes to BADOP, width 0 and 0 cycles. */
  lemma InvalidWidthZero()
    ensures OpcodeOf(0x02) == BADOP && WidthOf(0x02) == 0 && CyclesOf(0x02) == 0
  {
  }
}
