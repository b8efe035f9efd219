/**
 * The processor of 6502.c as an object whose methods update its registers and
 * its memory in place, as the C functions update `struct cpu_info` and the
 * buffer behind `cpu->mem`.
 *
 * Every method is proved against the pure semantics in `CpuSpec`: its new
 * `State()` is the corresponding function applied to the old one.
 */
module Cpu {
  import opened Bits
  import opened Memory
  import opened Opcodes
  import CpuSpec

  class Processor {
    var a: Byte
    var x: Byte
    var y: Byte
    var pc: Word
    var s: Byte
    // The status flags; their type makes every assignment prove it stores 0 or 1.
    var n: Bit
    var v: Bit
    var d: Bit
    var i: Bit
    var z: Bit
    var c: Bit
    var cycles: int
    var visualDirty: bool
    var finished: bool
    const mem: FlatMemory

    ghost predicate Valid()
      reads mem
    {
      mem.Valid()
    }

    /** The registers and the memory contents as one value. */
    ghost function State(): CpuSpec.Machine
      requires Valid()
      reads this, mem, mem.cells
    {
      CpuSpec.Machine(a, x, y, pc, s, n, v, d, i, z, c, cycles, visualDirty, finished, mem.cells[..])
    }

    /** `init_cpu_info`: every register and flag cleared, the screen marked dirty. */
    constructor (memory: FlatMemory)
      requires memory.Valid()
      ensures mem == memory && Valid()
      ensures State() == CpuSpec.Reset(memory.cells[..])
    {
      a, x, y, pc, s := 0, 0, 0, 0, 0;
      n, v, d, i, z, c := 0, 0, 0, 0, 0, 0;
      finished := false;
      visualDirty := true;
      cycles := 0;
      mem := memory;
    }

    // -------------------------------------------------------------------------
    // Stack

    method Push8(value: Byte)
      requires Valid()
      modifies this, mem.cells
      ensures Valid() && State() == CpuSpec.Push8(old(State()), value)
    {
      mem.Write8(CpuSpec.StackAddress(s), value);
      s := Wrap8(s - 1);
    }

    method Push16(value: Word)
      requires Valid()
      modifies this, mem.cells
      ensures Valid() && State() == CpuSpec.Push16(old(State()), value)
    {
      Push8(Hi(value));
      Push8(Lo(value));
    }

    method Pull8() returns (value: Byte)
      requires Valid()
      modifies this
      ensures Valid() && (value, State()) == CpuSpec.Pull8(old(State()))
    {
      s := Wrap8(s + 1);
      value := mem.Read8(CpuSpec.StackAddress(s));
    }

    method Pull16() returns (value: Word)
      requires Valid()
      modifies this
      ensures Valid() && (value, State()) == CpuSpec.Pull16(old(State()))
    {
      var lo := Pull8();
      var hi := Pull8();
      value := hi as int * 0x100 + lo;
    }

    // -------------------------------------------------------------------------
    // Status register

    method PullStatus()
      requires Valid()
      modifies this
      ensures Valid() && State() == CpuSpec.PullStatus(old(State()))
    {
      var pulling := Pull8();
      n := BitAt(pulling, 7);
      v := BitAt(pulling, 6);
      d := BitAt(pulling, 3);
      i := BitAt(pulling, 2);
      z := BitAt(pulling, 1);
      c := BitAt(pulling, 0);
    }

    method PushStatus()
      requires Valid()
      modifies this, mem.cells
      ensures Valid() && State() == CpuSpec.PushStatus(old(State()))
    {
      var pushing := n * 0x80 + v * 0x40 + d * 0x08 + i * 0x04 + z * 0x02 + c;
      Push8(pushing);
    }

    method PushStatusBrk()
      requires Valid()
      modifies this, mem.cells
      ensures Valid() && State() == CpuSpec.PushStatusBrk(old(State()))
    {
      var pushing := n * 0x80 + v * 0x40 + 0x20 + d * 0x08 + i * 0x04 + z * 0x02 + c;
      Push8(pushing);
    }

    // -------------------------------------------------------------------------
    // Interrupts

    method TriggerNmi()
      requires Valid()
      modifies this, mem.cells
      ensures Valid() && State() == CpuSpec.TriggerNmi(old(State()))
    {
      Push16(pc);
      PushStatus();
      i := 1;
      pc := mem.Read8(CpuSpec.NmiVector);
    }

    method TriggerIrq()
      requires Valid()
      modifies this, mem.cells
      ensures Valid() && State() == CpuSpec.TriggerIrq(old(State()))
    {
      if i == 0 {
        Push16(pc);
        PushStatus();
        i := 1;
        pc := mem.Read8(CpuSpec.IrqVector);
      }
    }

    // -------------------------------------------------------------------------
    // One step

    /** The `switch(addrMode)` of `step`, evaluated while pc still points at the opcode. */
    method ResolveAddress(mode: AddressMode, width: nat) returns (address: Word)
      requires Valid()
      ensures address == CpuSpec.EffectiveAddress(mem.cells[..], pc, x, y, mode, width)
    {
      var operand := Wrap16(pc + 1);
      match mode {
        case Abso =>
          address := mem.Read16(operand);
        case Abx =>
          var base := mem.Read16(operand);
          address := Wrap16(base + SignExtend(x));
        case Aby =>
          var base := mem.Read16(operand);
          address := Wrap16(base + SignExtend(y));
        case Imm =>
          address := operand;
        case Rel =>
          var offset := mem.Read8(operand);
          address := Wrap16(pc + width + SignExtend(offset));
        case Zp =>
          address := mem.Read8(operand);
        case Zpx =>
          var base := mem.Read8(operand);
          address := Wrap16(base + SignExtend(x));
        case Zpy =>
          var base := mem.Read8(operand);
          address := Wrap16(base + SignExtend(y));
        case Ind =>
          var pointer := mem.Read16(operand);
          address := mem.Read16(pointer);
        case Izx =>
          var base := mem.Read8(operand);
          address := mem.Read16(base + x);
        case Izy =>
          var base := mem.Read8(operand);
          var pointer := mem.Read16(base);
          address := Wrap16(pointer + y);
        case NoAddressMode =>
          address := 0;
      }
    }

    /** `step`: count down an instruction in flight, or fetch, decode and execute the next one. */
    method Step()
      requires Valid()
      modifies this, mem.cells
      ensures Valid() && State() == CpuSpec.Step(old(State()))
    {
      if cycles > 0 {
        cycles := cycles - 1;
        return;
      }
      var instr := mem.Read8(pc);
      var op := OpcodeOf(instr);
      var mode := AddressModeOf(instr);
      var width := WidthOf(instr);
      cycles := CyclesOf(instr);
      var address := ResolveAddress(mode, width);
      pc := Wrap16(pc + width);
      assert State() == CpuSpec.Fetch(old(State()));
      Execute(op, mode, address);
    }

    /**
     * The `switch(op)` of `step`. Each case is a method of its own below,
     * reached through a dispatch by kind of operation.
     */
    method Execute(op: Op, mode: AddressMode, address: Word)
      requires Valid()
      modifies this, mem.cells
      ensures Valid() && State() == CpuSpec.Execute(old(State()), op, mode, address)
    {
      if IsArithmetic(op) {
        ExecuteArithmetic(op, mode, address);
      } else if IsShift(op) {
        ExecuteShift(op, mode, address);
      } else if IsCountStep(op) {
        ExecuteCountStep(op, mode, address);
      } else if IsMove(op) {
        ExecuteMove(op, mode, address);
      } else if IsFlagOrStack(op) {
        ExecuteFlagOrStack(op, mode, address);
      } else {
        ExecuteControl(op, mode, address);
      }
    }

    method ExecuteArithmetic(op: Op, mode: AddressMode, address: Word)
      requires Valid() && IsArithmetic(op)
      modifies this, mem.cells
      ensures Valid() && State() == CpuSpec.Execute(old(State()), op, mode, address)
    {
      match op {
        case ADC => Adc(mode, address);
        case SBC => Sbc(mode, address);
        case AND => And(mode, address);
        case EOR => Eor(mode, address);
        case ORA => Ora(mode, address);
        case BIT => Bit(mode, address);
        case CMP => Cmp(mode, address);
        case CPX => Cpx(mode, address);
        case CPY => Cpy(mode, address);
      }
    }

    /** As written: C is set when the 8-bit sum is below the old A; V is untouched. */
    method Adc(mode: AddressMode, address: Word)
      requires Valid()
      modifies this
      ensures Valid() && State() == CpuSpec.Execute(old(State()), ADC, mode, address)
    {
      ghost var before := State();
      var val := mem.Read8(address);
      var over := Wrap8(a + val + c);
      c := Flag(over < a);
      a := over;
      n := Bit7(a);
      z := IsZero(a);
      assert State() == CpuSpec.AddWithCarry(before, Load8(before.ram, address));
    }

    /** As written: the borrow is `1 - C`; C is set when the 8-bit result is below the old A; V is untouched. */
    method Sbc(mode: AddressMode, address: Word)
      requires Valid()
      modifies this
      ensures Valid() && State() == CpuSpec.Execute(old(State()), SBC, mode, address)
    {
      ghost var before := State();
      var val := mem.Read8(address);
      var borrow := 1 - c;
      var over := Wrap8(a - val - borrow);
      c := Flag(over < a);
      a := over;
      n := Bit7(a);
      z := IsZero(a);
      assert State() == CpuSpec.SubtractWithBorrow(before, Load8(before.ram, address));
    }

    method And(mode: AddressMode, address: Word)
      requires Valid()
      modifies this
      ensures Valid() && State() == CpuSpec.Execute(old(State()), AND, mode, address)
    {
      ghost var before := State();
      var val := mem.Read8(address);
      a := And8(a, val);
      z := IsZero(a);
      n := Bit7(a);
      assert State() == CpuSpec.Assign(before, CpuSpec.A, And8(before.a, Load8(before.ram, address)));
    }

    /** As written: the exclusive or is never stored; Z and N are refreshed from A. */
    method Eor(mode: AddressMode, address: Word)
      requires Valid()
      modifies this
      ensures Valid() && State() == CpuSpec.Execute(old(State()), EOR, mode, address)
    {
      ghost var before := State();
      z := IsZero(a);
      n := Bit7(a);
      assert State() == CpuSpec.SetZN(before, before.a);
    }

    /** As written: the result goes to Y while Z and N are refreshed from A. */
    method Ora(mode: AddressMode, address: Word)
      requires Valid()
      modifies this
      ensures Valid() && State() == CpuSpec.Execute(old(State()), ORA, mode, address)
    {
      ghost var before := State();
      var val := mem.Read8(address);
      y := Or8(a, val);
      z := IsZero(a);
      n := Bit7(a);
      assert State() == CpuSpec.InclusiveOr(before, Load8(before.ram, address));
    }

    method Bit(mode: AddressMode, address: Word)
      requires Valid()
      modifies this
      ensures Valid() && State() == CpuSpec.Execute(old(State()), BIT, mode, address)
    {
      ghost var before := State();
      var val := mem.Read8(address);
      v := BitAt(val, 6);
      n := Bit7(val);
      z := IsZero(And8(a, val));
      assert State() == CpuSpec.BitTest(before, Load8(before.ram, address));
    }

    method Cmp(mode: AddressMode, address: Word)
      requires Valid()
      modifies this
      ensures Valid() && State() == CpuSpec.Execute(old(State()), CMP, mode, address)
    {
      ghost var before := State();
      var val := mem.Read8(address);
      c := Flag(a >= val);
      z := Flag(a == val);
      n := Bit7(Wrap8(a - val));
      assert State() == CpuSpec.Compare(before, before.a, Load8(before.ram, address));
    }

    method Cpx(mode: AddressMode, address: Word)
      requires Valid()
      modifies this
      ensures Valid() && State() == CpuSpec.Execute(old(State()), CPX, mode, address)
    {
      ghost var before := State();
      var val := mem.Read8(address);
      c := Flag(x >= val);
      z := Flag(x == val);
      n := Bit7(Wrap8(x - val));
      assert State() == CpuSpec.Compare(before, before.x, Load8(before.ram, address));
    }

    method Cpy(mode: AddressMode, address: Word)
      requires Valid()
      modifies this
      ensures Valid() && State() == CpuSpec.Execute(old(State()), CPY, mode, address)
    {
      ghost var before := State();
      var val := mem.Read8(address);
      c := Flag(y >= val);
      z := Flag(y == val);
      n := Bit7(Wrap8(y - val));
      assert State() == CpuSpec.Compare(before, before.y, Load8(before.ram, address));
    }

    method ExecuteShift(op: Op, mode: AddressMode, address: Word)
      requires Valid() && IsShift(op)
      modifies this, mem.cells
      ensures Valid() && State() == CpuSpec.Execute(old(State()), op, mode, address)
    {
      match op {
        case ASL => Asl(mode, address);
        case LSR => Lsr(mode, address);
        case ROL => Rol(mode, address);
        case ROR => Ror(mode, address);
      }
    }

    /** As written: A is shifted left by the operand byte. */
    method Asl(mode: AddressMode, address: Word)
      requires Valid()
      modifies this
      ensures Valid() && State() == CpuSpec.Execute(old(State()), ASL, mode, address)
    {
      ghost var before := State();
      c := Bit7(a);
      var val := mem.Read8(address);
      a := ShiftLeft8(a, val);
      z := IsZero(a);
      n := Bit7(a);
      assert State() == CpuSpec.ShiftLeft(before, Load8(before.ram, address));
    }

    method Lsr(mode: AddressMode, address: Word)
      requires Valid()
      modifies this, mem.cells
      ensures Valid() && State() == CpuSpec.Execute(old(State()), LSR, mode, address)
    {
      ghost var before := State();
      ShiftRight(mode, address);
      assert State() == CpuSpec.ShiftRight(before, mode, address);
    }

    method ShiftRight(mode: AddressMode, address: Word)
      requires Valid()
      modifies this, mem.cells
      ensures Valid() && State() == CpuSpec.ShiftRight(old(State()), mode, address)
    {
      if mode == NoAddressMode {
        c := a % 2;
        a := a / 2;
        z := IsZero(a);
        n := Bit7(a);
      } else {
        var val := mem.Read8(address);
        var shifted := val / 2;
        c := val % 2;
        mem.Write8(address, shifted);
        z := IsZero(shifted);
        n := Bit7(shifted);
      }
    }

    method Rol(mode: AddressMode, address: Word)
      requires Valid()
      modifies this, mem.cells
      ensures Valid() && State() == CpuSpec.Execute(old(State()), ROL, mode, address)
    {
      ghost var before := State();
      RotateLeft(mode, address);
      assert State() == CpuSpec.RotateLeft(before, mode, address);
    }

    /** As written: no carry in; C takes the old bit 0 and Z the new bit 7. */
    method RotateLeft(mode: AddressMode, address: Word)
      requires Valid()
      modifies this, mem.cells
      ensures Valid() && State() == CpuSpec.RotateLeft(old(State()), mode, address)
    {
      if mode == NoAddressMode {
        var val := a;
        var working := RotateLeft8(val);
        a := working;
        z := Bit7(working);
        c := val % 2;
      } else {
        var val := mem.Read8(address);
        var working := RotateLeft8(val);
        mem.Write8(address, working);
        c := val % 2;
        z := Bit7(working);
      }
    }

    method Ror(mode: AddressMode, address: Word)
      requires Valid()
      modifies this, mem.cells
      ensures Valid() && State() == CpuSpec.Execute(old(State()), ROR, mode, address)
    {
      ghost var before := State();
      RotateRight(mode, address);
      assert State() == CpuSpec.RotateRight(before, mode, address);
    }

    /** As written: no carry in; C takes the old bit 0 and Z the new bit 7. */
    method RotateRight(mode: AddressMode, address: Word)
      requires Valid()
      modifies this, mem.cells
      ensures Valid() && State() == CpuSpec.RotateRight(old(State()), mode, address)
    {
      if mode == NoAddressMode {
        var val := a;
        var working := RotateRight8(val);
        a := working;
        z := Bit7(working);
        c := val % 2;
      } else {
        var val := mem.Read8(address);
        var working := RotateRight8(val);
        mem.Write8(address, working);
        c := val % 2;
        z := Bit7(working);
      }
    }

    method ExecuteCountStep(op: Op, mode: AddressMode, address: Word)
      requires Valid() && IsCountStep(op)
      modifies this, mem.cells
      ensures Valid() && State() == CpuSpec.Execute(old(State()), op, mode, address)
    {
      match op {
        case INC => Inc(mode, address);
        case DEC => Dec(mode, address);
        case INX => Inx(mode, address);
        case INY => Iny(mode, address);
        case DEX => Dex(mode, address);
        case DEY => Dey(mode, address);
      }
    }

    method Inc(mode: AddressMode, address: Word)
      requires Valid()
      modifies this, mem.cells
      ensures Valid() && State() == CpuSpec.Execute(old(State()), INC, mode, address)
    {
      ghost var before := State();
      var val := mem.Read8(address);
      val := Wrap8(val as int + 1);
      mem.Write8(address, val);
      z := IsZero(val);
      n := Bit7(val);
      assert State() == CpuSpec.StoreResult(before, address, Wrap8(Load8(before.ram, address) + 1));
    }

    method Dec(mode: AddressMode, address: Word)
      requires Valid()
      modifies this, mem.cells
      ensures Valid() && State() == CpuSpec.Execute(old(State()), DEC, mode, address)
    {
      ghost var before := State();
      var val := mem.Read8(address);
      val := Wrap8(val as int - 1);
      mem.Write8(address, val);
      z := IsZero(val);
      n := Bit7(val);
      assert State() == CpuSpec.StoreResult(before, address, Wrap8(Load8(before.ram, address) - 1));
    }

    method Inx(mode: AddressMode, address: Word)
      requires Valid()
      modifies this
      ensures Valid() && State() == CpuSpec.Execute(old(State()), INX, mode, address)
    {
      ghost var before := State();
      x := Wrap8(x + 1);
      z := IsZero(x);
      n := Bit7(x);
      assert State() == CpuSpec.Assign(before, CpuSpec.X, Wrap8(before.x + 1));
    }

    method Iny(mode: AddressMode, address: Word)
      requires Valid()
      modifies this
      ensures Valid() && State() == CpuSpec.Execute(old(State()), INY, mode, address)
    {
      ghost var before := State();
      y := Wrap8(y + 1);
      z := IsZero(y);
      n := Bit7(y);
      assert State() == CpuSpec.Assign(before, CpuSpec.Y, Wrap8(before.y + 1));
    }

    method Dex(mode: AddressMode, address: Word)
      requires Valid()
      modifies this
      ensures Valid() && State() == CpuSpec.Execute(old(State()), DEX, mode, address)
    {
      ghost var before := State();
      x := Wrap8(x - 1);
      z := IsZero(x);
      n := Bit7(x);
      assert State() == CpuSpec.Assign(before, CpuSpec.X, Wrap8(before.x - 1));
    }

    method Dey(mode: AddressMode, address: Word)
      requires Valid()
      modifies this
      ensures Valid() && State() == CpuSpec.Execute(old(State()), DEY, mode, address)
    {
      ghost var before := State();
      y := Wrap8(y - 1);
      z := IsZero(y);
      n := Bit7(y);
      assert State() == CpuSpec.Assign(before, CpuSpec.Y, Wrap8(before.y - 1));
    }

    method ExecuteMove(op: Op, mode: AddressMode, address: Word)
      requires Valid() && IsMove(op)
      modifies this, mem.cells
      ensures Valid() && State() == CpuSpec.Execute(old(State()), op, mode, address)
    {
      match op {
        case LDA => Lda(mode, address);
        case LDX => Ldx(mode, address);
        case LDY => Ldy(mode, address);
        case STA => Sta(mode, address);
        case STX => Stx(mode, address);
        case STY => Sty(mode, address);
        case TAX => Tax(mode, address);
        case TAY => Tay(mode, address);
        case TSX => Tsx(mode, address);
        case TXA => Txa(mode, address);
        case TXS => Txs(mode, address);
        case TYA => Tya(mode, address);
      }
    }

    method Lda(mode: AddressMode, address: Word)
      requires Valid()
      modifies this
      ensures Valid() && State() == CpuSpec.Execute(old(State()), LDA, mode, address)
    {
      ghost var before := State();
      a := mem.Read8(address);
      z := IsZero(a);
      n := Bit7(a);
      assert State() == CpuSpec.Assign(before, CpuSpec.A, Load8(before.ram, address));
    }

    method Ldx(mode: AddressMode, address: Word)
      requires Valid()
      modifies this
      ensures Valid() && State() == CpuSpec.Execute(old(State()), LDX, mode, address)
    {
      ghost var before := State();
      x := mem.Read8(address);
      z := IsZero(x);
      n := Bit7(x);
      assert State() == CpuSpec.Assign(before, CpuSpec.X, Load8(before.ram, address));
    }

    method Ldy(mode: AddressMode, address: Word)
      requires Valid()
      modifies this
      ensures Valid() && State() == CpuSpec.Execute(old(State()), LDY, mode, address)
    {
      ghost var before := State();
      y := mem.Read8(address);
      z := IsZero(y);
      n := Bit7(y);
      assert State() == CpuSpec.Assign(before, CpuSpec.Y, Load8(before.ram, address));
    }

    method Sta(mode: AddressMode, address: Word)
      requires Valid()
      modifies this, mem.cells
      ensures Valid() && State() == CpuSpec.Execute(old(State()), STA, mode, address)
    {
      ghost var before := State();
      StoreRegister(a, address);
      assert State() == CpuSpec.StoreRegister(before, before.a, address);
    }

    method Stx(mode: AddressMode, address: Word)
      requires Valid()
      modifies this, mem.cells
      ensures Valid() && State() == CpuSpec.Execute(old(State()), STX, mode, address)
    {
      ghost var before := State();
      StoreRegister(x, address);
      assert State() == CpuSpec.StoreRegister(before, before.x, address);
    }

    method Sty(mode: AddressMode, address: Word)
      requires Valid()
      modifies this, mem.cells
      ensures Valid() && State() == CpuSpec.Execute(old(State()), STY, mode, address)
    {
      ghost var before := State();
      StoreRegister(y, address);
      assert State() == CpuSpec.StoreRegister(before, before.y, address);
    }

    /** STA, STX and STY: the write, and the display check on the address. */
    method StoreRegister(value: Byte, address: Word)
      requires Valid()
      modifies this, mem.cells
      ensures Valid() && State() == CpuSpec.StoreRegister(old(State()), value, address)
    {
      mem.Write8(address, value);
      if 0x200 <= address <= 0x5FF {
        visualDirty := true;
      }
    }

    method Tax(mode: AddressMode, address: Word)
      requires Valid()
      modifies this
      ensures Valid() && State() == CpuSpec.Execute(old(State()), TAX, mode, address)
    {
      ghost var before := State();
      x := a;
      z := IsZero(x);
      n := Bit7(x);
      assert State() == CpuSpec.Assign(before, CpuSpec.X, before.a);
    }

    method Tay(mode: AddressMode, address: Word)
      requires Valid()
      modifies this
      ensures Valid() && State() == CpuSpec.Execute(old(State()), TAY, mode, address)
    {
      ghost var before := State();
      y := a;
      z := IsZero(y);
      n := Bit7(y);
      assert State() == CpuSpec.Assign(before, CpuSpec.Y, before.a);
    }

    method Tsx(mode: AddressMode, address: Word)
      requires Valid()
      modifies this
      ensures Valid() && State() == CpuSpec.Execute(old(State()), TSX, mode, address)
    {
      ghost var before := State();
      x := s;
      z := IsZero(x);
      n := Bit7(x);
      assert State() == CpuSpec.Assign(before, CpuSpec.X, before.s);
    }

    method Txa(mode: AddressMode, address: Word)
      requires Valid()
      modifies this
      ensures Valid() && State() == CpuSpec.Execute(old(State()), TXA, mode, address)
    {
      ghost var before := State();
      a := x;
      z := IsZero(a);
      n := Bit7(a);
      assert State() == CpuSpec.Assign(before, CpuSpec.A, before.x);
    }

    /** As written: Z and N follow the new stack pointer. */
    method Txs(mode: AddressMode, address: Word)
      requires Valid()
      modifies this
      ensures Valid() && State() == CpuSpec.Execute(old(State()), TXS, mode, address)
    {
      ghost var before := State();
      s := x;
      z := IsZero(s);
      n := Bit7(s);
      assert State() == CpuSpec.Assign(before, CpuSpec.S, before.x);
    }

    method Tya(mode: AddressMode, address: Word)
      requires Valid()
      modifies this
      ensures Valid() && State() == CpuSpec.Execute(old(State()), TYA, mode, address)
    {
      ghost var before := State();
      a := y;
      z := IsZero(a);
      n := Bit7(a);
      assert State() == CpuSpec.Assign(before, CpuSpec.A, before.y);
    }

    method ExecuteFlagOrStack(op: Op, mode: AddressMode, address: Word)
      requires Valid() && IsFlagOrStack(op)
      modifies this, mem.cells
      ensures Valid() && State() == CpuSpec.Execute(old(State()), op, mode, address)
    {
      match op {
        case CLC => Clc(mode, address);
        case CLD => Cld(mode, address);
        case CLI => Cli(mode, address);
        case CLV => Clv(mode, address);
        case SEC => Sec(mode, address);
        case SED => Sed(mode, address);
        case SEI => Sei(mode, address);
        case PHA => Pha(mode, address);
        case PHP => Php(mode, address);
        case PLA => Pla(mode, address);
        case PLP => Plp(mode, address);
      }
    }

    method Clc(mode: AddressMode, address: Word)
      requires Valid()
      modifies this
      ensures Valid() && State() == CpuSpec.Execute(old(State()), CLC, mode, address)
    {
      ghost var before := State();
      c := 0;
      assert State() == before.(c := 0);
    }

    method Cld(mode: AddressMode, address: Word)
      requires Valid()
      modifies this
      ensures Valid() && State() == CpuSpec.Execute(old(State()), CLD, mode, address)
    {
      ghost var before := State();
      d := 0;
      assert State() == before.(d := 0);
    }

    method Cli(mode: AddressMode, address: Word)
      requires Valid()
      modifies this
      ensures Valid() && State() == CpuSpec.Execute(old(State()), CLI, mode, address)
    {
      ghost var before := State();
      i := 0;
      assert State() == before.(i := 0);
    }

    method Clv(mode: AddressMode, address: Word)
      requires Valid()
      modifies this
      ensures Valid() && State() == CpuSpec.Execute(old(State()), CLV, mode, address)
    {
      ghost var before := State();
      v := 0;
      assert State() == before.(v := 0);
    }

    method Sec(mode: AddressMode, address: Word)
      requires Valid()
      modifies this
      ensures Valid() && State() == CpuSpec.Execute(old(State()), SEC, mode, address)
    {
      ghost var before := State();
      c := 1;
      assert State() == before.(c := 1);
    }

    method Sed(mode: AddressMode, address: Word)
      requires Valid()
      modifies this
      ensures Valid() && State() == CpuSpec.Execute(old(State()), SED, mode, address)
    {
      ghost var before := State();
      d := 1;
      assert State() == before.(d := 1);
    }

    method Sei(mode: AddressMode, address: Word)
      requires Valid()
      modifies this
      ensures Valid() && State() == CpuSpec.Execute(old(State()), SEI, mode, address)
    {
      ghost var before := State();
      i := 1;
      assert State() == before.(i := 1);
    }

    method Pha(mode: AddressMode, address: Word)
      requires Valid()
      modifies this, mem.cells
      ensures Valid() && State() == CpuSpec.Execute(old(State()), PHA, mode, address)
    {
      ghost var before := State();
      Push8(a);
      assert State() == CpuSpec.Push8(before, before.a);
    }

    method Php(mode: AddressMode, address: Word)
      requires Valid()
      modifies this, mem.cells
      ensures Valid() && State() == CpuSpec.Execute(old(State()), PHP, mode, address)
    {
      ghost var before := State();
      PushStatus();
      assert State() == CpuSpec.PushStatus(before);
    }

    /** No flags change. */
    method Pla(mode: AddressMode, address: Word)
      requires Valid()
      modifies this
      ensures Valid() && State() == CpuSpec.Execute(old(State()), PLA, mode, address)
    {
      ghost var before := State();
      a := Pull8();
      assert State() == CpuSpec.PullAccumulator(before);
    }

    method Plp(mode: AddressMode, address: Word)
      requires Valid()
      modifies this
      ensures Valid() && State() == CpuSpec.Execute(old(State()), PLP, mode, address)
    {
      ghost var before := State();
      PullStatus();
      assert State() == CpuSpec.PullStatus(before);
    }

    method ExecuteControl(op: Op, mode: AddressMode, address: Word)
      requires Valid() && IsControl(op)
      modifies this, mem.cells
      ensures Valid() && State() == CpuSpec.Execute(old(State()), op, mode, address)
    {
      match op {
        case BCC => Bcc(mode, address);
        case BCS => Bcs(mode, address);
        case BEQ => Beq(mode, address);
        case BMI => Bmi(mode, address);
        case BNE => Bne(mode, address);
        case BPL => Bpl(mode, address);
        case BVC => Bvc(mode, address);
        case BVS => Bvs(mode, address);
        case BRK => Brk(mode, address);
        case JMP => Jmp(mode, address);
        case JSR => Jsr(mode, address);
        case RTI => Rti(mode, address);
        case RTS => Rts(mode, address);
        case NOP | BADOP =>
      }
    }

    method Bcc(mode: AddressMode, address: Word)
      requires Valid()
      modifies this
      ensures Valid() && State() == CpuSpec.Execute(old(State()), BCC, mode, address)
    {
      ghost var before := State();
      if c == 0 {
        pc := address;
      }
      assert State() == CpuSpec.Branch(before, before.c == 0, address);
    }

    method Bcs(mode: AddressMode, address: Word)
      requires Valid()
      modifies this
      ensures Valid() && State() == CpuSpec.Execute(old(State()), BCS, mode, address)
    {
      ghost var before := State();
      if c == 1 {
        pc := address;
      }
      assert State() == CpuSpec.Branch(before, before.c == 1, address);
    }

    method Beq(mode: AddressMode, address: Word)
      requires Valid()
      modifies this
      ensures Valid() && State() == CpuSpec.Execute(old(State()), BEQ, mode, address)
    {
      ghost var before := State();
      if z == 1 {
        pc := address;
      }
      assert State() == CpuSpec.Branch(before, before.z == 1, address);
    }

    method Bmi(mode: AddressMode, address: Word)
      requires Valid()
      modifies this
      ensures Valid() && State() == CpuSpec.Execute(old(State()), BMI, mode, address)
    {
      ghost var before := State();
      if n == 1 {
        pc := address;
      }
      assert State() == CpuSpec.Branch(before, before.n == 1, address);
    }

    method Bne(mode: AddressMode, address: Word)
      requires Valid()
      modifies this
      ensures Valid() && State() == CpuSpec.Execute(old(State()), BNE, mode, address)
    {
      ghost var before := State();
      if z == 0 {
        pc := address;
      }
      assert State() == CpuSpec.Branch(before, before.z == 0, address);
    }

    method Bpl(mode: AddressMode, address: Word)
      requires Valid()
      modifies this
      ensures Valid() && State() == CpuSpec.Execute(old(State()), BPL, mode, address)
    {
      ghost var before := State();
      if n == 0 {
        pc := address;
      }
      assert State() == CpuSpec.Branch(before, before.n == 0, address);
    }

    method Bvc(mode: AddressMode, address: Word)
      requires Valid()
      modifies this
      ensures Valid() && State() == CpuSpec.Execute(old(State()), BVC, mode, address)
    {
      ghost var before := State();
      if v == 0 {
        pc := address;
      }
      assert State() == CpuSpec.Branch(before, before.v == 0, address);
    }

    method Bvs(mode: AddressMode, address: Word)
      requires Valid()
      modifies this
      ensures Valid() && State() == CpuSpec.Execute(old(State()), BVS, mode, address)
    {
      ghost var before := State();
      if v == 1 {
        pc := address;
      }
      assert State() == CpuSpec.Branch(before, before.v == 1, address);
    }

    /** As written: only the halt indicator is raised. */
    method Brk(mode: AddressMode, address: Word)
      requires Valid()
      modifies this
      ensures Valid() && State() == CpuSpec.Execute(old(State()), BRK, mode, address)
    {
      ghost var before := State();
      finished := true;
      assert State() == before.(finished := true);
    }

    method Jmp(mode: AddressMode, address: Word)
      requires Valid()
      modifies this
      ensures Valid() && State() == CpuSpec.Execute(old(State()), JMP, mode, address)
    {
      ghost var before := State();
      pc := address;
      assert State() == before.(pc := address);
    }

    method Jsr(mode: AddressMode, address: Word)
      requires Valid()
      modifies this, mem.cells
      ensures Valid() && State() == CpuSpec.Execute(old(State()), JSR, mode, address)
    {
      ghost var before := State();
      Push16(Wrap16(pc - 1));
      pc := address;
      assert State() == CpuSpec.JumpToSubroutine(before, address);
    }

    method Rti(mode: AddressMode, address: Word)
      requires Valid()
      modifies this
      ensures Valid() && State() == CpuSpec.Execute(old(State()), RTI, mode, address)
    {
      ghost var before := State();
      PullStatus();
      pc := Pull16();
      assert State() == CpuSpec.ReturnFromInterrupt(before);
    }

    method Rts(mode: AddressMode, address: Word)
      requires Valid()
      modifies this
      ensures Valid() && State() == CpuSpec.Execute(old(State()), RTS, mode, address)
    {
      ghost var before := State();
      var target := Pull16();
      pc := Wrap16(target as int + 1);
      assert State() == CpuSpec.ReturnFromSubroutine(before);
    }

  }

  /** The operations that combine A, X or Y with one operand byte. */
  predicate IsArithmetic(op: Op) {
    op.ADC? || op.SBC? || op.AND? || op.EOR? || op.ORA? || op.BIT? || op.CMP? || op.CPX? || op.CPY?
  }

  /** The shifts and rotations. */
  predicate IsShift(op: Op) {
    op.ASL? || op.LSR? || op.ROL? || op.ROR?
  }

  /** Increments and decrements of memory, X and Y. */
  predicate IsCountStep(op: Op) {
    op.INC? || op.DEC? || op.INX? || op.INY? || op.DEX? || op.DEY?
  }

  /** Loads, stores and register transfers. */
  predicate IsMove(op: Op) {
    op.LDA? || op.LDX? || op.LDY? || op.STA? || op.STX? || op.STY? || op.TAX? || op.TAY? || op.TSX? || op.TXA? || op.TXS? || op.TYA?
  }

  /** Flag set and clear, and the stack operations PHA, PHP, PLA and PLP. */
  predicate IsFlagOrStack(op: Op) {
    op.CLC? || op.CLD? || op.CLI? || op.CLV? || op.SEC? || op.SED? || op.SEI? || op.PHA? || op.PHP? || op.PLA? || op.PLP?
  }

  /** Branches, jumps, subroutine calls and returns, BRK, NOP, and BADOP (which matches no case). */
  predicate IsControl(op: Op) {
    op.BCC? || op.BCS? || op.BEQ? || op.BMI? || op.BNE? || op.BPL? || op.BVC? || op.BVS? || op.BRK? || op.JMP? || op.JSR? || op.RTI? || op.RTS? || op.NOP? || op.BADOP?
  }
}
