/**
 * The CPU's state as a value: the register file, the halted flag, the interrupt master enable
 * and the bus it runs against. The primitive steps every instruction is built from are here
 * too: fetching operands at PC, pushing and popping words, and evaluating a branch condition.
 */
module CpuState {
  import opened Registers
  import opened CpuBus
  import opened Ime
  import opened Wrappers
  import opened Alu

  datatype Machine = Machine(regs: RegisterFile, halted: bool, ime: ImeState, bus: BusState)

  /** What one step produced: the machine after it, and the clock cycles it took. */
  datatype Outcome = Outcome(after: Machine, cycles: nat)

  /** The register values `Cpu::new` starts from, those the boot ROM leaves behind. */
  const PowerOnRegisters := RegisterFile(0x01, NewFlags(true, true, false, true), 0x00, 0x13,
                                         0x00, 0xD8, 0x01, 0x4D, 0xFFFE, 0x0100)

  /** The machine with one byte stored on the bus. */
  function WriteAt(m: Machine, addr: bv16, v: bv8): (r: Machine)
    requires WellSized(m.bus)
    ensures WellSized(r.bus)
  {
    m.(bus := Store(m.bus, addr, v))
  }

  /** `fetch8`: the byte at PC, and PC moved past it (wrapping after 0xFFFF). */
  function Fetch8(m: Machine): (r: (bv8, Machine))
    requires WellSized(m.bus)
    ensures WellSized(r.1.bus)
  {
    (Load(m.bus, m.regs.pc), m.(regs := m.regs.(pc := m.regs.pc + 1)))
  }

  /** `fetch16`: the little-endian word at PC, and PC moved past both bytes. */
  function Fetch16(m: Machine): (r: (bv16, Machine))
    requires WellSized(m.bus)
    ensures WellSized(r.1.bus)
  {
    (Load16(m.bus, m.regs.pc), m.(regs := m.regs.(pc := m.regs.pc + 2)))
  }

  /** Fetching a word reads the same two bytes, in the same order, as two single fetches. */
  lemma Fetch16IsTwoFetch8(m: Machine)
    requires WellSized(m.bus)
    ensures var (lo, m1) := Fetch8(m);
            var (hi, m2) := Fetch8(m1);
            Fetch16(m) == (FromBeBytes(hi, lo), m2)
  {
  }

  /** `stack_push`: SP goes down by two, then the word is written there. */
  function Push(m: Machine, value: bv16): (r: Machine)
    requires WellSized(m.bus)
    ensures WellSized(r.bus)
  {
    var sp := m.regs.sp - 2;
    m.(regs := m.regs.(sp := sp), bus := Store16(m.bus, sp, value))
  }

  /** `stack_pop`: the word at SP, and SP raised by two. */
  function Pop(m: Machine): (r: (bv16, Machine))
    requires WellSized(m.bus)
    ensures WellSized(r.1.bus)
  {
    (Load16(m.bus, m.regs.sp), m.(regs := m.regs.(sp := m.regs.sp + 2)))
  }

  /** Popping right after a push returns the pushed word and restores SP and every other register. */
  lemma PushThenPop(m: Machine, value: bv16)
    requires WellSized(m.bus)
    ensures Pop(Push(m, value)).0 == value
    ensures Pop(Push(m, value)).1.regs == m.regs
  {
    PopReadsPushedWord(m, value);
  }

  lemma PopReadsPushedWord(m: Machine, value: bv16)
    requires WellSized(m.bus)
    ensures Pop(Push(m, value)).0 == value
  {
    Load16AfterStore16(m.bus, m.regs.sp - 2, value, 0);
  }

  /**
   * `evaluate_flag_condition`: condition codes 0..3 are NZ, Z, NC and C. Bit 1 of the code
   * picks the flag (zero or carry) and bit 0 the state it must be in. Codes above 3 panic.
   */
  function Condition(f: Flags, ff: bv8): (taken: bool)
    requires ff < 4
    ensures taken <==> (if ff & 2 == 0 then f.Zero() else f.Carry()) == (ff & 1 == 1)
  {
    match ff
    case 0 => !f.Zero()
    case 1 => f.Zero()
    case 2 => !f.Carry()
    case 3 => f.Carry()
  }

  /** Opposite conditions: NZ and Z, NC and C never hold together and one of each pair always does. */
  lemma ConditionsComplement(f: Flags, ff: bv8)
    requires ff < 4
    ensures Condition(f, ff) != Condition(f, ff ^ 1)
  {
  }

  /**
   * The one-operand ALU functions that `update_reg` and `update_ram_hl` are handed: increment,
   * decrement and the eight rotates, shifts and swap.
   */
  datatype ByteOperation = Inc | Dec | Rlc | Rrc | Rl | Rr | Sla | Sra | Swap | Srl

  function Apply(op: ByteOperation, f: Flags, x: bv8): (bv8, Flags) {
    match op
    case Inc => Inc8(f, x)
    case Dec => Dec8(f, x)
    case Rlc => RotateLeft(f, x)
    case Rrc => RotateRight(f, x)
    case Rl => RotateLeftThroughCarryFlag(f, x)
    case Rr => RotateRightThroughCarryFlag(f, x)
    case Sla => ShiftLeft(f, x)
    case Sra => ShiftRightLeaveMsb(f, x)
    case Swap => SwapNibbles(f, x)
    case Srl => ShiftRightClearMsb(f, x)
  }

  /**
   * `update_reg`: the operation applied to one 8-bit register. The flags are updated first and
   * the result stored after, so the result wins should the register be the flags byte itself.
   */
  function UpdateRegister(m: Machine, index: bv8, op: ByteOperation): (r: Machine)
    requires index < 8
    ensures r.bus == m.bus && r.halted == m.halted && r.ime == m.ime
    ensures Get8(r.regs, index) == Apply(op, m.regs.flags, Get8(m.regs, index)).0
    ensures index != 6 ==> r.regs.flags == Apply(op, m.regs.flags, Get8(m.regs, index)).1
    ensures forall j: bv8 :: j < 8 && j != index && j != 6 ==> Get8(r.regs, j) == Get8(m.regs, j)
    ensures r.regs.sp == m.regs.sp && r.regs.pc == m.regs.pc
  {
    var (result, f) := Apply(op, m.regs.flags, Get8(m.regs, index));
    m.(regs := Put8(m.regs.(flags := f), index, result))
  }

  /** `update_ram_hl`: the operation applied to the byte at HL, which is written back in place. */
  function UpdateAtHl(m: Machine, op: ByteOperation): (r: Machine)
    requires WellSized(m.bus)
    ensures WellSized(r.bus)
    ensures r.regs == m.regs.(flags := Apply(op, m.regs.flags, Load(m.bus, Hl(m.regs))).1)
    ensures Load(r.bus, Hl(m.regs)) == Apply(op, m.regs.flags, Load(m.bus, Hl(m.regs))).0
    ensures forall a: bv16 :: a != Hl(m.regs) ==> Load(r.bus, a) == Load(m.bus, a)
  {
    var addr := Hl(m.regs);
    var (result, f) := Apply(op, m.regs.flags, Load(m.bus, addr));
    forall a: bv16 ensures Load(Store(m.bus, addr, result), a) == if a == addr then result else Load(m.bus, a) {
      LoadAfterStore(m.bus, addr, result, a);
    }
    m.(regs := m.regs.(flags := f), bus := Store(m.bus, addr, result))
  }
}
