/**
 * The instruction set as functions on machine values: what `execute` does with an opcode whose
 * byte has already been fetched, and what `execute_cb` does with the byte after a 0xCB prefix.
 * The arms are grouped by kind (8-bit loads, 16-bit loads, arithmetic, jumps, ...); each group
 * lists its opcodes exactly as the source's match arms do.
 */
module Execute {
  import opened Bits
  import opened Wrappers
  import opened Registers
  import opened CpuBus
  import opened Ime
  import opened Alu
  import opened Opcode
  import opened CpuState

  // ---- opcode groups of `execute` ----

  /** LD r, r: 0b01xxxyyy with neither field 6. */
  predicate IsLoadRegister(v: bv8) {
    (0x40 <= v <= 0x45) || (0x47 <= v <= 0x4D) || (0x4F <= v <= 0x55) || (0x57 <= v <= 0x5D)
    || (0x5F <= v <= 0x65) || (0x67 <= v <= 0x6D) || v == 0x6F || (0x78 <= v <= 0x7D) || v == 0x7F
  }

  /** LD r, n: 0b00xxx110. */
  predicate IsLoadImmediate(v: bv8) {
    v == 0x06 || v == 0x0E || v == 0x16 || v == 0x1E || v == 0x26 || v == 0x2E || v == 0x3E
  }

  /** LD r, [HL]: 0b01xxx110. */
  predicate IsLoadFromHl(v: bv8) {
    v == 0x46 || v == 0x4E || v == 0x56 || v == 0x5E || v == 0x66 || v == 0x6E || v == 0x7E
  }

  /** LD [HL], r: 0b01110yyy. */
  predicate IsStoreToHl(v: bv8) {
    (0x70 <= v <= 0x75) || v == 0x77
  }

  /** The 8-bit loads between registers and the byte at HL, including the post-increment and post-decrement forms. */
  predicate IsLoad8(v: bv8) {
    IsLoadRegister(v) || IsLoadImmediate(v) || IsLoadFromHl(v) || IsStoreToHl(v)
    || v == 0x36 || v == 0x3A || v == 0x32 || v == 0x2A || v == 0x22
  }

  /** The loads of A from and to [BC], [DE], [nn] and the high page 0xFF00 + C or + n. */
  predicate IsLoadAccumulator(v: bv8) {
    v == 0x0A || v == 0x1A || v == 0x02 || v == 0x12 || v == 0xFA || v == 0xEA
    || v == 0xF2 || v == 0xE2 || v == 0xF0 || v == 0xE0
  }

  predicate IsLoadPairImmediate(v: bv8) { v == 0x01 || v == 0x11 || v == 0x21 || v == 0x31 }
  predicate IsPush(v: bv8) { v == 0xC5 || v == 0xD5 || v == 0xE5 || v == 0xF5 }
  predicate IsPop(v: bv8) { v == 0xC1 || v == 0xD1 || v == 0xE1 || v == 0xF1 }

  /** The 16-bit loads: LD rr, nn, LD [nn], SP, LD HL, SP+n, LD SP, HL, PUSH and POP. */
  predicate IsLoad16(v: bv8) {
    IsLoadPairImmediate(v) || v == 0x08 || v == 0xF8 || v == 0xF9 || IsPush(v) || IsPop(v)
  }

  /** ADD, ADC, SUB, SBC, AND, XOR, OR and CP with a register: 0b10ooo yyy with yyy not 6. */
  predicate IsAluRegister(v: bv8) {
    0x80 <= v <= 0xBF && v & 0x07 != 6
  }

  /** The same eight operations with the byte at HL: 0x86, 0x8E, ..., 0xBE. */
  predicate IsAluFromHl(v: bv8) {
    0x80 <= v <= 0xBF && v & 0x07 == 6
  }

  /** The same eight operations with an immediate byte: 0xC6, 0xCE, ..., 0xFE. */
  predicate IsAluImmediate(v: bv8) {
    0xC0 <= v && v & 0x07 == 6
  }

  predicate IsAlu8(v: bv8) {
    IsAluRegister(v) || IsAluFromHl(v) || IsAluImmediate(v)
  }

  predicate IsIncRegister(v: bv8) {
    v == 0x04 || v == 0x14 || v == 0x24 || v == 0x0C || v == 0x1C || v == 0x2C || v == 0x3C
  }

  predicate IsDecRegister(v: bv8) {
    v == 0x05 || v == 0x15 || v == 0x25 || v == 0x0D || v == 0x1D || v == 0x2D || v == 0x3D
  }

  /** INC and DEC of a register or of the byte at HL, DAA and CPL. */
  predicate IsUnary8(v: bv8) {
    IsIncRegister(v) || v == 0x34 || IsDecRegister(v) || v == 0x35 || v == 0x27 || v == 0x2F
  }

  predicate IsAddHl(v: bv8) { v == 0x09 || v == 0x19 || v == 0x29 || v == 0x39 }
  predicate IsIncPair(v: bv8) { v == 0x03 || v == 0x13 || v == 0x23 || v == 0x33 }
  predicate IsDecPair(v: bv8) { v == 0x0B || v == 0x1B || v == 0x2B || v == 0x3B }

  /** ADD HL, rr, INC rr, DEC rr and ADD SP, n. */
  predicate IsAlu16(v: bv8) {
    IsAddHl(v) || IsIncPair(v) || IsDecPair(v) || v == 0xE8
  }

  /** RLCA, RLA, RRCA, RRA. */
  predicate IsRotateA(v: bv8) {
    v == 0x07 || v == 0x17 || v == 0x0F || v == 0x1F
  }

  predicate IsJumpConditional(v: bv8) { v == 0xC2 || v == 0xCA || v == 0xD2 || v == 0xDA }
  predicate IsJumpRelativeConditional(v: bv8) { v == 0x20 || v == 0x28 || v == 0x30 || v == 0x38 }
  predicate IsCallConditional(v: bv8) { v == 0xC4 || v == 0xCC || v == 0xD4 || v == 0xDC }
  predicate IsReturnConditional(v: bv8) { v == 0xC0 || v == 0xC8 || v == 0xD0 || v == 0xD8 }

  /** RST n: 0b11nnn111. */
  predicate IsRestart(v: bv8) {
    v == 0xC7 || v == 0xCF || v == 0xD7 || v == 0xDF || v == 0xE7 || v == 0xEF || v == 0xF7 || v == 0xFF
  }

  /** JP nn, JP HL, JP cc, JR n, JR cc, CALL nn and CALL cc. */
  predicate IsJump(v: bv8) {
    v == 0xC3 || v == 0xE9 || IsJumpConditional(v) || v == 0x18 || IsJumpRelativeConditional(v)
    || v == 0xCD || IsCallConditional(v)
  }

  /** RET, RET cc, RETI and RST. */
  predicate IsReturn(v: bv8) {
    v == 0xC9 || IsReturnConditional(v) || v == 0xD9 || IsRestart(v)
  }

  /** CCF, SCF, NOP, HALT, STOP, DI and EI. */
  predicate IsControl(v: bv8) {
    v == 0x3F || v == 0x37 || v == 0x00 || v == 0x76 || v == 0x10 || v == 0xF3 || v == 0xFB
  }

  /** The eleven bytes that are no instruction of the processor. */
  predicate IsUndefined(v: bv8) {
    v == 0xD3 || v == 0xDB || v == 0xDD || v == 0xE3 || v == 0xE4 || v == 0xEB || v == 0xEC
    || v == 0xED || v == 0xF4 || v == 0xFC || v == 0xFD
  }

  // ---- 8-bit loads ----

  /** LD r, r': the register named by bits 0..2 copied into the one named by bits 3..5. */
  function LoadRegister(m: Machine, op: Opcode): (o: Outcome)
    requires WellSized(m.bus)
    ensures WellSized(o.after.bus) && o.after.ime == m.ime && o.after.halted == m.halted
  {
    Outcome(m.(regs := Put8(m.regs, op.Xxx(), Get8(m.regs, op.Yyy()))), 4)
  }

  /** LD r, n: the byte after the opcode into the register named by bits 3..5. */
  function LoadImmediate(m: Machine, op: Opcode): (o: Outcome)
    requires WellSized(m.bus)
    ensures WellSized(o.after.bus) && o.after.ime == m.ime && o.after.halted == m.halted
  {
    var (n, m1) := Fetch8(m);
    Outcome(m1.(regs := Put8(m1.regs, op.Xxx(), n)), 8)
  }

  /** LD r, [HL]. */
  function LoadFromHl(m: Machine, op: Opcode): (o: Outcome)
    requires WellSized(m.bus)
    ensures WellSized(o.after.bus) && o.after.ime == m.ime && o.after.halted == m.halted
  {
    Outcome(m.(regs := Put8(m.regs, op.Xxx(), Load(m.bus, Hl(m.regs)))), 8)
  }

  /** LD [HL], r. */
  function StoreToHl(m: Machine, op: Opcode): (o: Outcome)
    requires WellSized(m.bus)
    ensures WellSized(o.after.bus) && o.after.ime == m.ime && o.after.halted == m.halted
  {
    Outcome(WriteAt(m, Hl(m.regs), Get8(m.regs, op.Yyy())), 8)
  }

  /** LD [HL], n. */
  function StoreImmediateToHl(m: Machine): (o: Outcome)
    requires WellSized(m.bus)
    ensures WellSized(o.after.bus) && o.after.ime == m.ime && o.after.halted == m.halted
  {
    var (n, m1) := Fetch8(m);
    Outcome(WriteAt(m1, Hl(m.regs), n), 12)
  }

  /** HL after LD A, [HL-] and its relatives: one down or one up, wrapping at 16 bits. */
  function StepHl(hl: bv16, down: bool): (r: bv16)
    ensures down ==> r + 1 == hl
    ensures !down ==> r - 1 == hl
  {
    if down then hl - 1 else hl + 1
  }

  /** LD A, [HL-] and LD A, [HL+]: A from the byte at HL, then HL stepped down or up (wrapping). */
  function LoadAccumulatorStepping(m: Machine, down: bool): (o: Outcome)
    requires WellSized(m.bus)
    ensures WellSized(o.after.bus) && o.after.ime == m.ime && o.after.halted == m.halted
  {
    var r := m.regs;
    var hl := Hl(r);
    Outcome(m.(regs := PutHl(r.(a := Load(m.bus, hl)), StepHl(hl, down))), 8)
  }

  /** LD [HL-], A and LD [HL+], A: A stored at HL, then HL stepped down or up (wrapping). */
  function StoreAccumulatorStepping(m: Machine, down: bool): (o: Outcome)
    requires WellSized(m.bus)
    ensures WellSized(o.after.bus) && o.after.ime == m.ime && o.after.halted == m.halted
  {
    var r := m.regs;
    var hl := Hl(r);
    Outcome(WriteAt(m, hl, r.a).(regs := PutHl(r, StepHl(hl, down))), 8)
  }

  function Load8(m: Machine, op: Opcode): (o: Outcome)
    requires WellSized(m.bus) && IsLoad8(op.value)
    ensures WellSized(o.after.bus) && o.after.ime == m.ime && o.after.halted == m.halted
  {
    var v := op.value;
    if IsLoadRegister(v) then LoadRegister(m, op)
    else if IsLoadImmediate(v) then LoadImmediate(m, op)
    else if IsLoadFromHl(v) then LoadFromHl(m, op)
    else if IsStoreToHl(v) then StoreToHl(m, op)
    else if v == 0x36 then StoreImmediateToHl(m)
    else if v == 0x3A then LoadAccumulatorStepping(m, true)
    else if v == 0x32 then StoreAccumulatorStepping(m, true)
    else if v == 0x2A then LoadAccumulatorStepping(m, false)
    else StoreAccumulatorStepping(m, false)
  }

  /** LD A, [BC], LD A, [DE] and LDH A, [C]: A from the given address. */
  function LoadAccumulatorFrom(m: Machine, addr: bv16): (o: Outcome)
    requires WellSized(m.bus)
    ensures WellSized(o.after.bus) && o.after.ime == m.ime && o.after.halted == m.halted
  {
    Outcome(m.(regs := m.regs.(a := Load(m.bus, addr))), 8)
  }

  /** LD [BC], A, LD [DE], A and LDH [C], A: A stored at the given address. */
  function StoreAccumulatorTo(m: Machine, addr: bv16): (o: Outcome)
    requires WellSized(m.bus)
    ensures WellSized(o.after.bus) && o.after.ime == m.ime && o.after.halted == m.halted
  {
    Outcome(WriteAt(m, addr, m.regs.a), 8)
  }

  /** LD A, [nn]: the address is the word after the opcode. */
  function LoadAccumulatorDirect(m: Machine): (o: Outcome)
    requires WellSized(m.bus)
    ensures WellSized(o.after.bus) && o.after.ime == m.ime && o.after.halted == m.halted
  {
    var (nn, m1) := Fetch16(m);
    Outcome(m1.(regs := m1.regs.(a := Load(m1.bus, nn))), 16)
  }

  /** LD [nn], A. */
  function StoreAccumulatorDirect(m: Machine): (o: Outcome)
    requires WellSized(m.bus)
    ensures WellSized(o.after.bus) && o.after.ime == m.ime && o.after.halted == m.halted
  {
    var (nn, m1) := Fetch16(m);
    Outcome(WriteAt(m1, nn, m.regs.a), 16)
  }

  /** LDH A, [n]: the address is 0xFF00 plus the byte after the opcode. */
  function LoadAccumulatorHigh(m: Machine): (o: Outcome)
    requires WellSized(m.bus)
    ensures WellSized(o.after.bus) && o.after.ime == m.ime && o.after.halted == m.halted
  {
    var (n, m1) := Fetch8(m);
    Outcome(m1.(regs := m1.regs.(a := Load(m1.bus, 0xFF00 + n as bv16))), 12)
  }

  /** LDH [n], A. */
  function StoreAccumulatorHigh(m: Machine): (o: Outcome)
    requires WellSized(m.bus)
    ensures WellSized(o.after.bus) && o.after.ime == m.ime && o.after.halted == m.halted
  {
    var (n, m1) := Fetch8(m);
    Outcome(WriteAt(m1, 0xFF00 + n as bv16, m.regs.a), 12)
  }

  function LoadAccumulator(m: Machine, op: Opcode): (o: Outcome)
    requires WellSized(m.bus) && IsLoadAccumulator(op.value)
    ensures WellSized(o.after.bus) && o.after.ime == m.ime && o.after.halted == m.halted
  {
    var v := op.value;
    var r := m.regs;
    if v == 0x0A then LoadAccumulatorFrom(m, Bc(r))
    else if v == 0x1A then LoadAccumulatorFrom(m, De(r))
    else if v == 0x02 then StoreAccumulatorTo(m, Bc(r))
    else if v == 0x12 then StoreAccumulatorTo(m, De(r))
    else if v == 0xFA then LoadAccumulatorDirect(m)
    else if v == 0xEA then StoreAccumulatorDirect(m)
    else if v == 0xF2 then LoadAccumulatorFrom(m, 0xFF00 + r.c as bv16)
    else if v == 0xE2 then StoreAccumulatorTo(m, 0xFF00 + r.c as bv16)
    else if v == 0xF0 then LoadAccumulatorHigh(m)
    else StoreAccumulatorHigh(m)
  }

  // ---- 16-bit loads ----

  /** LD rr, nn, where index 3 names SP. */
  function LoadPairImmediate(m: Machine, op: Opcode): (o: Outcome)
    requires WellSized(m.bus)
    ensures WellSized(o.after.bus) && o.after.ime == m.ime && o.after.halted == m.halted
  {
    var (nn, m1) := Fetch16(m);
    Outcome(m1.(regs := Put16WithSp(m1.regs, op.Rr(), nn)), 12)
  }

  /** LD [nn], SP: SP stored as a little-endian word. */
  function StoreStackPointer(m: Machine): (o: Outcome)
    requires WellSized(m.bus)
    ensures WellSized(o.after.bus) && o.after.ime == m.ime && o.after.halted == m.halted
  {
    var (nn, m1) := Fetch16(m);
    Outcome(m1.(bus := Store16(m1.bus, nn, m.regs.sp)), 20)
  }

  /** LD HL, SP+n: the sum and flags of `add16_with_signed_byte_operand`, into HL. */
  function LoadHlStackOffset(m: Machine): (o: Outcome)
    requires WellSized(m.bus)
    ensures WellSized(o.after.bus) && o.after.ime == m.ime && o.after.halted == m.halted
  {
    var (n, m1) := Fetch8(m);
    var (sum, f) := Add16WithSignedByteOperand(m.regs.flags, m.regs.sp, n);
    Outcome(m1.(regs := PutHl(m1.regs.(flags := f), sum)), 12)
  }

  /** PUSH rr, where index 3 names AF. */
  function PushPair(m: Machine, op: Opcode): (o: Outcome)
    requires WellSized(m.bus)
    ensures WellSized(o.after.bus) && o.after.ime == m.ime && o.after.halted == m.halted
  {
    Outcome(Push(m, Get16WithAf(m.regs, op.Rr())), 16)
  }

  /** POP rr, where index 3 names AF (whose low four flag bits are cleared). */
  function PopPair(m: Machine, op: Opcode): (o: Outcome)
    requires WellSized(m.bus)
    ensures WellSized(o.after.bus) && o.after.ime == m.ime && o.after.halted == m.halted
  {
    var (value, m1) := Pop(m);
    Outcome(m1.(regs := Put16WithAf(m1.regs, op.Rr(), value)), 12)
  }

  function Load16(m: Machine, op: Opcode): (o: Outcome)
    requires WellSized(m.bus) && IsLoad16(op.value)
    ensures WellSized(o.after.bus) && o.after.ime == m.ime && o.after.halted == m.halted
  {
    var v := op.value;
    if IsLoadPairImmediate(v) then LoadPairImmediate(m, op)
    else if v == 0x08 then StoreStackPointer(m)
    else if v == 0xF8 then LoadHlStackOffset(m)
    else if v == 0xF9 then Outcome(m.(regs := m.regs.(sp := Hl(m.regs))), 8)
    else if IsPush(v) then PushPair(m, op)
    else PopPair(m, op)
  }

  // ---- 8-bit arithmetic and logic ----

  /**
   * The operation bits 3..5 select in the 0x80..0xBF block and among the immediate forms:
   * ADD, ADC, SUB, SBC, AND, XOR, OR, CP. CP is SUB with its result dropped.
   */
  function AluOperation(kind: bv8, f: Flags, a: bv8, x: bv8): (r: (bv8, Flags))
    requires kind < 8
  {
    match kind
    case 0 => Add8(f, a, x)
    case 1 => Adc8(f, a, x)
    case 2 => Sub8(f, a, x)
    case 3 => Sbc8(f, a, x)
    case 4 => BitwiseAnd(f, a, x)
    case 5 => BitwiseXor(f, a, x)
    case 6 => BitwiseOr(f, a, x)
    case 7 => (a, Sub8(f, a, x).1)
  }

  function Alu8(m: Machine, op: Opcode): (o: Outcome)
    requires WellSized(m.bus) && IsAlu8(op.value)
    ensures WellSized(o.after.bus)
    ensures o.after.ime == m.ime && o.after.halted == m.halted
  {
    var v := op.value;
    var r := m.regs;
    if IsAluRegister(v) then
      var (result, f) := AluOperation(op.Xxx(), r.flags, r.a, Get8(r, op.Yyy()));
      Outcome(m.(regs := r.(a := result, flags := f)), 4)
    else if IsAluFromHl(v) then
      var (result, f) := AluOperation(op.Xxx(), r.flags, r.a, Load(m.bus, Hl(r)));
      Outcome(m.(regs := r.(a := result, flags := f)), 8)
    else
      var (x, m1) := Fetch8(m);
      var (result, f) := AluOperation(op.Xxx(), r.flags, r.a, x);
      Outcome(m1.(regs := m1.regs.(a := result, flags := f)), 8)
  }

  function Unary8(m: Machine, op: Opcode): (o: Outcome)
    requires WellSized(m.bus) && IsUnary8(op.value)
    ensures WellSized(o.after.bus)
    ensures o.after.ime == m.ime && o.after.halted == m.halted
  {
    var v := op.value;
    var r := m.regs;
    if IsIncRegister(v) then
      Outcome(UpdateRegister(m, op.Xxx(), Inc), 4)
    else if v == 0x34 then
      Outcome(UpdateAtHl(m, Inc), 12)
    else if IsDecRegister(v) then
      Outcome(UpdateRegister(m, op.Xxx(), Dec), 4)
    else if v == 0x35 then
      Outcome(UpdateAtHl(m, Dec), 12)
    else if v == 0x27 then
      var (result, f) := Daa(r.flags, r.a);
      Outcome(m.(regs := r.(a := result, flags := f)), 4)
    else
      var (result, f) := BitwiseNot(r.flags, r.a);
      Outcome(m.(regs := r.(a := result, flags := f)), 4)
  }

  // ---- 16-bit arithmetic ----

  function Alu16(m: Machine, op: Opcode): (o: Outcome)
    requires WellSized(m.bus) && IsAlu16(op.value)
    ensures WellSized(o.after.bus)
    ensures o.after.ime == m.ime && o.after.halted == m.halted
  {
    var v := op.value;
    var r := m.regs;
    if IsAddHl(v) then
      var (sum, f) := Add16(r.flags, Hl(r), Get16WithSp(r, op.Rr()));
      Outcome(m.(regs := PutHl(r.(flags := f), sum)), 8)
    else if IsIncPair(v) then
      Outcome(m.(regs := Put16WithSp(r, op.Rr(), Inc16(Get16WithSp(r, op.Rr())))), 8)
    else if IsDecPair(v) then
      Outcome(m.(regs := Put16WithSp(r, op.Rr(), Dec16(Get16WithSp(r, op.Rr())))), 8)
    else
      var (n, m1) := Fetch8(m);
      var (sum, f) := Add16WithSignedByteOperand(r.flags, r.sp, n);
      Outcome(m1.(regs := m1.regs.(sp := sum, flags := f)), 16)
  }

  // ---- rotates of A ----

  /** The rotate each of RLCA, RLA, RRCA and RRA performs on A. */
  function RotateAOperation(v: bv8): ByteOperation
    requires IsRotateA(v)
  {
    if v == 0x07 then Rlc else if v == 0x17 then Rl else if v == 0x0F then Rrc else Rr
  }

  /** The rotate on A, after which the zero flag is cleared whatever the result. */
  function RotateA(m: Machine, op: Opcode): (o: Outcome)
    requires WellSized(m.bus) && IsRotateA(op.value)
    ensures WellSized(o.after.bus)
    ensures o.after.ime == m.ime && o.after.halted == m.halted
  {
    var r := m.regs;
    var (result, f) := Apply(RotateAOperation(op.value), r.flags, r.a);
    Outcome(m.(regs := r.(a := result, flags := f.SetZero(false))), 4)
  }

  // ---- jumps, calls and returns ----

  /** JR's target: `((pc as u32 as i32) + (n as i8 as i32)) as u16`, which wraps modulo 2^16. */
  function RelativeTarget(pc: bv16, n: bv8): bv16 {
    pc + SignExtend(n)
  }

  /** JR moves PC forward by offsets below 0x80 and back by 256 - n for the others, wrapping at 16 bits. */
  lemma RelativeTargetIsSignedOffset(pc: bv16, n: bv8)
    ensures n < 0x80 ==> RelativeTarget(pc, n) == pc + n as bv16
    ensures n >= 0x80 ==> RelativeTarget(pc, n) == pc - (0x100 - n as bv16)
  {
    var wide := n as bv16;
    if n >= 0x80 {
      assert SignExtend(n) == wide | 0xFF00;
      assert wide < 0x100;
      assert wide | 0xFF00 == wide + 0xFF00;
    }
  }

  /** JP nn. */
  function JumpAbsolute(m: Machine): (o: Outcome)
    requires WellSized(m.bus)
    ensures WellSized(o.after.bus) && o.after.ime == m.ime && o.after.halted == m.halted
  {
    var (nn, m1) := Fetch16(m);
    Outcome(m1.(regs := m1.regs.(pc := nn)), 16)
  }

  /** JP cc, nn: the address is always fetched; the jump is taken when the condition holds. */
  function JumpConditional(m: Machine, op: Opcode): (o: Outcome)
    requires WellSized(m.bus)
    ensures WellSized(o.after.bus) && o.after.ime == m.ime && o.after.halted == m.halted
  {
    var (nn, m1) := Fetch16(m);
    if Condition(m1.regs.flags, op.Ff()) then Outcome(m1.(regs := m1.regs.(pc := nn)), 16)
    else Outcome(m1, 12)
  }

  /** JR n: PC, already past the offset, moved by the offset read as signed. */
  function JumpRelative(m: Machine): (o: Outcome)
    requires WellSized(m.bus)
    ensures WellSized(o.after.bus) && o.after.ime == m.ime && o.after.halted == m.halted
  {
    var (n, m1) := Fetch8(m);
    Outcome(m1.(regs := m1.regs.(pc := RelativeTarget(m1.regs.pc, n))), 12)
  }

  /** JR cc, n. */
  function JumpRelativeConditional(m: Machine, op: Opcode): (o: Outcome)
    requires WellSized(m.bus)
    ensures WellSized(o.after.bus) && o.after.ime == m.ime && o.after.halted == m.halted
  {
    var (n, m1) := Fetch8(m);
    if Condition(m1.regs.flags, op.Ff()) then
      Outcome(m1.(regs := m1.regs.(pc := RelativeTarget(m1.regs.pc, n))), 12)
    else Outcome(m1, 8)
  }

  /** CALL nn: the address of the next instruction pushed, then the jump. */
  function Call(m: Machine): (o: Outcome)
    requires WellSized(m.bus)
    ensures WellSized(o.after.bus) && o.after.ime == m.ime && o.after.halted == m.halted
  {
    var (nn, m1) := Fetch16(m);
    var m2 := Push(m1, m1.regs.pc);
    Outcome(m2.(regs := m2.regs.(pc := nn)), 24)
  }

  /** CALL cc, nn. */
  function CallConditional(m: Machine, op: Opcode): (o: Outcome)
    requires WellSized(m.bus)
    ensures WellSized(o.after.bus) && o.after.ime == m.ime && o.after.halted == m.halted
  {
    var (nn, m1) := Fetch16(m);
    if Condition(m1.regs.flags, op.Ff()) then
      var m2 := Push(m1, m1.regs.pc);
      Outcome(m2.(regs := m2.regs.(pc := nn)), 24)
    else Outcome(m1, 12)
  }

  function Jump(m: Machine, op: Opcode): (o: Outcome)
    requires WellSized(m.bus) && IsJump(op.value)
    ensures WellSized(o.after.bus) && o.after.ime == m.ime && o.after.halted == m.halted
  {
    var v := op.value;
    if v == 0xC3 then JumpAbsolute(m)
    else if v == 0xE9 then Outcome(m.(regs := m.regs.(pc := Hl(m.regs))), 4)
    else if IsJumpConditional(v) then JumpConditional(m, op)
    else if v == 0x18 then JumpRelative(m)
    else if IsJumpRelativeConditional(v) then JumpRelativeConditional(m, op)
    else if v == 0xCD then Call(m)
    else CallConditional(m, op)
  }

  function Return(m: Machine, op: Opcode): (o: Outcome)
    requires WellSized(m.bus) && IsReturn(op.value)
    ensures WellSized(o.after.bus)
    ensures o.after.halted == m.halted
    ensures op.value != 0xD9 ==> o.after.ime == m.ime
  {
    var v := op.value;
    if v == 0xC9 then
      var (addr, m1) := Pop(m);
      Outcome(m1.(regs := m1.regs.(pc := addr)), 16)
    else if IsReturnConditional(v) then
      if Condition(m.regs.flags, op.Ff()) then
        var (addr, m1) := Pop(m);
        Outcome(m1.(regs := m1.regs.(pc := addr)), 20)
      else Outcome(m, 8)
    else if v == 0xD9 then
      var (addr, m1) := Pop(m);
      Outcome(m1.(regs := m1.regs.(pc := addr), ime := m1.ime.(enableIn := Some(0))), 16)
    else
      var m1 := Push(m, m.regs.pc);
      Outcome(m1.(regs := m1.regs.(pc := (v - 0xC7) as bv16)), 16)
  }

  // ---- processor control ----

  function Control(m: Machine, op: Opcode): (o: Outcome)
    requires WellSized(m.bus) && IsControl(op.value)
    ensures WellSized(o.after.bus)
    ensures op.value != 0xF3 && op.value != 0xFB ==> o.after.ime == m.ime
    ensures op.value != 0x76 && op.value != 0x10 ==> o.after.halted == m.halted
  {
    var v := op.value;
    var r := m.regs;
    if v == 0x3F then
      Outcome(m.(regs := r.(flags := r.flags.SetSubtraction(false).SetHalfCarry(false).ToggleCarry())), 4)
    else if v == 0x37 then
      Outcome(m.(regs := r.(flags := r.flags.SetSubtraction(false).SetHalfCarry(false).SetCarry(true))), 4)
    else if v == 0x00 then
      Outcome(m, 4)
    else if v == 0x76 then
      Outcome(m.(halted := true), 4)
    else if v == 0x10 then
      var (n, m1) := Fetch8(m);
      var m2 := if n != 0 then m1.(regs := m1.regs.(pc := m1.regs.pc - 1)) else m1;
      Outcome(m2.(halted := true), 4)
    else if v == 0xF3 then
      Outcome(m.(ime := m.ime.(disableIn := Some(1))), 4)
    else
      Outcome(m.(ime := m.ime.(enableIn := Some(1))), 4)
  }

  // ---- the 0xCB table ----

  /** The rotate, shift or swap that bits 3..5 of a 0xCB-prefixed opcode below 0x40 select. */
  function ShiftOperation(kind: bv8): ByteOperation
    requires kind < 8
  {
    match kind
    case 0 => Rlc
    case 1 => Rrc
    case 2 => Rl
    case 3 => Rr
    case 4 => Sla
    case 5 => Sra
    case 6 => Swap
    case 7 => Srl
  }

  /**
   * `execute_cb`: 0x00..0x3F rotate, shift or swap, 0x40..0x7F test a bit (BIT), 0x80..0xBF
   * clear one (RES) and 0xC0..0xFF set one (SET). Bits 0..2 name the register, 6 meaning the
   * byte at HL; bits 3..5 name the operation or the bit.
   */
  function ExecuteCb(m: Machine, op: Opcode): (o: Outcome)
    requires WellSized(m.bus)
    ensures WellSized(o.after.bus)
    ensures o.after.ime == m.ime && o.after.halted == m.halted
  {
    var v := op.value;
    var r := m.regs;
    var target := op.Yyy();
    if v < 0x40 then
      if target == 6 then Outcome(UpdateAtHl(m, ShiftOperation(op.Xxx())), 16)
      else Outcome(UpdateRegister(m, target, ShiftOperation(op.Xxx())), 8)
    else if v < 0x80 then
      if target == 6 then Outcome(m.(regs := r.(flags := TestBit(r.flags, Load(m.bus, Hl(r)), op.Xxx()))), 12)
      else Outcome(m.(regs := r.(flags := TestBit(r.flags, Get8(r, target), op.Xxx()))), 8)
    else
      var setTo := v >= 0xC0;
      if target == 6 then Outcome(WriteAt(m, Hl(r), ModifyBit(Load(m.bus, Hl(r)), op.Xxx(), setTo)), 16)
      else Outcome(m.(regs := Put8(r, target, ModifyBit(Get8(r, target), op.Xxx(), setTo))), 8)
  }

  // ---- the main table ----

  /**
   * `execute`: the machine after the instruction whose opcode byte has just been fetched, and
   * the cycles it took. After 0xCB the next byte is fetched and looked up in the second table;
   * the undefined opcodes do nothing and take 4 cycles.
   */
  function Execute(m: Machine, op: Opcode): (o: Outcome)
    requires WellSized(m.bus)
    ensures WellSized(o.after.bus)
    ensures op.value != 0xD9 && op.value != 0xF3 && op.value != 0xFB ==> o.after.ime == m.ime
    ensures op.value != 0x76 && op.value != 0x10 ==> o.after.halted == m.halted
  {
    var v := op.value;
    if IsLoad8(v) then Load8(m, op)
    else if IsLoadAccumulator(v) then LoadAccumulator(m, op)
    else if IsLoad16(v) then Load16(m, op)
    else if IsAlu8(v) then Alu8(m, op)
    else if IsUnary8(v) then Unary8(m, op)
    else if IsAlu16(v) then Alu16(m, op)
    else if IsRotateA(v) then RotateA(m, op)
    else if IsJump(v) then Jump(m, op)
    else if IsReturn(v) then Return(m, op)
    else if IsControl(v) then Control(m, op)
    else if v == 0xCB then
      var (suffix, m1) := Fetch8(m);
      ExecuteCb(m1, Opcode(suffix))
    else Outcome(m, 4)
  }

  /** HALT only sets the halted flag; it takes 4 cycles. */
  lemma ExecuteHalt(m: Machine)
    requires WellSized(m.bus)
    ensures Execute(m, Opcode(0x76)) == Outcome(m.(halted := true), 4)
  {
    assert !IsLoad8(0x76) && !IsLoadAccumulator(0x76) && !IsLoad16(0x76) && !IsAlu8(0x76);
    assert !IsUnary8(0x76) && !IsAlu16(0x76) && !IsRotateA(0x76) && !IsJump(0x76) && !IsReturn(0x76);
  }

  /** EI schedules IME on with a delay of one step and changes nothing else; 4 cycles. */
  lemma ExecuteEnableInterrupts(m: Machine)
    requires WellSized(m.bus)
    ensures Execute(m, Opcode(0xFB)) == Outcome(m.(ime := m.ime.(enableIn := Some(1))), 4)
  {
    assert !IsLoad8(0xFB) && !IsLoadAccumulator(0xFB) && !IsLoad16(0xFB) && !IsAlu8(0xFB);
    assert !IsUnary8(0xFB) && !IsAlu16(0xFB) && !IsRotateA(0xFB) && !IsJump(0xFB) && !IsReturn(0xFB);
  }

  /** DI schedules IME off with a delay of one step and changes nothing else; 4 cycles. */
  lemma ExecuteDisableInterrupts(m: Machine)
    requires WellSized(m.bus)
    ensures Execute(m, Opcode(0xF3)) == Outcome(m.(ime := m.ime.(disableIn := Some(1))), 4)
  {
    assert !IsLoad8(0xF3) && !IsLoadAccumulator(0xF3) && !IsLoad16(0xF3) && !IsAlu8(0xF3);
    assert !IsUnary8(0xF3) && !IsAlu16(0xF3) && !IsRotateA(0xF3) && !IsJump(0xF3) && !IsReturn(0xF3);
  }
}
