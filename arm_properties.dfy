/**
 * What the individual arms of `execute` and `execute_cb` do, each stated in terms of the
 * registers and the bus before the instruction: which register or byte receives what, what
 * PC and the clock do, and that nothing else changes.
 */
module ArmProperties {
  import opened Bits
  import opened Registers
  import opened CpuBus
  import opened Alu
  import opened Opcode
  import opened CpuState
  import E = Execute
  import D = Decimal

  // ---- 8-bit loads ----

  /** LD r, n: the byte after the opcode lands in r; only r and PC change; 8 cycles. */
  lemma LoadImmediateReadsOperand(m: Machine, op: Opcode)
    requires WellSized(m.bus) && E.IsLoadImmediate(op.value)
    ensures op.Xxx() != 6
    ensures var o := E.LoadImmediate(m, op);
            && Get8(o.after.regs, op.Xxx()) == Load(m.bus, m.regs.pc)
            && (forall j: bv8 :: j < 8 && j != op.Xxx() ==> Get8(o.after.regs, j) == Get8(m.regs, j))
            && o.after.regs.sp == m.regs.sp && o.after.regs.pc == m.regs.pc + 1
            && o.after.bus == m.bus && o.cycles == 8
  {
  }

  /** LD r, [HL]: the byte at HL lands in r; PC, SP and the bus are untouched; 8 cycles. */
  lemma LoadFromHlReadsMemory(m: Machine, op: Opcode)
    requires WellSized(m.bus) && E.IsLoadFromHl(op.value)
    ensures op.Xxx() != 6
    ensures var o := E.LoadFromHl(m, op);
            && Get8(o.after.regs, op.Xxx()) == Load(m.bus, Hl(m.regs))
            && (forall j: bv8 :: j < 8 && j != op.Xxx() ==> Get8(o.after.regs, j) == Get8(m.regs, j))
            && o.after.regs.sp == m.regs.sp && o.after.regs.pc == m.regs.pc
            && o.after.bus == m.bus && o.cycles == 8
  {
  }

  /** LD [HL], r: r is written at HL and nowhere else; the registers are untouched; 8 cycles. */
  lemma StoreToHlWritesRegister(m: Machine, op: Opcode, other: bv16)
    requires WellSized(m.bus) && E.IsStoreToHl(op.value)
    ensures op.Yyy() != 6
    ensures var o := E.StoreToHl(m, op);
            && Load(o.after.bus, Hl(m.regs)) == Get8(m.regs, op.Yyy())
            && (other != Hl(m.regs) ==> Load(o.after.bus, other) == Load(m.bus, other))
            && o.after.regs == m.regs && o.cycles == 8
  {
    LoadAfterStore(m.bus, Hl(m.regs), Get8(m.regs, op.Yyy()), other);
  }

  /** LD [HL], n: the byte after the opcode is written at HL; PC moves past it; 12 cycles. */
  lemma StoreImmediateToHlWritesOperand(m: Machine, other: bv16)
    requires WellSized(m.bus)
    ensures var o := E.StoreImmediateToHl(m);
            && Load(o.after.bus, Hl(m.regs)) == Load(m.bus, m.regs.pc)
            && (other != Hl(m.regs) ==> Load(o.after.bus, other) == Load(m.bus, other))
            && o.after.regs == m.regs.(pc := m.regs.pc + 1) && o.cycles == 12
  {
    LoadAfterStore(m.bus, Hl(m.regs), Load(m.bus, m.regs.pc), other);
  }

  /**
   * LD A, [HL-] and LD A, [HL+]: A receives the byte at HL, then HL moves one down or one up
   * (wrapping); the bus and every other register are unchanged; 8 cycles.
   */
  lemma LoadAccumulatorSteppingReads(m: Machine, down: bool)
    requires WellSized(m.bus)
    ensures var o := E.LoadAccumulatorStepping(m, down);
            var hl := Hl(m.regs);
            && o.after.regs.a == Load(m.bus, hl)
            && (if down then Hl(o.after.regs) == hl - 1 else Hl(o.after.regs) == hl + 1)
            && o.after.regs.(a := m.regs.a, h := m.regs.h, l := m.regs.l) == m.regs
            && o.after.bus == m.bus && o.cycles == 8
  {
  }

  /**
   * LD [HL-], A and LD [HL+], A: A is written at HL and nowhere else, then HL moves one down or
   * one up (wrapping); no other register changes; 8 cycles.
   */
  lemma StoreAccumulatorSteppingWrites(m: Machine, down: bool, other: bv16)
    requires WellSized(m.bus)
    ensures var o := E.StoreAccumulatorStepping(m, down);
            var hl := Hl(m.regs);
            && Load(o.after.bus, hl) == m.regs.a
            && (other != hl ==> Load(o.after.bus, other) == Load(m.bus, other))
            && o.cycles == 8
  {
    LoadAfterStore(m.bus, Hl(m.regs), m.regs.a, other);
  }

  /** The same stores step HL one down or one up (wrapping) and change no other register. */
  lemma StoreAccumulatorSteppingMovesHl(m: Machine, down: bool)
    requires WellSized(m.bus)
    ensures var o := E.StoreAccumulatorStepping(m, down);
            var hl := Hl(m.regs);
            && (if down then Hl(o.after.regs) == hl - 1 else Hl(o.after.regs) == hl + 1)
            && o.after.regs.(h := m.regs.h, l := m.regs.l) == m.regs
  {
  }

  /** LDH A, [n]: A receives the byte at 0xFF00 + n, n being the byte after the opcode; 12 cycles. */
  lemma LoadAccumulatorHighReads(m: Machine)
    requires WellSized(m.bus)
    ensures var o := E.LoadAccumulatorHigh(m);
            var addr := 0xFF00 + Load(m.bus, m.regs.pc) as bv16;
            && addr >= 0xFF00
            && o.after.regs == m.regs.(a := Load(m.bus, addr), pc := m.regs.pc + 1)
            && o.after.bus == m.bus && o.cycles == 12
  {
  }

  /**
   * LDH [n], A: A is written at 0xFF00 + n and nowhere else, so a following LDH A, [n] with the
   * same n reads it back; PC moves past n; 12 cycles.
   */
  lemma StoreAccumulatorHighWrites(m: Machine, other: bv16)
    requires WellSized(m.bus)
    ensures var o := E.StoreAccumulatorHigh(m);
            var addr := 0xFF00 + Load(m.bus, m.regs.pc) as bv16;
            && Load(o.after.bus, addr) == m.regs.a
            && (other != addr ==> Load(o.after.bus, other) == Load(m.bus, other))
            && o.after.regs == m.regs.(pc := m.regs.pc + 1) && o.cycles == 12
  {
    LoadAfterStore(m.bus, 0xFF00 + Load(m.bus, m.regs.pc) as bv16, m.regs.a, other);
  }

  /** LD A, [nn]: A receives the byte at the word after the opcode; PC moves past it; 16 cycles. */
  lemma LoadAccumulatorDirectReads(m: Machine)
    requires WellSized(m.bus)
    ensures var o := E.LoadAccumulatorDirect(m);
            && o.after.regs == m.regs.(a := Load(m.bus, Load16(m.bus, m.regs.pc)), pc := m.regs.pc + 2)
            && o.after.bus == m.bus && o.cycles == 16
  {
  }

  /** LD [nn], A: A is written at the word after the opcode and nowhere else; 16 cycles. */
  lemma StoreAccumulatorDirectWrites(m: Machine, other: bv16)
    requires WellSized(m.bus)
    ensures var o := E.StoreAccumulatorDirect(m);
            var nn := Load16(m.bus, m.regs.pc);
            && Load(o.after.bus, nn) == m.regs.a
            && (other != nn ==> Load(o.after.bus, other) == Load(m.bus, other))
            && o.after.regs == m.regs.(pc := m.regs.pc + 2) && o.cycles == 16
  {
    LoadAfterStore(m.bus, Load16(m.bus, m.regs.pc), m.regs.a, other);
  }

  // ---- 16-bit loads ----

  /** LD rr, nn: the word after the opcode lands in BC, DE, HL or SP; PC moves past it; 12 cycles. */
  lemma LoadPairImmediateReadsOperand(m: Machine, op: Opcode)
    requires WellSized(m.bus) && E.IsLoadPairImmediate(op.value)
    ensures op.Rr() < 4
    ensures var o := E.LoadPairImmediate(m, op);
            && Get16WithSp(o.after.regs, op.Rr()) == Load16(m.bus, m.regs.pc)
            && o.after.regs.pc == m.regs.pc + 2
            && o.after.regs.a == m.regs.a && o.after.regs.flags == m.regs.flags
            && o.after.bus == m.bus && o.cycles == 12
  {
  }

  /**
   * LD [nn], SP: SP is written as a little-endian word at the address after the opcode, and
   * only those two bytes change; 20 cycles.
   */
  lemma StoreStackPointerWrites(m: Machine, other: bv16)
    requires WellSized(m.bus)
    ensures var o := E.StoreStackPointer(m);
            var nn := Load16(m.bus, m.regs.pc);
            && Load16(o.after.bus, nn) == m.regs.sp
            && (other != nn && other != nn + 1 ==> Load(o.after.bus, other) == Load(m.bus, other))
            && o.after.regs == m.regs.(pc := m.regs.pc + 2) && o.cycles == 20
  {
    Load16AfterStore16(m.bus, Load16(m.bus, m.regs.pc), m.regs.sp, other);
  }

  /**
   * LD HL, SP+n: HL receives SP plus the signed byte after the opcode, SP itself is kept, Z and
   * N are cleared; 12 cycles.
   */
  lemma LoadHlStackOffsetAdds(m: Machine)
    requires WellSized(m.bus)
    ensures var o := E.LoadHlStackOffset(m);
            && Hl(o.after.regs) == m.regs.sp + SignExtend(Load(m.bus, m.regs.pc))
            && o.after.regs.sp == m.regs.sp && o.after.regs.pc == m.regs.pc + 1
            && !o.after.regs.flags.Zero() && !o.after.regs.flags.Subtraction()
            && o.after.bus == m.bus && o.cycles == 12
  {
  }

  /** LD SP, HL: SP receives HL and nothing else changes; 8 cycles. */
  lemma LoadStackPointerFromHl(m: Machine, op: Opcode)
    requires WellSized(m.bus) && op.value == 0xF9
    ensures E.IsLoad16(op.value)
    ensures var o := E.Load16(m, op);
            o.after == m.(regs := m.regs.(sp := Hl(m.regs))) && o.cycles == 8
  {
  }

  // ---- 16-bit arithmetic ----

  /** ADD HL, rr: HL receives HL + rr (wrapping), Z is kept and N cleared; 8 cycles. */
  lemma AddHlAddsPair(m: Machine, op: Opcode)
    requires WellSized(m.bus) && E.IsAddHl(op.value)
    ensures op.Rr() < 4 && E.IsAlu16(op.value)
    ensures var o := E.Alu16(m, op);
            && Hl(o.after.regs) == Hl(m.regs) + Get16WithSp(m.regs, op.Rr())
            && o.after.regs.flags.Zero() == m.regs.flags.Zero() && !o.after.regs.flags.Subtraction()
            && (o.after.regs.flags.Carry() <==> Hl(o.after.regs) < Hl(m.regs))
            && o.after.regs.(flags := m.regs.flags, h := m.regs.h, l := m.regs.l) == m.regs
            && o.after.bus == m.bus && o.cycles == 8
  {
  }

  /** INC rr followed by DEC rr on the same pair gives every register back; 16 cycles in all. */
  lemma IncThenDecPair(m: Machine, inc: Opcode, dec: Opcode)
    requires WellSized(m.bus) && E.IsIncPair(inc.value) && E.IsDecPair(dec.value)
    requires inc.Rr() == dec.Rr()
    ensures E.IsAlu16(inc.value) && E.IsAlu16(dec.value)
    ensures var i := E.Alu16(m, inc);
            var d := E.Alu16(i.after, dec);
            d.after == m && i.cycles + d.cycles == 16
  {
    var i := E.Alu16(m, inc);
    var x := Get16WithSp(m.regs, inc.Rr());
    IncDec16Inverse(x);
    assert Get16WithSp(i.after.regs, dec.Rr()) == Inc16(x);
    PairRestored(m.regs, i.after.regs, E.Alu16(i.after, dec).after.regs, inc.Rr(), Inc16(x), x);
  }

  /**
   * Writing one pair, then writing it again with its original value, gives the registers back:
   * the 16-bit accessors by index touch exactly the two bytes they name.
   */
  lemma PairRestored(r: RegisterFile, s: RegisterFile, t: RegisterFile, index: bv8, y: bv16, x: bv16)
    requires index < 4 && Get16WithSp(r, index) == x
    requires s == Put16WithSp(r, index, y) && t == Put16WithSp(s, index, x)
    ensures t == r
  {
    if index == 0 {
      BytesRoundTrip(x, r.b, r.c);
    } else if index == 1 {
      BytesRoundTrip(x, r.d, r.e);
    } else if index == 2 {
      BytesRoundTrip(x, r.h, r.l);
    }
  }

  /** ADD SP, n: SP receives SP plus the signed byte after the opcode; Z and N cleared; 16 cycles. */
  lemma AddStackPointerSigned(m: Machine, op: Opcode)
    requires WellSized(m.bus) && op.value == 0xE8
    ensures E.IsAlu16(op.value)
    ensures var o := E.Alu16(m, op);
            && o.after.regs.sp == m.regs.sp + SignExtend(Load(m.bus, m.regs.pc))
            && o.after.regs.pc == m.regs.pc + 1
            && !o.after.regs.flags.Zero() && !o.after.regs.flags.Subtraction()
            && o.after.regs.(sp := m.regs.sp, pc := m.regs.pc, flags := m.regs.flags) == m.regs
            && o.after.bus == m.bus && o.cycles == 16
  {
    assert !E.IsAddHl(op.value) && !E.IsIncPair(op.value) && !E.IsDecPair(op.value);
    var n := Load(m.bus, m.regs.pc);
    var (sum, f) := Add16WithSignedByteOperand(m.regs.flags, m.regs.sp, n);
    assert E.Alu16(m, op) == Outcome(m.(regs := m.regs.(pc := m.regs.pc + 1, sp := sum, flags := f)), 16);
  }

  // ---- 8-bit arithmetic on A ----

  /**
   * ADD A, n followed by DAA on two binary-coded decimal bytes leaves their decimal sum in A and
   * the decimal carry in C; PC ends past the operand and the pair takes 12 cycles.
   */
  lemma AddImmediateThenDecimalAdjust(m: Machine, add: Opcode, daa: Opcode)
    requires WellSized(m.bus) && add.value == 0xC6 && daa.value == 0x27
    requires D.IsBcd(m.regs.a) && D.IsBcd(Load(m.bus, m.regs.pc))
    ensures E.IsAlu8(add.value) && E.IsUnary8(daa.value)
    ensures var n := Load(m.bus, m.regs.pc);
            var s := E.Alu8(m, add);
            var d := E.Unary8(s.after, daa);
            && d.after.regs.a == D.BcdAdd(m.regs.a, n).0
            && d.after.regs.flags.Carry() == D.BcdAdd(m.regs.a, n).1
            && d.after.regs.(a := m.regs.a, flags := m.regs.flags, pc := m.regs.pc) == m.regs
            && d.after.regs.pc == m.regs.pc + 1 && d.after.bus == m.bus
            && s.cycles + d.cycles == 12
  {
    AddThenAdjustSteps(m, add, daa);
    DaaAfterAdd(m.regs.flags, m.regs.a, Load(m.bus, m.regs.pc));
  }

  /** The two outcomes behind `AddImmediateThenDecimalAdjust`, one arm at a time. */
  lemma AddThenAdjustSteps(m: Machine, add: Opcode, daa: Opcode)
    requires WellSized(m.bus) && add.value == 0xC6 && daa.value == 0x27
    ensures E.IsAlu8(add.value) && E.IsUnary8(daa.value)
    ensures var (sum, f) := Add8(m.regs.flags, m.regs.a, Load(m.bus, m.regs.pc));
            var m1 := m.(regs := m.regs.(pc := m.regs.pc + 1, a := sum, flags := f));
            && E.Alu8(m, add) == Outcome(m1, 8)
            && E.Unary8(m1, daa) == Outcome(m1.(regs := m1.regs.(a := Daa(f, sum).0, flags := Daa(f, sum).1)), 4)
  {
    assert add.Xxx() == 0;
    assert !E.IsIncRegister(daa.value) && !E.IsDecRegister(daa.value);
  }

  /** XOR A clears A and sets Z, clearing N, H and C, whatever A held; nothing else changes; 4 cycles. */
  lemma XorAccumulatorClears(m: Machine, op: Opcode)
    requires WellSized(m.bus) && op.value == 0xAF
    ensures E.IsAlu8(op.value)
    ensures var o := E.Alu8(m, op);
            && o.after.regs.a == 0 && o.after.regs.flags.Zero()
            && !o.after.regs.flags.Subtraction() && !o.after.regs.flags.HalfCarry() && !o.after.regs.flags.Carry()
            && o.after.regs.(a := m.regs.a, flags := m.regs.flags) == m.regs
            && o.after.bus == m.bus && o.cycles == 4
  {
    assert op.Xxx() == 5 && op.Yyy() == 7;
  }

  // ---- 8-bit increments, decrements, DAA and CPL ----

  /**
   * INC r followed by DEC r on the same register gives its value back and leaves every other
   * register (flags aside), SP, PC and the bus as they were; 4 cycles each.
   */
  lemma IncThenDecRegister(m: Machine, inc: Opcode, dec: Opcode)
    requires WellSized(m.bus) && E.IsIncRegister(inc.value) && E.IsDecRegister(dec.value)
    requires inc.Xxx() == dec.Xxx()
    ensures inc.Xxx() < 8 && inc.Xxx() != 6
    ensures E.IsUnary8(inc.value) && E.IsUnary8(dec.value)
    ensures var i := E.Unary8(m, inc);
            var d := E.Unary8(i.after, dec);
            && (forall j: bv8 :: j < 8 && j != 6 ==> Get8(d.after.regs, j) == Get8(m.regs, j))
            && d.after.regs.sp == m.regs.sp && d.after.regs.pc == m.regs.pc
            && d.after.bus == m.bus && i.cycles == 4 && d.cycles == 4
  {
    var x := inc.Xxx();
    assert !E.IsIncRegister(dec.value) && dec.value != 0x34;
    assert E.Unary8(m, inc) == Outcome(UpdateRegister(m, x, Inc), 4);
    var m1 := UpdateRegister(m, x, Inc);
    assert E.Unary8(m1, dec) == Outcome(UpdateRegister(m1, x, Dec), 4);
  }

  /** CPL twice gives A back; A is the only register besides the flags that changes. */
  lemma ComplementTwice(m: Machine, op: Opcode)
    requires WellSized(m.bus) && op.value == 0x2F
    ensures E.IsUnary8(op.value)
    ensures var c := E.Unary8(m, op);
            && c.after.regs.a as int == 255 - m.regs.a as int
            && c.after.regs.flags.Subtraction() && c.after.regs.flags.HalfCarry()
            && E.Unary8(c.after, op).after.regs.a == m.regs.a
            && c.after.regs.(a := m.regs.a, flags := m.regs.flags) == m.regs
  {
  }

  // ---- CPU control ----

  /** CCF flips C, clears N and H and keeps Z; SCF sets C likewise; both 4 cycles. */
  lemma CarryFlagInstructions(m: Machine, op: Opcode)
    requires WellSized(m.bus) && (op.value == 0x3F || op.value == 0x37)
    ensures E.IsControl(op.value)
    ensures var o := E.Control(m, op);
            var f := o.after.regs.flags;
            && f.Carry() == (if op.value == 0x3F then !m.regs.flags.Carry() else true)
            && !f.Subtraction() && !f.HalfCarry() && f.Zero() == m.regs.flags.Zero()
            && o.after.regs.(flags := m.regs.flags) == m.regs
            && o.after.bus == m.bus && o.cycles == 4
  {
  }

  /** STOP followed by a 0 byte halts and consumes that byte; 4 cycles. */
  lemma StopConsumesNullByte(m: Machine, op: Opcode)
    requires WellSized(m.bus) && op.value == 0x10 && Load(m.bus, m.regs.pc) == 0
    ensures E.IsControl(op.value)
    ensures var o := E.Control(m, op);
            && o.after == m.(regs := m.regs.(pc := m.regs.pc + 1), halted := true)
            && o.cycles == 4
  {
  }

  /**
   * STOP followed by any other byte halts too, but leaves PC on that byte so that it is
   * executed next; 4 cycles.
   */
  lemma StopLeavesOtherByte(m: Machine, op: Opcode)
    requires WellSized(m.bus) && op.value == 0x10 && Load(m.bus, m.regs.pc) != 0
    ensures E.IsControl(op.value)
    ensures var o := E.Control(m, op);
            o.after == m.(halted := true) && o.cycles == 4
  {
    assert m.regs.pc + 1 - 1 == m.regs.pc;
  }

  // ---- the 0xCB table ----

  /** SWAP r twice gives every register back except the flags; 8 cycles each. */
  lemma SwapRegisterTwice(m: Machine, op: Opcode)
    requires WellSized(m.bus) && 0x30 <= op.value <= 0x37 && op.value != 0x36
    ensures op.Yyy() != 6
    ensures var s := E.ExecuteCb(m, op);
            var t := E.ExecuteCb(s.after, op);
            && (forall j: bv8 :: j < 8 && j != 6 ==> Get8(t.after.regs, j) == Get8(m.regs, j))
            && (s.after.regs.flags.Zero() <==> Get8(m.regs, op.Yyy()) == 0)
            && t.after.regs.sp == m.regs.sp && t.after.regs.pc == m.regs.pc
            && t.after.bus == m.bus && s.cycles == 8 && t.cycles == 8
  {
    var s := E.ExecuteCb(m, op);
    assert op.Xxx() == 6;
    SwapInvolution(m.regs.flags, Get8(m.regs, op.Yyy()));
  }

  /**
   * SET b, [HL] and RES b, [HL]: bit b of the byte at HL becomes 1 or 0, its other bits and
   * every other byte are kept, the registers are untouched; 16 cycles.
   */
  lemma SetOrResetAtHl(m: Machine, op: Opcode, j: bv8, other: bv16)
    requires WellSized(m.bus) && op.value >= 0x80 && op.Yyy() == 6 && j < 8 && j != op.Xxx()
    ensures var o := E.ExecuteCb(m, op);
            var hl := Hl(m.regs);
            && GetBit(Load(o.after.bus, hl), op.Xxx()) == (op.value >= 0xC0)
            && GetBit(Load(o.after.bus, hl), j) == GetBit(Load(m.bus, hl), j)
            && (other != hl ==> Load(o.after.bus, other) == Load(m.bus, other))
            && o.after.regs == m.regs && o.cycles == 16
  {
    var hl := Hl(m.regs);
    var v := ModifyBit(Load(m.bus, hl), op.Xxx(), op.value >= 0xC0);
    LoadAfterStore(m.bus, hl, v, other);
    ModifyKeepsOtherBits(Load(m.bus, hl), op.Xxx(), op.value >= 0xC0, j);
  }

  /** BIT b, [HL]: Z is set exactly when bit b of the byte at HL is 0; nothing else but the flags changes; 12 cycles. */
  lemma TestBitAtHl(m: Machine, op: Opcode)
    requires WellSized(m.bus) && 0x40 <= op.value < 0x80 && op.Yyy() == 6
    ensures var o := E.ExecuteCb(m, op);
            && (o.after.regs.flags.Zero() <==> !GetBit(Load(m.bus, Hl(m.regs)), op.Xxx()))
            && o.after.regs.flags.Carry() == m.regs.flags.Carry()
            && o.after.regs.(flags := m.regs.flags) == m.regs
            && o.after.bus == m.bus && o.cycles == 12
  {
  }
}
