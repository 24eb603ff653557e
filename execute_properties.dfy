/**
 * What single instructions do, stated over `Execute` (the opcode byte already fetched, PC
 * pointing past it): the cycle counts of the conditional branches, where calls, returns and
 * restarts leave PC and SP, the round trips between them, and what the bit and compare
 * instructions leave in the flags.
 */
module ExecuteProperties {
  import opened Bits
  import opened Wrappers
  import opened Registers
  import opened CpuBus
  import opened Ime
  import opened Alu
  import opened Opcode
  import opened CpuState
  import E = Execute

  // ---- the opcode table ----

  /** A byte is undefined exactly when it is in no group of the table and is not the 0xCB prefix. */
  lemma UndefinedIsOutsideEveryGroup(v: bv8)
    ensures E.IsUndefined(v) <==>
      !(E.IsLoad8(v) || E.IsLoadAccumulator(v) || E.IsLoad16(v) || E.IsAlu8(v) || E.IsUnary8(v) || E.IsAlu16(v)
        || E.IsRotateA(v) || E.IsJump(v) || E.IsReturn(v) || E.IsControl(v) || v == 0xCB)
  {
  }

  /** An undefined opcode changes nothing and takes 4 cycles. */
  lemma UndefinedIsNoOperation(m: Machine, op: Opcode)
    requires WellSized(m.bus) && E.IsUndefined(op.value)
    ensures E.Execute(m, op) == Outcome(m, 4)
  {
    UndefinedIsOutsideEveryGroup(op.value);
  }

  // ---- conditional branches ----

  /** No jump, call, return or restart opcode is an 8-bit load. */
  lemma BranchIsNoLoad8(v: bv8)
    requires E.IsJump(v) || E.IsReturn(v)
    ensures !E.IsLoad8(v)
  {
  }

  /** No jump, call, return or restart opcode is a load of A. */
  lemma BranchIsNoLoadAccumulator(v: bv8)
    requires E.IsJump(v) || E.IsReturn(v)
    ensures !E.IsLoadAccumulator(v)
  {
  }

  /** No jump, call, return or restart opcode is a 16-bit load. */
  lemma BranchIsNoLoad16(v: bv8)
    requires E.IsJump(v) || E.IsReturn(v)
    ensures !E.IsLoad16(v)
  {
  }

  /** No jump, call, return or restart opcode is an 8-bit arithmetic or logic operation. */
  lemma BranchIsNoAlu8(v: bv8)
    requires E.IsJump(v) || E.IsReturn(v)
    ensures !E.IsAlu8(v)
  {
  }

  /** No jump, call, return or restart opcode is an increment, decrement, DAA or CPL. */
  lemma BranchIsNoUnary8(v: bv8)
    requires E.IsJump(v) || E.IsReturn(v)
    ensures !E.IsUnary8(v)
  {
  }

  /** No jump, call, return or restart opcode is a 16-bit arithmetic operation. */
  lemma BranchIsNoAlu16(v: bv8)
    requires E.IsJump(v) || E.IsReturn(v)
    ensures !E.IsAlu16(v)
  {
  }

  /** No jump, call, return or restart opcode is a rotate of A. */
  lemma BranchIsNoRotateA(v: bv8)
    requires E.IsJump(v) || E.IsReturn(v)
    ensures !E.IsRotateA(v)
  {
  }

  /** The jump group and the return group share no opcode. */
  lemma ReturnIsNoJump(v: bv8)
    requires E.IsReturn(v)
    ensures !E.IsJump(v)
  {
  }

  /** Every jump or call opcode is handled by the jump group. */
  lemma DispatchJump(m: Machine, op: Opcode)
    requires WellSized(m.bus) && E.IsJump(op.value)
    ensures E.Execute(m, op) == E.Jump(m, op)
  {
    BranchIsNoLoad8(op.value);
    BranchIsNoLoadAccumulator(op.value);
    BranchIsNoLoad16(op.value);
    BranchIsNoAlu8(op.value);
    BranchIsNoUnary8(op.value);
    BranchIsNoAlu16(op.value);
    BranchIsNoRotateA(op.value);
  }

  /** Every return or restart opcode is handled by the return group. */
  lemma DispatchReturn(m: Machine, op: Opcode)
    requires WellSized(m.bus) && E.IsReturn(op.value)
    ensures E.Execute(m, op) == E.Return(m, op)
  {
    BranchIsNoLoad8(op.value);
    BranchIsNoLoadAccumulator(op.value);
    BranchIsNoLoad16(op.value);
    BranchIsNoAlu8(op.value);
    BranchIsNoUnary8(op.value);
    BranchIsNoAlu16(op.value);
    BranchIsNoRotateA(op.value);
    ReturnIsNoJump(op.value);
  }

  /**
   * JP cc, nn: the address after the opcode is read either way; taken, PC becomes it after 16
   * cycles, otherwise PC only moves past it after 12. Nothing else changes.
   */
  lemma JumpConditionalCycles(m: Machine, op: Opcode)
    requires WellSized(m.bus) && E.IsJumpConditional(op.value)
    ensures var o := E.Execute(m, op);
            var taken := Condition(m.regs.flags, op.Ff());
            && o.cycles == (if taken then 16 else 12)
            && o.after == m.(regs := m.regs.(pc := if taken then Load16(m.bus, m.regs.pc) else m.regs.pc + 2))
  {
    DispatchJump(m, op);
  }

  /**
   * JR cc, n: taken, PC moves from past the offset byte by the offset read as signed, in 12
   * cycles; otherwise PC only moves past the offset byte, in 8.
   */
  lemma JumpRelativeConditionalCycles(m: Machine, op: Opcode)
    requires WellSized(m.bus) && E.IsJumpRelativeConditional(op.value)
    ensures var o := E.Execute(m, op);
            var taken := Condition(m.regs.flags, op.Ff());
            var next := m.regs.pc + 1;
            && o.cycles == (if taken then 12 else 8)
            && o.after == m.(regs := m.regs.(pc := if taken then E.RelativeTarget(next, Load(m.bus, m.regs.pc)) else next))
  {
    DispatchJump(m, op);
  }

  /** JR n: PC becomes the address past the offset moved by the offset read as signed, in 12 cycles. */
  lemma JumpRelativeMovesPc(m: Machine, op: Opcode)
    requires WellSized(m.bus) && op.value == 0x18
    ensures var next := m.regs.pc + 1;
            E.Execute(m, op) == Outcome(m.(regs := m.regs.(pc := E.RelativeTarget(next, Load(m.bus, m.regs.pc)))), 12)
  {
    DispatchJump(m, op);
  }

  /** JP nn: PC becomes the little-endian word after the opcode, in 16 cycles. */
  lemma JumpAbsoluteLoadsPc(m: Machine, op: Opcode)
    requires WellSized(m.bus) && op.value == 0xC3
    ensures E.Execute(m, op) == Outcome(m.(regs := m.regs.(pc := Load16(m.bus, m.regs.pc))), 16)
  {
    DispatchJump(m, op);
  }

  /** JP HL: PC becomes HL, in 4 cycles; nothing else changes. */
  lemma JumpToHl(m: Machine, op: Opcode)
    requires WellSized(m.bus) && op.value == 0xE9
    ensures E.Execute(m, op) == Outcome(m.(regs := m.regs.(pc := Hl(m.regs))), 4)
  {
    DispatchJump(m, op);
  }

  /**
   * CALL cc, nn: taken, the address of the next instruction is pushed (SP down by two) and PC
   * becomes nn, in 24 cycles; otherwise only PC moves past the operand, in 12.
   */
  lemma CallConditionalCycles(m: Machine, op: Opcode)
    requires WellSized(m.bus) && E.IsCallConditional(op.value)
    ensures var o := E.Execute(m, op);
            var taken := Condition(m.regs.flags, op.Ff());
            && o.cycles == (if taken then 24 else 12)
            && (taken ==> o.after.regs == m.regs.(sp := m.regs.sp - 2, pc := Load16(m.bus, m.regs.pc))
                          && Load16(o.after.bus, m.regs.sp - 2) == m.regs.pc + 2)
            && (!taken ==> o.after == m.(regs := m.regs.(pc := m.regs.pc + 2)))
  {
    DispatchJump(m, op);
    assert E.Execute(m, op) == E.CallConditional(m, op);
    CallPushesReturnAddress(m, op);
  }

  /** The CALL cc arm on its own: the pushed word reads back as the address after the operand. */
  lemma CallPushesReturnAddress(m: Machine, op: Opcode)
    requires WellSized(m.bus)
    ensures var o := E.CallConditional(m, op);
            Condition(m.regs.flags, op.Ff()) ==> Load16(o.after.bus, m.regs.sp - 2) == m.regs.pc + 2
  {
    if Condition(m.regs.flags, op.Ff()) {
      var m1 := m.(regs := m.regs.(pc := m.regs.pc + 2));
      PopReadsPushedWord(m1, m1.regs.pc);
    }
  }

  /**
   * RET cc: taken, PC is popped from the stack (SP up by two) in 20 cycles; otherwise nothing
   * changes and it takes 8.
   */
  lemma ReturnConditionalCycles(m: Machine, op: Opcode)
    requires WellSized(m.bus) && E.IsReturnConditional(op.value)
    ensures var o := E.Execute(m, op);
            var taken := Condition(m.regs.flags, op.Ff());
            && o.cycles == (if taken then 20 else 8)
            && o.after == (if taken then m.(regs := m.regs.(sp := m.regs.sp + 2, pc := Load16(m.bus, m.regs.sp))) else m)
  {
    DispatchReturn(m, op);
  }

  // ---- restarts and returns ----

  /**
   * RST n: the address of the next instruction is pushed and PC jumps to `opcode - 0xC7`, which
   * is eight times bits 3..5 and so one of 0x00, 0x08, ..., 0x38; 16 cycles.
   */
  lemma RestartJumpsToVector(m: Machine, op: Opcode)
    requires WellSized(m.bus) && E.IsRestart(op.value)
    ensures var o := E.Execute(m, op);
            && o.cycles == 16
            && o.after.regs == m.regs.(sp := m.regs.sp - 2, pc := (op.value - 0xC7) as bv16)
            && Load16(o.after.bus, m.regs.sp - 2) == m.regs.pc
            && o.after.regs.pc == op.Xxx() as bv16 * 8 && o.after.regs.pc <= 0x38
  {
    DispatchReturn(m, op);
    RestartPushesReturnAddress(m, op);
    RestartVector(op);
  }

  /** The RST arm on its own: the pushed word reads back as the address after RST. */
  lemma RestartPushesReturnAddress(m: Machine, op: Opcode)
    requires WellSized(m.bus) && E.IsRestart(op.value)
    ensures var o := E.Return(m, op);
            && o.cycles == 16
            && o.after.regs == m.regs.(sp := m.regs.sp - 2, pc := (op.value - 0xC7) as bv16)
            && Load16(o.after.bus, m.regs.sp - 2) == m.regs.pc
  {
    assert op.value != 0xC9 && !E.IsReturnConditional(op.value) && op.value != 0xD9;
    var pushed := Push(m, m.regs.pc);
    assert E.Return(m, op) == Outcome(pushed.(regs := pushed.regs.(pc := (op.value - 0xC7) as bv16)), 16);
    PopReadsPushedWord(m, m.regs.pc);
  }

  /** The restart address is eight times the opcode's bits 3..5. */
  lemma RestartVector(op: Opcode)
    requires E.IsRestart(op.value)
    ensures (op.value - 0xC7) as bv16 == op.Xxx() as bv16 * 8 <= 0x38
  {
    assert op.Xxx() == (op.value >> 3) & 7;
  }

  /**
   * RETI: PC popped from the stack in 16 cycles, and IME scheduled on with no delay, so that
   * (unless a DI is due at the same moment) it is on once the step's IME tick has run.
   */
  lemma ReturnFromInterruptEnables(m: Machine)
    requires WellSized(m.bus)
    ensures var o := E.Execute(m, Opcode(0xD9));
            && o.cycles == 16
            && o.after == m.(regs := m.regs.(sp := m.regs.sp + 2, pc := Load16(m.bus, m.regs.sp)),
                             ime := m.ime.(enableIn := Some(0)))
            && (m.ime.disableIn != Some(0) ==> Tick(o.after.ime).value)
  {
    DispatchReturn(m, Opcode(0xD9));
  }

  /** CALL nn followed by RET resumes right after CALL's operand with SP back where it was; 40 cycles. */
  lemma CallThenReturn(m: Machine)
    requires WellSized(m.bus)
    ensures var c := E.Execute(m, Opcode(0xCD));
            var r := E.Execute(c.after, Opcode(0xC9));
            && r.after.regs == m.regs.(pc := m.regs.pc + 2)
            && c.cycles + r.cycles == 40
  {
    DispatchJump(m, Opcode(0xCD));
    var m1 := m.(regs := m.regs.(pc := m.regs.pc + 2));
    PopReadsPushedWord(m1, m1.regs.pc);
    var c := E.Execute(m, Opcode(0xCD));
    DispatchReturn(c.after, Opcode(0xC9));
  }

  /** RST n followed by RET resumes right after RST with SP back where it was; 32 cycles. */
  lemma RestartThenReturn(m: Machine, op: Opcode)
    requires WellSized(m.bus) && E.IsRestart(op.value)
    ensures var c := E.Execute(m, op);
            var r := E.Execute(c.after, Opcode(0xC9));
            && r.after.regs == m.regs
            && c.cycles + r.cycles == 32
  {
    RestartJumpsToVector(m, op);
    var c := E.Execute(m, op);
    DispatchReturn(c.after, Opcode(0xC9));
  }

  // ---- the stack ----

  /** No PUSH or POP opcode is an 8-bit load. */
  lemma StackIsNoLoad8(v: bv8)
    requires E.IsPush(v) || E.IsPop(v)
    ensures !E.IsLoad8(v)
  {
  }

  /** No PUSH or POP opcode is a load of A. */
  lemma StackIsNoLoadAccumulator(v: bv8)
    requires E.IsPush(v) || E.IsPop(v)
    ensures !E.IsLoadAccumulator(v)
  {
  }

  /** PUSH is handled by its own arm of the 16-bit load group. */
  lemma DispatchPush(m: Machine, op: Opcode)
    requires WellSized(m.bus) && E.IsPush(op.value)
    ensures E.Execute(m, op) == E.PushPair(m, op)
  {
    StackIsNoLoad8(op.value);
    StackIsNoLoadAccumulator(op.value);
  }

  /** POP is handled by its own arm of the 16-bit load group. */
  lemma DispatchPop(m: Machine, op: Opcode)
    requires WellSized(m.bus) && E.IsPop(op.value)
    ensures E.Execute(m, op) == E.PopPair(m, op)
  {
    StackIsNoLoad8(op.value);
    StackIsNoLoadAccumulator(op.value);
  }

  /**
   * PUSH rr followed by POP of the same pair gives every register back (SP included), except
   * that the round trip through AF clears the flags' low nibble; 16 and 12 cycles.
   */
  lemma PushThenPopPair(m: Machine, push: Opcode, pop: Opcode)
    requires WellSized(m.bus) && E.IsPush(push.value) && E.IsPop(pop.value) && push.Rr() == pop.Rr()
    ensures var p := E.Execute(m, push);
            var q := E.Execute(p.after, pop);
            && q.after.regs == (if push.Rr() == 3 then m.regs.(flags := Flags(m.regs.flags.bits & 0xF0)) else m.regs)
            && q.after.bus == p.after.bus
            && p.cycles == 16 && q.cycles == 12
  {
    DispatchPush(m, push);
    var p := E.Execute(m, push);
    DispatchPop(p.after, pop);
    PushThenPop(m, Get16WithAf(m.regs, push.Rr()));
    PairWriteBack(m.regs, push.Rr());
  }

  // ---- loads between registers ----

  /** LD r, r' never names the byte at HL (index 6) on either side. */
  lemma LoadRegisterFields(op: Opcode)
    requires E.IsLoadRegister(op.value)
    ensures op.Xxx() != 6 && op.Yyy() != 6
  {
    assert op.Xxx() == (op.value >> 3) & 7;
    assert op.Yyy() == op.value & 7;
  }

  /**
   * LD r, r': the destination register now holds what the source held, the other seven
   * registers, SP, PC and the bus are untouched, in 4 cycles.
   */
  lemma LoadRegisterCopies(m: Machine, op: Opcode)
    requires WellSized(m.bus) && E.IsLoadRegister(op.value)
    ensures var o := E.Execute(m, op);
            && op.Xxx() != 6 && op.Yyy() != 6
            && Get8(o.after.regs, op.Xxx()) == Get8(m.regs, op.Yyy())
            && (forall j: bv8 :: j < 8 && j != op.Xxx() ==> Get8(o.after.regs, j) == Get8(m.regs, j))
            && o.after.regs.sp == m.regs.sp && o.after.regs.pc == m.regs.pc
            && o.after.bus == m.bus && o.cycles == 4
  {
    LoadRegisterFields(op);
  }

  // ---- compare ----

  /** No opcode of the 0x80..0xBF block is a load. */
  lemma AluBlockIsNoLoad(v: bv8)
    requires 0x80 <= v <= 0xBF
    ensures !E.IsLoad8(v) && !E.IsLoadAccumulator(v) && !E.IsLoad16(v)
  {
  }

  /** CP r (0xB8 + r) and SUB r (0x90 + r) name the same register; their operations are 7 and 2. */
  lemma CompareAndSubtractFields(op: Opcode)
    requires E.IsAluRegister(op.value) && op.Xxx() == 7
    ensures E.IsAluRegister(op.value - 0x28)
    ensures Opcode(op.value - 0x28).Xxx() == 2 && Opcode(op.value - 0x28).Yyy() == op.Yyy()
  {
    assert op.Xxx() == (op.value >> 3) & 7;
    assert op.Yyy() == op.value & 7;
    assert Opcode(op.value - 0x28).Xxx() == ((op.value - 0x28) >> 3) & 7;
    assert Opcode(op.value - 0x28).Yyy() == (op.value - 0x28) & 7;
  }

  /**
   * CP r sets the flags exactly as SUB r does but keeps A; the zero flag then says whether A
   * equals the register, the carry whether A is below it.
   */
  lemma CompareIsSubtractionKeepingA(m: Machine, op: Opcode)
    requires WellSized(m.bus) && E.IsAluRegister(op.value) && op.Xxx() == 7
    ensures var c := E.Execute(m, op);
            var s := E.Execute(m, Opcode(op.value - 0x28));
            var x := Get8(m.regs, op.Yyy());
            && c.after == s.after.(regs := s.after.regs.(a := m.regs.a))
            && c.cycles == 4 && s.cycles == 4
            && s.after.regs.a == m.regs.a - x
            && (c.after.regs.flags.Zero() <==> m.regs.a == x)
            && (c.after.regs.flags.Carry() <==> m.regs.a < x)
  {
    CompareAndSubtractFields(op);
    AluBlockIsNoLoad(op.value);
    AluBlockIsNoLoad(op.value - 0x28);
  }

  // ---- rotates of A ----

  /** RLCA, RLA, RRCA and RRA are in none of the groups `Execute` tries before them. */
  lemma RotateIsInNoEarlierGroup(v: bv8)
    requires E.IsRotateA(v)
    ensures !E.IsLoad8(v) && !E.IsLoadAccumulator(v) && !E.IsLoad16(v)
    ensures !E.IsAlu8(v) && !E.IsUnary8(v) && !E.IsAlu16(v)
  {
  }

  /**
   * RLCA, RLA, RRCA, RRA: the carry takes the bit rotated out of A, and the zero, subtraction
   * and half-carry flags are cleared, even when A becomes zero; nothing but A and the flags
   * changes, in 4 cycles.
   */
  lemma RotateAccumulatorClearsZero(m: Machine, op: Opcode)
    requires WellSized(m.bus) && E.IsRotateA(op.value)
    ensures var o := E.Execute(m, op);
            var f := o.after.regs.flags;
            && !f.Zero() && !f.Subtraction() && !f.HalfCarry()
            && f.Carry() == (if op.value == 0x07 || op.value == 0x17 then GetBit(m.regs.a, 7) else GetBit(m.regs.a, 0))
            && (op.value == 0x07 ==> o.after.regs.a == m.regs.a.RotateLeft(1))
            && (op.value == 0x0F ==> o.after.regs.a == m.regs.a.RotateRight(1))
            && o.after == m.(regs := m.regs.(a := o.after.regs.a, flags := f))
            && o.cycles == 4
  {
    RotateIsInNoEarlierGroup(op.value);
  }

  // ---- single bits ----

  /** The opcode `prefix | (bit << 3) | reg` names bit `bit` and register `reg`. */
  lemma BitOpcodeFields(prefix: bv8, bit: bv8, reg: bv8)
    requires prefix & 0x3F == 0 && bit < 8 && reg < 8
    ensures Opcode(prefix | (bit << 3) | reg).Xxx() == bit
    ensures Opcode(prefix | (bit << 3) | reg).Yyy() == reg
    ensures (prefix | (bit << 3) | reg) & 0xC0 == prefix
  {
    var op := Opcode(prefix | (bit << 3) | reg);
    assert op.Xxx() == (op.value >> 3) & 7;
    assert op.Yyy() == op.value & 7;
  }

  /** BIT's zero flag is set exactly when the tested bit is clear. */
  lemma TestBitReadsBit(f: Flags, value: bv8, bit: bv8)
    requires bit < 8
    ensures TestBit(f, value, bit).Zero() <==> !GetBit(value, bit)
  {
    assert (value >> bit) & 1 == 0 <==> value & (1 << bit) == 0;
  }

  /**
   * SET b, r (0xCB 0xC0 + 8b + r) followed by BIT b, r leaves the zero flag clear; RES b, r
   * (0xCB 0x80 + 8b + r) followed by BIT b, r leaves it set. The register is not the byte at HL.
   */
  lemma SetOrResetThenTest(m: Machine, setTo: bool, bit: bv8, reg: bv8)
    requires WellSized(m.bus) && bit < 8 && reg < 8 && reg != 6
    ensures var change := E.ExecuteCb(m, Opcode((if setTo then 0xC0 else 0x80) | (bit << 3) | reg));
            var test := E.ExecuteCb(change.after, Opcode(0x40 | (bit << 3) | reg));
            && test.after.regs.flags.Zero() == !setTo
            && change.cycles == 8 && test.cycles == 8
  {
    var prefix: bv8 := if setTo then 0xC0 else 0x80;
    BitOpcodeFields(prefix, bit, reg);
    BitOpcodeFields(0x40, bit, reg);
    var change := E.ExecuteCb(m, Opcode(prefix | (bit << 3) | reg));
    var written := ModifyBit(Get8(m.regs, reg), bit, setTo);
    assert Get8(change.after.regs, reg) == written;
    TestBitReadsBit(change.after.regs.flags, written, bit);
  }
}
