/**
 * The processor object: its register file, halted flag and interrupt master enable, updated in
 * place by each method exactly as the functions of `CpuState`, `Execute` and `CpuCycle`
 * describe. Every method states the new state as that function of the state before the call.
 */
module Cpu {
  import opened Registers
  import opened CpuBus
  import opened Ime
  import opened Opcode
  import opened Wrappers
  import S = CpuState
  import E = Execute
  import Alu
  import Bits
  import C = CpuCycle

  class Cpu {
    const regs: Registers
    const ime: InterruptMasterEnable
    var halted: bool

    /** `Cpu::new`: the registers the boot ROM leaves behind, running, interrupts enabled. */
    constructor ()
      ensures regs.State() == S.PowerOnRegisters && !halted
      ensures ime.State() == ImeState(true, None, None)
    {
      regs := new Registers(S.PowerOnRegisters);
      ime := new InterruptMasterEnable(true);
      halted := false;
    }

    /** The processor and the bus it runs against, as one machine value. */
    function Snapshot(bus: FlatBus): (m: S.Machine)
      reads this, regs, ime, bus, bus.memory, bus.interrupts
      requires bus.Valid()
      ensures WellSized(m.bus)
    {
      S.Machine(regs.State(), halted, ime.State(), bus.State())
    }

    // ---- primitive steps ----

    method Fetch8(bus: FlatBus) returns (v: bv8)
      requires bus.Valid()
      modifies regs
      ensures (v, Snapshot(bus)) == S.Fetch8(old(Snapshot(bus)))
    {
      v := bus.Read8(regs.pc);
      regs.pc := regs.pc + 1;
    }

    method Fetch16(bus: FlatBus) returns (v: bv16)
      requires bus.Valid()
      modifies regs
      ensures (v, Snapshot(bus)) == S.Fetch16(old(Snapshot(bus)))
    {
      v := bus.Read16(regs.pc);
      regs.pc := regs.pc + 2;
    }

    method StackPush(bus: FlatBus, value: bv16)
      requires bus.Valid()
      modifies regs, bus.memory, bus.interrupts
      ensures Snapshot(bus) == S.Push(old(Snapshot(bus)), value)
    {
      regs.sp := regs.sp - 2;
      bus.Write16(regs.sp, value);
    }

    method StackPop(bus: FlatBus) returns (v: bv16)
      requires bus.Valid()
      modifies regs
      ensures (v, Snapshot(bus)) == S.Pop(old(Snapshot(bus)))
    {
      v := bus.Read16(regs.sp);
      regs.sp := regs.sp + 2;
    }

    method UpdateReg(bus: FlatBus, index: bv8, op: S.ByteOperation)
      requires bus.Valid() && index < 8
      modifies regs
      ensures Snapshot(bus) == S.UpdateRegister(old(Snapshot(bus)), index, op)
    {
      var (result, f) := S.Apply(op, regs.flags, Get8(regs.State(), index));
      regs.flags := f;
      regs.Set8(index, result);
    }

    method UpdateRamHl(bus: FlatBus, op: S.ByteOperation)
      requires bus.Valid()
      modifies regs, bus.memory, bus.interrupts
      ensures Snapshot(bus) == S.UpdateAtHl(old(Snapshot(bus)), op)
    {
      var x := bus.Read8(Hl(regs.State()));
      var (result, f) := S.Apply(op, regs.flags, x);
      regs.flags := f;
      bus.Write8(Hl(regs.State()), result);
    }

    // ---- instruction groups of `execute` ----

    method LoadRegister(op: Opcode, bus: FlatBus) returns (cycles: nat)
      requires bus.Valid()
      modifies regs
      ensures var o := E.LoadRegister(old(Snapshot(bus)), op); Snapshot(bus) == o.after && cycles == o.cycles
    {
      regs.Set8(op.Xxx(), Get8(regs.State(), op.Yyy()));
      cycles := 4;
    }

    method LoadImmediate(op: Opcode, bus: FlatBus) returns (cycles: nat)
      requires bus.Valid()
      modifies regs
      ensures var o := E.LoadImmediate(old(Snapshot(bus)), op); Snapshot(bus) == o.after && cycles == o.cycles
    {
      var n := Fetch8(bus);
      regs.Set8(op.Xxx(), n);
      cycles := 8;
    }

    method LoadFromHl(op: Opcode, bus: FlatBus) returns (cycles: nat)
      requires bus.Valid()
      modifies regs
      ensures var o := E.LoadFromHl(old(Snapshot(bus)), op); Snapshot(bus) == o.after && cycles == o.cycles
    {
      var x := bus.Read8(Hl(regs.State()));
      regs.Set8(op.Xxx(), x);
      cycles := 8;
    }

    method StoreToHl(op: Opcode, bus: FlatBus) returns (cycles: nat)
      requires bus.Valid()
      modifies regs, bus.memory, bus.interrupts
      ensures var o := E.StoreToHl(old(Snapshot(bus)), op); Snapshot(bus) == o.after && cycles == o.cycles
    {
      bus.Write8(Hl(regs.State()), Get8(regs.State(), op.Yyy()));
      cycles := 8;
    }

    method StoreImmediateToHl(bus: FlatBus) returns (cycles: nat)
      requires bus.Valid()
      modifies regs, bus.memory, bus.interrupts
      ensures var o := E.StoreImmediateToHl(old(Snapshot(bus))); Snapshot(bus) == o.after && cycles == o.cycles
    {
      var n := Fetch8(bus);
      bus.Write8(Hl(regs.State()), n);
      cycles := 12;
    }

    method LoadAccumulatorStepping(down: bool, bus: FlatBus) returns (cycles: nat)
      requires bus.Valid()
      modifies regs
      ensures var o := E.LoadAccumulatorStepping(old(Snapshot(bus)), down); Snapshot(bus) == o.after && cycles == o.cycles
    {
      var hl := Hl(regs.State());
      var x := bus.Read8(hl);
      regs.a := x;
      regs.SetHl(E.StepHl(hl, down));
      cycles := 8;
    }

    method StoreAccumulatorStepping(down: bool, bus: FlatBus) returns (cycles: nat)
      requires bus.Valid()
      modifies regs, bus.memory, bus.interrupts
      ensures var o := E.StoreAccumulatorStepping(old(Snapshot(bus)), down); Snapshot(bus) == o.after && cycles == o.cycles
    {
      var hl := Hl(regs.State());
      bus.Write8(hl, regs.a);
      regs.SetHl(E.StepHl(hl, down));
      cycles := 8;
    }

    method ExecuteLoad8(op: Opcode, bus: FlatBus) returns (cycles: nat)
      requires bus.Valid() && E.IsLoad8(op.value)
      modifies regs, bus.memory, bus.interrupts
      ensures var o := E.Load8(old(Snapshot(bus)), op); Snapshot(bus) == o.after && cycles == o.cycles
    {
      var v := op.value;
      if E.IsLoadRegister(v) {
        cycles := LoadRegister(op, bus);
      } else if E.IsLoadImmediate(v) {
        cycles := LoadImmediate(op, bus);
      } else if E.IsLoadFromHl(v) {
        cycles := LoadFromHl(op, bus);
      } else if E.IsStoreToHl(v) {
        cycles := StoreToHl(op, bus);
      } else if v == 0x36 {
        cycles := StoreImmediateToHl(bus);
      } else if v == 0x3A {
        cycles := LoadAccumulatorStepping(true, bus);
      } else if v == 0x32 {
        cycles := StoreAccumulatorStepping(true, bus);
      } else if v == 0x2A {
        cycles := LoadAccumulatorStepping(false, bus);
      } else {
        cycles := StoreAccumulatorStepping(false, bus);
      }
    }

    method LoadAccumulatorFrom(addr: bv16, bus: FlatBus) returns (cycles: nat)
      requires bus.Valid()
      modifies regs
      ensures var o := E.LoadAccumulatorFrom(old(Snapshot(bus)), addr); Snapshot(bus) == o.after && cycles == o.cycles
    {
      var x := bus.Read8(addr);
      regs.a := x;
      cycles := 8;
    }

    method StoreAccumulatorTo(addr: bv16, bus: FlatBus) returns (cycles: nat)
      requires bus.Valid()
      modifies regs, bus.memory, bus.interrupts
      ensures var o := E.StoreAccumulatorTo(old(Snapshot(bus)), addr); Snapshot(bus) == o.after && cycles == o.cycles
    {
      bus.Write8(addr, regs.a);
      cycles := 8;
    }

    method LoadAccumulatorDirect(bus: FlatBus) returns (cycles: nat)
      requires bus.Valid()
      modifies regs
      ensures var o := E.LoadAccumulatorDirect(old(Snapshot(bus))); Snapshot(bus) == o.after && cycles == o.cycles
    {
      var nn := Fetch16(bus);
      var x := bus.Read8(nn);
      regs.a := x;
      cycles := 16;
    }

    method StoreAccumulatorDirect(bus: FlatBus) returns (cycles: nat)
      requires bus.Valid()
      modifies regs, bus.memory, bus.interrupts
      ensures var o := E.StoreAccumulatorDirect(old(Snapshot(bus))); Snapshot(bus) == o.after && cycles == o.cycles
    {
      var nn := Fetch16(bus);
      bus.Write8(nn, regs.a);
      cycles := 16;
    }

    method LoadAccumulatorHigh(bus: FlatBus) returns (cycles: nat)
      requires bus.Valid()
      modifies regs
      ensures var o := E.LoadAccumulatorHigh(old(Snapshot(bus))); Snapshot(bus) == o.after && cycles == o.cycles
    {
      var n := Fetch8(bus);
      var x := bus.Read8(0xFF00 + n as bv16);
      regs.a := x;
      cycles := 12;
    }

    method StoreAccumulatorHigh(bus: FlatBus) returns (cycles: nat)
      requires bus.Valid()
      modifies regs, bus.memory, bus.interrupts
      ensures var o := E.StoreAccumulatorHigh(old(Snapshot(bus))); Snapshot(bus) == o.after && cycles == o.cycles
    {
      var n := Fetch8(bus);
      bus.Write8(0xFF00 + n as bv16, regs.a);
      cycles := 12;
    }

    method ExecuteLoadAccumulator(op: Opcode, bus: FlatBus) returns (cycles: nat)
      requires bus.Valid() && E.IsLoadAccumulator(op.value)
      modifies regs, bus.memory, bus.interrupts
      ensures var o := E.LoadAccumulator(old(Snapshot(bus)), op); Snapshot(bus) == o.after && cycles == o.cycles
    {
      var v := op.value;
      if v == 0x0A {
        cycles := LoadAccumulatorFrom(Bc(regs.State()), bus);
      } else if v == 0x1A {
        cycles := LoadAccumulatorFrom(De(regs.State()), bus);
      } else if v == 0x02 {
        cycles := StoreAccumulatorTo(Bc(regs.State()), bus);
      } else if v == 0x12 {
        cycles := StoreAccumulatorTo(De(regs.State()), bus);
      } else if v == 0xFA {
        cycles := LoadAccumulatorDirect(bus);
      } else if v == 0xEA {
        cycles := StoreAccumulatorDirect(bus);
      } else if v == 0xF2 {
        cycles := LoadAccumulatorFrom(0xFF00 + regs.c as bv16, bus);
      } else if v == 0xE2 {
        cycles := StoreAccumulatorTo(0xFF00 + regs.c as bv16, bus);
      } else if v == 0xF0 {
        cycles := LoadAccumulatorHigh(bus);
      } else {
        cycles := StoreAccumulatorHigh(bus);
      }
    }

    method LoadPairImmediate(op: Opcode, bus: FlatBus) returns (cycles: nat)
      requires bus.Valid()
      modifies regs
      ensures var o := E.LoadPairImmediate(old(Snapshot(bus)), op); Snapshot(bus) == o.after && cycles == o.cycles
    {
      var nn := Fetch16(bus);
      regs.Set16WithSp(op.Rr(), nn);
      cycles := 12;
    }

    method StoreStackPointer(bus: FlatBus) returns (cycles: nat)
      requires bus.Valid()
      modifies regs, bus.memory, bus.interrupts
      ensures var o := E.StoreStackPointer(old(Snapshot(bus))); Snapshot(bus) == o.after && cycles == o.cycles
    {
      var nn := Fetch16(bus);
      bus.Write16(nn, regs.sp);
      cycles := 20;
    }

    method LoadHlStackOffset(bus: FlatBus) returns (cycles: nat)
      requires bus.Valid()
      modifies regs
      ensures var o := E.LoadHlStackOffset(old(Snapshot(bus))); Snapshot(bus) == o.after && cycles == o.cycles
    {
      var n := Fetch8(bus);
      var (sum, f) := Alu.Add16WithSignedByteOperand(regs.flags, regs.sp, n);
      regs.flags := f;
      regs.SetHl(sum);
      cycles := 12;
    }

    method PushPair(op: Opcode, bus: FlatBus) returns (cycles: nat)
      requires bus.Valid()
      modifies regs, bus.memory, bus.interrupts
      ensures var o := E.PushPair(old(Snapshot(bus)), op); Snapshot(bus) == o.after && cycles == o.cycles
    {
      StackPush(bus, Get16WithAf(regs.State(), op.Rr()));
      cycles := 16;
    }

    method PopPair(op: Opcode, bus: FlatBus) returns (cycles: nat)
      requires bus.Valid()
      modifies regs
      ensures var o := E.PopPair(old(Snapshot(bus)), op); Snapshot(bus) == o.after && cycles == o.cycles
    {
      var value := StackPop(bus);
      regs.Set16WithAf(op.Rr(), value);
      cycles := 12;
    }

    method ExecuteLoad16(op: Opcode, bus: FlatBus) returns (cycles: nat)
      requires bus.Valid() && E.IsLoad16(op.value)
      modifies regs, bus.memory, bus.interrupts
      ensures var o := E.Load16(old(Snapshot(bus)), op); Snapshot(bus) == o.after && cycles == o.cycles
    {
      var v := op.value;
      if E.IsLoadPairImmediate(v) {
        cycles := LoadPairImmediate(op, bus);
      } else if v == 0x08 {
        cycles := StoreStackPointer(bus);
      } else if v == 0xF8 {
        cycles := LoadHlStackOffset(bus);
      } else if v == 0xF9 {
        regs.sp := Hl(regs.State());
        cycles := 8;
      } else if E.IsPush(v) {
        cycles := PushPair(op, bus);
      } else {
        cycles := PopPair(op, bus);
      }
    }

    method ExecuteAlu8(op: Opcode, bus: FlatBus) returns (cycles: nat)
      requires bus.Valid() && E.IsAlu8(op.value)
      modifies regs
      ensures var o := E.Alu8(old(Snapshot(bus)), op); Snapshot(bus) == o.after && cycles == o.cycles
    {
      var v := op.value;
      var x: bv8;
      if E.IsAluRegister(v) {
        x := Get8(regs.State(), op.Yyy());
        cycles := 4;
      } else if E.IsAluFromHl(v) {
        x := bus.Read8(Hl(regs.State()));
        cycles := 8;
      } else {
        x := Fetch8(bus);
        cycles := 8;
      }
      var (result, f) := E.AluOperation(op.Xxx(), regs.flags, regs.a, x);
      regs.a, regs.flags := result, f;
    }

    method ExecuteUnary8(op: Opcode, bus: FlatBus) returns (cycles: nat)
      requires bus.Valid() && E.IsUnary8(op.value)
      modifies regs, bus.memory, bus.interrupts
      ensures var o := E.Unary8(old(Snapshot(bus)), op); Snapshot(bus) == o.after && cycles == o.cycles
    {
      var v := op.value;
      if E.IsIncRegister(v) {
        UpdateReg(bus, op.Xxx(), S.Inc);
        cycles := 4;
      } else if v == 0x34 {
        UpdateRamHl(bus, S.Inc);
        cycles := 12;
      } else if E.IsDecRegister(v) {
        UpdateReg(bus, op.Xxx(), S.Dec);
        cycles := 4;
      } else if v == 0x35 {
        UpdateRamHl(bus, S.Dec);
        cycles := 12;
      } else if v == 0x27 {
        var (result, f) := Alu.Daa(regs.flags, regs.a);
        regs.a, regs.flags := result, f;
        cycles := 4;
      } else {
        var (result, f) := Alu.BitwiseNot(regs.flags, regs.a);
        regs.a, regs.flags := result, f;
        cycles := 4;
      }
    }

    method ExecuteAlu16(op: Opcode, bus: FlatBus) returns (cycles: nat)
      requires bus.Valid() && E.IsAlu16(op.value)
      modifies regs
      ensures var o := E.Alu16(old(Snapshot(bus)), op); Snapshot(bus) == o.after && cycles == o.cycles
    {
      var v := op.value;
      if E.IsAddHl(v) {
        var hl := Hl(regs.State());
        var rr := Get16WithSp(regs.State(), op.Rr());
        var (sum, f) := Alu.Add16(regs.flags, hl, rr);
        regs.flags := f;
        regs.SetHl(sum);
        cycles := 8;
      } else if E.IsIncPair(v) {
        var rr := Get16WithSp(regs.State(), op.Rr());
        regs.Set16WithSp(op.Rr(), Alu.Inc16(rr));
        cycles := 8;
      } else if E.IsDecPair(v) {
        var rr := Get16WithSp(regs.State(), op.Rr());
        regs.Set16WithSp(op.Rr(), Alu.Dec16(rr));
        cycles := 8;
      } else {
        var n := Fetch8(bus);
        var (sum, f) := Alu.Add16WithSignedByteOperand(regs.flags, regs.sp, n);
        regs.sp, regs.flags := sum, f;
        cycles := 16;
      }
    }

    method ExecuteRotateA(op: Opcode, bus: FlatBus) returns (cycles: nat)
      requires bus.Valid() && E.IsRotateA(op.value)
      modifies regs
      ensures var o := E.RotateA(old(Snapshot(bus)), op); Snapshot(bus) == o.after && cycles == o.cycles
    {
      var (result, f) := S.Apply(E.RotateAOperation(op.value), regs.flags, regs.a);
      regs.a, regs.flags := result, f;
      regs.flags := regs.flags.SetZero(false);
      cycles := 4;
    }

    method JumpAbsolute(bus: FlatBus) returns (cycles: nat)
      requires bus.Valid()
      modifies regs
      ensures var o := E.JumpAbsolute(old(Snapshot(bus))); Snapshot(bus) == o.after && cycles == o.cycles
    {
      var nn := Fetch16(bus);
      regs.pc := nn;
      cycles := 16;
    }

    method JumpConditional(op: Opcode, bus: FlatBus) returns (cycles: nat)
      requires bus.Valid()
      modifies regs
      ensures var o := E.JumpConditional(old(Snapshot(bus)), op); Snapshot(bus) == o.after && cycles == o.cycles
    {
      var nn := Fetch16(bus);
      if S.Condition(regs.flags, op.Ff()) {
        regs.pc := nn;
        cycles := 16;
      } else {
        cycles := 12;
      }
    }

    method JumpRelative(bus: FlatBus) returns (cycles: nat)
      requires bus.Valid()
      modifies regs
      ensures var o := E.JumpRelative(old(Snapshot(bus))); Snapshot(bus) == o.after && cycles == o.cycles
    {
      var n := Fetch8(bus);
      regs.pc := E.RelativeTarget(regs.pc, n);
      cycles := 12;
    }

    method JumpRelativeConditional(op: Opcode, bus: FlatBus) returns (cycles: nat)
      requires bus.Valid()
      modifies regs
      ensures var o := E.JumpRelativeConditional(old(Snapshot(bus)), op); Snapshot(bus) == o.after && cycles == o.cycles
    {
      var n := Fetch8(bus);
      if S.Condition(regs.flags, op.Ff()) {
        regs.pc := E.RelativeTarget(regs.pc, n);
        cycles := 12;
      } else {
        cycles := 8;
      }
    }

    method Call(bus: FlatBus) returns (cycles: nat)
      requires bus.Valid()
      modifies regs, bus.memory, bus.interrupts
      ensures var o := E.Call(old(Snapshot(bus))); Snapshot(bus) == o.after && cycles == o.cycles
    {
      var nn := Fetch16(bus);
      StackPush(bus, regs.pc);
      regs.pc := nn;
      cycles := 24;
    }

    method CallConditional(op: Opcode, bus: FlatBus) returns (cycles: nat)
      requires bus.Valid()
      modifies regs, bus.memory, bus.interrupts
      ensures var o := E.CallConditional(old(Snapshot(bus)), op); Snapshot(bus) == o.after && cycles == o.cycles
    {
      var nn := Fetch16(bus);
      if S.Condition(regs.flags, op.Ff()) {
        StackPush(bus, regs.pc);
        regs.pc := nn;
        cycles := 24;
      } else {
        cycles := 12;
      }
    }

    method ExecuteJump(op: Opcode, bus: FlatBus) returns (cycles: nat)
      requires bus.Valid() && E.IsJump(op.value)
      modifies regs, bus.memory, bus.interrupts
      ensures var o := E.Jump(old(Snapshot(bus)), op); Snapshot(bus) == o.after && cycles == o.cycles
    {
      var v := op.value;
      if v == 0xC3 {
        cycles := JumpAbsolute(bus);
      } else if v == 0xE9 {
        regs.pc := Hl(regs.State());
        cycles := 4;
      } else if E.IsJumpConditional(v) {
        cycles := JumpConditional(op, bus);
      } else if v == 0x18 {
        cycles := JumpRelative(bus);
      } else if E.IsJumpRelativeConditional(v) {
        cycles := JumpRelativeConditional(op, bus);
      } else if v == 0xCD {
        cycles := Call(bus);
      } else {
        cycles := CallConditional(op, bus);
      }
    }

    method ExecuteReturn(op: Opcode, bus: FlatBus) returns (cycles: nat)
      requires bus.Valid() && E.IsReturn(op.value)
      modifies regs, ime, bus.memory, bus.interrupts
      ensures var o := E.Return(old(Snapshot(bus)), op); Snapshot(bus) == o.after && cycles == o.cycles
    {
      var v := op.value;
      if v == 0xC9 {
        var addr := StackPop(bus);
        regs.pc := addr;
        cycles := 16;
      } else if E.IsReturnConditional(v) {
        if S.Condition(regs.flags, op.Ff()) {
          var addr := StackPop(bus);
          regs.pc := addr;
          cycles := 20;
        } else {
          cycles := 8;
        }
      } else if v == 0xD9 {
        var addr := StackPop(bus);
        regs.pc := addr;
        ime.Enable(0);
        cycles := 16;
      } else {
        StackPush(bus, regs.pc);
        regs.pc := (v - 0xC7) as bv16;
        cycles := 16;
      }
    }

    method ExecuteControl(op: Opcode, bus: FlatBus) returns (cycles: nat)
      requires bus.Valid() && E.IsControl(op.value)
      modifies this, regs, ime
      ensures var o := E.Control(old(Snapshot(bus)), op); Snapshot(bus) == o.after && cycles == o.cycles
    {
      var v := op.value;
      if v == 0x3F {
        regs.flags := regs.flags.SetSubtraction(false).SetHalfCarry(false).ToggleCarry();
      } else if v == 0x37 {
        regs.flags := regs.flags.SetSubtraction(false).SetHalfCarry(false).SetCarry(true);
      } else if v == 0x00 {
      } else if v == 0x76 {
        halted := true;
      } else if v == 0x10 {
        var n := Fetch8(bus);
        if n != 0 {
          regs.pc := regs.pc - 1;
        }
        halted := true;
      } else if v == 0xF3 {
        ime.Disable(1);
      } else {
        ime.Enable(1);
      }
      cycles := 4;
    }

    /** `execute_cb`: the instruction named by the byte after a 0xCB prefix. */
    method ExecuteCb(op: Opcode, bus: FlatBus) returns (cycles: nat)
      requires bus.Valid()
      modifies regs, bus.memory, bus.interrupts
      ensures var o := E.ExecuteCb(old(Snapshot(bus)), op); Snapshot(bus) == o.after && cycles == o.cycles
    {
      var v := op.value;
      var target := op.Yyy();
      if v < 0x40 {
        if target == 6 {
          UpdateRamHl(bus, E.ShiftOperation(op.Xxx()));
          cycles := 16;
        } else {
          UpdateReg(bus, target, E.ShiftOperation(op.Xxx()));
          cycles := 8;
        }
      } else if v < 0x80 {
        if target == 6 {
          var x := bus.Read8(Hl(regs.State()));
          regs.flags := Alu.TestBit(regs.flags, x, op.Xxx());
          cycles := 12;
        } else {
          regs.flags := Alu.TestBit(regs.flags, Get8(regs.State(), target), op.Xxx());
          cycles := 8;
        }
      } else {
        var setTo := v >= 0xC0;
        if target == 6 {
          var x := bus.Read8(Hl(regs.State()));
          bus.Write8(Hl(regs.State()), Bits.ModifyBit(x, op.Xxx(), setTo));
          cycles := 16;
        } else {
          regs.Set8(target, Bits.ModifyBit(Get8(regs.State(), target), op.Xxx(), setTo));
          cycles := 8;
        }
      }
    }

    /** `execute`: the instruction whose opcode byte has just been fetched. */
    method Execute(op: Opcode, bus: FlatBus) returns (cycles: nat)
      requires bus.Valid()
      modifies this, regs, ime, bus.memory, bus.interrupts
      ensures var o := E.Execute(old(Snapshot(bus)), op); Snapshot(bus) == o.after && cycles == o.cycles
    {
      var v := op.value;
      if E.IsLoad8(v) {
        cycles := ExecuteLoad8(op, bus);
      } else if E.IsLoadAccumulator(v) {
        cycles := ExecuteLoadAccumulator(op, bus);
      } else if E.IsLoad16(v) {
        cycles := ExecuteLoad16(op, bus);
      } else if E.IsAlu8(v) {
        cycles := ExecuteAlu8(op, bus);
      } else if E.IsUnary8(v) {
        cycles := ExecuteUnary8(op, bus);
      } else if E.IsAlu16(v) {
        cycles := ExecuteAlu16(op, bus);
      } else if E.IsRotateA(v) {
        cycles := ExecuteRotateA(op, bus);
      } else if E.IsJump(v) {
        cycles := ExecuteJump(op, bus);
      } else if E.IsReturn(v) {
        cycles := ExecuteReturn(op, bus);
      } else if E.IsControl(v) {
        cycles := ExecuteControl(op, bus);
      } else if v == 0xCB {
        var suffix := Fetch8(bus);
        cycles := ExecuteCb(Opcode(suffix), bus);
      } else {
        cycles := 4;
      }
    }

    // ---- the cycle ----

    method HandleInterrupts(bus: FlatBus) returns (cycles: nat)
      requires bus.Valid()
      modifies this, regs, ime, bus.memory, bus.interrupts
      ensures var o := C.HandleInterrupts(old(Snapshot(bus))); Snapshot(bus) == o.after && cycles == o.cycles
    {
      cycles := 0;
      var next := bus.interrupts.NextTriggeredInterrupt();
      if next.Some? {
        var source := next.value;
        if ime.Enabled() {
          bus.interrupts.Flag(source, false);
          ime.Disable(0);
          StackPush(bus, regs.pc);
          regs.pc := source.HandlerAddress();
          cycles := cycles + 16;
        } else if halted {
          regs.pc := regs.pc + 1;
        }
        if halted {
          halted := false;
          cycles := cycles + 4;
        }
      }
    }

    method FetchExecute(bus: FlatBus) returns (cycles: nat)
      requires bus.Valid()
      modifies this, regs, ime, bus.memory, bus.interrupts
      ensures var o := C.FetchExecute(old(Snapshot(bus))); Snapshot(bus) == o.after && cycles == o.cycles
    {
      var v := Fetch8(bus);
      cycles := Execute(Opcode(v), bus);
    }

    /** `cycle`: one step of the processor, returning the clock cycles it took. */
    method Cycle(bus: FlatBus) returns (cycles: nat)
      requires bus.Valid()
      modifies this, regs, ime, bus.memory, bus.interrupts
      ensures var o := C.Step(old(Snapshot(bus))); Snapshot(bus) == o.after && cycles == o.cycles
    {
      var interruptCycles := HandleInterrupts(bus);
      if interruptCycles > 0 {
        cycles := interruptCycles;
      } else if halted {
        cycles := 4;
      } else {
        cycles := FetchExecute(bus);
      }
      ime.Cycle();
    }
  }
}
