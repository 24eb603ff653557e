/**
 * One step of the processor as a function on machine values: serving a pending interrupt,
 * idling while halted, or fetching and executing one instruction, followed by one tick of the
 * interrupt master enable's countdowns.
 */
module CpuCycle {
  import opened Bits
  import opened Wrappers
  import opened Registers
  import opened CpuBus
  import opened Ime
  import opened Opcode
  import opened CpuState
  import I = Interrupts
  import E = Execute

  /**
   * Calling an interrupt's handler: its request bit is cleared, IME is set to switch off at the
   * end of this cycle, PC is pushed and the handler's address loaded into PC.
   */
  function Dispatch(m: Machine, source: I.Interrupt): (r: Machine)
    requires WellSized(m.bus)
    ensures WellSized(r.bus)
    ensures r.regs == m.regs.(sp := m.regs.sp - 2, pc := source.HandlerAddress())
    ensures r.ime == m.ime.(disableIn := Some(0)) && r.halted == m.halted
    ensures Load16(r.bus, r.regs.sp) == m.regs.pc
  {
    var cleared := m.(bus := m.bus.(flag := ModifyBit(m.bus.flag, source.Bit(), false)),
                      ime := m.ime.(disableIn := Some(0)));
    Load16AfterStore16(cleared.bus, m.regs.sp - 2, m.regs.pc, 0);
    var pushed := Push(cleared, m.regs.pc);
    pushed.(regs := pushed.regs.(pc := source.HandlerAddress()))
  }

  /**
   * `handle_interrupts`: when some interrupt is both requested and enabled, with IME on its
   * handler is called (16 cycles); with IME off a halted processor steps PC over one byte. Either
   * way a halted processor wakes up, for 4 more cycles. Nothing pending: nothing happens, 0 cycles.
   */
  function HandleInterrupts(m: Machine): (o: Outcome)
    requires WellSized(m.bus)
    ensures WellSized(o.after.bus)
  {
    match I.NextTriggered(m.bus.flag, m.bus.enable)
    case None => Outcome(m, 0)
    case Some(source) =>
      var served :=
        if m.ime.value then Outcome(Dispatch(m, source), 16)
        else if m.halted then Outcome(m.(regs := m.regs.(pc := m.regs.pc + 1)), 0)
        else Outcome(m, 0);
      if m.halted then Outcome(served.after.(halted := false), served.cycles + 4) else served
  }

  /** `fetch_execute`: the opcode byte at PC is fetched and executed. */
  function FetchExecute(m: Machine): (o: Outcome)
    requires WellSized(m.bus)
    ensures WellSized(o.after.bus)
  {
    var (v, m1) := Fetch8(m);
    E.Execute(m1, Opcode(v))
  }

  /**
   * `cycle`: interrupts are handled first; if that took no cycles, a halted processor idles for
   * 4 cycles and a running one executes the next instruction. IME's countdowns tick at the end.
   */
  function Step(m: Machine): (o: Outcome)
    requires WellSized(m.bus)
    ensures WellSized(o.after.bus)
  {
    var h := HandleInterrupts(m);
    var o := if h.cycles > 0 then h
             else if h.after.halted then Outcome(h.after, 4)
             else FetchExecute(h.after);
    Outcome(o.after.(ime := Tick(o.after.ime)), o.cycles)
  }

  /** The outcome `Step` reports when no interrupt is served: one instruction, then one IME tick. */
  function Executed(m: Machine): (o: Outcome)
    requires WellSized(m.bus)
    ensures WellSized(o.after.bus)
  {
    var e := FetchExecute(m);
    Outcome(e.after.(ime := Tick(e.after.ime)), e.cycles)
  }

  /** A step that serves an interrupt is `Dispatch`, waking the processor and ticking IME. */
  lemma ServingStep(m: Machine, source: I.Interrupt)
    requires WellSized(m.bus) && m.ime.value
    requires I.NextTriggered(m.bus.flag, m.bus.enable) == Some(source)
    ensures var d := Dispatch(m, source);
            Step(m) == Outcome(d.(halted := false, ime := Tick(d.ime)), if m.halted then 20 else 16)
  {
  }

  /**
   * With IME on, a requested and enabled interrupt is served before anything else: PC is pushed
   * and replaced by the handler's address, IME is off once the step ends and the processor is
   * awake. The step takes 16 cycles, 20 when it also wakes the processor up.
   */
  lemma InterruptServed(m: Machine, source: I.Interrupt)
    requires WellSized(m.bus) && m.ime.value
    requires I.NextTriggered(m.bus.flag, m.bus.enable) == Some(source)
    ensures var o := Step(m);
            && o.cycles == (if m.halted then 20 else 16)
            && o.after.regs == m.regs.(sp := m.regs.sp - 2, pc := source.HandlerAddress())
            && Load16(o.after.bus, o.after.regs.sp) == m.regs.pc
            && !o.after.halted && !o.after.ime.value
  {
    ServingStep(m, source);
  }

  /** After `Dispatch`, IF reads as the old IF with the served bit cleared, unless the push lands on IF. */
  lemma DispatchClearsRequest(m: Machine, source: I.Interrupt)
    requires WellSized(m.bus)
    requires m.regs.sp - 2 != InterruptFlagAddress && m.regs.sp - 1 != InterruptFlagAddress
    ensures Load(Dispatch(m, source).bus, InterruptFlagAddress) == ModifyBit(m.bus.flag, source.Bit(), false)
  {
    var cleared := m.bus.(flag := ModifyBit(m.bus.flag, source.Bit(), false));
    var sp := m.regs.sp - 2;
    assert sp + 1 == m.regs.sp - 1;
    Store16Bytes(cleared, sp, m.regs.pc, InterruptFlagAddress);
    assert Dispatch(m, source).bus == Store16(cleared, sp, m.regs.pc);
  }

  /**
   * Serving an interrupt clears its request bit in IF and keeps the other bits, provided the
   * pushed return address does not itself land on IF.
   */
  lemma ServedRequestIsCleared(m: Machine, source: I.Interrupt)
    requires WellSized(m.bus) && m.ime.value
    requires I.NextTriggered(m.bus.flag, m.bus.enable) == Some(source)
    requires m.regs.sp - 2 != InterruptFlagAddress && m.regs.sp - 1 != InterruptFlagAddress
    ensures var flag := Load(Step(m).after.bus, InterruptFlagAddress);
            && !GetBit(flag, source.Bit())
            && flag & !(1 << source.Bit()) == m.bus.flag & !(1 << source.Bit())
  {
    ServingStep(m, source);
    DispatchClearsRequest(m, source);
  }

  /**
   * A halted processor with IME off wakes up on a request without serving it: no push, no
   * change to IF, PC moved on by one, 4 cycles.
   */
  lemma HaltedWakesWithoutIme(m: Machine)
    requires WellSized(m.bus) && !m.ime.value && m.halted
    requires I.NextTriggered(m.bus.flag, m.bus.enable).Some?
    ensures Step(m) == Outcome(m.(regs := m.regs.(pc := m.regs.pc + 1), halted := false, ime := Tick(m.ime)), 4)
  {
  }

  /** Halted with nothing to serve, a step idles for 4 cycles and only IME's countdowns move. */
  lemma HaltedIdles(m: Machine)
    requires WellSized(m.bus) && m.halted && I.NextTriggered(m.bus.flag, m.bus.enable).None?
    ensures Step(m) == Outcome(m.(ime := Tick(m.ime)), 4)
  {
  }

  /**
   * A running processor executes its next instruction unless an interrupt is served: with
   * nothing requested, or with IME off, requests are left pending and do not cost a cycle.
   */
  lemma RunsUnlessServed(m: Machine)
    requires WellSized(m.bus) && !m.halted
    requires I.NextTriggered(m.bus.flag, m.bus.enable).None? || !m.ime.value
    ensures Step(m) == Executed(m)
  {
  }

  /** HALT with nothing to serve: the processor halts with PC just past the opcode; 4 cycles. */
  lemma HaltStep(m: Machine)
    requires WellSized(m.bus) && !m.halted && I.NextTriggered(m.bus.flag, m.bus.enable).None?
    requires Load(m.bus, m.regs.pc) == 0x76
    ensures Step(m) == Outcome(m.(regs := m.regs.(pc := m.regs.pc + 1), halted := true, ime := Tick(m.ime)), 4)
  {
    var (v, m1) := Fetch8(m);
    E.ExecuteHalt(m1);
  }

  /**
   * HALT executed with IME off and nothing requested, then woken by a request: execution
   * resumes two bytes past the HALT opcode, so the byte right after HALT is skipped.
   */
  lemma HaltWakeSkipsNextByte(m: Machine, flag: bv8)
    requires WellSized(m.bus) && !m.halted && m.ime == ImeState(false, None, None)
    requires I.NextTriggered(m.bus.flag, m.bus.enable).None?
    requires Load(m.bus, m.regs.pc) == 0x76
    requires I.NextTriggered(flag, m.bus.enable).Some?
    ensures var h := Step(m).after;
            && h.halted && h.regs.pc == m.regs.pc + 1
            && var w := Step(h.(bus := h.bus.(flag := flag))).after;
               !w.halted && w.regs.pc == m.regs.pc + 2
  {
    HaltStep(m);
    var h := Step(m).after;
    assert h.ime == m.ime;
    HaltedWakesWithoutIme(h.(bus := h.bus.(flag := flag)));
  }

  /** EI: IME is not switched on by its own step, but set to switch on at the end of the next one. */
  lemma EnableInterruptsSchedules(m: Machine)
    requires WellSized(m.bus) && !m.halted && m.ime == ImeState(false, None, None)
    requires Load(m.bus, m.regs.pc) == 0xFB
    ensures var o := Step(m);
            && o.cycles == 4 && o.after.regs == m.regs.(pc := m.regs.pc + 1)
            && o.after.ime == ImeState(false, Some(0), None)
  {
    var (v, m1) := Fetch8(m);
    E.ExecuteEnableInterrupts(m1);
  }

  /**
   * The instruction after EI runs with IME still off, so no request is served before it; once
   * its step ends IME is on. (DI, EI, RETI, HALT and STOP are excluded: they change IME or halt.)
   */
  lemma EnableTakesEffectAfterNextInstruction(m: Machine)
    requires WellSized(m.bus) && !m.halted && m.ime == ImeState(false, Some(0), None)
    requires var v := Load(m.bus, m.regs.pc);
             v != 0xF3 && v != 0xFB && v != 0xD9 && v != 0x76 && v != 0x10
    ensures var e := FetchExecute(m);
            Step(m) == Outcome(e.after.(ime := ImeState(true, None, None)), e.cycles)
  {
    var (v, m1) := Fetch8(m);
    assert FetchExecute(m) == E.Execute(m1, Opcode(v));
  }
}
