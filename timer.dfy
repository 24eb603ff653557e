/**
 * The divider (DIV) and the programmable timer (TIMA counter, TMA modulo, TAC control).
 * Cycle counts accumulate; each update advances the divider and the counter by at most one.
 */
module Timer {
  import opened Bits
  import I = Interrupts

  /** The timer's registers and its two cycle accumulators (`usize` in the source, unbounded here). */
  datatype TimerState = TimerState(divider: bv8, counter: bv8, modulo: bv8, control: bv8,
                                   timerCycles: nat, dividerCycles: nat)

  /** The power-on state: every register and accumulator zero. */
  const DefaultTimer := TimerState(0, 0, 0, 0, 0, 0)

  /** Bit 2 of the control register starts the counter. */
  predicate Enabled(control: bv8)
    ensures Enabled(control) <==> control & 0x04 != 0
  {
    GetBit(control, 2)
  }

  /** The counter's frequency in Hz, chosen by the control register's two low bits. */
  function Frequency(control: bv8): (r: nat)
    ensures control & 3 == 0 ==> r == 4096
    ensures control & 3 == 1 ==> r == 262144
    ensures control & 3 == 2 ==> r == 65536
    ensures control & 3 == 3 ==> r == 16384
  {
    match control & 3
    case 0 => 4096
    case 1 => 262144
    case 2 => 65536
    case 3 => 16384
  }

  /** Cycles per counter increment; the CPU clock speed is a parameter of the model. */
  function Period(control: bv8, clockSpeed: nat): (r: nat)
    ensures r * Frequency(control) <= clockSpeed < (r + 1) * Frequency(control)
  {
    clockSpeed / Frequency(control)
  }

  /** The divider half of `update`: its accumulator gives up 256 cycles per (wrapping) increment. */
  function DividerStep(s: TimerState, cycles: nat): (r: TimerState)
    ensures r.(divider := s.divider, dividerCycles := s.dividerCycles) == s
    ensures r.divider == s.divider + 1 <==> s.dividerCycles + cycles >= 256
    ensures r.divider == s.divider <==> s.dividerCycles + cycles < 256
    ensures r.dividerCycles + (if s.dividerCycles + cycles >= 256 then 256 else 0) == s.dividerCycles + cycles
  {
    if s.dividerCycles + cycles >= 256 then
      s.(divider := s.divider + 1, dividerCycles := s.dividerCycles + cycles - 256)
    else
      s.(dividerCycles := s.dividerCycles + cycles)
  }

  /**
   * The counter half of `update`, and whether the Timer interrupt is requested. Only a running
   * timer accumulates; a full period adds one to the counter, and an overflowing counter reloads
   * from the modulo and raises the interrupt instead.
   */
  function CounterStep(s: TimerState, cycles: nat, clockSpeed: nat): (r: (TimerState, bool))
    ensures r.0.(counter := s.counter, timerCycles := s.timerCycles) == s
    ensures !Enabled(s.control) ==> r.0 == s && !r.1
    ensures r.1 <==> Enabled(s.control) && s.timerCycles + cycles >= Period(s.control, clockSpeed) && s.counter == 0xFF
    ensures r.1 ==> r.0.counter == s.modulo
    ensures !r.1 ==> r.0.counter == s.counter || (s.counter < 0xFF && r.0.counter == s.counter + 1)
    ensures Enabled(s.control) && s.timerCycles + cycles >= Period(s.control, clockSpeed) ==>
              r.0.timerCycles == s.timerCycles + cycles - Period(s.control, clockSpeed)
              && (s.counter < 0xFF ==> r.0.counter == s.counter + 1)
    ensures Enabled(s.control) && s.timerCycles + cycles < Period(s.control, clockSpeed) ==>
              r.0 == s.(timerCycles := s.timerCycles + cycles) && !r.1
  {
    if !Enabled(s.control) then (s, false)
    else if s.timerCycles + cycles >= Period(s.control, clockSpeed) then
      (s.(counter := if s.counter == 0xFF then s.modulo else s.counter + 1,
          timerCycles := s.timerCycles + cycles - Period(s.control, clockSpeed)), s.counter == 0xFF)
    else
      (s.(timerCycles := s.timerCycles + cycles), false)
  }

  /** `update`: the divider half, then the counter half. */
  function Step(s: TimerState, cycles: nat, clockSpeed: nat): (r: (TimerState, bool))
    ensures r.0.modulo == s.modulo && r.0.control == s.control
    ensures s.dividerCycles + cycles >= 256 ==>
              r.0.divider == s.divider + 1 && r.0.dividerCycles == s.dividerCycles + cycles - 256
    ensures s.dividerCycles + cycles < 256 ==>
              r.0.divider == s.divider && r.0.dividerCycles == s.dividerCycles + cycles
    ensures !Enabled(s.control) ==>
              r.0.counter == s.counter && r.0.timerCycles == s.timerCycles && !r.1
    ensures Enabled(s.control) && s.timerCycles + cycles >= Period(s.control, clockSpeed) ==>
              r.0.timerCycles == s.timerCycles + cycles - Period(s.control, clockSpeed)
              && r.0.counter == (if s.counter == 0xFF then s.modulo else s.counter + 1)
              && (r.1 <==> s.counter == 0xFF)
    ensures Enabled(s.control) && s.timerCycles + cycles < Period(s.control, clockSpeed) ==>
              r.0.counter == s.counter && r.0.timerCycles == s.timerCycles + cycles && !r.1
  {
    CounterStep(DividerStep(s, cycles), cycles, clockSpeed)
  }

  /**
   * The divider never falls behind while each update brings at most 256 cycles: its accumulator
   * stays below 256.
   */
  lemma DividerKeepsUp(s: TimerState, cycles: nat, clockSpeed: nat)
    requires s.dividerCycles < 256 && cycles <= 256
    ensures Step(s, cycles, clockSpeed).0.dividerCycles < 256
  {
  }

  /** When the counter is at 0xFF and a full period has gone by, it reloads and the interrupt is raised. */
  lemma OverflowReloads(s: TimerState, cycles: nat, clockSpeed: nat)
    requires Enabled(s.control) && s.counter == 0xFF
    requires s.timerCycles + cycles >= Period(s.control, clockSpeed)
    ensures Step(s, cycles, clockSpeed).0.counter == s.modulo
    ensures Step(s, cycles, clockSpeed).1
  {
  }

  /**
   * The source's divider test: 256 cycles, then 300, then 230 give 1, 2, 3; set to 255 (with 18
   * cycles left over by then), 300 more wrap it to 0.
   */
  lemma DividerExample(clockSpeed: nat)
    ensures Step(DefaultTimer, 256, clockSpeed).0.divider == 1
    ensures Step(Step(DefaultTimer, 256, clockSpeed).0, 300, clockSpeed).0.divider == 2
    ensures Step(Step(Step(DefaultTimer, 256, clockSpeed).0, 300, clockSpeed).0, 230, clockSpeed).0.divider == 3
    ensures Step(TimerState(255, 0, 0, 0, 0, 18), 300, clockSpeed).0.divider == 0
  {
    var s1 := Step(DefaultTimer, 256, clockSpeed).0;
    assert s1 == TimerState(1, 0, 0, 0, 0, 0);
    var s2 := Step(s1, 300, clockSpeed).0;
    assert s2 == TimerState(2, 0, 0, 0, 0, 44);
    var s3 := Step(s2, 230, clockSpeed).0;
    assert s3 == TimerState(3, 0, 0, 0, 0, 18);
  }

  class Timer {
    var divider: bv8
    var counter: bv8
    var modulo: bv8
    var control: bv8
    var timerCycles: nat
    var dividerCycles: nat

    function State(): TimerState
      reads this
    {
      TimerState(divider, counter, modulo, control, timerCycles, dividerCycles)
    }

    /** `Timer::default()`. */
    constructor ()
      ensures State() == DefaultTimer
    {
      divider, counter, modulo, control := 0, 0, 0, 0;
      timerCycles, dividerCycles := 0, 0;
    }

    /** Advances both accumulators by `cpuCycles`; a counter overflow sets the Timer bit of IF. */
    method Update(interrupts: I.Interrupts, cpuCycles: nat, clockSpeed: nat)
      modifies this, interrupts`flag
      ensures State() == Step(old(State()), cpuCycles, clockSpeed).0
      ensures interrupts.flag == if Step(old(State()), cpuCycles, clockSpeed).1
                                 then ModifyBit(old(interrupts.flag), I.Interrupt.Timer.Bit(), true)
                                 else old(interrupts.flag)
    {
      UpdateDivider(cpuCycles);
      UpdateCounter(interrupts, cpuCycles, clockSpeed);
    }

    method UpdateDivider(cpuCycles: nat)
      modifies this`divider, this`dividerCycles
      ensures State() == DividerStep(old(State()), cpuCycles)
    {
      dividerCycles := dividerCycles + cpuCycles;

      if dividerCycles >= 256 {
        dividerCycles := dividerCycles - 256;
        divider := divider + 1;
      }
    }

    method UpdateCounter(interrupts: I.Interrupts, cpuCycles: nat, clockSpeed: nat)
      modifies this`counter, this`timerCycles, interrupts`flag
      ensures State() == CounterStep(old(State()), cpuCycles, clockSpeed).0
      ensures interrupts.flag == if CounterStep(old(State()), cpuCycles, clockSpeed).1
                                 then ModifyBit(old(interrupts.flag), I.Interrupt.Timer.Bit(), true)
                                 else old(interrupts.flag)
    {
      if GetBit(control, 2) {
        timerCycles := timerCycles + cpuCycles;

        var frequency := Frequency(control);
        var requiredCycles := clockSpeed / frequency;

        if timerCycles >= requiredCycles {
          IncreaseTimer(interrupts);
          timerCycles := timerCycles - requiredCycles;
        }
      }
    }

    /** Counts up by one; at 0xFF reloads from the modulo and requests the Timer interrupt. */
    method IncreaseTimer(interrupts: I.Interrupts)
      modifies this`counter, interrupts`flag
      ensures counter == if old(counter) == 0xFF then modulo else old(counter) + 1
      ensures interrupts.flag == if old(counter) == 0xFF
                                 then ModifyBit(old(interrupts.flag), I.Interrupt.Timer.Bit(), true)
                                 else old(interrupts.flag)
    {
      if counter == 0xFF {
        counter := modulo;
        interrupts.Flag(I.Interrupt.Timer, true);
      } else {
        counter := counter + 1;
      }
    }
  }
}
