/**
 * The interrupt flag (IF) and interrupt enable (IE) registers, and the five interrupt sources
 * in priority order.
 */
module Interrupts {
  import opened Bits
  import opened Wrappers

  datatype Interrupt = VBlank | LcdStat | Timer | Serial | Joypad {
    /** The interrupt's bit in IF and IE, which is also its priority (0 is served first). */
    function Bit(): (r: bv8)
      ensures r < 5
    {
      match this
      case VBlank => 0
      case LcdStat => 1
      case Timer => 2
      case Serial => 3
      case Joypad => 4
    }

    /** The handler's address: eight bytes per interrupt, starting at 0x40. */
    function HandlerAddress(): (r: bv16)
      ensures r == 0x40 + 8 * (Bit() as bv16)
      ensures 0x40 <= r <= 0x60 && r % 8 == 0
    {
      match this
      case VBlank => 0x40
      case LcdStat => 0x48
      case Timer => 0x50
      case Serial => 0x58
      case Joypad => 0x60
    }
  }

  /** `Interrupt::from_u32`: indices 0..4 name an interrupt, anything else none. */
  function FromIndex(index: bv8): (r: Option<Interrupt>)
    ensures r.Some? <==> index < 5
    ensures r.Some? ==> r.value.Bit() == index
  {
    match index
    case 0 => Some(VBlank)
    case 1 => Some(LcdStat)
    case 2 => Some(Timer)
    case 3 => Some(Serial)
    case 4 => Some(Joypad)
    case _ => None
  }

  /** Every interrupt is recovered from its bit number. */
  lemma FromIndexOfBit(i: Interrupt)
    ensures FromIndex(i.Bit()) == Some(i)
  {
  }

  /** The number of trailing zero bits of `x` from bit `from` upwards, plus `from`; 8 when there are none. */
  function TrailingZerosFrom(x: bv8, from: bv8): (r: bv8)
    requires from <= 8
    ensures from <= r <= 8
    ensures r < 8 ==> GetBit(x, r)
    ensures forall j: bv8 :: from <= j < r ==> !GetBit(x, j)
    decreases 8 - from
  {
    if from == 8 then 8
    else if GetBit(x, from) then from
    else TrailingZerosFrom(x, from + 1)
  }

  /** `u8::trailing_zeros`: the index of the lowest set bit, or 8 for zero. */
  function TrailingZeros(x: bv8): (r: bv8)
    ensures r <= 8
    ensures r < 8 ==> GetBit(x, r)
    ensures forall j: bv8 :: j < r ==> !GetBit(x, j)
  {
    TrailingZerosFrom(x, 0)
  }

  /**
   * The interrupt to serve next: the lowest set bit of `flag & enable`. None when no bit is set,
   * and None too when the lowest one is one of the three unused top bits.
   */
  function NextTriggered(flag: bv8, enable: bv8): (r: Option<Interrupt>)
  {
    var triggered := flag & enable;
    if triggered == 0 then None else FromIndex(TrailingZeros(triggered))
  }

  /** What `NextTriggered` promises: nothing when nothing is both flagged and enabled, else the lowest such bit. */
  lemma NextTriggeredIsLowestPending(flag: bv8, enable: bv8)
    ensures flag & enable == 0 ==> NextTriggered(flag, enable) == None
    ensures NextTriggered(flag, enable).Some? ==>
      var i := NextTriggered(flag, enable).value;
      GetBit(flag, i.Bit()) && GetBit(enable, i.Bit())
      && forall j: bv8 :: j < i.Bit() ==> !(GetBit(flag, j) && GetBit(enable, j))
    ensures NextTriggered(flag, enable) == None && flag & enable != 0 ==>
      forall j: bv8 :: j < 5 ==> !(GetBit(flag, j) && GetBit(enable, j))
  {
    var triggered := flag & enable;
    forall j: bv8 | j < 8
      ensures GetBit(triggered, j) == (GetBit(flag, j) && GetBit(enable, j))
    {
      AndBit(flag, enable, j);
    }
  }

  /** A bit of `x & y` is set exactly when it is set in both. */
  lemma AndBit(x: bv8, y: bv8, j: bv8)
    requires j < 8
    ensures GetBit(x & y, j) == (GetBit(x, j) && GetBit(y, j))
  {
  }

  class Interrupts {
    var enable: bv8
    var flag: bv8

    /** A new controller: nothing enabled, and IF reads 0xE1 (VBlank plus the three unused top bits). */
    constructor ()
      ensures enable == 0 && flag == 0xE1
    {
      enable := 0;
      flag := 0xE1;
    }

    /** Sets or clears the interrupt's request bit; IE and the other bits of IF are kept. */
    method Flag(interrupt: Interrupt, value: bool)
      modifies this`flag
      ensures flag == ModifyBit(old(flag), interrupt.Bit(), value)
      ensures IsFlagged(interrupt) == value
      ensures flag & !(1 << interrupt.Bit()) == old(flag) & !(1 << interrupt.Bit())
    {
      flag := ModifyBit(flag, interrupt.Bit(), value);
    }

    predicate IsFlagged(interrupt: Interrupt)
      reads this
    {
      GetBit(flag, interrupt.Bit())
    }

    function NextTriggeredInterrupt(): (r: Option<Interrupt>)
      reads this
      ensures flag & enable == 0 ==> r == None
      ensures r.Some? ==> IsFlagged(r.value) && GetBit(enable, r.value.Bit())
      ensures r.Some? ==> forall j: bv8 :: j < r.value.Bit() ==> !(GetBit(flag, j) && GetBit(enable, j))
      ensures r == None && flag & enable != 0 ==> forall j: bv8 :: j < 5 ==> !(GetBit(flag, j) && GetBit(enable, j))
    {
      NextTriggeredIsLowestPending(flag, enable);
      NextTriggered(flag, enable)
    }
  }

  /** Priority: with every source requested and enabled, VBlank goes first; with only Joypad and Timer, Timer does. */
  lemma PriorityExamples()
    ensures NextTriggered(0xFF, 0x1F) == Some(VBlank)
    ensures NextTriggered(0x14, 0xFF) == Some(Timer)
    ensures NextTriggered(0xE0, 0xFF) == None
    ensures NextTriggered(0xE1, 0) == None
  {
    assert TrailingZeros(0x1F) == 0;
    assert TrailingZeros(0x14) == 2 by {
      assert !GetBit(0x14, 0) && !GetBit(0x14, 1) && GetBit(0x14, 2);
    }
    assert TrailingZeros(0xE0) == 5 by {
      assert !GetBit(0xE0, 0) && !GetBit(0xE0, 1) && !GetBit(0xE0, 2);
      assert !GetBit(0xE0, 3) && !GetBit(0xE0, 4) && GetBit(0xE0, 5);
    }
  }
}
