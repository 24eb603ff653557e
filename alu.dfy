/**
 * The arithmetic/logic unit. Every operation takes the current flags and its operands and
 * returns the result together with the updated flags; the source updates the flags through a
 * mutable reference, the model hands the new flags byte back instead.
 */
module Alu {
  import opened Bits
  import opened Registers
  import opened Decimal

  /** The flags' low nibble is only ever touched by writing the raw byte, never by the ALU. */
  predicate SameLowNibble(f: Flags, g: Flags) {
    f.bits & 0x0F == g.bits & 0x0F
  }

  /** The carry flag as the number 0 or 1. */
  function CarryIn(f: Flags): (c: bv8)
    ensures c <= 1 && (c == 1 <==> f.Carry())
  {
    if f.Carry() then 1 else 0
  }

  /** The two's-complement value of a byte, as `x as i8` reads it. */
  function Signed(x: bv8): int {
    if x < 0x80 then x as int else x as int - 256
  }

  // ---- flag helpers ----

  /** Carry out of bit 3 of `x + y + c`: it happened iff the wrapped low nibble came out smaller. */
  function AddHalfCarry(x: bv8, y: bv8, c: bv8): (h: bool)
    requires c <= 1
    ensures h <==> (x + y + c) & 0xF < x & 0xF || (c == 1 && (x + y + c) & 0xF == x & 0xF)
  {
    (x & 0xF) + (y & 0xF) + c > 0xF
  }

  /** Carry out of bit 7 of `x + y + c`: it happened iff the wrapped sum came out smaller. */
  function AddCarry(x: bv8, y: bv8, c: bv8): (h: bool)
    requires c <= 1
    ensures h <==> x + y + c < x || (c == 1 && x + y + c == x)
  {
    (x as bv16) + (y as bv16) + (c as bv16) > 0xFF
  }

  /** Borrow from bit 4 in `x - y - c`: it happened iff the wrapped low nibble came out larger. */
  function SubHalfCarry(x: bv8, y: bv8, c: bv8): (h: bool)
    requires c <= 1
    ensures h <==> (x - y - c) & 0xF > x & 0xF || (c == 1 && (x - y - c) & 0xF == x & 0xF)
  {
    (x & 0xF) < (y & 0xF) + c
  }

  /** Borrow out of bit 7 in `x - y - c`: it happened iff the wrapped difference came out larger. */
  function SubCarry(x: bv8, y: bv8, c: bv8): (h: bool)
    requires c <= 1
    ensures h <==> x - y - c > x || (c == 1 && x - y - c == x)
  {
    (x as bv16) < (y as bv16) + (c as bv16)
  }

  function SetZeroSubtractionHalfCarryAdd(f: Flags, result: bv8, x: bv8, y: bv8, c: bv8): (g: Flags)
    requires c <= 1
    ensures (g.Zero() <==> result == 0) && !g.Subtraction() && g.HalfCarry() == AddHalfCarry(x, y, c)
    ensures g.Carry() == f.Carry() && SameLowNibble(g, f)
  {
    f.SetZero(result == 0).SetSubtraction(false).SetHalfCarry(AddHalfCarry(x, y, c))
  }

  function SetZeroSubtractionHalfCarrySub(f: Flags, result: bv8, x: bv8, y: bv8, c: bv8): (g: Flags)
    requires c <= 1
    ensures (g.Zero() <==> result == 0) && g.Subtraction() && g.HalfCarry() == SubHalfCarry(x, y, c)
    ensures g.Carry() == f.Carry() && SameLowNibble(g, f)
  {
    f.SetZero(result == 0).SetSubtraction(true).SetHalfCarry(SubHalfCarry(x, y, c))
  }

  /** The flag pattern of AND, OR and XOR: Z from the result, N clear, H as given, C clear. */
  function SetBitwiseFlags(f: Flags, result: bv8, halfCarry: bool): (g: Flags) {
    f.SetZero(result == 0).SetSubtraction(false).SetHalfCarry(halfCarry).SetCarry(false)
  }

  /** The flag pattern of the rotates and shifts: Z from the result, N and H clear, C as given. */
  function SetRotationFlags(f: Flags, result: bv8, carry: bool): (g: Flags) {
    f.SetZero(result == 0).SetSubtraction(false).SetHalfCarry(false).SetCarry(carry)
  }

  // ---- increment and decrement ----

  /** 8-bit increment: Z, N and H; C is left alone. */
  function Inc8(f: Flags, x: bv8): (r: (bv8, Flags))
    ensures r.0 == x + 1
    ensures r.1.Zero() <==> x == 0xFF
    ensures !r.1.Subtraction()
    ensures r.1.HalfCarry() <==> x & 0xF == 0xF
    ensures r.1.Carry() == f.Carry() && SameLowNibble(r.1, f)
  {
    var result := x + 1;
    (result, SetZeroSubtractionHalfCarryAdd(f, result, x, 1, 0))
  }

  /** 16-bit increment, wrapping (`bv16` addition is modulo 0x10000); no flags. */
  function Inc16(x: bv16): (r: bv16)
    ensures r == x + 1
    ensures r > x || (x == 0xFFFF && r == 0)
  {
    x + 1
  }

  /** 8-bit decrement: Z, N and H; C is left alone. */
  function Dec8(f: Flags, x: bv8): (r: (bv8, Flags))
    ensures r.0 == x - 1
    ensures r.1.Zero() <==> x == 1
    ensures r.1.Subtraction()
    ensures r.1.HalfCarry() <==> x & 0xF == 0
    ensures r.1.Carry() == f.Carry() && SameLowNibble(r.1, f)
  {
    var result := x - 1;
    (result, SetZeroSubtractionHalfCarrySub(f, result, x, 1, 0))
  }

  /** 16-bit decrement, wrapping (`bv16` subtraction is modulo 0x10000); no flags. */
  function Dec16(x: bv16): (r: bv16)
    ensures r == x - 1
    ensures r < x || (x == 0 && r == 0xFFFF)
  {
    x - 1
  }

  /** Increment and decrement undo each other. */
  lemma IncDec16Inverse(x: bv16)
    ensures Dec16(Inc16(x)) == x && Inc16(Dec16(x)) == x
  {
  }

  // ---- 8-bit addition and subtraction ----

  /** `x.overflowing_add(y)`. */
  function OverflowingAdd(x: bv8, y: bv8): (r: (bv8, bool)) {
    (x + y, (x as bv16) + (y as bv16) > 0xFF)
  }

  /** `x.overflowing_sub(y)`. */
  function OverflowingSub(x: bv8, y: bv8): (r: (bv8, bool)) {
    (x - y, x < y)
  }

  /** `overflowing_add` is undone by subtraction, and its flag reports exactly a sum that wrapped below `x`. */
  lemma OverflowingAddWraps(x: bv8, y: bv8)
    ensures OverflowingAdd(x, y).0 - y == x
    ensures OverflowingAdd(x, y).1 <==> OverflowingAdd(x, y).0 < x
  {
    var (r, carry) := OverflowingAdd(x, y);
    assert r - y == x;
  }

  /** `overflowing_sub` is undone by addition, and its flag reports exactly a difference that wrapped above `x`. */
  lemma OverflowingSubWraps(x: bv8, y: bv8)
    ensures OverflowingSub(x, y).0 + y == x
    ensures OverflowingSub(x, y).1 <==> OverflowingSub(x, y).0 > x
  {
    var (r, borrow) := OverflowingSub(x, y);
    assert r + y == x;
  }

  function Add8(f: Flags, x: bv8, y: bv8): (r: (bv8, Flags))
    ensures r.0 == x + y
    ensures r.1.Zero() <==> r.0 == 0
    ensures !r.1.Subtraction()
    ensures r.1.HalfCarry() <==> r.0 & 0xF < x & 0xF
    ensures r.1.Carry() <==> r.0 < x
    ensures SameLowNibble(r.1, f)
  {
    var (result, carry) := OverflowingAdd(x, y);
    (result, SetZeroSubtractionHalfCarryAdd(f, result, x, y, 0).SetCarry(carry))
  }

  /** Addition with the incoming carry added into the result and into both carry tests. */
  function Adc8(f: Flags, x: bv8, y: bv8): (r: (bv8, Flags))
    ensures r.0 == x + y + CarryIn(f)
    ensures r.1.Zero() <==> r.0 == 0
    ensures !r.1.Subtraction()
    ensures r.1.HalfCarry() == AddHalfCarry(x, y, CarryIn(f))
    ensures r.1.Carry() == AddCarry(x, y, CarryIn(f))
    ensures SameLowNibble(r.1, f)
  {
    var result := x + y + CarryIn(f);
    (result, SetZeroSubtractionHalfCarryAdd(f, result, x, y, CarryIn(f)).SetCarry(AddCarry(x, y, CarryIn(f))))
  }

  function Sub8(f: Flags, x: bv8, y: bv8): (r: (bv8, Flags))
    ensures r.0 == x - y
    ensures r.1.Zero() <==> x == y
    ensures r.1.Subtraction()
    ensures r.1.HalfCarry() <==> x & 0xF < y & 0xF
    ensures r.1.Carry() <==> x < y
    ensures SameLowNibble(r.1, f)
  {
    var (result, carry) := OverflowingSub(x, y);
    (result, SetZeroSubtractionHalfCarrySub(f, result, x, y, 0).SetCarry(carry))
  }

  /** Subtraction with the incoming carry subtracted as well and added to the subtrahend in both borrow tests. */
  function Sbc8(f: Flags, x: bv8, y: bv8): (r: (bv8, Flags))
    ensures r.0 == x - y - CarryIn(f)
    ensures r.1.Zero() <==> r.0 == 0
    ensures r.1.Subtraction()
    ensures r.1.HalfCarry() == SubHalfCarry(x, y, CarryIn(f))
    ensures r.1.Carry() == SubCarry(x, y, CarryIn(f))
    ensures SameLowNibble(r.1, f)
  {
    var result := x - y - CarryIn(f);
    (result, SetZeroSubtractionHalfCarrySub(f, result, x, y, CarryIn(f)).SetCarry(SubCarry(x, y, CarryIn(f))))
  }

  /** With the carry clear, ADC is ADD, result and flags alike. */
  lemma AdcWithoutCarry(f: Flags, x: bv8, y: bv8)
    requires !f.Carry()
    ensures Adc8(f, x, y) == Add8(f, x, y)
  {
    var (a, g) := Adc8(f, x, y);
    var (b, h) := Add8(f, x, y);
    assert a == b;
    assert g.HalfCarry() == h.HalfCarry() && g.Carry() == h.Carry();
    FlagsAgree(g, h);
  }

  /** With the carry clear, SBC is SUB, result and flags alike. */
  lemma SbcWithoutCarry(f: Flags, x: bv8, y: bv8)
    requires !f.Carry()
    ensures Sbc8(f, x, y) == Sub8(f, x, y)
  {
    var (a, g) := Sbc8(f, x, y);
    var (b, h) := Sub8(f, x, y);
    assert a == b;
    assert g.HalfCarry() == h.HalfCarry() && g.Carry() == h.Carry();
    FlagsAgree(g, h);
  }

  /** Flag bytes with the same four flags and the same low nibble are the same byte. */
  lemma FlagsAgree(f: Flags, g: Flags)
    requires SameLowNibble(f, g)
    requires f.Carry() == g.Carry() && f.HalfCarry() == g.HalfCarry()
    requires f.Subtraction() == g.Subtraction() && f.Zero() == g.Zero()
    ensures f == g
  {
  }

  // ---- 16-bit addition ----

  /** 16-bit addition: Z is kept, N cleared, H is the carry out of bit 11, C the carry out of bit 15. */
  function Add16(f: Flags, x: bv16, y: bv16): (r: (bv16, Flags))
    ensures r.0 == x + y
    ensures r.1.Zero() == f.Zero()
    ensures !r.1.Subtraction()
    ensures r.1.HalfCarry() <==> r.0 & 0xFFF < x & 0xFFF
    ensures r.1.Carry() <==> r.0 < x
    ensures SameLowNibble(r.1, f)
  {
    var result := x + y;
    var carry := (x as bv32) + (y as bv32) > 0xFFFF;
    var g := f.SetSubtraction(false).SetHalfCarry(((x & 0xFFF) + (y & 0xFFF)) & 0x1000 == 0x1000);
    (result, g.SetCarry(carry))
  }

  /** `y as i8 as i16 as u16`: the byte sign-extended to a word. */
  function SignExtend(y: bv8): (r: bv16)
    ensures r & 0xFF == y as bv16
    ensures r >> 8 == if y < 0x80 then 0 else 0xFF
  {
    if y < 0x80 then y as bv16 else (y as bv16) | 0xFF00
  }

  /**
   * SP plus a signed byte: the sum wraps at 16 bits, Z and N are cleared, and H and C come
   * from the unsigned addition of the low nibbles and of the low bytes.
   */
  function Add16WithSignedByteOperand(f: Flags, x: bv16, y: bv8): (r: (bv16, Flags))
    ensures r.0 == x + SignExtend(y)
    ensures !r.1.Zero() && !r.1.Subtraction()
    ensures r.1.HalfCarry() <==> r.0 & 0xF < x & 0xF
    ensures r.1.Carry() <==> r.0 & 0xFF < x & 0xFF
    ensures SameLowNibble(r.1, f)
  {
    var y16 := SignExtend(y);
    var g := f.SetZero(false).SetSubtraction(false);
    var g := g.SetHalfCarry((x & 0xF) + (y16 & 0xF) > 0xF);
    var g := g.SetCarry((x & 0xFF) + (y16 & 0xFF) > 0xFF);
    (x + y16, g)
  }

  // ---- bitwise operations ----

  /** AND: Z from the result, N and C cleared, H set. */
  function BitwiseAnd(f: Flags, x: bv8, y: bv8): (r: (bv8, Flags))
    ensures r.0 == x & y
    ensures (r.1.Zero() <==> r.0 == 0) && !r.1.Subtraction() && r.1.HalfCarry() && !r.1.Carry()
    ensures SameLowNibble(r.1, f)
  {
    var result := x & y;
    (result, SetBitwiseFlags(f, result, true))
  }

  /** OR: Z from the result, N, H and C cleared. */
  function BitwiseOr(f: Flags, x: bv8, y: bv8): (r: (bv8, Flags))
    ensures r.0 == x | y
    ensures (r.1.Zero() <==> r.0 == 0) && !r.1.Subtraction() && !r.1.HalfCarry() && !r.1.Carry()
    ensures SameLowNibble(r.1, f)
  {
    var result := x | y;
    (result, SetBitwiseFlags(f, result, false))
  }

  /** XOR: Z from the result, N, H and C cleared. */
  function BitwiseXor(f: Flags, x: bv8, y: bv8): (r: (bv8, Flags))
    ensures r.0 == x ^ y
    ensures (r.1.Zero() <==> x == y) && !r.1.Subtraction() && !r.1.HalfCarry() && !r.1.Carry()
    ensures SameLowNibble(r.1, f)
  {
    var result := x ^ y;
    (result, SetBitwiseFlags(f, result, false))
  }

  /** Complement: N and H set, Z and C kept. */
  function BitwiseNot(f: Flags, x: bv8): (r: (bv8, Flags))
    ensures r.0 as int == 255 - x as int
    ensures r.1.Subtraction() && r.1.HalfCarry() && r.1.Zero() == f.Zero() && r.1.Carry() == f.Carry()
    ensures SameLowNibble(r.1, f)
  {
    (!x, f.SetSubtraction(true).SetHalfCarry(true))
  }

  // ---- rotates and shifts ----

  /** Circular left rotate; the old bit 7 goes to bit 0 and to C. */
  function RotateLeft(f: Flags, x: bv8): (r: (bv8, Flags))
    ensures r.0 == x.RotateLeft(1)
    ensures r.1.Carry() == GetBit(x, 7)
    ensures (r.1.Zero() <==> x == 0) && !r.1.Subtraction() && !r.1.HalfCarry()
    ensures SameLowNibble(r.1, f)
  {
    var carryBit := GetBit(x, 7);
    var shifted := ModifyBit(x << 1, 0, carryBit);
    (shifted, SetRotationFlags(f, shifted, carryBit))
  }

  /** Left rotate through the carry: the old C enters at bit 0, the old bit 7 goes to C. */
  function RotateLeftThroughCarryFlag(f: Flags, x: bv8): (r: (bv8, Flags))
    ensures r.0 == (x << 1) | CarryIn(f)
    ensures r.1.Carry() == GetBit(x, 7)
    ensures (r.1.Zero() <==> r.0 == 0) && !r.1.Subtraction() && !r.1.HalfCarry()
    ensures SameLowNibble(r.1, f)
  {
    var carryBit := GetBit(x, 7);
    var shifted := ModifyBit(x << 1, 0, f.Carry());
    (shifted, SetRotationFlags(f, shifted, carryBit))
  }

  /** Left shift: 0 enters at bit 0, the old bit 7 goes to C. */
  function ShiftLeft(f: Flags, x: bv8): (r: (bv8, Flags))
    ensures r.0 == x + x
    ensures r.1.Carry() == GetBit(x, 7)
    ensures (r.1.Zero() <==> x & 0x7F == 0) && !r.1.Subtraction() && !r.1.HalfCarry()
    ensures SameLowNibble(r.1, f)
  {
    var carryBit := GetBit(x, 7);
    var shifted := x << 1;
    (shifted, SetRotationFlags(f, shifted, carryBit))
  }

  /** Circular right rotate; the old bit 0 goes to bit 7 and to C. */
  function RotateRight(f: Flags, x: bv8): (r: (bv8, Flags))
    ensures r.0 == x.RotateRight(1)
    ensures r.1.Carry() == GetBit(x, 0)
    ensures (r.1.Zero() <==> x == 0) && !r.1.Subtraction() && !r.1.HalfCarry()
    ensures SameLowNibble(r.1, f)
  {
    var carryBit := GetBit(x, 0);
    var shifted := ModifyBit(x >> 1, 7, carryBit);
    (shifted, SetRotationFlags(f, shifted, carryBit))
  }

  /** Right rotate through the carry: the old C enters at bit 7, the old bit 0 goes to C. */
  function RotateRightThroughCarryFlag(f: Flags, x: bv8): (r: (bv8, Flags))
    ensures r.0 == (x >> 1) | (CarryIn(f) << 7)
    ensures r.1.Carry() == GetBit(x, 0)
    ensures (r.1.Zero() <==> r.0 == 0) && !r.1.Subtraction() && !r.1.HalfCarry()
    ensures SameLowNibble(r.1, f)
  {
    var carryBit := GetBit(x, 0);
    var shifted := ModifyBit(x >> 1, 7, f.Carry());
    (shifted, SetRotationFlags(f, shifted, carryBit))
  }

  /** Arithmetic right shift: bit 7 is kept, so the signed value is halved rounding down. */
  function ShiftRightLeaveMsb(f: Flags, x: bv8): (r: (bv8, Flags))
    ensures r.0 & 0x80 == x & 0x80 && r.0 & 0x7F == x >> 1
    ensures r.1.Carry() == GetBit(x, 0)
    ensures (r.1.Zero() <==> x <= 1) && !r.1.Subtraction() && !r.1.HalfCarry()
    ensures SameLowNibble(r.1, f)
  {
    var carryBit := GetBit(x, 0);
    var mostSigBit := GetBit(x, 7);
    var shifted := ModifyBit(x >> 1, 7, mostSigBit);
    (shifted, SetRotationFlags(f, shifted, carryBit))
  }

  /** The arithmetic shift halves the signed value, rounding towards minus infinity. */
  lemma ShiftRightHalvesSigned(f: Flags, x: bv8)
    ensures Signed(ShiftRightLeaveMsb(f, x).0) == Signed(x) / 2
  {
    var r := ShiftRightLeaveMsb(f, x).0;
    if x < 0x80 {
      assert r == x >> 1;
      assert (x >> 1) as int == x as int / 2;
    } else {
      assert r == (x >> 1) | 0x80 && r >= 0x80;
      assert ((x >> 1) | 0x80) as int == x as int / 2 + 128;
    }
  }

  /** Logical right shift: 0 enters at bit 7. */
  function ShiftRightClearMsb(f: Flags, x: bv8): (r: (bv8, Flags))
    ensures r.0 < 0x80 && r.0 as int == x as int / 2
    ensures r.1.Carry() == GetBit(x, 0)
    ensures (r.1.Zero() <==> x <= 1) && !r.1.Subtraction() && !r.1.HalfCarry()
    ensures SameLowNibble(r.1, f)
  {
    var carryBit := GetBit(x, 0);
    var shifted := x >> 1;
    (shifted, SetRotationFlags(f, shifted, carryBit))
  }

  /** A rotate left undoes a rotate right, through the carry as well as without it. */
  lemma RotatesUndo(f: Flags, x: bv8)
    ensures RotateLeft(RotateRight(f, x).1, RotateRight(f, x).0).0 == x
    ensures RotateLeftThroughCarryFlag(RotateRightThroughCarryFlag(f, x).1, RotateRightThroughCarryFlag(f, x).0).0 == x
  {
  }

  /** The source's rotation test: 0b11001100 rotates to 0b10011001 with only C set. */
  lemma RotateLeftExample()
    ensures RotateLeft(DefaultFlags, 0xCC) == (0x99, NewFlags(true, false, false, false))
  {
    FlagsAgree(RotateLeft(DefaultFlags, 0xCC).1, NewFlags(true, false, false, false));
  }

  // ---- bit test, nibble swap, decimal adjust ----

  /** BIT: Z is set iff the bit is clear, N cleared, H set, C kept; the operand is not written. */
  function TestBit(f: Flags, value: bv8, bit: bv8): (g: Flags)
    requires bit < 8
    ensures g.Zero() <==> (value >> bit) & 1 == 0
    ensures !g.Subtraction() && g.HalfCarry() && g.Carry() == f.Carry()
    ensures SameLowNibble(g, f)
  {
    var isSet := GetBit(value, bit);
    f.SetZero(!isSet).SetSubtraction(false).SetHalfCarry(true)
  }

  /** SWAP: the nibbles trade places; Z from the value, N, H and C cleared. */
  function SwapNibbles(f: Flags, value: bv8): (r: (bv8, Flags))
    ensures r.0 >> 4 == value & 0x0F && r.0 & 0x0F == value >> 4
    ensures (r.1.Zero() <==> value == 0) && !r.1.Subtraction() && !r.1.HalfCarry() && !r.1.Carry()
    ensures SameLowNibble(r.1, f)
  {
    var g := SetBitwiseFlags(f, value, false);
    var upper := value >> 4;
    var lower := value & 0x0F;
    ((lower << 4) + upper, g)
  }

  /** Swapping twice gives the value back. */
  lemma SwapInvolution(f: Flags, value: bv8)
    ensures SwapNibbles(SwapNibbles(f, value).1, SwapNibbles(f, value).0).0 == value
  {
  }

  /** The source's swap test. */
  lemma SwapExample()
    ensures SwapNibbles(NewFlags(true, true, true, false), 0xAB) == (0xBA, DefaultFlags)
    ensures SwapNibbles(DefaultFlags, 0).1.Zero()
  {
    FlagsAgree(SwapNibbles(NewFlags(true, true, true, false), 0xAB).1, DefaultFlags);
  }

  /**
   * DAA: corrects A into packed BCD after an addition or subtraction; N is kept, H cleared,
   * and C reports whether the high digit was corrected.
   */
  function Daa(f: Flags, value: bv8): (r: (bv8, Flags))
    ensures r.0 == DecimalAdjust(f.Subtraction(), f.HalfCarry(), f.Carry(), value).0
    ensures r.1.Subtraction() == f.Subtraction()
    ensures !r.1.HalfCarry()
    ensures r.1.Zero() <==> r.0 == 0
    ensures r.1.Carry() <==> f.Carry() || (!f.Subtraction() && value > 0x99)
    ensures SameLowNibble(r.1, f)
  {
    (DecimalAdjust(f.Subtraction(), f.HalfCarry(), f.Carry(), value).0,
     f.SetZero(DecimalAdjust(f.Subtraction(), f.HalfCarry(), f.Carry(), value).0 == 0)
      .SetHalfCarry(false)
      .SetCarry(DecimalAdjust(f.Subtraction(), f.HalfCarry(), f.Carry(), value).1))
  }

  /** A value that is already packed BCD after an addition with no carries is left unchanged. */
  lemma DaaKeepsValidBcd(f: Flags, value: bv8)
    requires !f.Subtraction() && !f.HalfCarry() && !f.Carry()
    requires value & 0xF <= 9 && value >> 4 <= 9
    ensures Daa(f, value).0 == value
  {
  }

  /**
   * ADD followed by DAA adds two packed-BCD numbers: the result is the decimal sum's two
   * digits and C is the decimal carry.
   */
  lemma {:induction false} DaaAfterAdd(f: Flags, x: bv8, y: bv8)
    requires IsBcd(x) && IsBcd(y)
    ensures Daa(Add8(f, x, y).1, Add8(f, x, y).0).0 == BcdAdd(x, y).0
    ensures Daa(Add8(f, x, y).1, Add8(f, x, y).0).1.Carry() == BcdAdd(x, y).1
  {
    NibbleCarry(x, y);
    AdjustAfterAdd(x, y);
  }

  /**
   * SUB followed by DAA subtracts two packed-BCD numbers: the result is the decimal
   * difference's two digits (modulo 100) and C is the decimal borrow.
   */
  lemma {:induction false} DaaAfterSub(f: Flags, x: bv8, y: bv8)
    requires IsBcd(x) && IsBcd(y)
    ensures Daa(Sub8(f, x, y).1, Sub8(f, x, y).0).0 == BcdSub(x, y).0
    ensures Daa(Sub8(f, x, y).1, Sub8(f, x, y).0).1.Carry() == BcdSub(x, y).1
  {
    AdjustAfterSub(x, y);
  }

  /** The wrapped low nibble of a sum is smaller than the first operand's exactly when the nibbles overflow. */
  lemma NibbleCarry(x: bv8, y: bv8)
    ensures ((x + y) & 0xF < x & 0xF) == ((x & 0xF) + (y & 0xF) > 0xF)
  {
  }

  // ---- the source's test vectors ----

  /** Results and flags of the source's 8-bit addition and subtraction tests. */
  lemma ArithmeticExamples()
    ensures Add8(DefaultFlags, 0, 0) == (0, NewFlags(false, false, false, true))
    ensures Add8(DefaultFlags, 15, 1) == (16, NewFlags(false, true, false, false))
    ensures Add8(DefaultFlags, 255, 1) == (0, NewFlags(true, true, false, true))
    ensures Add8(DefaultFlags, 200, 200) == (144, NewFlags(true, true, false, false))
    ensures Adc8(NewFlags(true, false, false, false), 200, 55) == (0, NewFlags(true, true, false, true))
    ensures Sub8(DefaultFlags, 50, 100) == (206, NewFlags(true, true, true, false))
    ensures Sbc8(NewFlags(true, false, false, false), 1, 0) == (0, NewFlags(false, false, true, true))
  {
    FlagsAgree(Add8(DefaultFlags, 0, 0).1, NewFlags(false, false, false, true));
    FlagsAgree(Add8(DefaultFlags, 15, 1).1, NewFlags(false, true, false, false));
    FlagsAgree(Add8(DefaultFlags, 255, 1).1, NewFlags(true, true, false, true));
    FlagsAgree(Add8(DefaultFlags, 200, 200).1, NewFlags(true, true, false, false));
    FlagsAgree(Adc8(NewFlags(true, false, false, false), 200, 55).1, NewFlags(true, true, false, true));
    FlagsAgree(Sub8(DefaultFlags, 50, 100).1, NewFlags(true, true, true, false));
    FlagsAgree(Sbc8(NewFlags(true, false, false, false), 1, 0).1, NewFlags(false, false, true, true));
  }

  /** The source's 16-bit addition test: Z stays set, H and C as listed. */
  lemma Add16Examples()
    ensures Add16(NewFlags(false, false, false, true), 4095, 5) == (4100, NewFlags(false, true, false, true))
    ensures Add16(NewFlags(false, false, false, true), 30500, 60500) == (25464, NewFlags(true, true, false, true))
  {
    FlagsAgree(Add16(NewFlags(false, false, false, true), 4095, 5).1, NewFlags(false, true, false, true));
    FlagsAgree(Add16(NewFlags(false, false, false, true), 30500, 60500).1, NewFlags(true, true, false, true));
  }

  /** The source's bitwise tests, each starting from C, H and N set: results, and H set only by AND. */
  lemma BitwiseExamples()
    ensures BitwiseAnd(NewFlags(true, true, true, false), 0, 0) == (0, NewFlags(false, true, false, true))
    ensures BitwiseAnd(NewFlags(true, true, true, false), 0x4A, 0x45) == (0x40, NewFlags(false, true, false, false))
    ensures BitwiseOr(NewFlags(true, true, true, false), 0x0A, 0x26) == (0x2E, NewFlags(false, false, false, false))
    ensures BitwiseXor(NewFlags(true, true, true, false), 0x1F, 0x14) == (0x0B, NewFlags(false, false, false, false))
    ensures BitwiseNot(NewFlags(true, false, false, true), 0x2A) == (0xD5, NewFlags(true, true, true, true))
  {
    var f := NewFlags(true, true, true, false);
    FlagsAgree(BitwiseAnd(f, 0, 0).1, NewFlags(false, true, false, true));
    FlagsAgree(BitwiseAnd(f, 0x4A, 0x45).1, NewFlags(false, true, false, false));
    FlagsAgree(BitwiseOr(f, 0x0A, 0x26).1, NewFlags(false, false, false, false));
    FlagsAgree(BitwiseXor(f, 0x1F, 0x14).1, NewFlags(false, false, false, false));
    FlagsAgree(BitwiseNot(NewFlags(true, false, false, true), 0x2A).1, NewFlags(true, true, true, true));
  }
}
