/**
 * Single-bit and bit-field helpers over bytes, used by every register type of the emulator.
 * Bit numbers are bytes, as in the source; shifting a byte by 8 or more panics there, hence the
 * `bit < 8` preconditions.
 */
module Bits {

  /** Whether bit `bit` of `value` is 1. */
  predicate GetBit(value: bv8, bit: bv8)
    requires bit < 8
  {
    (value & (1 << bit)) != 0
  }

  /** `value` with bit `bit` forced to `setTo`; the other seven bits are kept. */
  function ModifyBit(value: bv8, bit: bv8, setTo: bool): (r: bv8)
    requires bit < 8
    ensures GetBit(r, bit) == setTo
    ensures r & !(1 << bit) == value & !(1 << bit)
  {
    var mask: bv8 := 1 << bit;
    if setTo then value | mask else value & !mask
  }

  /** `value` with bit `bit` inverted; the other seven bits are kept. */
  function ToggleBit(value: bv8, bit: bv8): (r: bv8)
    requires bit < 8
    ensures GetBit(r, bit) == !GetBit(value, bit)
    ensures r & !(1 << bit) == value & !(1 << bit)
  {
    var mask: bv8 := 1 << bit;
    value ^ mask
  }

  /**
   * The bits from `fromInclusive` up to (not including) `toExclusive`, moved down to bit 0.
   * The mask is `2_u8.pow(width) - 1` in the source, which overflows for a width of 8; here it is
   * the same number written as a shift.
   */
  function GetBits(value: bv8, fromInclusive: bv8, toExclusive: bv8): (r: bv8)
    requires fromInclusive <= toExclusive && toExclusive - fromInclusive <= 7 && fromInclusive < 8
    ensures r < 1 << (toExclusive - fromInclusive)
    ensures forall j: bv8 :: j < toExclusive - fromInclusive && fromInclusive + j < 8 ==>
              GetBit(r, j) == GetBit(value, fromInclusive + j)
    ensures forall j: bv8 :: j < 8 && (j >= toExclusive - fromInclusive || fromInclusive + j >= 8) ==> !GetBit(r, j)
  {
    var width := toExclusive - fromInclusive;
    var mask: bv8 := (1 << width) - 1;
    (value >> fromInclusive) & mask
  }

  /** Two bytes are equal when all eight of their bits are. */
  lemma BitsDetermineByte(x: bv8, y: bv8)
    requires forall j: bv8 :: j < 8 ==> GetBit(x, j) == GetBit(y, j)
    ensures x == y
  {
    assert GetBit(x, 0) == GetBit(y, 0) && GetBit(x, 1) == GetBit(y, 1);
    assert GetBit(x, 2) == GetBit(y, 2) && GetBit(x, 3) == GetBit(y, 3);
    assert GetBit(x, 4) == GetBit(y, 4) && GetBit(x, 5) == GetBit(y, 5);
    assert GetBit(x, 6) == GetBit(y, 6) && GetBit(x, 7) == GetBit(y, 7);
  }

  /** Reading back the bit a setter wrote gives the written value, and writing it again changes nothing. */
  lemma SetThenGet(value: bv8, bit: bv8, setTo: bool)
    requires bit < 8
    ensures GetBit(ModifyBit(value, bit, setTo), bit) == setTo
    ensures ModifyBit(ModifyBit(value, bit, setTo), bit, setTo) == ModifyBit(value, bit, setTo)
  {
    var once := ModifyBit(value, bit, setTo);
    BitsDetermineByte(ModifyBit(once, bit, setTo), once);
  }

  /** Writing one bit leaves every other bit as it was. */
  lemma ModifyKeepsOtherBits(value: bv8, bit: bv8, setTo: bool, j: bv8)
    requires bit < 8 && j < 8 && j != bit
    ensures GetBit(ModifyBit(value, bit, setTo), j) == GetBit(value, j)
  {
    var keep: bv8 := !(1 << bit);
    var probe: bv8 := 1 << j;
    assert probe & keep == probe;
  }

  /** Toggling the same bit twice restores the byte. */
  lemma ToggleTwice(value: bv8, bit: bv8)
    requires bit < 8
    ensures ToggleBit(ToggleBit(value, bit), bit) == value
  {
    BitsDetermineByte(ToggleBit(ToggleBit(value, bit), bit), value);
  }

  /** Setting a bit to the value it already has changes nothing. */
  lemma ModifyToSame(value: bv8, bit: bv8)
    requires bit < 8
    ensures ModifyBit(value, bit, GetBit(value, bit)) == value
  {
    BitsDetermineByte(ModifyBit(value, bit, GetBit(value, bit)), value);
  }

  /** The two test vectors of the source's unit test. */
  lemma GetBitsExamples()
    ensures GetBits(0x1C, 1, 4) == 0x06
    ensures GetBits(1, 0, 0) == 0
  {
  }
}
