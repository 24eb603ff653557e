/**
 * Packed binary-coded decimal: the adjustment DAA applies, and a digit-by-digit reference for
 * decimal addition and subtraction, with the proof that the adjustment turns the binary sum or
 * difference of two BCD bytes into the decimal one. Kept free of the flags type so the
 * bit-vector proofs stay small.
 */
module Decimal {

  /**
   * The value DAA leaves and whether it applied the high correction. The low correction 6 is
   * applied when H is set or (after an addition) the low nibble exceeds 9, the high correction
   * 0x60 when C is set or (after an addition) the value exceeds 0x99; both are added after an
   * addition and subtracted after a subtraction.
   */
  function DecimalAdjust(subtraction: bool, halfCarry: bool, carry: bool, value: bv8): (r: (bv8, bool))
    ensures r.1 == (carry || (!subtraction && value > 0x99))
  {
    var low: bv8 := if halfCarry || (!subtraction && value & 0xF > 9) then 0x6 else 0;
    var high: bv8 := if carry || (!subtraction && value > 0x99) then 0x60 else 0;
    var correction := low | high;
    (if subtraction then value - correction else value + correction, high != 0)
  }

  /** A byte holding two decimal digits. */
  predicate IsBcd(x: bv8) {
    x & 0xF <= 9 && x >> 4 <= 9
  }

  /** Reference decimal addition of two packed-BCD bytes, digit by digit; the flag is the carry out of the tens. */
  function BcdAdd(x: bv8, y: bv8): (r: (bv8, bool))
    requires IsBcd(x) && IsBcd(y)
  {
    var ones := (x & 0xF) + (y & 0xF);
    var tens := (x >> 4) + (y >> 4) + (if ones >= 10 then 1 else 0);
    var onesDigit := if ones >= 10 then ones - 10 else ones;
    var tensDigit := if tens >= 10 then tens - 10 else tens;
    ((tensDigit << 4) | onesDigit, tens >= 10)
  }

  /** Reference decimal subtraction of two packed-BCD bytes, digit by digit; the flag is the borrow out of the tens. */
  function BcdSub(x: bv8, y: bv8): (r: (bv8, bool))
    requires IsBcd(x) && IsBcd(y)
  {
    var onesBorrow := x & 0xF < y & 0xF;
    var onesDigit := if onesBorrow then (x & 0xF) + 10 - (y & 0xF) else (x & 0xF) - (y & 0xF);
    var subtrahend := (y >> 4) + (if onesBorrow then 1 else 0);
    var tensDigit := if x >> 4 < subtrahend then (x >> 4) + 10 - subtrahend else (x >> 4) - subtrahend;
    ((tensDigit << 4) | onesDigit, x >> 4 < subtrahend)
  }

  /**
   * Adjusting the binary sum of two BCD bytes, with the half carry and carry of that sum, gives
   * their decimal sum and the decimal carry.
   */
  lemma {:induction false} AdjustAfterAdd(x: bv8, y: bv8)
    requires IsBcd(x) && IsBcd(y)
    ensures DecimalAdjust(false, (x & 0xF) + (y & 0xF) > 0xF, x + y < x, x + y) == BcdAdd(x, y)
  {
    if (x & 0xF) + (y & 0xF) >= 10 {
      AdjustAfterAddOnesCarry(x, y);
    } else {
      AdjustAfterAddNoOnesCarry(x, y);
    }
  }

  lemma AdjustAfterAddOnesCarry(x: bv8, y: bv8)
    requires IsBcd(x) && IsBcd(y) && (x & 0xF) + (y & 0xF) >= 10
    ensures DecimalAdjust(false, (x & 0xF) + (y & 0xF) > 0xF, x + y < x, x + y) == BcdAdd(x, y)
  {
    var ones := (x & 0xF) + (y & 0xF);
    AdjustUnfold(false, ones > 0xF, x + y < x, x + y);
    BcdAddUnfold(x, y, ones, (x >> 4) + (y >> 4) + 1);
    DecimalAddBitsOnesCarry(x, y);
  }

  lemma AdjustAfterAddNoOnesCarry(x: bv8, y: bv8)
    requires IsBcd(x) && IsBcd(y) && (x & 0xF) + (y & 0xF) < 10
    ensures DecimalAdjust(false, false, x + y < x, x + y) == BcdAdd(x, y)
  {
    AdjustUnfold(false, false, x + y < x, x + y);
    BcdAddUnfold(x, y, (x & 0xF) + (y & 0xF), (x >> 4) + (y >> 4));
    DecimalAddBitsNoOnesCarry(x, y);
  }

  /**
   * Adjusting the binary difference of two BCD bytes, with the half borrow and borrow of that
   * difference, gives their decimal difference and the decimal borrow.
   */
  lemma {:induction false} AdjustAfterSub(x: bv8, y: bv8)
    requires IsBcd(x) && IsBcd(y)
    ensures DecimalAdjust(true, x & 0xF < y & 0xF, x < y, x - y) == BcdSub(x, y)
  {
    if x & 0xF < y & 0xF {
      AdjustAfterSubOnesBorrow(x, y);
    } else {
      AdjustAfterSubNoOnesBorrow(x, y);
    }
  }

  lemma AdjustAfterSubOnesBorrow(x: bv8, y: bv8)
    requires IsBcd(x) && IsBcd(y) && x & 0xF < y & 0xF
    ensures DecimalAdjust(true, true, x < y, x - y) == BcdSub(x, y)
  {
    AdjustUnfold(true, true, x < y, x - y);
    BcdSubUnfold(x, y, true, (y >> 4) + 1);
    DecimalSubBitsOnesBorrow(x, y);
  }

  lemma AdjustAfterSubNoOnesBorrow(x: bv8, y: bv8)
    requires IsBcd(x) && IsBcd(y) && x & 0xF >= y & 0xF
    ensures DecimalAdjust(true, false, x < y, x - y) == BcdSub(x, y)
  {
    if x < y {
      AdjustAfterSubTensBorrowOnly(x, y);
    } else {
      AdjustAfterSubNoBorrow(x, y);
    }
  }

  lemma AdjustAfterSubTensBorrowOnly(x: bv8, y: bv8)
    requires IsBcd(x) && IsBcd(y) && x & 0xF >= y & 0xF && x < y
    ensures DecimalAdjust(true, false, true, x - y) == BcdSub(x, y)
  {
    AdjustUnfold(true, false, true, x - y);
    BcdSubUnfold(x, y, false, y >> 4);
    DecimalSubBitsTensBorrowOnly(x, y);
  }

  lemma AdjustAfterSubNoBorrow(x: bv8, y: bv8)
    requires IsBcd(x) && IsBcd(y) && x & 0xF >= y & 0xF && x >= y
    ensures DecimalAdjust(true, false, false, x - y) == BcdSub(x, y)
  {
    AdjustUnfold(true, false, false, x - y);
    BcdSubUnfold(x, y, false, y >> 4);
    DecimalSubBitsNoBorrow(x, y);
  }

  // The two proofs above are split into one unfolding per function and one quantifier-free
  // bit-vector fact, which the solver settles by itself.

  lemma AdjustUnfold(subtraction: bool, halfCarry: bool, carry: bool, value: bv8)
    ensures DecimalAdjust(subtraction, halfCarry, carry, value) ==
      (var correction: bv8 := (if halfCarry || (!subtraction && value & 0xF > 9) then 0x6 else 0)
                             | (if carry || (!subtraction && value > 0x99) then 0x60 else 0);
       (if subtraction then value - correction else value + correction, carry || (!subtraction && value > 0x99)))
  {
  }

  lemma BcdAddUnfold(x: bv8, y: bv8, ones: bv8, tens: bv8)
    requires IsBcd(x) && IsBcd(y)
    requires ones == (x & 0xF) + (y & 0xF) && tens == (x >> 4) + (y >> 4) + (if ones >= 10 then 1 else 0)
    ensures BcdAdd(x, y) == (((if tens >= 10 then tens - 10 else tens) << 4) | (if ones >= 10 then ones - 10 else ones), tens >= 10)
  {
  }

  lemma BcdSubUnfold(x: bv8, y: bv8, onesBorrow: bool, subtrahend: bv8)
    requires IsBcd(x) && IsBcd(y)
    requires onesBorrow == (x & 0xF < y & 0xF) && subtrahend == (y >> 4) + (if onesBorrow then 1 else 0)
    ensures BcdSub(x, y) ==
      (((if x >> 4 < subtrahend then (x >> 4) + 10 - subtrahend else (x >> 4) - subtrahend) << 4)
        | (if onesBorrow then (x & 0xF) + 10 - (y & 0xF) else (x & 0xF) - (y & 0xF)), x >> 4 < subtrahend)
  {
  }

  lemma DecimalAddBitsOnesCarry(x: bv8, y: bv8)
    requires x & 0xF <= 9 && x >> 4 <= 9 && y & 0xF <= 9 && y >> 4 <= 9 && (x & 0xF) + (y & 0xF) >= 10
    ensures
      var tens := (x >> 4) + (y >> 4) + 1;
      (x + y) + (0x6 | (if x + y < x || x + y > 0x99 then 0x60 else 0))
        == ((if tens >= 10 then tens - 10 else tens) << 4) | ((x & 0xF) + (y & 0xF) - 10)
      && ((x + y < x || x + y > 0x99) == (tens >= 10))
  {
  }

  lemma DecimalAddBitsNoOnesCarry(x: bv8, y: bv8)
    requires x & 0xF <= 9 && x >> 4 <= 9 && y & 0xF <= 9 && y >> 4 <= 9 && (x & 0xF) + (y & 0xF) < 10
    ensures
      var tens := (x >> 4) + (y >> 4);
      (x + y) + (if x + y < x || x + y > 0x99 then 0x60 else 0)
        == ((if tens >= 10 then tens - 10 else tens) << 4) | ((x & 0xF) + (y & 0xF))
      && ((x + y < x || x + y > 0x99) == (tens >= 10))
      && (x + y) & 0xF <= 9
  {
  }

  lemma DecimalSubBitsOnesBorrow(x: bv8, y: bv8)
    requires x & 0xF <= 9 && x >> 4 <= 9 && y & 0xF <= 9 && y >> 4 <= 9 && x & 0xF < y & 0xF
    ensures
      var subtrahend := (y >> 4) + 1;
      (x - y) - (0x6 | (if x < y then 0x60 else 0)) ==
        ((if x >> 4 < subtrahend then (x >> 4) + 10 - subtrahend else (x >> 4) - subtrahend) << 4)
        | ((x & 0xF) + 10 - (y & 0xF))
      && (x < y) == (x >> 4 < subtrahend)
  {
  }

  lemma DecimalSubBitsTensBorrowOnly(x: bv8, y: bv8)
    requires x & 0xF <= 9 && x >> 4 <= 9 && y & 0xF <= 9 && y >> 4 <= 9 && x & 0xF >= y & 0xF && x < y
    ensures (x - y) - 0x60 == (((x >> 4) + 10 - (y >> 4)) << 4) | ((x & 0xF) - (y & 0xF))
    ensures x >> 4 < y >> 4
  {
  }

  lemma DecimalSubBitsNoBorrow(x: bv8, y: bv8)
    requires x & 0xF <= 9 && x >> 4 <= 9 && y & 0xF <= 9 && y >> 4 <= 9 && x & 0xF >= y & 0xF && x >= y
    ensures x - y == (((x >> 4) - (y >> 4)) << 4) | ((x & 0xF) - (y & 0xF))
    ensures x >> 4 >= y >> 4
  {
  }
}
