/**
 * The CPU register file: A, the flags byte F, B, C, D, E, H, L, the stack pointer and the
 * program counter, with the 16-bit pair views BC, DE, HL and AF.
 */
module Registers {
  import opened Bits

  /**
   * The flags byte. Carry is bit 4, half carry bit 5, subtraction bit 6 and zero bit 7.
   * Each accessor reads or rewrites one bit of the byte; the setters return the updated byte,
   * which the owner stores back in place of the old one.
   */
  datatype Flags = Flags(bits: bv8) {
    predicate Carry() { GetBit(bits, 4) }
    predicate HalfCarry() { GetBit(bits, 5) }
    predicate Subtraction() { GetBit(bits, 6) }
    predicate Zero() { GetBit(bits, 7) }

    function SetCarry(v: bool): (r: Flags)
      ensures r.Carry() == v && r.HalfCarry() == HalfCarry()
      ensures r.Subtraction() == Subtraction() && r.Zero() == Zero()
      ensures r.bits & 0x0F == bits & 0x0F
    {
      Flags(ModifyBit(bits, 4, v))
    }

    function SetHalfCarry(v: bool): (r: Flags)
      ensures r.HalfCarry() == v && r.Carry() == Carry()
      ensures r.Subtraction() == Subtraction() && r.Zero() == Zero()
      ensures r.bits & 0x0F == bits & 0x0F
    {
      Flags(ModifyBit(bits, 5, v))
    }

    function SetSubtraction(v: bool): (r: Flags)
      ensures r.Subtraction() == v && r.Carry() == Carry()
      ensures r.HalfCarry() == HalfCarry() && r.Zero() == Zero()
      ensures r.bits & 0x0F == bits & 0x0F
    {
      Flags(ModifyBit(bits, 6, v))
    }

    function SetZero(v: bool): (r: Flags)
      ensures r.Zero() == v && r.Carry() == Carry()
      ensures r.HalfCarry() == HalfCarry() && r.Subtraction() == Subtraction()
      ensures r.bits & 0x0F == bits & 0x0F
    {
      Flags(ModifyBit(bits, 7, v))
    }

    /** Only the carry flag has a toggle accessor. */
    function ToggleCarry(): (r: Flags)
      ensures r.Carry() == !Carry() && r.HalfCarry() == HalfCarry()
      ensures r.Subtraction() == Subtraction() && r.Zero() == Zero()
      ensures r.bits & 0x0F == bits & 0x0F
    {
      Flags(ToggleBit(bits, 4))
    }
  }

  /** `Flags::default()`: every bit clear. */
  const DefaultFlags := Flags(0)

  /** `Flags::new(c, h, n, z)`: the four flag bits set as given, the low nibble clear. */
  function NewFlags(c: bool, h: bool, n: bool, z: bool): (r: Flags)
    ensures r.Carry() == c && r.HalfCarry() == h && r.Subtraction() == n && r.Zero() == z
    ensures r.bits & 0x0F == 0
  {
    DefaultFlags.SetCarry(c).SetHalfCarry(h).SetSubtraction(n).SetZero(z)
  }

  /** The byte layout of the flags: Z is 0x80, N 0x40, H 0x20 and C 0x10, and the low nibble is 0. */
  lemma FlagsLayout(c: bool, h: bool, n: bool, z: bool)
    ensures NewFlags(c, h, n, z).bits ==
              (if z then 0x80 else 0) | (if n then 0x40 else 0) | (if h then 0x20 else 0) | (if c then 0x10 else 0)
  {
    var expected: bv8 := (if z then 0x80 else 0) | (if n then 0x40 else 0) | (if h then 0x20 else 0) | (if c then 0x10 else 0);
    FlagsDeterminedByFourBits(NewFlags(c, h, n, z), Flags(expected));
  }

  /** Two flag bytes whose low nibbles are clear are equal when their four flags are. */
  lemma FlagsDeterminedByFourBits(f: Flags, g: Flags)
    requires f.bits & 0x0F == 0 && g.bits & 0x0F == 0
    requires f.Carry() == g.Carry() && f.HalfCarry() == g.HalfCarry()
    requires f.Subtraction() == g.Subtraction() && f.Zero() == g.Zero()
    ensures f == g
  {
  }

  /** `u16::from_be_bytes([hi, lo])`. */
  function FromBeBytes(hi: bv8, lo: bv8): (r: bv16)
    ensures r == ((hi as bv16) << 8) | (lo as bv16)
  {
    ((hi as bv16) << 8) | (lo as bv16)
  }

  /** The high byte of `value.to_be_bytes()`. */
  function HighByte(value: bv16): (r: bv8)
    ensures r as bv16 == value >> 8
  {
    (value >> 8) as bv8
  }

  /** The low byte of `value.to_be_bytes()`. */
  function LowByte(value: bv16): (r: bv8)
    ensures r as bv16 == value & 0xFF
  {
    (value & 0xFF) as bv8
  }

  /** Splitting a word into its two bytes and joining them again gives the word back. */
  lemma BytesRoundTrip(value: bv16, hi: bv8, lo: bv8)
    ensures FromBeBytes(HighByte(value), LowByte(value)) == value
    ensures HighByte(FromBeBytes(hi, lo)) == hi && LowByte(FromBeBytes(hi, lo)) == lo
  {
  }

  /** The ten registers as a value: what a `Registers` object holds at one moment. */
  datatype RegisterFile = RegisterFile(a: bv8, flags: Flags, b: bv8, c: bv8, d: bv8, e: bv8,
                                       h: bv8, l: bv8, sp: bv16, pc: bv16)

  /** 8-bit register by index: 0..5 are B, C, D, E, H, L, 6 the raw flags byte, 7 A. Other indices panic. */
  function Get8(r: RegisterFile, index: bv8): (v: bv8)
    requires index < 8
    ensures index == 0 ==> v == r.b
    ensures index == 1 ==> v == r.c
    ensures index == 2 ==> v == r.d
    ensures index == 3 ==> v == r.e
    ensures index == 4 ==> v == r.h
    ensures index == 5 ==> v == r.l
    ensures index == 6 ==> v == r.flags.bits
    ensures index == 7 ==> v == r.a
  {
    match index
    case 0 => r.b
    case 1 => r.c
    case 2 => r.d
    case 3 => r.e
    case 4 => r.h
    case 5 => r.l
    case 6 => r.flags.bits
    case 7 => r.a
  }

  /**
   * `set8`: one 8-bit register replaced. Index 6 stores the raw byte into the flags, low nibble
   * included; SP and PC are never touched.
   */
  function Put8(r: RegisterFile, index: bv8, value: bv8): (s: RegisterFile)
    requires index < 8
    ensures Get8(s, index) == value
    ensures forall j: bv8 :: j < 8 && j != index ==> Get8(s, j) == Get8(r, j)
    ensures s.sp == r.sp && s.pc == r.pc
  {
    match index
    case 0 => r.(b := value)
    case 1 => r.(c := value)
    case 2 => r.(d := value)
    case 3 => r.(e := value)
    case 4 => r.(h := value)
    case 5 => r.(l := value)
    case 6 => r.(flags := Flags(value))
    case 7 => r.(a := value)
  }

  function Af(r: RegisterFile): (v: bv16)
    ensures HighByte(v) == r.a && LowByte(v) == r.flags.bits
  {
    BytesRoundTrip(0, r.a, r.flags.bits);
    FromBeBytes(r.a, r.flags.bits)
  }

  function Bc(r: RegisterFile): (v: bv16)
    ensures HighByte(v) == r.b && LowByte(v) == r.c
  {
    BytesRoundTrip(0, r.b, r.c);
    FromBeBytes(r.b, r.c)
  }

  function De(r: RegisterFile): (v: bv16)
    ensures HighByte(v) == r.d && LowByte(v) == r.e
  {
    BytesRoundTrip(0, r.d, r.e);
    FromBeBytes(r.d, r.e)
  }

  function Hl(r: RegisterFile): (v: bv16)
    ensures HighByte(v) == r.h && LowByte(v) == r.l
  {
    BytesRoundTrip(0, r.h, r.l);
    FromBeBytes(r.h, r.l)
  }

  /** `set_af`: A from the high byte, the flags from the low byte with its low nibble cleared. */
  function PutAf(r: RegisterFile, value: bv16): (s: RegisterFile)
    ensures Af(s) == value & 0xFFF0
    ensures s.a == HighByte(value) && s.flags.bits == LowByte(value) & 0xF0
    ensures s.(a := r.a, flags := r.flags) == r
  {
    r.(a := HighByte(value), flags := Flags(LowByte(value) & 0xF0))
  }

  /** `set_bc`: the high byte to B, the low byte to C. */
  function PutBc(r: RegisterFile, value: bv16): (s: RegisterFile)
    ensures Bc(s) == value && s.b == HighByte(value) && s.c == LowByte(value)
    ensures s.(b := r.b, c := r.c) == r
  {
    BytesRoundTrip(value, 0, 0);
    r.(b := HighByte(value), c := LowByte(value))
  }

  /** `set_de`: the high byte to D, the low byte to E. */
  function PutDe(r: RegisterFile, value: bv16): (s: RegisterFile)
    ensures De(s) == value && s.d == HighByte(value) && s.e == LowByte(value)
    ensures s.(d := r.d, e := r.e) == r
  {
    BytesRoundTrip(value, 0, 0);
    r.(d := HighByte(value), e := LowByte(value))
  }

  /** `set_hl`: the high byte to H, the low byte to L. */
  function PutHl(r: RegisterFile, value: bv16): (s: RegisterFile)
    ensures Hl(s) == value && s.h == HighByte(value) && s.l == LowByte(value)
    ensures s.(h := r.h, l := r.l) == r
  {
    BytesRoundTrip(value, 0, 0);
    r.(h := HighByte(value), l := LowByte(value))
  }

  /** Pair by index, where index 3 stands for `last` (SP or AF); other indices panic. */
  function Get16(r: RegisterFile, index: bv8, last: bv16): (v: bv16)
    requires index < 4
    ensures index == 0 ==> v == Bc(r)
    ensures index == 1 ==> v == De(r)
    ensures index == 2 ==> v == Hl(r)
    ensures index == 3 ==> v == last
  {
    match index
    case 0 => Bc(r)
    case 1 => De(r)
    case 2 => Hl(r)
    case 3 => last
  }

  /** Pair by index: BC, DE, HL, SP. */
  function Get16WithSp(r: RegisterFile, index: bv8): (v: bv16)
    requires index < 4
    ensures index == 3 ==> v == r.sp
    ensures index < 3 ==> v == Get16(r, index, 0)
  {
    Get16(r, index, r.sp)
  }

  /** Pair by index: BC, DE, HL, AF. */
  function Get16WithAf(r: RegisterFile, index: bv8): (v: bv16)
    requires index < 4
    ensures index == 3 ==> v == Af(r)
    ensures index < 3 ==> v == Get16(r, index, 0)
  {
    Get16(r, index, Af(r))
  }

  /**
   * `set16`: BC, DE or HL by index. Index 4 is accepted and ignored (the arm meant for the
   * fourth pair is labelled 4 rather than 3); index 3 and anything above 4 panic.
   */
  function Put16(r: RegisterFile, index: bv8, value: bv16): (s: RegisterFile)
    requires index <= 2 || index == 4
    ensures index < 3 ==> Get16(s, index, 0) == value
    ensures index == 4 ==> s == r
    ensures s.a == r.a && s.flags == r.flags && s.sp == r.sp && s.pc == r.pc
    ensures index != 0 ==> s.b == r.b && s.c == r.c
    ensures index != 1 ==> s.d == r.d && s.e == r.e
    ensures index != 2 ==> s.h == r.h && s.l == r.l
  {
    match index
    case 0 => PutBc(r, value)
    case 1 => PutDe(r, value)
    case 2 => PutHl(r, value)
    case 4 => r
  }

  /** `set16_with_sp`: BC, DE, HL or (index 3) SP. */
  function Put16WithSp(r: RegisterFile, index: bv8, value: bv16): (s: RegisterFile)
    requires index <= 4
    ensures index < 4 ==> Get16WithSp(s, index) == value
    ensures index == 4 ==> s == r
    ensures s.a == r.a && s.flags == r.flags && s.pc == r.pc
    ensures index != 0 ==> s.b == r.b && s.c == r.c
    ensures index != 1 ==> s.d == r.d && s.e == r.e
    ensures index != 2 ==> s.h == r.h && s.l == r.l
    ensures index != 3 ==> s.sp == r.sp
  {
    if index == 3 then r.(sp := value) else Put16(r, index, value)
  }

  /** `set16_with_af`: BC, DE, HL or (index 3) AF, the latter with the flags' low nibble cleared. */
  function Put16WithAf(r: RegisterFile, index: bv8, value: bv16): (s: RegisterFile)
    requires index <= 4
    ensures index < 3 ==> Get16WithAf(s, index) == value
    ensures index == 3 ==> Af(s) == value & 0xFFF0
    ensures index == 4 ==> s == r
    ensures s.sp == r.sp && s.pc == r.pc
    ensures index != 0 ==> s.b == r.b && s.c == r.c
    ensures index != 1 ==> s.d == r.d && s.e == r.e
    ensures index != 2 ==> s.h == r.h && s.l == r.l
    ensures index != 3 ==> s.a == r.a && s.flags == r.flags
  {
    if index == 3 then PutAf(r, value) else Put16(r, index, value)
  }

  /**
   * Writing back the pair just read leaves the registers as they were, except that writing AF
   * clears the flags' low nibble.
   */
  lemma PairWriteBack(r: RegisterFile, index: bv8)
    requires index < 4
    ensures Put16WithAf(r, index, Get16WithAf(r, index))
            == if index == 3 then r.(flags := Flags(r.flags.bits & 0xF0)) else r
  {
  }

  /**
   * The register file object. The getters are the functions above applied to `State()`; the
   * setters overwrite fields in place.
   */
  class Registers {
    var a: bv8
    var flags: Flags
    var b: bv8
    var c: bv8
    var d: bv8
    var e: bv8
    var h: bv8
    var l: bv8
    var sp: bv16
    var pc: bv16

    function State(): RegisterFile
      reads this
    {
      RegisterFile(a, flags, b, c, d, e, h, l, sp, pc)
    }

    constructor (init: RegisterFile)
      ensures State() == init
    {
      a, flags, b, c, d := init.a, init.flags, init.b, init.c, init.d;
      e, h, l, sp, pc := init.e, init.h, init.l, init.sp, init.pc;
    }

    method Set8(index: bv8, value: bv8)
      requires index < 8
      modifies this
      ensures State() == Put8(old(State()), index, value)
    {
      match index
      case 0 => b := value;
      case 1 => c := value;
      case 2 => d := value;
      case 3 => e := value;
      case 4 => h := value;
      case 5 => l := value;
      case 6 => flags := Flags(value);
      case 7 => a := value;
    }

    method SetAf(value: bv16)
      modifies this
      ensures State() == PutAf(old(State()), value)
    {
      a, flags := HighByte(value), Flags(LowByte(value));
      flags := Flags(flags.bits & 0xF0);
    }

    method SetBc(value: bv16)
      modifies this
      ensures State() == PutBc(old(State()), value)
    {
      b, c := HighByte(value), LowByte(value);
    }

    method SetDe(value: bv16)
      modifies this
      ensures State() == PutDe(old(State()), value)
    {
      d, e := HighByte(value), LowByte(value);
    }

    method SetHl(value: bv16)
      modifies this
      ensures State() == PutHl(old(State()), value)
    {
      h, l := HighByte(value), LowByte(value);
    }

    method Set16(index: bv8, value: bv16)
      requires index <= 2 || index == 4
      modifies this
      ensures State() == Put16(old(State()), index, value)
    {
      match index
      case 0 => SetBc(value);
      case 1 => SetDe(value);
      case 2 => SetHl(value);
      case 4 =>
    }

    method Set16WithSp(index: bv8, value: bv16)
      requires index <= 4
      modifies this
      ensures State() == Put16WithSp(old(State()), index, value)
    {
      if index == 3 {
        sp := value;
      } else {
        Set16(index, value);
      }
    }

    method Set16WithAf(index: bv8, value: bv16)
      requires index <= 4
      modifies this
      ensures State() == Put16WithAf(old(State()), index, value)
    {
      if index == 3 {
        SetAf(value);
      } else {
        Set16(index, value);
      }
    }
  }

  /** The source's flag test: set Z and H on clear flags, then toggle C and clear H. */
  lemma FlagSettersExample()
    ensures Flags(0).SetZero(true).SetHalfCarry(true) == NewFlags(false, true, false, true)
    ensures Flags(0).SetZero(true).SetHalfCarry(true).ToggleCarry().SetHalfCarry(false)
            == NewFlags(true, false, false, true)
  {
    var f := Flags(0).SetZero(true).SetHalfCarry(true);
    FlagsDeterminedByFourBits(f, NewFlags(false, true, false, true));
    FlagsDeterminedByFourBits(f.ToggleCarry().SetHalfCarry(false), NewFlags(true, false, false, true));
  }

  /** The source's pair test: 0x1234 splits into 0x12 and 0x34, and AF = 0xFFFF reads back as 0xFFF0. */
  lemma PairExample(r: RegisterFile)
    ensures PutBc(r, 0x1234).b == 0x12 && PutBc(r, 0x1234).c == 0x34
    ensures Bc(r.(b := 0xAB, c := 0xCD)) == 0xABCD
    ensures Af(PutAf(r, 0xFFFF)) == 0xFFF0
  {
    BytesRoundTrip(0x1234, 0xAB, 0xCD);
  }

  /** The source's flag test: AF = 0x0050 leaves exactly C and N set. */
  lemma SetAfExample()
    ensures LowByte(0x0050) & 0xF0 == NewFlags(true, false, true, false).bits
  {
    FlagsDeterminedByFourBits(Flags(LowByte(0x0050) & 0xF0), NewFlags(true, false, true, false));
  }
}
