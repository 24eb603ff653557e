/** A cartridge image and the fields of its header. */
module Cartridge {
  const TitleStart: nat := 0x134
  const TitleLength: nat := 16

  datatype CartridgeType =
    | RomOnly
    | MBC1(ram: bool, battery: bool)
    | MBC3(timer: bool, ram: bool, battery: bool)
    | Unsupported(code: bv8)

  /** The longest prefix of `s` with no zero byte. */
  function TakeUntilZero(s: seq<bv8>): (r: seq<bv8>)
    ensures |r| <= |s| && r == s[..|r|]
    ensures forall i :: 0 <= i < |r| ==> r[i] != 0
    ensures |r| < |s| ==> s[|r|] == 0
  {
    if s == [] || s[0] == 0 then [] else [s[0]] + TakeUntilZero(s[1..])
  }

  /** 2 to the power `n`. */
  function Pow2(n: nat): (r: nat)
    ensures r >= 1
  {
    if n == 0 then 1 else 2 * Pow2(n - 1)
  }

  lemma {:induction false} Pow2Add(a: nat, b: nat)
    ensures Pow2(a + b) == Pow2(a) * Pow2(b)
  {
    if b > 0 {
      Pow2Add(a, b - 1);
      assert Pow2(a + b) == 2 * Pow2(a + b - 1);
    }
  }

  datatype Cartridge = Cartridge(data: seq<bv8>) {
    function Read8(addr: nat): (r: bv8)
      requires addr < |data|
    {
      data[addr]
    }

    /** The title: the 16 bytes from 0x134, cut before the first zero byte. */
    function GameTitle(): (r: seq<bv8>)
      requires |data| >= TitleStart + TitleLength
      ensures |r| <= TitleLength && r == data[TitleStart..TitleStart + |r|]
      ensures forall i :: 0 <= i < |r| ==> r[i] != 0
      ensures |r| < TitleLength ==> data[TitleStart + |r|] == 0
    {
      TakeUntilZero(data[TitleStart..TitleStart + TitleLength])
    }

    /** The controller named by byte 0x147. */
    function CartType(): (r: CartridgeType)
      requires |data| > 0x147
      ensures data[0x147] == 0x00 <==> r == RomOnly
      ensures r.MBC1? <==> 0x01 <= data[0x147] <= 0x03
      ensures r.MBC1? ==> r.ram == (data[0x147] != 0x01) && r.battery == (data[0x147] == 0x03)
      ensures r.MBC3? <==> 0x0F <= data[0x147] <= 0x13
      ensures r.MBC3? ==> r.timer == (data[0x147] <= 0x10)
      ensures r.MBC3? ==> r.ram == (data[0x147] == 0x10 || data[0x147] >= 0x12)
      ensures r.MBC3? ==> r.battery == (data[0x147] <= 0x10 || data[0x147] == 0x13)
      ensures r.Unsupported? ==> r.code == data[0x147]
    {
      match data[0x147]
      case 0x00 => RomOnly
      case 0x01 => MBC1(false, false)
      case 0x02 => MBC1(true, false)
      case 0x03 => MBC1(true, true)
      case 0x0F => MBC3(true, false, true)
      case 0x10 => MBC3(true, true, true)
      case 0x11 => MBC3(false, false, false)
      case 0x12 => MBC3(false, true, false)
      case 0x13 => MBC3(false, true, true)
      case n => Unsupported(n)
    }

    /**
     * ROM size in bytes from byte 0x148: `1 << (code + 15)`. The shift panics for a code that
     * takes it past the 64 bits of `usize`, hence the precondition.
     */
    function RomSize(): (r: nat)
      requires |data| > 0x148 && data[0x148] < 49
      ensures r == 0x8000 * Pow2(data[0x148] as nat)
    {
      Pow2Add(15, data[0x148] as nat);
      assert Pow2(15) == 0x8000;
      Pow2(data[0x148] as nat + 15)
    }

    /** External RAM size in bytes from byte 0x149; unknown codes mean none. */
    function RamSize(): (r: nat)
      requires |data| > 0x149
      ensures data[0x149] == 2 ==> r == 0x2000
      ensures data[0x149] == 3 ==> r == 0x8000
      ensures data[0x149] == 4 ==> r == 0x20000
      ensures data[0x149] == 5 ==> r == 0x10000
      ensures !(2 <= data[0x149] <= 5) ==> r == 0
    {
      match data[0x149]
      case 2 => 0x2000
      case 3 => 0x8000
      case 4 => 0x20000
      case 5 => 0x10000
      case _ => 0
    }

    /** The destination code at 0x14A: zero for Japan. */
    predicate SoldInJapan()
      requires |data| > 0x14A
    {
      data[0x14A] == 0
    }
  }

  /** The ROM size doubles with each step of the code, starting from 32 KiB. */
  lemma RomSizeDoubles(c: Cartridge, d: Cartridge)
    requires |c.data| > 0x148 && |d.data| > 0x148 && c.data[0x148] < 48
    requires d.data[0x148] == c.data[0x148] + 1
    ensures d.RomSize() == 2 * c.RomSize()
  {
  }
}
