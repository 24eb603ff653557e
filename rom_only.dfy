/** The cartridge controller with no banking: 32 KiB of ROM, no RAM, writes ignored. */
module RomOnly {
  const RomSize: nat := 0x8000

  class RomOnly {
    var rom: array<bv8>

    predicate Valid()
      reads this
    {
      rom.Length == RomSize
    }

    /** Copies the image into a zero-filled 32 KiB ROM; an image larger than that panics in the source. */
    constructor (data: seq<bv8>)
      requires |data| <= RomSize
      ensures Valid() && fresh(rom)
      ensures rom[..] == data + seq(RomSize - |data|, _ => 0)
    {
      var bytes := new bv8[RomSize](_ => 0);
      var addr := 0;
      while addr < |data|
        invariant 0 <= addr <= |data|
        invariant bytes[..] == data[..addr] + seq(RomSize - addr, _ => 0)
      {
        bytes[addr] := data[addr];
        addr := addr + 1;
        assert bytes[..] == data[..addr] + seq(RomSize - addr, _ => 0);
      }
      rom := bytes;
    }

    /** Only the 32 KiB of ROM can be read; any address past it panics in the source. */
    function Read8(addr: int): bv8
      reads this, rom
      requires Valid() && 0 <= addr < RomSize
    {
      rom[addr]
    }

    /** Writes to a ROM-only cartridge are dropped. */
    method Write8(addr: int, value: bv8)
      ensures unchanged(this) && unchanged(rom)
    {
    }
  }

  /** Image bytes past the end of the data read as zero. */
  lemma PaddingReadsZero(data: seq<bv8>, rom: seq<bv8>, addr: nat)
    requires |data| <= RomSize && rom == data + seq(RomSize - |data|, _ => 0)
    requires |data| <= addr < RomSize
    ensures rom[addr] == 0
  {
  }
}
