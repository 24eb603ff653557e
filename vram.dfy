/** Video RAM: 8 KiB mapped at 0x8000..0x9FFF. */
module Vram {
  const VramStart: int := 0x8000
  const VramEnd: int := 0x9FFF
  const VramSize: nat := 0x2000

  /** Whether the bus routes `addr` to video RAM. */
  predicate InVram(addr: int) {
    VramStart <= addr <= VramEnd
  }

  /** The offset of a video RAM address in the data array. */
  function VramOffset(addr: int): (r: nat)
    requires InVram(addr)
    ensures r < VramSize
  {
    addr - VramStart
  }

  class VideoRam {
    var data: array<bv8>

    predicate Valid()
      reads this
    {
      data.Length == VramSize
    }

    /** A new video RAM is 8 KiB of zeros. */
    constructor ()
      ensures Valid() && fresh(data) && data[..] == seq(VramSize, _ => 0)
    {
      data := new bv8[VramSize](_ => 0);
    }

    function Read8(addr: int): bv8
      reads this, data
      requires Valid() && InVram(addr)
    {
      data[VramOffset(addr)]
    }

    /** Stores one byte; exactly that byte of the data changes. */
    method Write8(addr: int, value: bv8)
      requires Valid() && InVram(addr)
      modifies data
      ensures data[..] == old(data[..])[VramOffset(addr) := value]
      ensures Read8(addr) == value
    {
      data[VramOffset(addr)] := value;
    }
  }
}
