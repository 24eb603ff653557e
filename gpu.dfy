/**
 * The video unit as the memory bus sees it: its registers, its video RAM and its sprite
 * attribute table. The scanline machine that advances these registers is not part of this model.
 */
module Gpu {
  import opened Vram
  import opened Oam

  /** The LCD registers at 0xFF40..0xFF4B other than the DMA register at 0xFF46. */
  const RegisterCount: nat := 11

  /** Where the register at `addr` sits among the eleven: addresses past 0xFF46 move down by one. */
  function RegisterIndex(addr: int): (r: nat)
    requires 0xFF40 <= addr <= 0xFF4B && addr != 0xFF46
    ensures r < RegisterCount
    ensures addr < 0xFF46 ==> r == addr - 0xFF40
    ensures addr > 0xFF46 ==> r == addr - 0xFF41
  {
    if addr < 0xFF46 then addr - 0xFF40 else addr - 0xFF41
  }

  /** The register values of `Gpu::new`, in address order: LCDC 0x91, STAT 0x81, LY 0x91, BGP 0xFC, the rest 0. */
  const PowerOnRegisters: seq<bv8> := [0x91, 0x81, 0, 0, 0x91, 0, 0xFC, 0, 0, 0, 0]

  class Gpu {
    var lcdControl: bv8
    var lcdStatus: bv8
    var viewportY: bv8
    var viewportX: bv8
    var lcdY: bv8
    var lyCompare: bv8
    var bgPaletteData: bv8
    var objPalette0Data: bv8
    var objPalette1Data: bv8
    var windowY: bv8
    var windowX: bv8
    var vram: VideoRam
    var oam: SpriteAttributeTable

    predicate Valid()
      reads this, vram, oam
    {
      vram.Valid() && oam.Valid() && vram.data != oam.data
    }

    /** The eleven registers in address order; `RegisterIndex` finds each one. */
    function Registers(): (r: seq<bv8>)
      reads this
      ensures |r| == RegisterCount
      ensures r[RegisterIndex(0xFF40)] == lcdControl && r[RegisterIndex(0xFF44)] == lcdY
      ensures r[RegisterIndex(0xFF4B)] == windowX
    {
      [lcdControl, lcdStatus, viewportY, viewportX, lcdY, lyCompare,
       bgPaletteData, objPalette0Data, objPalette1Data, windowY, windowX]
    }

    constructor ()
      ensures Valid() && fresh(vram) && fresh(vram.data) && fresh(oam) && fresh(oam.data)
      ensures Registers() == PowerOnRegisters
      ensures vram.data[..] == seq(VramSize, _ => 0) && oam.data[..] == seq(OamSize, _ => 0)
    {
      lcdControl, lcdStatus, viewportY, viewportX := 0x91, 0x81, 0, 0;
      lcdY, lyCompare, bgPaletteData := 0x91, 0, 0xFC;
      objPalette0Data, objPalette1Data, windowY, windowX := 0, 0, 0, 0;
      vram := new VideoRam();
      oam := new SpriteAttributeTable();
    }
  }
}
