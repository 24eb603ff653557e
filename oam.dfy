/** Object attribute memory: 40 sprites of four bytes each, mapped at 0xFE00..0xFE9F. */
module Oam {
  import opened Bits

  const OamStart: int := 0xFE00
  const OamEnd: int := 0xFE9F
  const OamSize: nat := 160
  const SpriteCount: nat := 40

  predicate InOam(addr: int) {
    OamStart <= addr <= OamEnd
  }

  function OamOffset(addr: int): (r: nat)
    requires InOam(addr)
    ensures r < OamSize
  {
    addr - OamStart
  }

  /** One sprite's attributes: position, tile, and the four flags of its attribute byte. */
  datatype Sprite = Sprite(y: bv8, x: bv8, tileIndex: bv8, bgAndWindowOverSprite: bool,
                           yFlip: bool, xFlip: bool, usePalette1: bool)

  /** Sprite `index` of the table `data`: bytes 4i..4i+2 are y, x and tile, byte 4i+3 the attributes. */
  function SpriteAt(data: seq<bv8>, index: nat): (r: Sprite)
    requires |data| == OamSize && index < SpriteCount
    ensures r.y == data[4 * index] && r.x == data[4 * index + 1]
    ensures r.tileIndex == data[4 * index + 2]
    ensures r.bgAndWindowOverSprite == GetBit(data[4 * index + 3], 7)
    ensures r.yFlip == GetBit(data[4 * index + 3], 6)
    ensures r.xFlip == GetBit(data[4 * index + 3], 5)
    ensures r.usePalette1 == GetBit(data[4 * index + 3], 4)
  {
    var addr := OamStart + index * 4;
    var attributes := data[OamOffset(addr + 3)];
    Sprite(data[OamOffset(addr)], data[OamOffset(addr + 1)], data[OamOffset(addr + 2)],
           GetBit(attributes, 7), GetBit(attributes, 6), GetBit(attributes, 5), GetBit(attributes, 4))
  }

  /** Two sprites never share a byte: writing outside sprite i's four bytes leaves sprite i as it was. */
  lemma {:induction false} SpriteUnaffectedByOtherWrites(data: seq<bv8>, index: nat, offset: nat, value: bv8)
    requires |data| == OamSize && index < SpriteCount && offset < OamSize
    requires offset / 4 != index
    ensures SpriteAt(data[offset := value], index) == SpriteAt(data, index)
  {
    var base := 4 * index;
    assert offset != base && offset != base + 1 && offset != base + 2 && offset != base + 3;
  }

  class SpriteAttributeTable {
    var data: array<bv8>

    predicate Valid()
      reads this
    {
      data.Length == OamSize
    }

    /** A new table is all zeros. */
    constructor ()
      ensures Valid() && fresh(data) && data[..] == seq(OamSize, _ => 0)
    {
      data := new bv8[OamSize](_ => 0);
    }

    function Read8(addr: int): bv8
      reads this, data
      requires Valid() && InOam(addr)
    {
      data[OamOffset(addr)]
    }

    /** Stores one byte; exactly that byte of the table changes. */
    method Write8(addr: int, value: bv8)
      requires Valid() && InOam(addr)
      modifies data
      ensures data[..] == old(data[..])[OamOffset(addr) := value]
      ensures Read8(addr) == value
    {
      data[OamOffset(addr)] := value;
    }

    function ReadSprite(index: nat): (r: Sprite)
      reads this, data
      requires Valid() && index < SpriteCount
    {
      SpriteAt(data[..], index)
    }
  }
}
