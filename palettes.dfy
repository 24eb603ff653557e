/**
 * Monochrome palettes. A palette byte holds four 2-bit colour indices, one per colour id;
 * object palettes make colour id 0 transparent.
 */
module Palettes {
  import opened Bits

  datatype Colour = White | LightGrey | DarkGrey | Black | Transparent

  /** `Colour::from_u8` on the four shades: 0 White, 1 LightGrey, 2 DarkGrey, 3 Black. */
  function Shade(index: bv8): (r: Colour)
    requires index < 4
    ensures r != Transparent
    ensures ShadeIndex(r) == index
  {
    match index
    case 0 => White
    case 1 => LightGrey
    case 2 => DarkGrey
    case 3 => Black
  }

  /** The enum discriminant of a colour. */
  function ShadeIndex(c: Colour): bv8 {
    match c
    case White => 0
    case LightGrey => 1
    case DarkGrey => 2
    case Black => 3
    case Transparent => 4
  }

  datatype BackgroundPalette = BackgroundPalette(bits: bv8) {
    /** The shade selected by the id's two bits of the palette byte; never transparent. */
    function ColourForId(id: bv8): (r: Colour)
      requires id < 4
      ensures r != Transparent
      ensures ShadeIndex(r) == (bits >> (2 * id)) & 3
    {
      Shade(GetBits(bits, id * 2, (id + 1) * 2))
    }
  }

  datatype ObjectPalette = ObjectPalette(bits: bv8) {
    /** Colour id 0 is transparent whatever the palette says; ids 1..3 map as in a background palette. */
    function ColourForId(id: bv8): (r: Colour)
      requires id < 4
      ensures id == 0 ==> r == Transparent
      ensures id != 0 ==> r == BackgroundPalette(bits).ColourForId(id)
    {
      if id == 0 then Transparent
      else Shade(GetBits(bits, id * 2, (id + 1) * 2))
    }
  }

  /** The identity palette 0b11100100 maps every id to the shade with the same number. */
  lemma IdentityPalette(id: bv8)
    requires id < 4
    ensures ShadeIndex(BackgroundPalette(0xE4).ColourForId(id)) == id
  {
  }
}
