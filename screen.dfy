/** The 160x144 frame buffer the video hardware draws into. */
module Screen {
  const ScreenWidth: nat := 160
  const ScreenHeight: nat := 144
  const BufferSize: nat := ScreenWidth * ScreenHeight

  datatype Pixel = Dark | MediumDark | MediumLight | Light

  /** The buffer position of pixel (x, y): rows of 160 pixels, top row first. */
  function Index(x: bv8, y: bv8): nat {
    y as nat * ScreenWidth + x as nat
  }

  /** On the visible screen the index is below the buffer size and no two pixels share one. */
  lemma IndexInjective(x1: bv8, y1: bv8, x2: bv8, y2: bv8)
    requires (x1 as nat) < ScreenWidth && (y1 as nat) < ScreenHeight
    requires (x2 as nat) < ScreenWidth && (y2 as nat) < ScreenHeight
    ensures Index(x1, y1) < BufferSize
    ensures Index(x1, y1) == Index(x2, y2) <==> x1 == x2 && y1 == y2
  {
    RowMajorInjective(x1 as nat, y1 as nat, x2 as nat, y2 as nat);
    ByteValueInjective(x1, x2);
    ByteValueInjective(y1, y2);
  }

  /** Row-major positions within a 160x144 grid are distinct and below its size. */
  lemma RowMajorInjective(a1: nat, b1: nat, a2: nat, b2: nat)
    requires a1 < ScreenWidth && b1 < ScreenHeight && a2 < ScreenWidth && b2 < ScreenHeight
    ensures b1 * ScreenWidth + a1 < BufferSize
    ensures b1 * ScreenWidth + a1 == b2 * ScreenWidth + a2 <==> a1 == a2 && b1 == b2
  {
    RowMajorBelow(a1, b1, ScreenHeight);
    if b1 < b2 {
      RowMajorBelow(a1, b1, b2);
      assert b2 * ScreenWidth <= b2 * ScreenWidth + a2;
    } else if b2 < b1 {
      RowMajorBelow(a2, b2, b1);
      assert b1 * ScreenWidth <= b1 * ScreenWidth + a1;
    }
  }

  /** A pixel of a row above row `limit` lies before that row's first index. */
  lemma RowMajorBelow(x: nat, y: nat, limit: nat)
    requires x < ScreenWidth && y < limit
    ensures y * ScreenWidth + x < limit * ScreenWidth
  {
    assert y * ScreenWidth + ScreenWidth <= limit * ScreenWidth;
  }

  /** Two bytes with the same numeric value are the same byte. */
  lemma ByteValueInjective(a: bv8, b: bv8)
    ensures a as nat == b as nat ==> a == b
  {
    if a as nat == b as nat {
      assert (a as nat) as bv8 == a && (b as nat) as bv8 == b;
    }
  }

  /** An x past the right edge wraps into the next row: (160 + x, y) is (x, y + 1). */
  lemma IndexWrapsIntoNextRow(x: bv8, y: bv8)
    requires (x as nat) < 96 && (y as nat) < 255
    ensures Index(x + 160, y) == Index(x, y + 1)
  {
  }

  class Screen {
    var buffer: array<Pixel>

    predicate Valid()
      reads this
    {
      buffer.Length == BufferSize
    }

    /** A new screen is all dark. */
    constructor ()
      ensures Valid() && fresh(buffer) && buffer[..] == seq(BufferSize, _ => Dark)
    {
      buffer := new Pixel[BufferSize](_ => Dark);
    }

    /** An index past the buffer panics in the source; here it is excluded by the precondition. */
    function Get(x: bv8, y: bv8): Pixel
      reads this, buffer
      requires Valid() && Index(x, y) < BufferSize
    {
      buffer[Index(x, y)]
    }

    /** Writes one pixel; every other pixel is kept. */
    method Set(x: bv8, y: bv8, p: Pixel)
      requires Valid() && Index(x, y) < BufferSize
      modifies buffer
      ensures buffer[..] == old(buffer[..])[Index(x, y) := p]
      ensures Get(x, y) == p
    {
      buffer[Index(x, y)] := p;
    }
  }
}
