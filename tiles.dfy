/**
 * Tile decoding. A tile is 8x8 pixels stored as 16 bytes, two per row: the first byte holds
 * bit 0 of each pixel's colour id and the second byte bit 1, with the leftmost pixel in bit 7.
 */
module Tiles {
  import opened Bits

  const TileWidth: nat := 8
  const TileSizeBytes: nat := 16

  /** The colour id (0..3) of pixel `px` (0 is leftmost) of the row stored as `top`, `bottom`. */
  function PixelId(top: bv8, bottom: bv8, px: bv8): bv8
    requires px < 8
  {
    (if GetBit(bottom, 7 - px) then 2 else 0) + (if GetBit(top, 7 - px) then 1 else 0)
  }

  /** A colour id is 0..3: bit 1 is the pixel's bit in the second byte, bit 0 its bit in the first. */
  lemma PixelIdBits(top: bv8, bottom: bv8, px: bv8)
    requires px < 8
    ensures PixelId(top, bottom, px) < 4
    ensures GetBit(PixelId(top, bottom, px), 1) == GetBit(bottom, 7 - px)
    ensures GetBit(PixelId(top, bottom, px), 0) == GetBit(top, 7 - px)
  {
  }

  /** The eight colour ids of one row, leftmost first. */
  function RowIds(top: bv8, bottom: bv8): (r: seq<bv8>)
    ensures |r| == TileWidth
  {
    seq(TileWidth, px requires 0 <= px < TileWidth => PixelId(top, bottom, px as bv8))
  }

  /** The colour ids of consecutive rows given as byte pairs, row after row. */
  function TileIds(bytes: seq<bv8>): (r: seq<bv8>)
    requires |bytes| % 2 == 0
    ensures |r| == 4 * |bytes|
    decreases |bytes|
  {
    if bytes == [] then [] else RowIds(bytes[0], bytes[1]) + TileIds(bytes[2..])
  }

  /** Entry `px` of a decoded row is the pixel `px` counted from the left. */
  lemma RowIdsAt(top: bv8, bottom: bv8, px: nat)
    requires px < TileWidth
    ensures RowIds(top, bottom)[px] == PixelId(top, bottom, px as bv8)
  {
  }

  /** The ids of a byte string are its first row's ids followed by the ids of the remaining rows. */
  lemma TileIdsUnfold(bytes: seq<bv8>, k: nat)
    requires |bytes| % 2 == 0 && 2 <= |bytes| && k < 4 * |bytes|
    ensures k < 8 ==> TileIds(bytes)[k] == RowIds(bytes[0], bytes[1])[k]
    ensures 8 <= k ==> TileIds(bytes)[k] == TileIds(bytes[2..])[k - 8]
  {
    assert TileIds(bytes) == RowIds(bytes[0], bytes[1]) + TileIds(bytes[2..]);
  }

  /** Entries `row * 8 ..` of the decoded ids are the ids of row `row`. */
  lemma {:induction false} TileIdsRow(bytes: seq<bv8>, row: nat, px: nat)
    requires |bytes| % 2 == 0 && 2 * row + 2 <= |bytes| && px < 8
    ensures TileIds(bytes)[8 * row + px] == RowIds(bytes[2 * row], bytes[2 * row + 1])[px]
  {
    TileIdsUnfold(bytes, 8 * row + px);
    if row > 0 {
      var rest := bytes[2..];
      TileIdsRow(rest, row - 1, px);
      assert rest[2 * row - 2] == bytes[2 * row] && rest[2 * row - 1] == bytes[2 * row + 1];
    }
  }

  /** Pixel `px` of row `row` comes from bit 7 - px of the row's two bytes, so it is a colour id 0..3. */
  lemma TileIdsAt(bytes: seq<bv8>, row: nat, px: nat)
    requires |bytes| % 2 == 0 && 2 * row + 2 <= |bytes| && px < 8
    ensures TileIds(bytes)[8 * row + px] == PixelId(bytes[2 * row], bytes[2 * row + 1], px as bv8)
    ensures TileIds(bytes)[8 * row + px] < 4
  {
    TileIdsRow(bytes, row, px);
    RowIdsAt(bytes[2 * row], bytes[2 * row + 1], px);
    PixelIdBits(bytes[2 * row], bytes[2 * row + 1], px as bv8);
  }

  /** The first rows of the source's test tile. */
  lemma RowExamplesTop()
    ensures RowIds(0x7C, 0x7C) == [0, 3, 3, 3, 3, 3, 0, 0]
    ensures RowIds(0x00, 0xC6) == [2, 2, 0, 0, 0, 2, 2, 0]
    ensures RowIds(0xC6, 0x00) == [1, 1, 0, 0, 0, 1, 1, 0]
  {
  }

  /** The remaining rows of the source's test tile. */
  lemma RowExamplesBottom()
    ensures RowIds(0x00, 0xFE) == [2, 2, 2, 2, 2, 2, 2, 0]
    ensures RowIds(0xC6, 0xC6) == [3, 3, 0, 0, 0, 3, 3, 0]
    ensures RowIds(0x00, 0x00) == [0, 0, 0, 0, 0, 0, 0, 0]
  {
  }

  /** A tile given as eight two-byte rows decodes to the eight rows' ids, top row first. */
  lemma {:induction false} EightRows(p0: seq<bv8>, p1: seq<bv8>, p2: seq<bv8>, p3: seq<bv8>,
                  p4: seq<bv8>, p5: seq<bv8>, p6: seq<bv8>, p7: seq<bv8>)
    requires |p0| == 2 && |p1| == 2 && |p2| == 2 && |p3| == 2
    requires |p4| == 2 && |p5| == 2 && |p6| == 2 && |p7| == 2
    ensures TileIds(p0 + p1 + p2 + p3 + p4 + p5 + p6 + p7) ==
            RowIds(p0[0], p0[1]) + RowIds(p1[0], p1[1]) + RowIds(p2[0], p2[1]) + RowIds(p3[0], p3[1]) +
            RowIds(p4[0], p4[1]) + RowIds(p5[0], p5[1]) + RowIds(p6[0], p6[1]) + RowIds(p7[0], p7[1])
  {
    assert [] + [p0[0], p0[1]] == p0;
    TileIdsAppend([], p0[0], p0[1]);
    assert p1 == [p1[0], p1[1]];
    TileIdsAppend(p0, p1[0], p1[1]);
    assert p2 == [p2[0], p2[1]];
    TileIdsAppend(p0 + p1, p2[0], p2[1]);
    assert p3 == [p3[0], p3[1]];
    TileIdsAppend(p0 + p1 + p2, p3[0], p3[1]);
    assert p4 == [p4[0], p4[1]];
    TileIdsAppend(p0 + p1 + p2 + p3, p4[0], p4[1]);
    assert p5 == [p5[0], p5[1]];
    TileIdsAppend(p0 + p1 + p2 + p3 + p4, p5[0], p5[1]);
    assert p6 == [p6[0], p6[1]];
    TileIdsAppend(p0 + p1 + p2 + p3 + p4 + p5, p6[0], p6[1]);
    assert p7 == [p7[0], p7[1]];
    TileIdsAppend(p0 + p1 + p2 + p3 + p4 + p5 + p6, p7[0], p7[1]);
  }

  /** The source's test tile, given as its eight rows of two bytes each, decodes row by row. */
  lemma TileExample()
    ensures TileIds([0x7C, 0x7C] + [0x00, 0xC6] + [0xC6, 0x00] + [0x00, 0xFE] +
                    [0xC6, 0xC6] + [0x00, 0xC6] + [0xC6, 0x00] + [0x00, 0x00]) ==
            [0, 3, 3, 3, 3, 3, 0, 0] +
            [2, 2, 0, 0, 0, 2, 2, 0] +
            [1, 1, 0, 0, 0, 1, 1, 0] +
            [2, 2, 2, 2, 2, 2, 2, 0] +
            [3, 3, 0, 0, 0, 3, 3, 0] +
            [2, 2, 0, 0, 0, 2, 2, 0] +
            [1, 1, 0, 0, 0, 1, 1, 0] +
            [0, 0, 0, 0, 0, 0, 0, 0]
  {
    RowExamplesTop();
    RowExamplesBottom();
    var p0: seq<bv8>, p1: seq<bv8>, p2: seq<bv8>, p3: seq<bv8> := [0x7C, 0x7C], [0x00, 0xC6], [0xC6, 0x00], [0x00, 0xFE];
    var p4: seq<bv8>, p5: seq<bv8>, p6: seq<bv8>, p7: seq<bv8> := [0xC6, 0xC6], [0x00, 0xC6], [0xC6, 0x00], [0x00, 0x00];
    EightRows(p0, p1, p2, p3, p4, p5, p6, p7);
  }

  /** Appending a row's two bytes appends that row's eight ids. */
  lemma {:induction false} TileIdsAppend(bytes: seq<bv8>, top: bv8, bottom: bv8)
    requires |bytes| % 2 == 0
    ensures TileIds(bytes + [top, bottom]) == TileIds(bytes) + RowIds(top, bottom)
    decreases |bytes|
  {
    if bytes == [] {
      assert ([] + [top, bottom])[2..] == [];
    } else {
      assert (bytes + [top, bottom])[2..] == bytes[2..] + [top, bottom];
      TileIdsAppend(bytes[2..], top, bottom);
    }
  }

  class Tile {
    var colourIds: array<bv8>

    /**
     * `from_vram_data`: decodes the rows in order; the ids decoded so far are those of the rows
     * read so far.
     */
    constructor FromVramData(bytes: seq<bv8>)
      requires |bytes| == TileSizeBytes
      ensures fresh(colourIds) && colourIds[..] == TileIds(bytes)
    {
      var ids := new bv8[TileWidth * TileWidth](_ => 0);
      var row := 0;
      while row < TileWidth
        invariant 0 <= row <= TileWidth
        invariant ids[..row * TileWidth] == TileIds(bytes[..2 * row])
      {
        DecodeRow(ids, row, bytes[2 * row], bytes[2 * row + 1]);
        assert bytes[..2 * (row + 1)] == bytes[..2 * row] + [bytes[2 * row], bytes[2 * row + 1]];
        TileIdsAppend(bytes[..2 * row], bytes[2 * row], bytes[2 * row + 1]);
        row := row + 1;
      }
      assert bytes[..2 * TileWidth] == bytes;
      assert ids[..] == ids[..TileWidth * TileWidth];
      colourIds := ids;
    }
  }

  /** Column `col` counted from bit 0 is pixel 7 - col counted from the left. */
  lemma ColumnIsMirroredPixel(top: bv8, bottom: bv8, col: bv8)
    requires col < 8
    ensures (if GetBit(bottom, col) then 2 else 0) + (if GetBit(top, col) then 1 else 0) == PixelId(top, bottom, 7 - col)
  {
    assert 7 - (7 - col) == col;
  }

  /** Once the row's eight slots hold its pixels, the decoded prefix has grown by that row. */
  lemma RowWritten(s: seq<bv8>, before: seq<bv8>, row: nat, top: bv8, bottom: bv8)
    requires |s| == TileWidth * TileWidth && row < TileWidth && s[..row * TileWidth] == before
    requires forall i :: row * TileWidth <= i < row * TileWidth + TileWidth ==>
               s[i] == PixelId(top, bottom, (i - row * TileWidth) as bv8)
    ensures s[..row * TileWidth + TileWidth] == before + RowIds(top, bottom)
  {
    var base := row * TileWidth;
    forall px | 0 <= px < TileWidth
      ensures s[base..base + TileWidth][px] == RowIds(top, bottom)[px]
    {
      var i := base + px;
      assert i - base == px;
      assert s[i] == PixelId(top, bottom, (i - base) as bv8);
      RowIdsAt(top, bottom, px);
    }
    assert s[base..base + TileWidth] == RowIds(top, bottom);
    assert s[..base + TileWidth] == s[..base] + s[base..base + TileWidth];
  }

  /**
   * The inner loop of `from_vram_data`: walks the columns from bit 0 up and stores each pixel at
   * the mirrored position, so that bit 7 becomes the leftmost pixel of the row.
   */
  method DecodeRow(ids: array<bv8>, row: nat, top: bv8, bottom: bv8)
    requires ids.Length == TileWidth * TileWidth && row < TileWidth
    modifies ids
    ensures ids[..row * TileWidth + TileWidth] == old(ids[..row * TileWidth]) + RowIds(top, bottom)
  {
    var col := 0;
    while col < TileWidth
      invariant 0 <= col <= TileWidth
      invariant ids[..row * TileWidth] == old(ids[..row * TileWidth])
      invariant forall i :: row * TileWidth + TileWidth - col <= i < row * TileWidth + TileWidth ==>
                  ids[i] == PixelId(top, bottom, (i - row * TileWidth) as bv8)
    {
      var high := GetBit(bottom, col as bv8);
      var low := GetBit(top, col as bv8);
      var colourId: bv8 := (if high then 2 else 0) + (if low then 1 else 0);

      var index := row * TileWidth + (TileWidth - col - 1);
      ColumnIsMirroredPixel(top, bottom, col as bv8);
      assert (index - row * TileWidth) as bv8 == 7 - col as bv8;
      ids[index] := colourId;
      col := col + 1;
    }
    RowWritten(ids[..], old(ids[..row * TileWidth]), row, top, bottom);
  }
}
