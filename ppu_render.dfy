/**
 * What `renderBackground` and `renderSprites` draw on one scanline, as
 * functions of the memory the picture processor reads. Every read goes
 * through the mirror table (`ppuMemory[vramMirror[a]]`); a colour is looked up
 * in the 64-entry `rgbPalette` by the palette byte, so a palette byte of 0x40
 * or more makes the Java lookup throw.
 */
module PpuRender {
  import opened Bytes
  import opened PpuRegs

  /** `rgbPalette`: the RGB value of each of the 64 NES colours. */
  const RgbPalette: seq<int> := [
    0x808080, 0x003DA6, 0x0012B0, 0x440096, 0xA1005E, 0xC70028, 0xBA0600, 0x8C1700,
    0x5C2F00, 0x104500, 0x054A00, 0x00472E, 0x004166, 0x000000, 0x050505, 0x050505,
    0xC7C7C7, 0x0077FF, 0x2155FF, 0x8237FA, 0xEB2FB5, 0xFF2950, 0xFF2000, 0xD63200,
    0xC46200, 0x358000, 0x058F00, 0x008A55, 0x0099CC, 0x212121, 0x090909, 0x090909,
    0xFFFFFF, 0x0FD7FF, 0x69A2FF, 0xD480FF, 0xFF45F3, 0xFF618B, 0xFF8833, 0xFF9C12,
    0xFABC20, 0x9FE30E, 0x2BF035, 0x0CF0A4, 0x05FBFF, 0x5E5E5E, 0x0D0D0D, 0x0D0D0D,
    0xFFFFFF, 0xA6FCFF, 0xB3ECFF, 0xDAABEB, 0xFFA8F9, 0xFFABB3, 0xFFD2B0, 0xFFEFA6,
    0xFFF79C, 0xD7E895, 0xA6EDAF, 0xA2F2DA, 0x99FFFC, 0xDDDDDD, 0x111111, 0x111111
  ]

  const PaletteSize := 64

  /** Cells of the raster: 256 columns by 256 rows. */
  const RasterSize := 0x10000

  /** What rendering reads: the memory, the mirror table and the two control registers. */
  datatype View = View(mem: seq<Byte>, mirror: seq<int>, ctrl1: bv8, ctrl2: bv8)

  predicate ValidView(w: View)
  {
    |w.mem| == 0x8000 && |w.mirror| == 0x8000 && forall a :: 0 <= a < 0x8000 ==> 0 <= w.mirror[a] < 0x8000
  }

  /** `ppuMemory[vramMirror[a]]`. */
  function Fetch(w: View, a: int): Byte
    requires ValidView(w) && 0 <= a < 0x8000
  {
    w.mem[w.mirror[a]]
  }

  /** Bit 3 of control register 2: the background is shown. */
  predicate ShowBackground(w: View)
  {
    w.ctrl2 & 0x08 != 0
  }

  /** Bit 4 of control register 2: sprites are shown. */
  predicate ShowSprites(w: View)
  {
    w.ctrl2 & 0x10 != 0
  }

  /** The 2-bit colour of pixel `n` of a pattern row: bit n of the high plane, then bit n of the low plane. */
  function PixelPattern(lsb: Byte, msb: Byte, n: nat): (r: int)
    ensures 0 <= r < 4
    ensures r == 0 <==> !BitAt(msb, n) && !BitAt(lsb, n)
  {
    (if BitAt(msb, n) then 2 else 0) + (if BitAt(lsb, n) then 1 else 0)
  }

  /** `(8 * k + r) / 8 == k` and the remainder is r. */
  lemma DivMod8(k: int, r: int)
    requires 0 <= r < 8
    ensures (8 * k + r) / 8 == k && (8 * k + r) % 8 == r
  {
  }

  // ---------------------------------------------------------------- background

  /** The tile cursor of `renderBackground`: coarse X, the name-table address and the attribute address. */
  datatype Cursor = Cursor(indexX: bv16, ntAddr: bv16, atAddr: bv16)

  /** The tile row (`indexY`) of an address. */
  function IndexY(v: bv16): bv16
  {
    (v & 0x3E0) >> 5
  }

  /** The cursor at the first tile of the line, taken from V. */
  function StartCursor(v: bv16): Cursor
  {
    var indexX := v & 0x1F;
    Cursor(indexX, 0x2000 + (v & 0xFFF),
           0x2000 + (v & 0xC00) + 0x3C0 + ((IndexY(v) & 0xFFFC) << 1) + (indexX >> 2))
  }

  /**
   * The step to the next tile: coarse X and the name-table address move by
   * one, the attribute address by one every four tiles, and when coarse X
   * reaches 32 both addresses cross into the horizontally adjacent name table.
   */
  function NextCursor(c: Cursor): Cursor
  {
    var x := c.indexX + 1;
    var nt := c.ntAddr + 1;
    if x & 1 == 0 && x & 3 == 0 then
      if x & 0x1F == 0 then Cursor(x - 0x20, (nt ^ 0x400) - 0x20, ((c.atAddr ^ 0x400) - 8) + 1)
      else Cursor(x, nt, c.atAddr + 1)
    else Cursor(x, nt, c.atAddr)
  }

  /** The cursor at tile k. */
  function CursorAt(v: bv16, k: nat): Cursor
  {
    if k == 0 then StartCursor(v) else NextCursor(CursorAt(v, k - 1))
  }

  /**
   * The shape every cursor of a line keeps: coarse X in the low five bits of
   * the name-table address, the tile row of V in the next five, the address
   * inside 0x2000-0x2FFF (0x1C00-0x33FF when V points at the unused row 31,
   * where the crossing borrows from the name-table bits); the attribute
   * address inside the attribute table of a name table, at the tile's
   * column of four and row of four.
   */
  predicate CursorShape(c: Cursor, v: bv16)
  {
    && c.indexX <= 31
    && c.ntAddr & 0x1F == c.indexX
    && c.ntAddr & 0x3E0 == v & 0x3E0
    && 0x1C00 <= c.ntAddr < 0x3400
    && (v & 0x3E0 != 0x3E0 ==> 0x2000 <= c.ntAddr < 0x3000)
    && c.atAddr & 7 == c.indexX >> 2
    && c.atAddr & 0x3F8 == 0x3C0 | ((IndexY(v) & 0x1C) << 1)
    && 0x2000 <= c.atAddr < 0x3000
  }

  lemma StartCursorShape(v: bv16)
    ensures CursorShape(StartCursor(v), v)
  {
  }

  lemma NextCursorShape(c: Cursor, v: bv16)
    requires CursorShape(c, v)
    ensures CursorShape(NextCursor(c), v)
  {
  }

  /** Every cursor of a line keeps the shape, so every address `renderBackground` reads is below 0x8000. */
  lemma {:induction false} CursorAtShape(v: bv16, k: nat)
    ensures CursorShape(CursorAt(v, k), v)
  {
    if k == 0 {
      StartCursorShape(v);
    } else {
      CursorAtShape(v, k - 1);
      NextCursorShape(CursorAt(v, k - 1), v);
    }
  }

  /**
   * Outside the unused rows 30 and 31 the step is the coarse-X increment of
   * the hardware: the next column of the same row, and after column 31
   * column 0 of the horizontally adjacent name table (bit 10 toggled).
   */
  lemma NextCursorMovesRight(c: Cursor, v: bv16)
    requires CursorShape(c, v) && IndexY(v) < 30
    ensures NextCursor(c).indexX == (c.indexX + 1) & 0x1F
    ensures c.indexX < 31 ==> NextCursor(c).ntAddr == c.ntAddr + 1
    ensures c.indexX == 31 ==> NextCursor(c).ntAddr == (c.ntAddr ^ 0x400) & 0xFFE0
  {
  }

  /** The attribute bits of a tile (the palette's high two bits, times 4), from its quadrant of the attribute byte. */
  function AttributeOf(b: Byte, indexX: bv16, indexY: bv16): (r: int)
    ensures r % 4 == 0 && 0 <= r <= 12
  {
    if indexY & 2 == 0 then
      if indexX & 2 == 0 then (b % 4) * 4 else ((b / 4) % 4) * 4
    else
      if indexX & 2 == 0 then ((b / 16) % 4) * 4 else ((b / 64) % 4) * 4
  }

  /** The attribute bits in force at tile k: fetched before the first tile and again after each step onto an even column. */
  function AttributeAt(w: View, v: bv16, k: nat): (r: int)
    requires ValidView(w)
    ensures r % 4 == 0 && 0 <= r <= 12
  {
    var c := CursorAt(v, k);
    CursorAtShape(v, k);
    if k == 0 || c.indexX & 1 == 0 then AttributeOf(Fetch(w, c.atAddr as int), c.indexX, IndexY(v))
    else AttributeAt(w, v, k - 1)
  }

  /** The address of the pattern row of the tile under the cursor: table from bit 4 of control register 1, tile number from the name table, row from fine Y. */
  function TileAddress(w: View, c: Cursor, v: bv16): (a: int)
    requires ValidView(w) && CursorShape(c, v)
    ensures 0 <= a < 0x2000 - 8
  {
    (if w.ctrl1 & 0x10 != 0 then 0x1000 else 0) + Fetch(w, c.ntAddr as int) * 16 + FineY(v) as int
  }

  /** The address of tile k's pattern row. */
  function TileRowAddress(w: View, v: bv16, k: nat): (a: int)
    requires ValidView(w)
    ensures 0 <= a < 0x2000 - 8
  {
    CursorAtShape(v, k);
    TileAddress(w, CursorAt(v, k), v)
  }

  /** The low plane of tile k's pattern row. */
  function TileLsb(w: View, v: bv16, k: nat): Byte
    requires ValidView(w)
  {
    Fetch(w, TileRowAddress(w, v, k))
  }

  /** The high plane, eight bytes further on. */
  function TileMsb(w: View, v: bv16, k: nat): Byte
    requires ValidView(w)
  {
    Fetch(w, TileRowAddress(w, v, k) + 8)
  }

  /** What one tile of the line draws from: the two planes of its pattern row and its attribute bits. */
  datatype TileRow = TileRow(lsb: Byte, msb: Byte, attribute: int)

  predicate ValidTile(r: TileRow)
  {
    r.attribute % 4 == 0 && 0 <= r.attribute <= 12
  }

  /** The 33 tiles `renderBackground` draws for V. */
  function LineTiles(w: View, v: bv16): (tiles: seq<TileRow>)
    requires ValidView(w)
    ensures |tiles| == 33 && forall t :: 0 <= t < 33 ==> ValidTile(tiles[t])
  {
    seq(33, t requires 0 <= t => TileRow(TileLsb(w, v, t), TileMsb(w, v, t), AttributeAt(w, v, t)))
  }

  /**
   * The palette address of a background pixel with pattern p under attribute
   * bits `attribute`: the shared backdrop entry 0x3F10 when transparent.
   * (The Java `attribute | pattern` is a sum, as the two have no bit in common.)
   */
  function ColorAddress(attribute: int, p: int): (a: int)
    requires attribute % 4 == 0 && 0 <= attribute <= 12 && 0 <= p < 4
    ensures 0x3F00 <= a < 0x3F20
    ensures p == 0 <==> a == 0x3F10
  {
    if p == 0 then 0x3F10 else 0x3F00 + attribute + p
  }

  /** The palette byte of pixel j of a tile. */
  function TileColorIndex(w: View, r: TileRow, j: nat): Byte
    requires ValidView(w) && ValidTile(r)
  {
    Fetch(w, ColorAddress(r.attribute, PixelPattern(r.lsb, r.msb, j)))
  }

  /** The first n pixels of a tile drawn (7 down to 8 - n) look up palette bytes that name colours. */
  predicate TileColorsOk(w: View, r: TileRow, n: nat)
    requires ValidView(w) && ValidTile(r)
  {
    forall i :: 8 - n <= i < 8 ==> TileColorIndex(w, r, i) < PaletteSize
  }

  /** The same for all eight pixels of tiles 0 to k - 1. */
  predicate TilesOk(w: View, tiles: seq<TileRow>, k: nat)
    requires ValidView(w) && k <= |tiles| && forall t :: 0 <= t < |tiles| ==> ValidTile(tiles[t])
  {
    forall t :: 0 <= t < k ==> TileColorsOk(w, tiles[t], 8)
  }

  /** Every palette byte the 33 tiles of the line look up names one of the 64 colours. */
  predicate BgPaletteOk(w: View, v: bv16)
    requires ValidView(w)
  {
    TilesOk(w, LineTiles(w, v), 33)
  }

  /**
   * `solidBGLine` after the first n pixels of a tile drawn from column
   * `left` (pixel j lands on left + 7 - j): on-screen columns record
   * whether the pixel is opaque.
   */
  function TileSolid(s: seq<bool>, left: int, r: TileRow, n: nat): (s': seq<bool>)
    requires n <= 8
    ensures |s'| == |s|
  {
    if n == 0 then s
    else
      var prev := TileSolid(s, left, r, n - 1);
      var col := left + n - 1;
      if 0 <= col < |s| then prev[col := PixelPattern(r.lsb, r.msb, 8 - n) != 0] else prev
  }

  /** The raster after the first n pixels of a tile drawn on the row starting at cell `row`: on-screen pixels are drawn when the background is shown. */
  function TileRaster(a: seq<int>, row: int, w: View, left: int, r: TileRow, n: nat): (a': seq<int>)
    requires ValidView(w) && ValidTile(r) && n <= 8
    requires 0 <= row && row + 256 <= |a| && TileColorsOk(w, r, n)
    ensures |a'| == |a|
  {
    if n == 0 then a
    else
      var prev := TileRaster(a, row, w, left, r, n - 1);
      var col := left + n - 1;
      if 0 <= col < 256 && ShowBackground(w) then prev[row + col := RgbPalette[TileColorIndex(w, r, 8 - n)]]
      else prev
  }

  /** `solidBGLine` after tiles 0 to k - 1 of the line; tile t is drawn from column 8t - fineX. */
  function LineSolid(tiles: seq<TileRow>, fineX: int, s: seq<bool>, k: nat): (s': seq<bool>)
    requires k <= |tiles|
    ensures |s'| == |s|
  {
    if k == 0 then s
    else TileSolid(LineSolid(tiles, fineX, s, k - 1), 8 * (k - 1) - fineX, tiles[k - 1], 8)
  }

  /** The raster after tiles 0 to k - 1 of the line. */
  function LineRaster(w: View, tiles: seq<TileRow>, fineX: int, a: seq<int>, row: int, k: nat): (a': seq<int>)
    requires ValidView(w) && k <= |tiles| && (forall t :: 0 <= t < |tiles| ==> ValidTile(tiles[t]))
    requires 0 <= row && row + 256 <= |a| && TilesOk(w, tiles, k)
    ensures |a'| == |a|
  {
    if k == 0 then a
    else TileRaster(LineRaster(w, tiles, fineX, a, row, k - 1), row, w, 8 * (k - 1) - fineX, tiles[k - 1], 8)
  }

  /** Column `col` of the screen shows pixel 7 - (col + fineX) % 8 of tile (col + fineX) / 8. */
  function PixelAt(tiles: seq<TileRow>, fineX: int, col: int): (r: (TileRow, nat))
    requires |tiles| == 33 && 0 <= fineX < 8 && 0 <= col < 256
    ensures r.1 < 8
  {
    (tiles[(col + fineX) / 8], 7 - (col + fineX) % 8)
  }

  /** Whether the tile pixel that lands on column `col` is opaque. */
  predicate PixelSolid(tiles: seq<TileRow>, fineX: int, col: int)
    requires |tiles| == 33 && 0 <= fineX < 8 && 0 <= col < 256
  {
    var (r, j) := PixelAt(tiles, fineX, col);
    PixelPattern(r.lsb, r.msb, j) != 0
  }

  /** Whether the background is opaque at column `col`. */
  predicate BgSolidAt(w: View, v: bv16, fineX: int, col: int)
    requires ValidView(w) && 0 <= fineX < 8 && 0 <= col < 256
  {
    PixelSolid(LineTiles(w, v), fineX, col)
  }

  /** The colour of the tile pixel that lands on column `col`. */
  function PixelColor(w: View, tiles: seq<TileRow>, fineX: int, col: int): int
    requires ValidView(w) && |tiles| == 33 && 0 <= fineX < 8 && 0 <= col < 256
    requires ValidTile(PixelAt(tiles, fineX, col).0) && TileColorsOk(w, PixelAt(tiles, fineX, col).0, 8)
  {
    var (r, j) := PixelAt(tiles, fineX, col);
    RgbPalette[TileColorIndex(w, r, j)]
  }

  /** The colour the background shows at column `col`. */
  function BgColorAt(w: View, v: bv16, fineX: int, col: int): int
    requires ValidView(w) && 0 <= fineX < 8 && 0 <= col < 256 && BgPaletteOk(w, v)
  {
    assert TileColorsOk(w, PixelAt(LineTiles(w, v), fineX, col).0, 8);
    PixelColor(w, LineTiles(w, v), fineX, col)
  }

  /** A tile sets exactly the on-screen columns it covers, each from the pixel that lands there. */
  lemma {:induction false} TileSolidAt(s: seq<bool>, left: int, r: TileRow, n: nat, col: int)
    requires n <= 8 && 0 <= col < |s|
    ensures TileSolid(s, left, r, n)[col] ==
      if left <= col < left + n then PixelPattern(r.lsb, r.msb, left + 7 - col) != 0 else s[col]
  {
    if n > 0 {
      TileSolidAt(s, left, r, n - 1, col);
    }
  }

  /** A tile draws exactly the on-screen cells of its row that it covers, when the background is shown. */
  lemma {:induction false} TileRasterAt(a: seq<int>, row: int, w: View, left: int, r: TileRow, n: nat, p: int)
    requires ValidView(w) && ValidTile(r) && n <= 8
    requires 0 <= row && row + 256 <= |a| && TileColorsOk(w, r, n) && 0 <= p < |a|
    ensures TileRaster(a, row, w, left, r, n)[p] ==
      if ShowBackground(w) && row <= p < row + 256 && left <= p - row < left + n
      then RgbPalette[TileColorIndex(w, r, left + 7 - (p - row))] else a[p]
  {
    if n > 0 {
      TileRasterAt(a, row, w, left, r, n - 1, p);
    }
  }

  /** After k tiles, the columns they cover hold the solidity of the pixel landing there, the rest are as before. */
  lemma {:induction false} LineSolidAt(tiles: seq<TileRow>, fineX: int, s: seq<bool>, k: nat, col: int)
    requires |tiles| == 33 && k <= 33 && 0 <= fineX < 8 && 0 <= col < 256 && |s| == 256
    ensures LineSolid(tiles, fineX, s, k)[col] ==
      if col + fineX < 8 * k then PixelSolid(tiles, fineX, col) else s[col]
  {
    if k > 0 {
      var t := k - 1;
      var before := LineSolid(tiles, fineX, s, t);
      var left := 8 * t - fineX;
      assert LineSolid(tiles, fineX, s, k) == TileSolid(before, left, tiles[t], 8);
      LineSolidAt(tiles, fineX, s, t, col);
      TileSolidAt(before, left, tiles[t], 8, col);
      if left <= col < left + 8 {
        TilePixelAt(tiles, fineX, t, col);
      }
    }
  }

  /** A column covered by tile t shows one of that tile's pixels. */
  lemma TilePixelAt(tiles: seq<TileRow>, fineX: int, t: nat, col: int)
    requires |tiles| == 33 && 0 <= fineX < 8 && 0 <= col < 256 && t < 33 && 8 * t <= col + fineX < 8 * t + 8
    ensures PixelAt(tiles, fineX, col) == (tiles[t], 8 * t - fineX + 7 - col)
  {
    DivMod8(t, col + fineX - 8 * t);
  }

  /** After k tiles, the covered cells of the row hold the colours of the pixels landing there (when shown), all other cells are as before. */
  lemma {:induction false} LineRasterAt(w: View, tiles: seq<TileRow>, fineX: int, a: seq<int>, row: int, k: nat, p: int)
    requires ValidView(w) && |tiles| == 33 && k <= 33 && (forall t :: 0 <= t < 33 ==> ValidTile(tiles[t]))
    requires 0 <= fineX < 8 && 0 <= row && row + 256 <= |a| && TilesOk(w, tiles, k) && 0 <= p < |a|
    ensures LineRaster(w, tiles, fineX, a, row, k)[p] ==
      if ShowBackground(w) && row <= p < row + 256 && p - row + fineX < 8 * k
      then
        assert TileColorsOk(w, PixelAt(tiles, fineX, p - row).0, 8);
        PixelColor(w, tiles, fineX, p - row)
      else a[p]
  {
    if k > 0 {
      var t := k - 1;
      var before := LineRaster(w, tiles, fineX, a, row, t);
      var left := 8 * t - fineX;
      assert LineRaster(w, tiles, fineX, a, row, k) == TileRaster(before, row, w, left, tiles[t], 8);
      LineRasterAt(w, tiles, fineX, a, row, t, p);
      TileRasterAt(before, row, w, left, tiles[t], 8, p);
      if ShowBackground(w) && row <= p < row + 256 && left <= p - row < left + 8 {
        TilePixelAt(tiles, fineX, t, p - row);
      }
    }
  }

  /**
   * `renderBackground` sets every column of `solidBGLine`: whatever the buffer
   * held before, after the 33 tiles it says where the background is opaque.
   */
  lemma BackgroundSolidLine(w: View, v: bv16, fineX: int, s: seq<bool>, col: int)
    requires ValidView(w) && 0 <= fineX < 8 && 0 <= col < 256 && |s| == 256
    ensures LineSolid(LineTiles(w, v), fineX, s, 33)[col] == BgSolidAt(w, v, fineX, col)
  {
    LineSolidAt(LineTiles(w, v), fineX, s, 33, col);
  }

  /**
   * With the background shown, every cell of the row gets the colour of the
   * background pixel that lands there; no cell outside the row changes.
   */
  lemma BackgroundRasterLine(w: View, v: bv16, fineX: int, a: seq<int>, row: int, p: int)
    requires ValidView(w) && 0 <= fineX < 8 && 0 <= row && row + 256 <= |a| && BgPaletteOk(w, v) && 0 <= p < |a|
    ensures LineRaster(w, LineTiles(w, v), fineX, a, row, 33)[p] ==
      if ShowBackground(w) && row <= p < row + 256 then BgColorAt(w, v, fineX, p - row) else a[p]
  {
    LineRasterAt(w, LineTiles(w, v), fineX, a, row, 33, p);
  }

  // ---------------------------------------------------------------- sprites

  /** Sprite memory as rendering reads it: the 64 four-byte entries at its start. */
  predicate ValidOam(oam: seq<Byte>)
  {
    |oam| >= 0x100
  }

  /** Sprites are 8 pixels high, or 16 when bit 5 of control register 1 is set. */
  function SpriteHeight(w: View): (h: int)
    ensures h == 8 || h == 16
  {
    if w.ctrl1 & 0x20 != 0 then 16 else 8
  }

  /** The top line of sprite i: its first byte plus one. */
  function SpriteTop(oam: seq<Byte>, i: nat): int
    requires ValidOam(oam) && i < 64
  {
    oam[4 * i] as int + 1
  }

  function SpriteIndex(oam: seq<Byte>, i: nat): Byte
    requires ValidOam(oam) && i < 64
  {
    oam[4 * i + 1]
  }

  function SpriteAttributes(oam: seq<Byte>, i: nat): Byte
    requires ValidOam(oam) && i < 64
  {
    oam[4 * i + 2]
  }

  /** The leftmost column of sprite i. */
  function SpriteLeft(oam: seq<Byte>, i: nat): Byte
    requires ValidOam(oam) && i < 64
  {
    oam[4 * i + 3]
  }

  /** Sprite i covers the line when the line is at most height - 1 below its top. */
  predicate OnLine(w: View, oam: seq<Byte>, line: int, i: nat)
    requires ValidOam(oam) && i < 64
  {
    0 <= line - SpriteTop(oam, i) < SpriteHeight(w)
  }

  /** The row of the sprite drawn on the line, counted from the bottom when attribute bit 7 flips it vertically. */
  function SpriteRow(w: View, oam: seq<Byte>, line: int, i: nat): (row: int)
    requires ValidOam(oam) && i < 64 && OnLine(w, oam, line, i)
    ensures 0 <= row < SpriteHeight(w)
  {
    var r := line - SpriteTop(oam, i);
    if BitAt(SpriteAttributes(oam, i), 7) then SpriteHeight(w) - 1 - r else r
  }

  /**
   * The address of a sprite's pattern row. 8-pixel sprites take the table
   * from bit 3 of control register 1. 16-pixel sprites take it from bit 0 of
   * the tile number: an even number uses tiles n and n + 1 of table 0, an odd
   * one tiles n - 1 and n of table 1.
   */
  function SpritePatternAddress(tall: bool, ctrl1: bv8, index: Byte, row: int): (a: int)
    requires 0 <= row < (if tall then 16 else 8)
    ensures 0 <= a < 0x2000 - 8
  {
    if !tall then (if ctrl1 & 0x08 != 0 then 0x1000 else 0) + index * 16 + row
    else if index % 2 == 1 then index * 16 + 0x1000 - (if row <= 7 then 16 else 0) + row % 8
    else index * 16 + (if row > 7 then 16 else 0) + row % 8
  }

  /** The pattern row address of sprite i on the line. */
  function SpriteRowAddress(w: View, oam: seq<Byte>, line: int, i: nat): (a: int)
    requires ValidOam(oam) && i < 64 && OnLine(w, oam, line, i)
    ensures 0 <= a < 0x2000 - 8
  {
    SpritePatternAddress(SpriteHeight(w) == 16, w.ctrl1, SpriteIndex(oam, i), SpriteRow(w, oam, line, i))
  }

  /** The 2-bit pattern of pixel j of sprite i (j = 7 is drawn leftmost), mirrored when attribute bit 6 flips it horizontally. */
  function SpritePattern(w: View, oam: seq<Byte>, line: int, i: nat, j: nat): (p: int)
    requires ValidView(w) && ValidOam(oam) && i < 64 && OnLine(w, oam, line, i) && j < 8
    ensures 0 <= p < 4
  {
    var a := SpriteRowAddress(w, oam, line, i);
    PixelPattern(Fetch(w, a), Fetch(w, a + 8), if BitAt(SpriteAttributes(oam, i), 6) then 7 - j else j)
  }

  /** The palette byte of pixel j of sprite i: sprite palette (attribute bits 0-1) entry `pattern`, from 0x3F10. */
  function SpriteColorIndex(w: View, oam: seq<Byte>, line: int, i: nat, j: nat): Byte
    requires ValidView(w) && ValidOam(oam) && i < 64 && OnLine(w, oam, line, i) && j < 8
  {
    Fetch(w, 0x3F10 + (SpriteAttributes(oam, i) % 4) * 4 + SpritePattern(w, oam, line, i, j))
  }

  /** Pixel j of sprite i lands on the screen: its column x + 7 - j is below 256. */
  predicate OnScreen(oam: seq<Byte>, i: nat, j: nat)
    requires ValidOam(oam) && i < 64
  {
    SpriteLeft(oam, i) + 7 - j < 256
  }

  /**
   * The first n pixels of sprite i drawn (7 down to 8 - n) that land on the
   * screen look up palette bytes that name colours, when it covers the line.
   */
  predicate SpritePixelsOk(w: View, oam: seq<Byte>, line: int, i: nat, n: nat)
    requires ValidView(w) && ValidOam(oam) && i < 64
  {
    OnLine(w, oam, line, i) ==>
      forall j :: 8 - n <= j < 8 && OnScreen(oam, i, j) ==> SpriteColorIndex(w, oam, line, i, j) < PaletteSize
  }

  /** The next pixel drawn keeps the lookups good exactly when it is off the screen or names a colour. */
  lemma SpritePixelsOkStep(w: View, oam: seq<Byte>, line: int, i: nat, n: nat)
    requires ValidView(w) && ValidOam(oam) && i < 64 && n < 8 && OnLine(w, oam, line, i)
    requires SpritePixelsOk(w, oam, line, i, n)
    ensures SpritePixelsOk(w, oam, line, i, n + 1) <==>
      (OnScreen(oam, i, 7 - n) ==> SpriteColorIndex(w, oam, line, i, 7 - n) < PaletteSize)
  {
  }

  /** Every on-screen pixel of sprite i, if it covers the line, looks up one of the 64 colours. */
  predicate SpriteColorsOk(w: View, oam: seq<Byte>, line: int, i: nat)
    requires ValidView(w) && ValidOam(oam) && i < 64
  {
    SpritePixelsOk(w, oam, line, i, 8)
  }

  /** The same for sprites 0 to n - 1. */
  predicate SpritePaletteOkBelow(w: View, oam: seq<Byte>, line: int, n: nat)
    requires ValidView(w) && ValidOam(oam) && n <= 64
  {
    forall i :: 0 <= i < n ==> SpriteColorsOk(w, oam, line, i)
  }

  /** Every sprite pixel `renderSprites` looks up names one of the 64 colours. */
  predicate SpritePaletteOk(w: View, oam: seq<Byte>, line: int)
    requires ValidView(w) && ValidOam(oam)
  {
    SpritePaletteOkBelow(w, oam, line, 64)
  }

  /** The sprites among the first n that cover the line. */
  function OnLineCount(w: View, oam: seq<Byte>, line: int, n: nat): (c: nat)
    requires ValidOam(oam) && n <= 64
    ensures c <= n
  {
    if n == 0 then 0 else OnLineCount(w, oam, line, n - 1) + (if OnLine(w, oam, line, n - 1) then 1 else 0)
  }

  /** Pixel j of sprite i is opaque, on the screen and over a column the background marked solid. */
  predicate HitPixel(w: View, oam: seq<Byte>, line: int, solidBG: seq<bool>, i: nat, j: nat)
    requires ValidView(w) && ValidOam(oam) && |solidBG| == 256 && i < 64 && OnLine(w, oam, line, i) && j < 8
  {
    OnScreen(oam, i, j) && solidBG[SpriteLeft(oam, i) + 7 - j] && SpritePattern(w, oam, line, i, j) != 0
  }

  /**
   * Sprite 0 hits: with the background shown, one of its opaque on-screen
   * pixels of the line lies on a column the background marked solid.
   */
  predicate SpriteZeroHit(w: View, oam: seq<Byte>, line: int, solidBG: seq<bool>)
    requires ValidView(w) && ValidOam(oam) && |solidBG| == 256
  {
    && ShowBackground(w) && OnLine(w, oam, line, 0)
    && (exists j :: 0 <= j < 8 && HitPixel(w, oam, line, solidBG, 0, j))
  }

  /** The status after the sprites: bit 5 when more than eight cover the line, bit 6 added on a sprite-0 hit. */
  function SpriteStatus(status: bv8, overflow: bool, hit: bool): (r: bv8)
    ensures r & 0x20 != 0 <==> overflow
    ensures r & 0x40 != 0 <==> hit || status & 0x40 != 0
    ensures r & 0x9F == status & 0x9F
  {
    (status & 0xDF) | (if overflow then 0x20 else 0) | (if hit then 0x40 else 0)
  }

  /** Setting bit 5 or bit 6 of a sprite status gives the status with overflow or hit; clearing bit 5 gives the status with neither. */
  lemma SpriteStatusBits(status: bv8, overflow: bool, hit: bool)
    ensures SpriteStatus(status, overflow, hit) | 0x20 == SpriteStatus(status, true, hit)
    ensures SpriteStatus(status, overflow, hit) | 0x40 == SpriteStatus(status, overflow, true)
    ensures status & 0xDF == SpriteStatus(status, false, false)
  {
  }

  /**
   * Sprite i paints column col: it covers the line and the column, sprites
   * are shown, its pixel there is opaque, and it is not behind (attribute
   * bit 5) a solid background pixel.
   */
  predicate SpritePaints(w: View, oam: seq<Byte>, line: int, solidBG: seq<bool>, i: nat, col: int)
    requires ValidView(w) && ValidOam(oam) && |solidBG| == 256 && i < 64 && 0 <= col < 256
  {
    && OnLine(w, oam, line, i) && SpriteLeft(oam, i) <= col <= SpriteLeft(oam, i) + 7
    && ShowSprites(w)
    && !(BitAt(SpriteAttributes(oam, i), 5) && solidBG[col])
    && SpritePattern(w, oam, line, i, SpriteLeft(oam, i) + 7 - col) != 0
  }

  /** The colour of column col after sprites 0 to n - 1 over `under`: a later sprite paints over an earlier one. */
  function SpriteColumn(w: View, oam: seq<Byte>, line: int, solidBG: seq<bool>, n: nat, col: int, under: int): int
    requires ValidView(w) && ValidOam(oam) && |solidBG| == 256 && n <= 64 && 0 <= col < 256
    requires SpritePaletteOkBelow(w, oam, line, n)
  {
    if n == 0 then under
    else if SpritePaints(w, oam, line, solidBG, n - 1, col) then
      assert SpriteColorsOk(w, oam, line, n - 1);
      SpriteColorAt(w, oam, line, n - 1, col)
    else SpriteColumn(w, oam, line, solidBG, n - 1, col, under)
  }

  /** The colour sprite i gives column col when it paints there. */
  function SpriteColorAt(w: View, oam: seq<Byte>, line: int, i: nat, col: int): int
    requires ValidView(w) && ValidOam(oam) && i < 64 && 0 <= col < 256 && OnLine(w, oam, line, i)
    requires SpriteLeft(oam, i) <= col <= SpriteLeft(oam, i) + 7
    requires SpritePixelsOk(w, oam, line, i, col - SpriteLeft(oam, i) + 1)
  {
    var j := SpriteLeft(oam, i) + 7 - col;
    assert OnScreen(oam, i, j);
    RgbPalette[SpriteColorIndex(w, oam, line, i, j)]
  }

  /**
   * The raster after the first n pixels of sprite i (pixel j on column
   * x + 7 - j, so pixel 8 - n on x + n - 1) on the row starting at cell
   * `row`: a pixel the sprite paints takes its colour.
   */
  function SpriteRaster(w: View, oam: seq<Byte>, line: int, solidBG: seq<bool>, a: seq<int>, row: int, i: nat, n: nat): (a': seq<int>)
    requires ValidView(w) && ValidOam(oam) && |solidBG| == 256 && i < 64 && n <= 8
    requires 0 <= row && row + 256 <= |a| && SpritePixelsOk(w, oam, line, i, n)
    ensures |a'| == |a|
  {
    if n == 0 then a
    else
      var prev := SpriteRaster(w, oam, line, solidBG, a, row, i, n - 1);
      var col := SpriteLeft(oam, i) + n - 1;
      if col < 256 && SpritePaints(w, oam, line, solidBG, i, col) then prev[row + col := SpriteColorAt(w, oam, line, i, col)]
      else prev
  }

  /** One more pixel of sprite i: the cell of its column takes the sprite's colour when the sprite paints it. */
  lemma SpriteRasterStep(w: View, oam: seq<Byte>, line: int, solidBG: seq<bool>, a: seq<int>, row: int, i: nat, n: nat)
    requires ValidView(w) && ValidOam(oam) && |solidBG| == 256 && i < 64 && n < 8
    requires 0 <= row && row + 256 <= |a| && SpritePixelsOk(w, oam, line, i, n + 1) && OnScreen(oam, i, 7 - n)
    ensures var col := SpriteLeft(oam, i) + n;
      SpriteRaster(w, oam, line, solidBG, a, row, i, n + 1) ==
        if SpritePaints(w, oam, line, solidBG, i, col)
        then SpriteRaster(w, oam, line, solidBG, a, row, i, n)[row + col := SpriteColorAt(w, oam, line, i, col)]
        else SpriteRaster(w, oam, line, solidBG, a, row, i, n)
  {
  }

  /** The raster after sprites 0 to k - 1, each over the ones before it. */
  function SpritesRaster(w: View, oam: seq<Byte>, line: int, solidBG: seq<bool>, a: seq<int>, row: int, k: nat): (a': seq<int>)
    requires ValidView(w) && ValidOam(oam) && |solidBG| == 256 && k <= 64
    requires 0 <= row && row + 256 <= |a| && SpritePaletteOkBelow(w, oam, line, k)
    ensures |a'| == |a|
  {
    if k == 0 then a
    else
      assert SpriteColorsOk(w, oam, line, k - 1);
      SpriteRaster(w, oam, line, solidBG, SpritesRaster(w, oam, line, solidBG, a, row, k - 1), row, k - 1, 8)
  }

  /** One more sprite: its lookups join the good ones, it is drawn over the ones before it, and it is counted when it covers the line. */
  lemma SpritesStep(w: View, oam: seq<Byte>, line: int, solidBG: seq<bool>, a: seq<int>, row: int, i: nat)
    requires ValidView(w) && ValidOam(oam) && |solidBG| == 256 && i < 64
    requires 0 <= row && row + 256 <= |a| && SpritePaletteOkBelow(w, oam, line, i) && SpriteColorsOk(w, oam, line, i)
    ensures SpritePaletteOkBelow(w, oam, line, i + 1)
    ensures SpritesRaster(w, oam, line, solidBG, a, row, i + 1)
      == SpriteRaster(w, oam, line, solidBG, SpritesRaster(w, oam, line, solidBG, a, row, i), row, i, 8)
    ensures OnLineCount(w, oam, line, i + 1) == OnLineCount(w, oam, line, i) + if OnLine(w, oam, line, i) then 1 else 0
    ensures i == 0 && !OnLine(w, oam, line, 0) ==> !SpriteZeroHit(w, oam, line, solidBG)
  {
  }

  /** A sprite that does not cover the line draws nothing. */
  lemma {:induction false} SpriteRasterOffLine(w: View, oam: seq<Byte>, line: int, solidBG: seq<bool>, a: seq<int>, row: int, i: nat, n: nat)
    requires ValidView(w) && ValidOam(oam) && |solidBG| == 256 && i < 64 && n <= 8
    requires 0 <= row && row + 256 <= |a| && !OnLine(w, oam, line, i)
    ensures SpritePixelsOk(w, oam, line, i, n)
    ensures SpriteRaster(w, oam, line, solidBG, a, row, i, n) == a
  {
    if n > 0 {
      SpriteRasterOffLine(w, oam, line, solidBG, a, row, i, n - 1);
    }
  }

  /** Column col after the first n pixels of sprite i over `under`: the sprite's colour where one of them paints it. */
  function SpriteCell(w: View, oam: seq<Byte>, line: int, solidBG: seq<bool>, i: nat, n: nat, col: int, under: int): int
    requires ValidView(w) && ValidOam(oam) && |solidBG| == 256 && i < 64 && n <= 8 && 0 <= col < 256
    requires SpritePixelsOk(w, oam, line, i, n)
  {
    if SpriteLeft(oam, i) <= col < SpriteLeft(oam, i) + n && SpritePaints(w, oam, line, solidBG, i, col)
    then SpriteColorAt(w, oam, line, i, col) else under
  }

  /**
   * Cell c after the first n pixels of sprite i: the sprite's colour where
   * it paints one of the columns x to x + n - 1 of the row, the old cell
   * everywhere else.
   */
  lemma {:induction false} SpriteRasterAt(w: View, oam: seq<Byte>, line: int, solidBG: seq<bool>, a: seq<int>, row: int, i: nat, n: nat, c: int)
    requires ValidView(w) && ValidOam(oam) && |solidBG| == 256 && i < 64 && n <= 8
    requires 0 <= row && row + 256 <= |a| && SpritePixelsOk(w, oam, line, i, n) && 0 <= c < |a|
    ensures SpriteRaster(w, oam, line, solidBG, a, row, i, n)[c] ==
      if row <= c < row + 256 then SpriteCell(w, oam, line, solidBG, i, n, c - row, a[c]) else a[c]
  {
    if n > 0 {
      assert SpritePixelsOk(w, oam, line, i, n - 1);
      SpriteRasterAt(w, oam, line, solidBG, a, row, i, n - 1, c);
      var prev := SpriteRaster(w, oam, line, solidBG, a, row, i, n - 1);
      var col := SpriteLeft(oam, i) + n - 1;
      var now := SpriteRaster(w, oam, line, solidBG, a, row, i, n);
      if col < 256 && SpritePaints(w, oam, line, solidBG, i, col) {
        assert now == prev[row + col := SpriteColorAt(w, oam, line, i, col)];
        if c == row + col {
          assert now[c] == SpriteColorAt(w, oam, line, i, col);
        } else {
          assert now[c] == prev[c];
        }
      } else {
        assert now == prev;
      }
      if row <= c < row + 256 {
        var x := c - row;
        assert SpriteCell(w, oam, line, solidBG, i, n, x, a[c]) ==
          if x == col && SpritePaints(w, oam, line, solidBG, i, x) then SpriteColorAt(w, oam, line, i, x)
          else SpriteCell(w, oam, line, solidBG, i, n - 1, x, a[c]);
      }
    }
  }

  /**
   * `renderSprites` draws the 64 sprites in order, so after sprites 0 to
   * k - 1 each column of the row shows the last of them that paints it (or
   * what was there before), and no cell outside the row changes.
   */
  lemma {:induction false} SpritesRasterAt(w: View, oam: seq<Byte>, line: int, solidBG: seq<bool>, a: seq<int>, row: int, k: nat, c: int)
    requires ValidView(w) && ValidOam(oam) && |solidBG| == 256 && k <= 64
    requires 0 <= row && row + 256 <= |a| && SpritePaletteOkBelow(w, oam, line, k) && 0 <= c < |a|
    ensures SpritesRaster(w, oam, line, solidBG, a, row, k)[c] ==
      if row <= c < row + 256 then SpriteColumn(w, oam, line, solidBG, k, c - row, a[c]) else a[c]
  {
    if k > 0 {
      SpritesRasterAt(w, oam, line, solidBG, a, row, k - 1, c);
      assert SpriteColorsOk(w, oam, line, k - 1);
      SpriteRasterAt(w, oam, line, solidBG, SpritesRaster(w, oam, line, solidBG, a, row, k - 1), row, k - 1, 8, c);
    }
  }

  /** With sprites hidden (bit 4 of control register 2 clear) no sprite changes a column. */
  lemma {:induction false} HiddenSpritesKeepColumn(w: View, oam: seq<Byte>, line: int, solidBG: seq<bool>, n: nat, col: int, under: int)
    requires ValidView(w) && ValidOam(oam) && |solidBG| == 256 && n <= 64 && 0 <= col < 256
    requires SpritePaletteOkBelow(w, oam, line, n) && !ShowSprites(w)
    ensures SpriteColumn(w, oam, line, solidBG, n, col, under) == under
  {
    if n > 0 {
      HiddenSpritesKeepColumn(w, oam, line, solidBG, n - 1, col, under);
    }
  }


  // ---------------------------------------------------------------- scanline

  /** Every palette byte the shown layers of the line look up names one of the 64 colours. */
  predicate LinePaletteOk(w: View, oam: seq<Byte>, v: bv16, line: int)
    requires ValidView(w) && ValidOam(oam)
  {
    (ShowBackground(w) ==> BgPaletteOk(w, v)) && (ShowSprites(w) ==> SpritePaletteOk(w, oam, line))
  }

  /** `solidBGLine` after the background step of a line: redrawn when the background is shown, kept otherwise. */
  function LineSolidBG(w: View, v: bv16, fineX: int, s: seq<bool>): (s': seq<bool>)
    requires ValidView(w) && |s| == 256
    ensures |s'| == 256
  {
    if ShowBackground(w) then LineSolid(LineTiles(w, v), fineX, seq(256, _ => false), 33) else s
  }

  /**
   * The raster after `renderScanline` draws line `line` with V at `v`: the
   * background when it is shown, then the 64 sprites over it when they are.
   */
  function ScanlineRaster(w: View, oam: seq<Byte>, v: bv16, fineX: int, s: seq<bool>, a: seq<int>, line: int): (a': seq<int>)
    requires ValidView(w) && ValidOam(oam) && |s| == 256 && 0 <= line && line * 256 + 256 <= |a|
    requires LinePaletteOk(w, oam, v, line)
    ensures |a'| == |a|
  {
    var a1 := if ShowBackground(w) then LineRaster(w, LineTiles(w, v), fineX, a, line * 256, 33) else a;
    if ShowSprites(w) then SpritesRaster(w, oam, line, LineSolidBG(w, v, fineX, s), a1, line * 256, 64) else a1
  }

  /** The sprite step of a line, when sprites are shown, at cell p. */
  lemma SpritesOverAt(w: View, oam: seq<Byte>, line: int, bg: seq<bool>, a: seq<int>, p: int)
    requires ValidView(w) && ValidOam(oam) && |bg| == 256 && 0 <= line && line * 256 + 256 <= |a| && 0 <= p < |a|
    requires ShowSprites(w) ==> SpritePaletteOk(w, oam, line)
    ensures (if ShowSprites(w) then SpritesRaster(w, oam, line, bg, a, line * 256, 64) else a)[p] ==
      if ShowSprites(w) && line * 256 <= p < line * 256 + 256 then SpriteColumn(w, oam, line, bg, 64, p - line * 256, a[p]) else a[p]
  {
    if ShowSprites(w) {
      SpritesRasterAt(w, oam, line, bg, a, line * 256, 64, p);
    }
  }

  /**
   * What a drawn line shows: at each column the last sprite that paints it,
   * else the background pixel when the background is shown, else what was
   * there; cells outside the line keep their colour.
   */
  lemma ScanlineAt(w: View, oam: seq<Byte>, v: bv16, fineX: int, s: seq<bool>, a: seq<int>, line: int, p: int)
    requires ValidView(w) && ValidOam(oam) && 0 <= fineX < 8 && |s| == 256 && 0 <= line && line * 256 + 256 <= |a|
    requires LinePaletteOk(w, oam, v, line) && 0 <= p < |a|
    ensures ScanlineRaster(w, oam, v, fineX, s, a, line)[p] ==
      if line * 256 <= p < line * 256 + 256 then
        var under := if ShowBackground(w) then BgColorAt(w, v, fineX, p - line * 256) else a[p];
        if ShowSprites(w) then SpriteColumn(w, oam, line, LineSolidBG(w, v, fineX, s), 64, p - line * 256, under) else under
      else a[p]
  {
    var a1 := if ShowBackground(w) then LineRaster(w, LineTiles(w, v), fineX, a, line * 256, 33) else a;
    if ShowBackground(w) {
      BackgroundRasterLine(w, v, fineX, a, line * 256, p);
    }
    assert a1[p] == if ShowBackground(w) && line * 256 <= p < line * 256 + 256 then BgColorAt(w, v, fineX, p - line * 256) else a[p];
    SpritesOverAt(w, oam, line, LineSolidBG(w, v, fineX, s), a1, p);
  }

}
