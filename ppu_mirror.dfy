/**
 * The picture processor's address mirroring: `vramMirror` maps each of the
 * 0x8000 PPU addresses to the `ppuMemory` cell it stands for, and `ntMirror`
 * names the physical name table behind each of the four logical ones. Both
 * are rebuilt by `setMirroringMode` for the cartridge's mirroring mode.
 */
module PpuMirror {

  const VramSize := 0x8000

  const HorizontalMirroring := 0
  const VerticalMirroring := 1
  const SingleScreenMirroring := 3
  const SingleScreenMirroring2 := 4

  /** The palette windows the table folds onto 0x3F00-0x3F1F: 0x3F20, 0x3F40, 0x3F80 and 0x3FC0, 0x20 entries each. */
  predicate InPaletteMirror(a: int)
  {
    0x3F20 <= a < 0x3F60 || 0x3F80 <= a < 0x3FA0 || 0x3FC0 <= a < 0x3FE0
  }

  /**
   * The entry for a name-table address 0x2000 <= a < 0x3000 after the
   * mode-specific copies: vertical folds 0x2800-0x2FFF onto 0x2000-0x27FF,
   * horizontal folds 0x2400 onto 0x2000 and 0x2C00 onto 0x2800, single screen
   * folds 0x2400-0x2FFF onto 0x2000, the second single screen folds
   * 0x2800-0x2FFF onto 0x2400 (leaving 0x2000-0x23FF alone), and any other
   * mode changes nothing.
   */
  function NameTableEntry(mode: int, a: int): int
  {
    if mode == VerticalMirroring then
      (if 0x2800 <= a < 0x3000 then a - 0x800 else a)
    else if mode == HorizontalMirroring then
      (if 0x2400 <= a < 0x2800 || 0x2C00 <= a < 0x3000 then a - 0x400 else a)
    else if mode == SingleScreenMirroring then
      (if 0x2400 <= a < 0x3000 then 0x2000 + a % 0x400 else a)
    else if mode == SingleScreenMirroring2 then
      (if 0x2400 <= a < 0x3000 then 0x2400 + a % 0x400 else a)
    else a
  }

  /**
   * `vramMirror[a]` once `setMirroringMode(mode)` has run: the identity,
   * then the palette windows, then 0x3000-0x3EFF onto 0x2000, then the upper
   * half onto the lower half (onto the plain address, not its mirror), then
   * the name tables. The copies cover disjoint ranges, so their order does
   * not matter.
   */
  function MirrorOf(mode: int, a: int): int
  {
    if 0x2000 <= a < 0x3000 then NameTableEntry(mode, a) else CommonMirror(a)
  }

  /** The entries every mode shares: all but the name tables 0x2000-0x2FFF, which are the identity here. */
  function CommonMirror(a: int): int
  {
    if a >= 0x4000 then a - 0x4000
    else if 0x3000 <= a < 0x3F00 then a - 0x1000
    else if InPaletteMirror(a) then 0x3F00 + a % 0x20
    else a
  }

  /** The whole table for a mode. */
  function MirrorTable(mode: int): (r: seq<int>)
    ensures |r| == VramSize
    ensures forall a :: 0 <= a < VramSize ==> r[a] == MirrorOf(mode, a)
  {
    seq(VramSize, a => MirrorOf(mode, a))
  }

  /** `ntMirror` for a mode: the physical table behind logical tables 0 to 3. */
  function NtMirror(mode: int): (r: seq<int>)
    ensures |r| == 4
    ensures forall i :: 0 <= i < 4 ==> 0 <= r[i] < 4
  {
    if mode == VerticalMirroring then [0, 1, 0, 1]
    else if mode == HorizontalMirroring then [0, 0, 1, 1]
    else if mode == SingleScreenMirroring then [0, 0, 0, 0]
    else if mode == SingleScreenMirroring2 then [1, 1, 1, 1]
    else [0, 1, 2, 3]
  }

  /** Every entry of the table is an index into the 0x8000-cell memory. */
  lemma MirrorInRange(mode: int, a: int)
    requires 0 <= a < VramSize
    ensures 0 <= MirrorOf(mode, a) < VramSize
  {
  }

  /**
   * 0x3000-0x3EFF is copied onto the plain addresses 0x2000-0x2EFF, not onto
   * the cells those stand for: under vertical mirroring a write to 0x2800
   * lands in cell 0x2000, while a read of 0x3800 returns cell 0x2800.
   */
  lemma UpperNameTablesSkipFolding()
    ensures MirrorOf(VerticalMirroring, 0x2800) == 0x2000
    ensures MirrorOf(VerticalMirroring, 0x3800) == 0x2800
  {
  }

  /** Vertical mirroring: 0x2800+i reads 0x2000+i and 0x2C00+i reads 0x2400+i. */
  lemma VerticalAliases(i: int)
    requires 0 <= i < 0x400
    ensures MirrorOf(VerticalMirroring, 0x2800 + i) == 0x2000 + i
    ensures MirrorOf(VerticalMirroring, 0x2C00 + i) == 0x2400 + i
    ensures MirrorOf(VerticalMirroring, 0x2000 + i) == 0x2000 + i
    ensures MirrorOf(VerticalMirroring, 0x2400 + i) == 0x2400 + i
  {
  }

  /** Horizontal mirroring: 0x2400+i reads 0x2000+i and 0x2C00+i reads 0x2800+i. */
  lemma HorizontalAliases(i: int)
    requires 0 <= i < 0x400
    ensures MirrorOf(HorizontalMirroring, 0x2400 + i) == 0x2000 + i
    ensures MirrorOf(HorizontalMirroring, 0x2C00 + i) == 0x2800 + i
    ensures MirrorOf(HorizontalMirroring, 0x2000 + i) == 0x2000 + i
    ensures MirrorOf(HorizontalMirroring, 0x2800 + i) == 0x2800 + i
  {
  }

  /** Single screen: all four windows read 0x2000+i. */
  lemma SingleScreenAliases(i: int, n: int)
    requires 0 <= i < 0x400 && 0 <= n < 4
    ensures MirrorOf(SingleScreenMirroring, 0x2000 + n * 0x400 + i) == 0x2000 + i
  {
  }

  /**
   * The second single screen folds 0x2400-0x2FFF onto 0x2400, but no copy
   * covers 0x2000-0x23FF, which stays a separate table although
   * `ntMirror` says every logical table is table 1.
   */
  lemma SingleScreen2LeavesFirstTable(i: int, n: int)
    requires 0 <= i < 0x400 && 1 <= n < 4
    ensures MirrorOf(SingleScreenMirroring2, 0x2000 + n * 0x400 + i) == 0x2400 + i
    ensures MirrorOf(SingleScreenMirroring2, 0x2000 + i) == 0x2000 + i
    ensures NtMirror(SingleScreenMirroring2)[0] == 1
  {
  }

  /**
   * The palette is folded from 0x3F20, 0x3F40, 0x3F80 and 0x3FC0 only, so the
   * windows at 0x3F60, 0x3FA0 and 0x3FE0 keep their own cells.
   */
  lemma PaletteWindows(mode: int, i: int)
    requires 0 <= i < 0x20
    ensures MirrorOf(mode, 0x3F00 + i) == 0x3F00 + i
    ensures MirrorOf(mode, 0x3F20 + i) == 0x3F00 + i
    ensures MirrorOf(mode, 0x3F40 + i) == 0x3F00 + i
    ensures MirrorOf(mode, 0x3F80 + i) == 0x3F00 + i
    ensures MirrorOf(mode, 0x3FC0 + i) == 0x3F00 + i
    ensures MirrorOf(mode, 0x3F60 + i) == 0x3F60 + i
    ensures MirrorOf(mode, 0x3FA0 + i) == 0x3FA0 + i
    ensures MirrorOf(mode, 0x3FE0 + i) == 0x3FE0 + i
  {
  }

  /** The upper half maps to the plain lower address, so 0x7000+i reads 0x3000+i and not the name table 0x3000+i is folded onto. */
  lemma UpperHalfSkipsFolding(mode: int, a: int)
    requires 0x4000 <= a < VramSize
    ensures MirrorOf(mode, a) == a - 0x4000
  {
  }
}
