/**
 * `PPU`: the picture processor's state and its operations — the mirror
 * table, the CPU-visible ports, video-memory access, sprite DMA, scanline
 * rendering and the cycle-driven scanline state machine.
 *
 * Calls the Java class makes into other components are recorded instead:
 * an NMI request to the CPU increments `nmiRequests`, and handing the raster
 * to the video output together with the vertical-blank signal to the clock
 * increments `framesShown`.
 */
module Picture {
  import opened Bytes
  import opened PpuMirror
  import opened PpuRegs
  import opened PpuPorts
  import opened PpuRender

  const SpriteMemorySize := 0x10000

  /** `spriteMemory` after sprite DMA from `sram`: entries from `sram` to 0xFF come from the page, the rest are kept. */
  function Dma(oam: seq<Byte>, sram: int, page: seq<Byte>): (r: seq<Byte>)
    requires |oam| == SpriteMemorySize && |page| == 0x100 && 0 <= sram < 0x100
    ensures |r| == SpriteMemorySize
    ensures forall k :: 0 <= k < SpriteMemorySize ==> r[k] == (if sram <= k < 0x100 then page[k] else oam[k])
  {
    oam[..sram] + page[sram..] + oam[0x100..]
  }

  /** `writeMirror(src, dest, length)` on a table: entries src..src+length-1 point at dest..dest+length-1. */
  method WriteMirror(table: array<int>, src: int, dest: int, length: int)
    requires 0 <= src && 0 <= length && src + length <= table.Length
    modifies table
    ensures forall k :: 0 <= k < table.Length ==>
      table[k] == (if src <= k < src + length then dest + (k - src) else old(table[k]))
  {
    var i := 0;
    while i < length
      invariant 0 <= i <= length
      invariant forall k :: 0 <= k < table.Length ==>
        table[k] == (if src <= k < src + i then dest + (k - src) else old(table[k]))
    {
      table[src + i] := dest + i;
      i := i + 1;
    }
  }

  /** The writes every mode shares: identity, palette windows, 0x3000-0x3EFF and the upper half. */
  method WriteCommonMirror(table: array<int>)
    requires table.Length == VramSize
    modifies table
    ensures forall a :: 0 <= a < VramSize ==> table[a] == CommonMirror(a)
  {
    WriteMirror(table, 0, 0, table.Length);
    WriteMirror(table, 0x3f20, 0x3f00, 0x20);
    WriteMirror(table, 0x3f40, 0x3f00, 0x20);
    WriteMirror(table, 0x3f80, 0x3f00, 0x20);
    WriteMirror(table, 0x3fc0, 0x3f00, 0x20);
    WriteMirror(table, 0x3000, 0x2000, 0xf00);
    WriteMirror(table, 0x4000, 0, 0x4000);
  }

  /** A new mirror table for a mode, built as `setMirroringMode` builds it. */
  method NewMirror(mode: int) returns (table: array<int>)
    ensures fresh(table) && table[..] == MirrorTable(mode)
  {
    table := new int[VramSize];
    WriteCommonMirror(table);
    if mode == VerticalMirroring {
      WriteMirror(table, 0x2800, 0x2000, 0x400);
      WriteMirror(table, 0x2c00, 0x2400, 0x400);
    } else if mode == HorizontalMirroring {
      WriteMirror(table, 0x2400, 0x2000, 0x400);
      WriteMirror(table, 0x2c00, 0x2800, 0x400);
    } else if mode == SingleScreenMirroring {
      WriteMirror(table, 0x2400, 0x2000, 0x400);
      WriteMirror(table, 0x2800, 0x2000, 0x400);
      WriteMirror(table, 0x2c00, 0x2000, 0x400);
    } else if mode == SingleScreenMirroring2 {
      WriteMirror(table, 0x2400, 0x2400, 0x400);
      WriteMirror(table, 0x2800, 0x2400, 0x400);
      WriteMirror(table, 0x2c00, 0x2400, 0x400);
    }
    assert forall a :: 0 <= a < VramSize ==> table[a] == MirrorOf(mode, a);
  }

  class Ppu {
    const ppuMemory: array<Byte>
    const spriteMemory: array<Byte>
    var vramMirror: array<int>
    var ntMirror: seq<int>
    const solidBGLine: array<bool>
    const solidSPLine: array<bool>
    const raster: array<int>

    var firstWrite: bool
    var mirroringMode: int
    var controlRegister1: bv8
    var controlRegister2: bv8
    var statusRegister: bv8
    var sramAddress: Byte
    var ppuLatch: Byte

    var loopyX: int
    var loopyT: bv16
    var loopyV: bv16
    var scanlineCycles: int
    var scanline: int
    var vblankWait: int

    /** NMI requests sent to the CPU. */
    var nmiRequests: nat
    /** Frames handed to the video output (each with a vertical-blank signal to the clock). */
    var framesShown: nat

    /** The register fields the ports read and write. */
    function Regs(): Regs
      reads this
    {
      PpuPorts.Regs(controlRegister1, controlRegister2, statusRegister, sramAddress, ppuLatch,
                    loopyX, loopyT, loopyV, firstWrite)
    }

    ghost function Timing(): Timing
      reads this
    {
      PpuRegs.Timing(scanlineCycles, scanline, vblankWait)
    }

    /** What rendering reads. */
    ghost function View(): View
      reads this`vramMirror, this`controlRegister1, this`controlRegister2, ppuMemory, vramMirror
    {
      PpuRender.View(ppuMemory[..], vramMirror[..], controlRegister1, controlRegister2)
    }

    /** The sizes of the memories and buffers, and a mirror table that stays inside the memory. */
    ghost predicate Buffers()
      reads this`vramMirror, vramMirror
    {
      && ppuMemory.Length == 0x8000 && spriteMemory.Length == SpriteMemorySize
      && solidBGLine.Length == 256 && solidSPLine.Length == 256 && raster.Length == RasterSize
      && ppuMemory != spriteMemory && solidBGLine != solidSPLine && vramMirror != raster
      && vramMirror.Length == VramSize
      && (forall a :: 0 <= a < VramSize ==> 0 <= vramMirror[a] < VramSize)
    }

    /** The mirror tables are those of the current mode. */
    ghost predicate Tables()
      reads this`vramMirror, this`mirroringMode, this`ntMirror, vramMirror
    {
      vramMirror[..] == MirrorTable(mirroringMode) && ntMirror == NtMirror(mirroringMode)
    }

    /** Fine X is three bits, T stays below 0x8000, and the line counters are as `ValidTiming` says. */
    ghost predicate Counters()
      reads this`loopyX, this`loopyT, this`scanlineCycles, this`vblankWait, this`scanline
    {
      && 0 <= loopyX < 8 && loopyT < 0x8000
      && 0 <= scanlineCycles < LineCycles && 0 <= vblankWait <= 19 && 0 <= scanline <= 243
      && (vblankWait < 19 ==> scanline == 0)
    }

    ghost predicate Valid()
      reads this`vramMirror, this`mirroringMode, this`ntMirror, vramMirror
      reads this`loopyX, this`loopyT, this`scanlineCycles, this`vblankWait, this`scanline
    {
      Buffers() && Tables() && Counters()
    }

    /**
     * `new PPU()` followed by the first `hardReset()`: zeroed memories and
     * registers, the write toggle on its first write, and the mirror tables
     * of the cartridge's mode. The mode differs from the initial -1 (the
     * cartridge gives 0 or 1), so the tables are always built.
     */
    constructor (mode: int)
      requires mode != -1
      ensures Valid() && View().ctrl1 == 0 && View().ctrl2 == 0
      ensures fresh(ppuMemory) && fresh(spriteMemory) && fresh(vramMirror) && fresh(raster)
      ensures fresh(solidBGLine) && fresh(solidSPLine)
      ensures mirroringMode == mode && vramMirror[..] == MirrorTable(mode) && ntMirror == NtMirror(mode)
      ensures Regs() == PpuPorts.Regs(0, 0, 0, 0, 0, 0, 0, 0, true)
      ensures Timing() == PpuRegs.Timing(0, 0, 0) && nmiRequests == 0 && framesShown == 0
      ensures forall a :: 0 <= a < 0x8000 ==> ppuMemory[a] == 0
      ensures forall a :: 0 <= a < SpriteMemorySize ==> spriteMemory[a] == 0
    {
      ppuMemory := new Byte[0x8000](_ => 0);
      spriteMemory := new Byte[SpriteMemorySize](_ => 0);
      raster := new int[RasterSize](_ => 0);
      solidBGLine := new bool[256](_ => false);
      solidSPLine := new bool[256](_ => false);
      controlRegister1, controlRegister2, statusRegister := 0, 0, 0;
      sramAddress, ppuLatch := 0, 0;
      loopyX, loopyT, loopyV := 0, 0, 0;
      scanlineCycles, scanline, vblankWait := 0, 0, 0;
      nmiRequests, framesShown := 0, 0;
      firstWrite := true;
      mirroringMode := mode;
      ntMirror := NtMirror(mode);
      var table := NewMirror(mode);
      vramMirror := table;
      new;
      forall a | 0 <= a < VramSize
        ensures 0 <= vramMirror[a] < VramSize
      {
        MirrorInRange(mode, a);
      }
    }

    /**
     * `setMirroringMode(mode)`: nothing when the mode is the current one;
     * otherwise fresh tables for the new mode.
     */
    method SetMirroringMode(mode: int)
      requires Valid()
      modifies this`mirroringMode, this`vramMirror, this`ntMirror
      ensures Valid()
      ensures mirroringMode == mode && vramMirror[..] == MirrorTable(mode) && ntMirror == NtMirror(mode)
      ensures old(mirroringMode) == mode ==> vramMirror == old(vramMirror)
      ensures old(mirroringMode) != mode ==> fresh(vramMirror)
    {
      if mirroringMode == mode {
        return;
      }
      mirroringMode := mode;
      var table := NewMirror(mode);
      vramMirror := table;
      ntMirror := NtMirror(mode);
      forall a | 0 <= a < VramSize
        ensures 0 <= vramMirror[a] < VramSize
      {
        MirrorInRange(mode, a);
      }
    }

    /** The byte a 0x2007 read fetches, `ppuMemory[vramMirror[V]]` (0 when V is out of range and the read throws). */
    ghost function VramByte(): Byte
      requires Valid()
      reads this, ppuMemory, vramMirror
    {
      if loopyV < 0x8000 then ppuMemory[vramMirror[loopyV as int]] else 0
    }

    /** `readVRAM()`: the byte at V, then V moves by 1 or 32; it throws (`ok` false) when V is 0x8000 or more. */
    method ReadVram() returns (value: Byte, ok: bool)
      requires Valid()
      modifies this`loopyV
      ensures Valid()
      ensures ok <==> old(loopyV) < 0x8000
      ensures ok ==> value == old(VramByte()) && loopyV == old(loopyV + VramStep(controlRegister1))
      ensures !ok ==> loopyV == old(loopyV)
    {
      if loopyV >= 0x8000 {
        return 0, false;
      }
      value := ppuMemory[vramMirror[loopyV as int]];
      loopyV := loopyV + VramStep(controlRegister1);
      ok := true;
    }

    /** `writeVRAM(value)`: the byte goes to the cell V stands for, then V moves by 1 or 32; it throws when V is 0x8000 or more. */
    method WriteVram(value: Byte) returns (ok: bool)
      requires Valid()
      modifies this`loopyV, ppuMemory
      ensures Valid()
      ensures ok <==> old(loopyV) < 0x8000
      ensures ok ==> ppuMemory[..] == old(ppuMemory[..])[vramMirror[old(loopyV) as int] := value]
      ensures ok ==> loopyV == old(loopyV + VramStep(controlRegister1))
      ensures !ok ==> loopyV == old(loopyV) && ppuMemory[..] == old(ppuMemory[..])
    {
      if loopyV >= 0x8000 {
        return false;
      }
      var next := loopyV + VramStep(controlRegister1);
      ppuMemory[vramMirror[loopyV as int]] := value;
      loopyV := next;
      ok := true;
    }

    /** `externalRead(address)`: see `PortRead`; a 0x2007 read with V out of range throws (`ok` false) and changes nothing. */
    method ExternalRead(address: int) returns (value: Byte, ok: bool)
      requires Valid()
      modifies this`controlRegister1, this`controlRegister2, this`statusRegister, this`sramAddress
      modifies this`ppuLatch, this`loopyX, this`loopyT, this`loopyV, this`firstWrite
      ensures Valid()
      ensures ok <==> !(address == 0x2007 && !VramAccessOk(old(Regs())))
      ensures (value, Regs()) == PortRead(old(Regs()), address, old(spriteMemory[sramAddress]), old(VramByte()))
    {
      var r := Regs();
      PortReadKeepsValid(r, address, spriteMemory[sramAddress], VramByte());
      var fetched := if loopyV < 0x8000 then ppuMemory[vramMirror[loopyV as int]] else 0;
      var result := PortRead(r, address, spriteMemory[sramAddress], fetched);
      value := result.0;
      ok := !(address == 0x2007 && !VramAccessOk(r));
      SetRegs(result.1);
    }

    /** The sprite DMA branch of `externalWrite(0x4014, value)`, given the 256 bytes the mapper reads at value * 0x100. */
    method SpriteDma(value: Byte, page: seq<Byte>)
      requires Buffers() && |page| == 0x100
      modifies spriteMemory
      ensures spriteMemory[..] == Dma(old(spriteMemory[..]), sramAddress, page)
    {
      spriteMemory[sramAddress] := value;
      var i := sramAddress;
      while i <= 0xFF
        invariant sramAddress <= i <= 0x100
        invariant forall k :: 0 <= k < SpriteMemorySize ==>
          spriteMemory[k] == (if sramAddress <= k < i then page[k] else if k == sramAddress then value else old(spriteMemory[k]))
      {
        spriteMemory[i] := page[i];
        i := i + 1;
      }
    }

    /**
     * `externalWrite(address, value)`: the register fields change as
     * `PortWrite` says; 0x2004 stores the value in sprite memory, 0x2007 in
     * video memory (throwing, `ok` false, when V is out of range), and 0x4014
     * copies `page` (what the mapper reads at value * 0x100 onwards) into
     * sprite memory.
     */
    method ExternalWrite(address: int, value: Byte, page: seq<Byte>) returns (ok: bool)
      requires Valid() && |page| == 0x100
      modifies this`controlRegister1, this`controlRegister2, this`statusRegister, this`sramAddress
      modifies this`ppuLatch, this`loopyX, this`loopyT, this`loopyV, this`firstWrite
      modifies spriteMemory, ppuMemory
      ensures Valid()
      ensures ok <==> !(address == 0x2007 && !VramAccessOk(old(Regs())))
      ensures Regs() == PortWrite(old(Regs()), address, value)
      ensures ppuMemory[..] == if address == 0x2007 && ok
        then old(ppuMemory[..])[vramMirror[old(loopyV) as int] := value] else old(ppuMemory[..])
      ensures spriteMemory[..] == if address == 0x2004 then old(spriteMemory[..])[old(sramAddress) := value]
        else if address == 0x4014 then Dma(old(spriteMemory[..]), old(sramAddress), page)
        else old(spriteMemory[..])
    {
      var r := PortWrite(Regs(), address, value);
      PortWriteKeepsValid(Regs(), address, value);
      ok := PortMemoryWrite(address, value, page);
      SetRegs(r);
    }

    /** The memory side of `externalWrite`, before any register changes. */
    method PortMemoryWrite(address: int, value: Byte, page: seq<Byte>) returns (ok: bool)
      requires Buffers() && |page| == 0x100
      modifies spriteMemory, ppuMemory
      ensures ok <==> !(address == 0x2007 && !VramAccessOk(Regs()))
      ensures ppuMemory[..] == if address == 0x2007 && ok
        then old(ppuMemory[..])[vramMirror[loopyV as int] := value] else old(ppuMemory[..])
      ensures spriteMemory[..] == if address == 0x2004 then old(spriteMemory[..])[sramAddress := value]
        else if address == 0x4014 then Dma(old(spriteMemory[..]), sramAddress, page)
        else old(spriteMemory[..])
    {
      ok := true;
      if address == 0x2004 {
        spriteMemory[sramAddress] := value;
      } else if address == 0x2007 {
        if loopyV < 0x8000 {
          ppuMemory[vramMirror[loopyV as int]] := value;
        } else {
          ok := false;
        }
      } else if address == 0x4014 {
        SpriteDma(value, page);
      }
    }

    /** Stores register fields, keeping the status register and the read buffer when the ports leave them alone. */
    method SetRegs(r: Regs)
      modifies this`controlRegister1, this`controlRegister2, this`statusRegister, this`sramAddress
      modifies this`ppuLatch, this`loopyX, this`loopyT, this`loopyV, this`firstWrite
      ensures Regs() == r
    {
      controlRegister1, controlRegister2, statusRegister := r.ctrl1, r.ctrl2, r.status;
      sramAddress, ppuLatch := r.sramAddress, r.latch;
      loopyX, loopyT, loopyV, firstWrite := r.fineX, r.t, r.v, r.firstWrite;
    }

    // ------------------------------------------------------------ background

    /** Clears a line buffer, as the loops at the start of both renderers do. */
    static method ClearLine(line: array<bool>)
      modifies line
      ensures forall x :: 0 <= x < line.Length ==> !line[x]
    {
      var i := 0;
      while i < line.Length
        invariant 0 <= i <= line.Length
        invariant forall x :: 0 <= x < i ==> !line[x]
      {
        line[i] := false;
        i := i + 1;
      }
    }

    /**
     * One tile of `renderBackground`: the eight pixels of a pattern row,
     * pixel j on column left + 7 - j where that is on the screen. `ok` is
     * false when a palette byte of the tile names no colour (the Java lookup
     * throws), and then the row is partly drawn.
     */
    method DrawTile(ghost w: View, left: int, r: TileRow) returns (ok: bool)
      requires Buffers() && w == View() && 0 <= scanline < 240 && ValidTile(r)
      modifies raster, solidBGLine
      ensures ok <==> TileColorsOk(w, r, 8)
      ensures ok ==> solidBGLine[..] == TileSolid(old(solidBGLine[..]), left, r, 8)
      ensures ok ==> raster[..] == TileRaster(old(raster[..]), scanline * 256, w, left, r, 8)
    {
      var n := 0;
      while n < 8
        invariant 0 <= n <= 8
        invariant TileColorsOk(w, r, n)
        invariant solidBGLine[..] == TileSolid(old(solidBGLine[..]), left, r, n)
        invariant raster[..] == TileRaster(old(raster[..]), scanline * 256, w, left, r, n)
      {
        ok := DrawPixel(w, old(solidBGLine[..]), old(raster[..]), left, r, n);
        if !ok {
          return false;
        }
        n := n + 1;
      }
      return true;
    }

    /** Pixel 7 - n of a tile on top of its first n pixels. */
    method DrawPixel(ghost w: View, ghost s: seq<bool>, ghost a: seq<int>, left: int, r: TileRow, n: nat) returns (ok: bool)
      requires Buffers() && w == View() && 0 <= scanline < 240 && ValidTile(r) && n < 8
      requires |s| == 256 && |a| == RasterSize && TileColorsOk(w, r, n)
      requires solidBGLine[..] == TileSolid(s, left, r, n)
      requires raster[..] == TileRaster(a, scanline * 256, w, left, r, n)
      modifies raster, solidBGLine
      ensures ok <==> TileColorsOk(w, r, n + 1)
      ensures ok ==> solidBGLine[..] == TileSolid(s, left, r, n + 1)
      ensures ok ==> raster[..] == TileRaster(a, scanline * 256, w, left, r, n + 1)
    {
      var j := 7 - n;
      var pattern := PixelPattern(r.lsb, r.msb, j);
      var index := ppuMemory[vramMirror[if pattern == 0 then 0x3F10 else 0x3F00 + r.attribute + pattern]];
      assert index == TileColorIndex(w, r, j);
      if index >= PaletteSize {
        return false;
      }
      var col := left + n;
      if 0 <= col < 256 {
        solidBGLine[col] := pattern != 0;
        if controlRegister2 & 0x08 != 0 {
          raster[scanline * 256 + col] := RgbPalette[index];
        }
      }
      return true;
    }

    /** The pattern row and attribute bits of tile k, read through the cursor as `renderBackground` reads them. */
    method FetchTile(ghost w: View, k: nat, c: Cursor, attribute: int) returns (r: TileRow)
      requires Buffers() && w == View() && k < 33
      requires c == CursorAt(loopyV, k) && attribute == AttributeAt(w, loopyV, k)
      ensures r == LineTiles(w, loopyV)[k]
    {
      CursorAtShape(loopyV, k);
      var a := (if controlRegister1 & 0x10 != 0 then 0x1000 else 0)
        + ppuMemory[vramMirror[c.ntAddr as int]] * 16 + FineY(loopyV) as int;
      assert a == TileRowAddress(w, loopyV, k);
      r := TileRow(ppuMemory[vramMirror[a]], ppuMemory[vramMirror[a + 8]], attribute);
    }

    /** The step to tile k + 1: the cursor moves, and the attribute bits are fetched again on an even column. */
    method NextTile(ghost w: View, k: nat, c: Cursor, attribute: int) returns (c': Cursor, attribute': int)
      requires Buffers() && w == View()
      requires c == CursorAt(loopyV, k) && attribute == AttributeAt(w, loopyV, k)
      ensures c' == CursorAt(loopyV, k + 1) && attribute' == AttributeAt(w, loopyV, k + 1)
    {
      c' := NextCursor(c);
      attribute' := attribute;
      CursorAtShape(loopyV, k + 1);
      if c'.indexX & 1 == 0 {
        attribute' := AttributeOf(ppuMemory[vramMirror[c'.atAddr as int]], c'.indexX, IndexY(loopyV));
      }
    }

    /** Tile k of the line on top of tiles 0 to k - 1. */
    method BackgroundTile(ghost w: View, ghost tiles: seq<TileRow>, ghost base: seq<int>, k: nat, r: TileRow) returns (ok: bool)
      requires Buffers() && w == View() && 0 <= scanline < 240 && |base| == RasterSize
      requires |tiles| == 33 && (forall t :: 0 <= t < 33 ==> ValidTile(tiles[t])) && k < 33 && r == tiles[k]
      requires TilesOk(w, tiles, k)
      requires solidBGLine[..] == LineSolid(tiles, loopyX, seq(256, _ => false), k)
      requires raster[..] == LineRaster(w, tiles, loopyX, base, scanline * 256, k)
      modifies raster, solidBGLine
      ensures ok <==> TileColorsOk(w, r, 8)
      ensures ok ==> TilesOk(w, tiles, k + 1)
      ensures ok ==> solidBGLine[..] == LineSolid(tiles, loopyX, seq(256, _ => false), k + 1)
      ensures ok ==> raster[..] == LineRaster(w, tiles, loopyX, base, scanline * 256, k + 1)
    {
      ok := DrawTile(w, 8 * k - loopyX, r);
    }

    /**
     * `renderBackground()`: clears `solidBGLine`, then draws the 33 tiles
     * the line touches (the first and last only partly visible when fine X
     * is not 0). `ok` is false when a palette byte names no colour.
     */
    method RenderBackground() returns (ok: bool)
      requires Buffers() && 0 <= scanline < 240
      modifies raster, solidBGLine
      ensures ok <==> BgPaletteOk(View(), loopyV)
      ensures ok ==> solidBGLine[..] == LineSolid(LineTiles(View(), loopyV), loopyX, seq(256, _ => false), 33)
      ensures ok ==> raster[..] == LineRaster(View(), LineTiles(View(), loopyV), loopyX, old(raster[..]), scanline * 256, 33)
    {
      ghost var w := View();
      var c := StartCursor(loopyV);
      StartCursorShape(loopyV);
      var attribute := AttributeOf(ppuMemory[vramMirror[c.atAddr as int]], c.indexX, IndexY(loopyV));
      ClearLine(solidBGLine);
      assert solidBGLine[..] == seq(256, _ => false);
      ok := DrawTiles(w, LineTiles(w, loopyV), old(raster[..]), c, attribute);
    }

    /** The tile loop of `renderBackground`, from the first tile's cursor and attribute bits. */
    method DrawTiles(ghost w: View, ghost tiles: seq<TileRow>, ghost base: seq<int>, c: Cursor, attribute: int) returns (ok: bool)
      requires Buffers() && w == View() && 0 <= scanline < 240 && base == raster[..]
      requires tiles == LineTiles(w, loopyV) && c == CursorAt(loopyV, 0) && attribute == AttributeAt(w, loopyV, 0)
      requires solidBGLine[..] == seq(256, _ => false)
      modifies raster, solidBGLine
      ensures ok <==> TilesOk(w, tiles, 33)
      ensures ok ==> solidBGLine[..] == LineSolid(tiles, loopyX, seq(256, _ => false), 33)
      ensures ok ==> raster[..] == LineRaster(w, tiles, loopyX, base, scanline * 256, 33)
    {
      var c := c;
      var attribute := attribute;
      var k := 0;
      while k < 33
        invariant 0 <= k <= 33
        invariant c == CursorAt(loopyV, k) && attribute == AttributeAt(w, loopyV, k)
        invariant TilesOk(w, tiles, k)
        invariant solidBGLine[..] == LineSolid(tiles, loopyX, seq(256, _ => false), k)
        invariant raster[..] == LineRaster(w, tiles, loopyX, base, scanline * 256, k)
      {
        var r := FetchTile(w, k, c, attribute);
        ok := BackgroundTile(w, tiles, base, k, r);
        if !ok {
          return false;
        }
        c, attribute := NextTile(w, k, c, attribute);
        k := k + 1;
      }
      return true;
    }

    // ------------------------------------------------------------ sprites

    /**
     * Pixel 7 - n of sprite i, which covers the line, given its pattern row
     * bytes. Off-screen pixels are skipped before the colour lookup; `ok` is
     * false when the palette byte names no colour; `hit` reports a sprite-0
     * hit on this pixel. `solidSPLine` is cleared and never set, so its test
     * never skips a pixel.
     */
    method DrawSpritePixel(ghost w: View, ghost oam: seq<Byte>, ghost a: seq<int>, i: nat, lsb: Byte, msb: Byte, n: nat)
      returns (ok: bool, hit: bool)
      requires Buffers() && w == View() && oam == spriteMemory[..] && 0 <= scanline < 240 && i < 64 && n < 8
      requires OnLine(w, oam, scanline, i) && |a| == RasterSize
      requires lsb == Fetch(w, SpriteRowAddress(w, oam, scanline, i)) && msb == Fetch(w, SpriteRowAddress(w, oam, scanline, i) + 8)
      requires forall x :: 0 <= x < 256 ==> !solidSPLine[x]
      requires SpritePixelsOk(w, oam, scanline, i, n)
      requires raster[..] == SpriteRaster(w, oam, scanline, solidBGLine[..], a, scanline * 256, i, n)
      modifies raster
      ensures ok <==> SpritePixelsOk(w, oam, scanline, i, n + 1)
      ensures ok ==> raster[..] == SpriteRaster(w, oam, scanline, solidBGLine[..], a, scanline * 256, i, n + 1)
      ensures ok ==> (hit <==> i == 0 && ShowBackground(w) && HitPixel(w, oam, scanline, solidBGLine[..], i, 7 - n))
    {
      var j := 7 - n;
      var pointX: int := spriteMemory[4 * i + 3] + 7 - j;
      if pointX >= 256 {
        SpritePixelsOkStep(w, oam, scanline, i, n);
        return true, false;
      }
      if solidSPLine[pointX] {
        assert false;
      }
      var pattern, index := SpritePixelColor(w, oam, i, lsb, msb, j);
      SpritePixelsOkStep(w, oam, scanline, i, n);
      if index >= PaletteSize {
        return false, false;
      }
      ok := true;
      hit := i == 0 && solidBGLine[pointX] && pattern != 0 && controlRegister2 & 0x08 != 0;
      PaintSpritePixel(w, oam, a, i, n, pattern, index);
    }

    /** The pattern of pixel j of sprite i and the palette byte it looks up. */
    method SpritePixelColor(ghost w: View, ghost oam: seq<Byte>, i: nat, lsb: Byte, msb: Byte, j: nat) returns (pattern: int, index: Byte)
      requires Buffers() && w == View() && oam == spriteMemory[..] && i < 64 && j < 8
      requires OnLine(w, oam, scanline, i)
      requires lsb == Fetch(w, SpriteRowAddress(w, oam, scanline, i)) && msb == Fetch(w, SpriteRowAddress(w, oam, scanline, i) + 8)
      ensures pattern == SpritePattern(w, oam, scanline, i, j) && index == SpriteColorIndex(w, oam, scanline, i, j)
    {
      var attributes := spriteMemory[4 * i + 2];
      pattern := PixelPattern(lsb, msb, if BitAt(attributes, 6) then 7 - j else j);
      index := ppuMemory[vramMirror[0x3F10 + (attributes % 4) * 4 + pattern]];
    }

    /** The drawing step of an on-screen sprite pixel whose palette byte names a colour. */
    method PaintSpritePixel(ghost w: View, ghost oam: seq<Byte>, ghost a: seq<int>, i: nat, n: nat, pattern: int, index: Byte)
      requires ValidView(w) && w.ctrl2 == controlRegister2 && raster.Length == RasterSize && solidBGLine.Length == 256
      requires oam == spriteMemory[..] && ValidOam(oam) && 0 <= scanline < 240 && i < 64 && n < 8
      requires OnLine(w, oam, scanline, i) && |a| == RasterSize && OnScreen(oam, i, 7 - n)
      requires pattern == SpritePattern(w, oam, scanline, i, 7 - n) && index == SpriteColorIndex(w, oam, scanline, i, 7 - n)
      requires SpritePixelsOk(w, oam, scanline, i, n + 1)
      requires raster[..] == SpriteRaster(w, oam, scanline, solidBGLine[..], a, scanline * 256, i, n)
      modifies raster
      ensures raster[..] == SpriteRaster(w, oam, scanline, solidBGLine[..], a, scanline * 256, i, n + 1)
    {
      var pointX: int := spriteMemory[4 * i + 3] + n;
      ghost var bg := solidBGLine[..];
      ghost var prev := raster[..];
      assert pointX == SpriteLeft(oam, i) + n && spriteMemory[4 * i + 2] == SpriteAttributes(oam, i);
      SpriteRasterStep(w, oam, scanline, bg, a, scanline * 256, i, n);
      if controlRegister2 & 0x10 == 0 || (BitAt(spriteMemory[4 * i + 2], 5) && solidBGLine[pointX]) || pattern == 0 {
        assert !SpritePaints(w, oam, scanline, bg, i, pointX);
        return;
      }
      assert SpritePaints(w, oam, scanline, bg, i, pointX);
      assert RgbPalette[index] == SpriteColorAt(w, oam, scanline, i, pointX);
      raster[scanline * 256 + pointX] := RgbPalette[index];
      assert raster[..] == prev[scanline * 256 + pointX := RgbPalette[index]];
    }

    /** The pattern row of sprite i and its eight pixels, from left to right. */
    method DrawSprite(ghost w: View, ghost oam: seq<Byte>, ghost a: seq<int>, i: nat) returns (ok: bool, hit: bool)
      requires Buffers() && w == View() && oam == spriteMemory[..] && 0 <= scanline < 240 && i < 64
      requires OnLine(w, oam, scanline, i) && raster[..] == a
      requires forall x :: 0 <= x < 256 ==> !solidSPLine[x]
      modifies raster
      ensures ok <==> SpriteColorsOk(w, oam, scanline, i)
      ensures ok ==> raster[..] == SpriteRaster(w, oam, scanline, solidBGLine[..], a, scanline * 256, i, 8)
      ensures ok ==> (hit <==> i == 0 && SpriteZeroHit(w, oam, scanline, solidBGLine[..]))
    {
      var height := if controlRegister1 & 0x20 != 0 then 16 else 8;
      var line := scanline - (spriteMemory[4 * i] as int + 1);
      if BitAt(spriteMemory[4 * i + 2], 7) {
        line := height - 1 - line;
      }
      var address := SpritePatternAddress(height == 16, controlRegister1, spriteMemory[4 * i + 1], line);
      assert address == SpriteRowAddress(w, oam, scanline, i);
      var lsb := ppuMemory[vramMirror[address]];
      var msb := ppuMemory[vramMirror[address + 8]];
      ok, hit := SpritePixels(w, oam, a, i, lsb, msb);
    }

    /** The eight pixels of sprite i, 7 down to 0, from its pattern row bytes. */
    method SpritePixels(ghost w: View, ghost oam: seq<Byte>, ghost a: seq<int>, i: nat, lsb: Byte, msb: Byte) returns (ok: bool, hit: bool)
      requires Buffers() && w == View() && oam == spriteMemory[..] && 0 <= scanline < 240 && i < 64
      requires OnLine(w, oam, scanline, i) && raster[..] == a
      requires lsb == Fetch(w, SpriteRowAddress(w, oam, scanline, i)) && msb == Fetch(w, SpriteRowAddress(w, oam, scanline, i) + 8)
      requires forall x :: 0 <= x < 256 ==> !solidSPLine[x]
      modifies raster
      ensures ok <==> SpriteColorsOk(w, oam, scanline, i)
      ensures ok ==> raster[..] == SpriteRaster(w, oam, scanline, solidBGLine[..], a, scanline * 256, i, 8)
      ensures ok ==> (hit <==> i == 0 && SpriteZeroHit(w, oam, scanline, solidBGLine[..]))
    {
      hit := false;
      var n := 0;
      while n < 8
        invariant 0 <= n <= 8
        invariant SpritePixelsOk(w, oam, scanline, i, n)
        invariant raster[..] == SpriteRaster(w, oam, scanline, solidBGLine[..], a, scanline * 256, i, n)
        invariant hit <==> i == 0 && ShowBackground(w) && exists j :: 8 - n <= j < 8 && HitPixel(w, oam, scanline, solidBGLine[..], i, j)
      {
        var h;
        ok, h := DrawSpritePixel(w, oam, a, i, lsb, msb, n);
        if !ok {
          return;
        }
        hit := hit || h;
        n := n + 1;
      }
      ok := true;
    }

    /**
     * Sprite i of `renderSprites`: one that covers the line is counted, sets
     * the overflow bit once more than eight have been, and is drawn over the
     * sprites before it; a sprite-0 hit sets bit 6.
     */
    method SpriteStep(ghost w: View, ghost oam: seq<Byte>, ghost bg: seq<bool>, ghost s: bv8, ghost base: seq<int>, i: nat, count: int)
      returns (ok: bool, count': int)
      requires Buffers() && w == View() && oam == spriteMemory[..] && bg == solidBGLine[..] && 0 <= scanline < 240 && i < 64
      requires |base| == RasterSize && forall x :: 0 <= x < 256 ==> !solidSPLine[x]
      requires count == OnLineCount(w, oam, scanline, i) && SpritePaletteOkBelow(w, oam, scanline, i)
      requires statusRegister == SpriteStatus(s, count > 8, i > 0 && SpriteZeroHit(w, oam, scanline, bg))
      requires raster[..] == SpritesRaster(w, oam, scanline, bg, base, scanline * 256, i)
      modifies this`statusRegister, raster
      ensures ok <==> SpriteColorsOk(w, oam, scanline, i)
      ensures ok ==> count' == OnLineCount(w, oam, scanline, i + 1) && SpritePaletteOkBelow(w, oam, scanline, i + 1)
      ensures ok ==> statusRegister == SpriteStatus(s, count' > 8, SpriteZeroHit(w, oam, scanline, bg))
      ensures ok ==> raster[..] == SpritesRaster(w, oam, scanline, bg, base, scanline * 256, i + 1)
    {
      count' := count;
      var line := scanline - (spriteMemory[4 * i] as int + 1);
      var height := if controlRegister1 & 0x20 != 0 then 16 else 8;
      if line < 0 || line >= height {
        assert !OnLine(w, oam, scanline, i);
        SpriteRasterOffLine(w, oam, scanline, bg, raster[..], scanline * 256, i, 8);
        SpritesStep(w, oam, scanline, bg, base, scanline * 256, i);
        return true, count';
      }
      assert OnLine(w, oam, scanline, i);
      ghost var h := i > 0 && SpriteZeroHit(w, oam, scanline, bg);
      count' := CountSprite(s, h, count);
      var hit;
      ghost var before := raster[..];
      ok, hit := DrawSprite(w, oam, before, i);
      if ok {
        SpritesStep(w, oam, scanline, bg, base, scanline * 256, i);
        MarkHit(s, count' > 8, h, hit);
      }
    }

    /** A sprite on the line is counted; the ninth and every later one set the overflow bit. */
    method CountSprite(ghost s: bv8, ghost hit: bool, count: int) returns (count': int)
      requires statusRegister == SpriteStatus(s, count > 8, hit)
      modifies this`statusRegister
      ensures count' == count + 1 && statusRegister == SpriteStatus(s, count' > 8, hit)
    {
      count' := count + 1;
      if count' > 8 {
        SpriteStatusBits(s, count > 8, hit);
        statusRegister := statusRegister | 0x20;
      }
    }

    /** A sprite-0 hit sets bit 6 of the status. */
    method MarkHit(ghost s: bv8, ghost overflow: bool, ghost before: bool, hit: bool)
      requires statusRegister == SpriteStatus(s, overflow, before)
      modifies this`statusRegister
      ensures statusRegister == SpriteStatus(s, overflow, before || hit)
    {
      if hit {
        SpriteStatusBits(s, overflow, before);
        statusRegister := statusRegister | 0x40;
      }
    }

    /**
     * `renderSprites()`: clears the overflow bit and `solidSPLine`, then
     * draws the 64 sprites in order. `ok` is false when a palette byte names
     * no colour. Afterwards the overflow bit says whether more than eight
     * sprites cover the line, bit 6 is added on a sprite-0 hit, and each
     * column shows the last sprite that paints it.
     */
    method RenderSprites() returns (ok: bool)
      requires Buffers() && 0 <= scanline < 240
      modifies this`statusRegister, raster, solidSPLine
      ensures ok <==> SpritePaletteOk(View(), spriteMemory[..], scanline)
      ensures ok ==> statusRegister == SpriteStatus(old(statusRegister), OnLineCount(View(), spriteMemory[..], scanline, 64) > 8,
                                                     SpriteZeroHit(View(), spriteMemory[..], scanline, solidBGLine[..]))
      ensures ok ==> raster[..] == SpritesRaster(View(), spriteMemory[..], scanline, solidBGLine[..], old(raster[..]), scanline * 256, 64)
      ensures forall x :: 0 <= x < 256 ==> !solidSPLine[x]
    {
      ghost var s := statusRegister;
      SpriteStatusBits(s, false, false);
      statusRegister := statusRegister & 0xDF;
      ClearLine(solidSPLine);
      ok := DrawSprites(View(), spriteMemory[..], solidBGLine[..], s, raster[..]);
    }

    /** The sprite loop of `renderSprites`, after the overflow bit and `solidSPLine` are cleared. */
    method DrawSprites(ghost w: View, ghost oam: seq<Byte>, ghost bg: seq<bool>, ghost s: bv8, ghost base: seq<int>) returns (ok: bool)
      requires Buffers() && w == View() && oam == spriteMemory[..] && bg == solidBGLine[..] && 0 <= scanline < 240
      requires base == raster[..] && statusRegister == SpriteStatus(s, false, false)
      requires forall x :: 0 <= x < 256 ==> !solidSPLine[x]
      modifies this`statusRegister, raster
      ensures ok <==> SpritePaletteOk(w, oam, scanline)
      ensures ok ==> statusRegister == SpriteStatus(s, OnLineCount(w, oam, scanline, 64) > 8, SpriteZeroHit(w, oam, scanline, bg))
      ensures ok ==> raster[..] == SpritesRaster(w, oam, scanline, bg, base, scanline * 256, 64)
    {
      var count := 0;
      var i := 0;
      while i < 64
        invariant 0 <= i <= 64 && Buffers() && w == View() && oam == spriteMemory[..] && bg == solidBGLine[..]
        invariant forall x :: 0 <= x < 256 ==> !solidSPLine[x]
        invariant count == OnLineCount(w, oam, scanline, i) && SpritePaletteOkBelow(w, oam, scanline, i)
        invariant statusRegister == SpriteStatus(s, count > 8, i > 0 && SpriteZeroHit(w, oam, scanline, bg))
        invariant raster[..] == SpritesRaster(w, oam, scanline, bg, base, scanline * 256, i)
      {
        ok, count := SpriteStep(w, oam, bg, s, base, i, count);
        if !ok {
          assert !SpriteColorsOk(w, oam, scanline, i);
          return;
        }
        i := i + 1;
      }
      ok := true;
    }

    // ------------------------------------------------------------ scanlines and timing

    /** V at the start of a line: coarse X and the horizontal name table reloaded from T. */
    ghost function LineStart(): bv16
      reads this`loopyV, this`loopyT
    {
      ReloadHorizontal(loopyV, loopyT)
    }

    /**
     * `renderScanline()`: V takes the horizontal scroll from T, the
     * background and the sprites are drawn when shown, then V steps to the
     * next line. `ok` is false when a palette byte names no colour.
     */
    method RenderScanline() returns (ok: bool)
      requires Valid() && 0 <= scanline < 240
      modifies this`loopyV, this`statusRegister, raster, solidBGLine, solidSPLine
      ensures Valid()
      ensures ok <==> LinePaletteOk(View(), spriteMemory[..], old(LineStart()), scanline)
      ensures ok ==> loopyV == old(NextLine(LineStart()))
      ensures ok ==> solidBGLine[..] == LineSolidBG(View(), old(LineStart()), loopyX, old(solidBGLine[..]))
      ensures ok ==> raster[..] == ScanlineRaster(View(), spriteMemory[..], old(LineStart()), loopyX, old(solidBGLine[..]), old(raster[..]), scanline)
      ensures ok ==> statusRegister == LineStatus(View(), spriteMemory[..], scanline, solidBGLine[..], old(statusRegister))
    {
      loopyV := ReloadHorizontal(loopyV, loopyT);
      ok := DrawLine();
      if ok {
        loopyV := NextLine(loopyV);
      }
    }

    /** The status after a line: the sprite bits when sprites are shown, unchanged otherwise. */
    ghost function LineStatus(w: View, oam: seq<Byte>, line: int, bg: seq<bool>, status: bv8): bv8
      requires ValidView(w) && ValidOam(oam) && |bg| == 256
    {
      if ShowSprites(w) then SpriteStatus(status, OnLineCount(w, oam, line, 64) > 8, SpriteZeroHit(w, oam, line, bg)) else status
    }

    /** The drawing part of `renderScanline`, with V already reloaded. */
    method DrawLine() returns (ok: bool)
      requires Buffers() && 0 <= scanline < 240
      modifies this`statusRegister, raster, solidBGLine, solidSPLine
      ensures ok <==> LinePaletteOk(View(), spriteMemory[..], loopyV, scanline)
      ensures ok ==> solidBGLine[..] == LineSolidBG(View(), loopyV, loopyX, old(solidBGLine[..]))
      ensures ok ==> raster[..] == ScanlineRaster(View(), spriteMemory[..], loopyV, loopyX, old(solidBGLine[..]), old(raster[..]), scanline)
      ensures ok ==> statusRegister == LineStatus(View(), spriteMemory[..], scanline, solidBGLine[..], old(statusRegister))
    {
      ok := BackgroundLayer();
      if !ok {
        return;
      }
      ok := SpriteLayer();
    }

    /** The background step of `renderScanline`: drawn only when shown. */
    method BackgroundLayer() returns (ok: bool)
      requires Buffers() && 0 <= scanline < 240
      modifies raster, solidBGLine
      ensures ok <==> (ShowBackground(View()) ==> BgPaletteOk(View(), loopyV))
      ensures ok ==> solidBGLine[..] == LineSolidBG(View(), loopyV, loopyX, old(solidBGLine[..]))
      ensures ok ==> raster[..] == if ShowBackground(View())
        then LineRaster(View(), LineTiles(View(), loopyV), loopyX, old(raster[..]), scanline * 256, 33) else old(raster[..])
    {
      ok := true;
      if controlRegister2 & 0x08 != 0 {
        ok := RenderBackground();
      }
    }

    /** The sprite step of `renderScanline`: drawn only when shown. */
    method SpriteLayer() returns (ok: bool)
      requires Buffers() && 0 <= scanline < 240
      modifies this`statusRegister, raster, solidSPLine
      ensures ok <==> (ShowSprites(View()) ==> SpritePaletteOk(View(), spriteMemory[..], scanline))
      ensures ok ==> raster[..] == if ShowSprites(View())
        then SpritesRaster(View(), spriteMemory[..], scanline, solidBGLine[..], old(raster[..]), scanline * 256, 64) else old(raster[..])
      ensures ok ==> statusRegister == LineStatus(View(), spriteMemory[..], scanline, solidBGLine[..], old(statusRegister))
    {
      ok := true;
      if controlRegister2 & 0x10 != 0 {
        ok := RenderSprites();
      }
    }

    /** V for the line the next line end draws: T itself at the start of a frame (reloaded whole), otherwise V with the horizontal scroll from T. */
    ghost function DrawnLineStart(): bv16
      reads this`loopyV, this`loopyT, this`scanline
    {
      if scanline == 0 then loopyT else ReloadHorizontal(loopyV, loopyT)
    }

    /**
     * The line-end branch of `runCycles`, taken when the cycle counter
     * reaches 341: a waiting line only counts the wait; otherwise the frame
     * start (scanline 0) reloads V from T when something is shown and clears
     * status bits 6 and 7, a visible line is drawn when something is shown,
     * and scanline 243 sets the vertical-blank bit, requests an NMI when bit 7
     * of control register 1 allows, hands the frame over and restarts the
     * wait. `ok` is false when drawing the line throws.
     */
    method EndOfLine() returns (ok: bool)
      requires Valid() && scanlineCycles + 1 == LineCycles
      modifies this`scanlineCycles, this`scanline, this`vblankWait, this`loopyV, this`statusRegister
      modifies this`nmiRequests, this`framesShown, raster, solidBGLine, solidSPLine
      ensures Valid()
      ensures ok ==> Timing() == LineEnd(old(Timing()))
      ensures ok <==> !DrawsLine(old(Timing()), controlRegister2)
                      || LinePaletteOk(View(), spriteMemory[..], old(DrawnLineStart()), old(scanline))
      ensures ok && DrawsLine(old(Timing()), controlRegister2) ==>
        raster[..] == ScanlineRaster(View(), spriteMemory[..], old(DrawnLineStart()), loopyX, old(solidBGLine[..]), old(raster[..]), old(scanline))
      ensures !DrawsLine(old(Timing()), controlRegister2) ==> raster[..] == old(raster[..])
      ensures framesShown == old(framesShown) + (if EndsFrame(old(Timing())) then 1 else 0)
      ensures nmiRequests == old(nmiRequests) + (if EndsFrame(old(Timing())) && controlRegister1 & 0x80 != 0 then 1 else 0)
      ensures EndsFrame(old(Timing())) ==> statusRegister == old(statusRegister | 0x80)
      ensures ok && StartsFrame(old(Timing())) ==> statusRegister & 0x80 == 0
      ensures ok && DrawsLine(old(Timing()), controlRegister2) ==>
        && loopyV == NextLine(old(DrawnLineStart()))
        && solidBGLine[..] == LineSolidBG(View(), old(DrawnLineStart()), loopyX, old(solidBGLine[..]))
        && statusRegister == LineStatus(View(), spriteMemory[..], old(scanline), solidBGLine[..], CycleStatus(old(Timing()), old(statusRegister)))
      ensures !DrawsLine(old(Timing()), controlRegister2) ==>
        loopyV == old(loopyV) && solidBGLine[..] == old(solidBGLine[..]) && statusRegister == CycleStatus(old(Timing()), old(statusRegister))
    {
      scanlineCycles := 0;
      ok := true;
      if vblankWait < 19 {
        vblankWait := vblankWait + 1;
        return;
      }
      ok := ActiveLine();
    }

    /** The line-end branch once the wait is over: the line is drawn or the frame ends, and the scanline moves on. */
    method ActiveLine() returns (ok: bool)
      requires Valid() && vblankWait == 19
      modifies this`scanline, this`vblankWait, this`loopyV, this`statusRegister
      modifies this`nmiRequests, this`framesShown, raster, solidBGLine, solidSPLine
      ensures Valid()
      ensures ok ==> scanline == (if old(scanline) == 243 then 0 else old(scanline) + 1)
      ensures ok ==> vblankWait == (if old(scanline) == 243 then 0 else 19)
      ensures ok <==> !(old(scanline) < 240 && controlRegister2 & 0x18 != 0)
                      || LinePaletteOk(View(), spriteMemory[..], old(DrawnLineStart()), old(scanline))
      ensures ok && old(scanline) < 240 && controlRegister2 & 0x18 != 0 ==>
        raster[..] == ScanlineRaster(View(), spriteMemory[..], old(DrawnLineStart()), loopyX, old(solidBGLine[..]), old(raster[..]), old(scanline))
      ensures !(old(scanline) < 240 && controlRegister2 & 0x18 != 0) ==> raster[..] == old(raster[..])
      ensures framesShown == old(framesShown) + (if old(scanline) == 243 then 1 else 0)
      ensures nmiRequests == old(nmiRequests) + (if old(scanline) == 243 && controlRegister1 & 0x80 != 0 then 1 else 0)
      ensures old(scanline) == 243 ==> statusRegister == old(statusRegister | 0x80)
      ensures ok && old(scanline) == 0 ==> statusRegister & 0x80 == 0
      ensures ok && old(scanline) < 240 && controlRegister2 & 0x18 != 0 ==>
        && loopyV == NextLine(old(DrawnLineStart()))
        && solidBGLine[..] == LineSolidBG(View(), old(DrawnLineStart()), loopyX, old(solidBGLine[..]))
        && statusRegister == LineStatus(View(), spriteMemory[..], old(scanline), solidBGLine[..], ScanlineStatus(old(scanline), old(statusRegister)))
      ensures !(old(scanline) < 240 && controlRegister2 & 0x18 != 0) ==>
        loopyV == old(loopyV) && solidBGLine[..] == old(solidBGLine[..]) && statusRegister == ScanlineStatus(old(scanline), old(statusRegister))
    {
      ok := true;
      if scanline < 240 {
        ok := VisibleLine();
        if !ok {
          return;
        }
      } else if scanline == 243 {
        EndFrame();
      }
      scanline := scanline + 1;
    }

    /** A line end on a visible scanline: the frame-start step on scanline 0, then the line drawn when something is shown. */
    method VisibleLine() returns (ok: bool)
      requires Valid() && 0 <= scanline < 240
      modifies this`loopyV, this`statusRegister, raster, solidBGLine, solidSPLine
      ensures Valid()
      ensures ok <==> controlRegister2 & 0x18 == 0 || LinePaletteOk(View(), spriteMemory[..], old(DrawnLineStart()), scanline)
      ensures ok && controlRegister2 & 0x18 != 0 ==>
        raster[..] == ScanlineRaster(View(), spriteMemory[..], old(DrawnLineStart()), loopyX, old(solidBGLine[..]), old(raster[..]), scanline)
      ensures controlRegister2 & 0x18 == 0 ==> raster[..] == old(raster[..])
      ensures ok && scanline == 0 ==> statusRegister & 0x80 == 0
      // a drawn line leaves V on the next line and the sprite bits on the frame-start status
      ensures ok && controlRegister2 & 0x18 != 0 ==>
        && loopyV == NextLine(old(DrawnLineStart()))
        && solidBGLine[..] == LineSolidBG(View(), old(DrawnLineStart()), loopyX, old(solidBGLine[..]))
        && statusRegister == LineStatus(View(), spriteMemory[..], scanline, solidBGLine[..], ScanlineStatus(scanline, old(statusRegister)))
      // with nothing shown only the frame-start status step happens
      ensures controlRegister2 & 0x18 == 0 ==>
        loopyV == old(loopyV) && solidBGLine[..] == old(solidBGLine[..]) && statusRegister == ScanlineStatus(scanline, old(statusRegister))
    {
      if scanline == 0 {
        StartFrame();
        ReloadSelf(loopyT);
      }
      ok := true;
      if controlRegister2 & 0x18 != 0 {
        ok := RenderScanline();
      }
    }

    /** The frame-start step: V takes T when something is shown, and status bits 7 and 6 are cleared. */
    method StartFrame()
      modifies this`loopyV, this`statusRegister
      ensures loopyV == if controlRegister2 & 0x18 != 0 then loopyT else old(loopyV)
      ensures statusRegister == old(statusRegister & 0x3F)
    {
      if controlRegister2 & 0x18 != 0 {
        loopyV := loopyT;
      }
      statusRegister := statusRegister & 0x7F;
      statusRegister := statusRegister & 0xBF;
    }

    /** The end-of-frame step at scanline 243: the vertical-blank bit, the wait restarted, the NMI request and the frame handed over. */
    method EndFrame()
      modifies this`statusRegister, this`vblankWait, this`scanline, this`nmiRequests, this`framesShown
      ensures statusRegister == old(statusRegister | 0x80) && vblankWait == 0 && scanline == -1
      ensures nmiRequests == old(nmiRequests) + (if controlRegister1 & 0x80 != 0 then 1 else 0)
      ensures framesShown == old(framesShown) + 1
    {
      statusRegister := statusRegister | 0x80;
      vblankWait := 0;
      scanline := -1;
      if (controlRegister1 >> 7) & 1 != 0 {
        nmiRequests := nmiRequests + 1;
      }
      framesShown := framesShown + 1;
    }

    /** One iteration of the `runCycles` loop: the cycle counter moves on, and the line-end branch runs at 341. */
    method Cycle() returns (ok: bool)
      requires Valid()
      modifies this`scanlineCycles, this`scanline, this`vblankWait, this`loopyV, this`statusRegister
      modifies this`nmiRequests, this`framesShown, raster, solidBGLine, solidSPLine
      ensures Valid()
      ensures ok ==> Timing() == Tick(old(Timing()))
      ensures !DrawsLine(old(Timing()), controlRegister2) ==> ok
      ensures framesShown == old(framesShown) + (if EndsFrame(old(Timing())) then 1 else 0)
      ensures nmiRequests == old(nmiRequests) + (if EndsFrame(old(Timing())) && controlRegister1 & 0x80 != 0 then 1 else 0)
      ensures ok <==> !DrawsLine(old(Timing()), controlRegister2)
                      || LinePaletteOk(View(), spriteMemory[..], old(DrawnLineStart()), old(scanline))
      // a line end draws the line it closes; every other cycle only counts
      ensures ok && DrawsLine(old(Timing()), controlRegister2) ==>
        && loopyV == NextLine(old(DrawnLineStart()))
        && solidBGLine[..] == LineSolidBG(View(), old(DrawnLineStart()), loopyX, old(solidBGLine[..]))
        && raster[..] == ScanlineRaster(View(), spriteMemory[..], old(DrawnLineStart()), loopyX, old(solidBGLine[..]), old(raster[..]), old(scanline))
        && statusRegister == LineStatus(View(), spriteMemory[..], old(scanline), solidBGLine[..], CycleStatus(old(Timing()), old(statusRegister)))
      ensures !DrawsLine(old(Timing()), controlRegister2) ==>
        && loopyV == old(loopyV) && solidBGLine[..] == old(solidBGLine[..]) && raster[..] == old(raster[..])
        && statusRegister == CycleStatus(old(Timing()), old(statusRegister))
    {
      if scanlineCycles + 1 < LineCycles {
        scanlineCycles := scanlineCycles + 1;
        return true;
      }
      ok := EndOfLine();
    }

    /**
     * `runCycles(cycles)`: runs the given number of cycles (none when it is
     * not positive) and returns it. `ok` is false when drawing a line throws.
     * After n cycles the counters are n steps on, the frames handed over
     * are the frame ends passed, and so are the NMI requests when bit 7 of
     * control register 1 allows them. With nothing shown no line is drawn
     * and nothing throws.
     */
    method RunCycles(cycles: int) returns (ran: int, ok: bool)
      requires Valid()
      modifies this`scanlineCycles, this`scanline, this`vblankWait, this`loopyV, this`statusRegister
      modifies this`nmiRequests, this`framesShown, raster, solidBGLine, solidSPLine
      ensures Valid() && ran == cycles
      ensures controlRegister2 & 0x18 == 0 ==> ok
      ensures ok ==> Timing() == Ticks(old(Timing()), if cycles > 0 then cycles else 0)
      ensures ok ==> framesShown == old(framesShown) + FrameEnds(old(Timing()), if cycles > 0 then cycles else 0)
      ensures ok ==> nmiRequests == old(nmiRequests) + (if controlRegister1 & 0x80 != 0 then FrameEnds(old(Timing()), if cycles > 0 then cycles else 0) else 0)
      // with nothing shown no line is drawn: V, the raster and the background line stay as they were
      ensures controlRegister2 & 0x18 == 0 ==> loopyV == old(loopyV) && raster[..] == old(raster[..]) && solidBGLine[..] == old(solidBGLine[..])
    {
      ran := cycles;
      ok := true;
      ghost var done: nat := 0;
      var n := cycles;
      while n > 0
        invariant Valid() && n == cycles - done && (cycles <= 0 ==> done == 0) && (cycles > 0 ==> done <= cycles)
        invariant Timing() == Ticks(old(Timing()), done)
        invariant framesShown == old(framesShown) + FrameEnds(old(Timing()), done)
        invariant nmiRequests == old(nmiRequests) + (if controlRegister1 & 0x80 != 0 then FrameEnds(old(Timing()), done) else 0)
        invariant controlRegister2 & 0x18 == 0 ==> ok
        invariant controlRegister2 & 0x18 == 0 ==> loopyV == old(loopyV) && raster[..] == old(raster[..]) && solidBGLine[..] == old(solidBGLine[..])
      {
        ok := Cycle();
        if !ok {
          return;
        }
        n := n - 1;
        done := done + 1;
      }
    }
  }
}
