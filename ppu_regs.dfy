/**
 * The picture processor's scroll registers and scanline timing.
 *
 * `loopyT` (the temporary address) and `loopyV` (the current address) are
 * Java `int`s, but every value they take fits in 16 bits: writes through the
 * ports only set bits 0-14 of T, V is copied from T, and V moves only by +1 or
 * +32 from an address below 0x8000 (a larger one makes the access throw) or by
 * the scanline step, which never carries past bit 14. So they are `bv16` here
 * and every operation below is exactly Java's.
 *
 * Bits of an address: 0-4 coarse X, 5-9 coarse Y, 10 and 11 the name table
 * (horizontal and vertical), 12-14 fine Y.
 */
module PpuRegs {

  /** Port 0x2000: control register 1 also sets T's name-table bits 10-11 from bits 0-1 of the value. */
  function ControlT(t: bv16, v: bv16): (r: bv16)
    requires v < 0x100
    ensures r & 0x0C00 == (v & 3) << 10
    ensures r & 0xF3FF == t & 0xF3FF
    ensures t < 0x8000 ==> r < 0x8000
  {
    (t & 0xF3FF) | ((v & 3) << 10)
  }

  /** Port 0x2005, first write: coarse X (bits 0-4) from the value's top five bits. */
  function ScrollXT(t: bv16, v: bv16): (r: bv16)
    requires v < 0x100
    ensures r & 0x1F == v >> 3
    ensures r & 0xFFE0 == t & 0xFFE0
    ensures t < 0x8000 ==> r < 0x8000
  {
    (t & 0xFFE0) | ((v & 0xF8) >> 3)
  }

  /** Port 0x2005, second write: coarse Y (bits 5-9) from the value's top five bits, fine Y (bits 12-14) from its low three. */
  function ScrollYT(t: bv16, v: bv16): (r: bv16)
    requires v < 0x100
    ensures (r & 0x3E0) >> 5 == v >> 3
    ensures (r & 0x7000) >> 12 == v & 7
    ensures r & 0x8C1F == t & 0x8C1F
    ensures t < 0x8000 ==> r < 0x8000
  {
    ((((t & 0xFC1F) | ((v & 0xF8) << 2)) & 0x8FFF) | ((v & 7) << 12))
  }

  /** Port 0x2006, first write: bits 8-13 from the value's low six bits, bits 14-15 cleared, the low byte kept. */
  function AddressHighT(t: bv16, v: bv16): (r: bv16)
    requires v < 0x100
    ensures r == ((v & 0x3F) << 8) | (t & 0xFF)
    ensures r < 0x4000
  {
    (t & 0xFF) | ((v & 0x3F) << 8)
  }

  /** Port 0x2006, second write: the low byte from the value; V is then set to the result. */
  function AddressLowT(t: bv16, v: bv16): (r: bv16)
    requires v < 0x100
    ensures r & 0xFF == v
    ensures r & 0xFF00 == t & 0xFF00
    ensures t < 0x8000 ==> r < 0x8000
  {
    (t & 0xFF00) | v
  }

  /** Two 0x2006 writes set the whole address: high six bits from the first value and the low byte from the second. */
  lemma AddressPairSetsT(t: bv16, hi: bv16, lo: bv16)
    requires hi < 0x100 && lo < 0x100
    ensures AddressLowT(AddressHighT(t, hi), lo) == ((hi & 0x3F) << 8) | lo
  {
  }

  /** The step of V after each 0x2007 access: +1, or +32 when bit 2 of control register 1 is set. */
  function VramStep(ctrl1: bv8): (r: bv16)
    ensures ctrl1 & 4 == 0 ==> r == 1
    ensures ctrl1 & 4 != 0 ==> r == 32
  {
    if ctrl1 & 4 == 0 then 1 else 32
  }

  /** Before a scanline is drawn V takes coarse X and the horizontal name-table bit (mask 0x41F) from T. */
  function ReloadHorizontal(v: bv16, t: bv16): (r: bv16)
    ensures r & 0x41F == t & 0x41F
    ensures r & 0xFBE0 == v & 0xFBE0
  {
    (v & 0xFBE0) | (t & 0x41F)
  }

  /** Reloading the horizontal scroll of T into T changes nothing. */
  lemma ReloadSelf(t: bv16)
    ensures ReloadHorizontal(t, t) == t
  {
  }

  /** Bits 12-14 of an address: the row inside a tile. */
  function FineY(v: bv16): bv16
  {
    (v & 0x7000) >> 12
  }

  /** Bits 5-9 of an address: the tile row. */
  function CoarseY(v: bv16): bv16
  {
    (v & 0x3E0) >> 5
  }

  /** The step of V after a scanline, as `renderScanline` writes it. */
  function NextLine(v: bv16): bv16
  {
    if v & 0x7000 == 0x7000 then
      var w := v & 0x8FFF;
      if w & 0x03E0 == 0x03A0 then (w ^ 0x0800) & 0xFC1F
      else if w & 0x03E0 == 0x03E0 then w & 0xFC1F
      else w + 0x20
    else v + 0x1000
  }

  /** Coarse X, the horizontal name-table bit and bit 15 never change on the step. */
  lemma NextLineKeepsHorizontal(v: bv16)
    ensures NextLine(v) & 0x841F == v & 0x841F
  {
  }

  /** Inside a tile the step is the next row: fine Y + 1 and nothing else changes, with no carry out of 16 bits. */
  lemma NextLineInsideTile(v: bv16)
    requires FineY(v) < 7
    ensures NextLine(v) == v + 0x1000 && NextLine(v) > v
    ensures FineY(NextLine(v)) == FineY(v) + 1 && NextLine(v) & 0x8FFF == v & 0x8FFF
  {
  }

  /**
   * After the eighth row of a tile: fine Y is 0, and the tile row moves on,
   * where row 29 wraps to 0 of the vertically adjacent name table, row 31
   * wraps to 0 of the same one and every other row adds 1 with no carry.
   */
  lemma NextLineNextTileRow(v: bv16)
    requires FineY(v) == 7
    ensures FineY(NextLine(v)) == 0
    ensures CoarseY(v) == 29 ==> CoarseY(NextLine(v)) == 0 && NextLine(v) & 0x800 != v & 0x800
    ensures CoarseY(v) == 31 ==> CoarseY(NextLine(v)) == 0 && NextLine(v) & 0x800 == v & 0x800
    ensures CoarseY(v) != 29 && CoarseY(v) != 31 ==>
      CoarseY(NextLine(v)) == CoarseY(v) + 1 && NextLine(v) & 0x800 == v & 0x800
  {
  }

  /** The line counters of `runCycles`: the cycle inside the line, the scanline and the vertical-blank wait. */
  datatype Timing = Timing(scanlineCycles: int, scanline: int, vblankWait: int)

  /** 341 cycles per line. */
  const LineCycles := 341

  /** 19 waiting lines, then scanlines 0 to 243. */
  const FrameLines := 263

  const FrameCycles := 89683

  /**
   * The counters as `runCycles` keeps them: inside a line, the wait at most
   * 19, the scanline at most 243 and still 0 while the wait runs.
   */
  predicate ValidTiming(t: Timing)
  {
    0 <= t.scanlineCycles < LineCycles && 0 <= t.vblankWait <= 19 && 0 <= t.scanline <= 243
    && (t.vblankWait < 19 ==> t.scanline == 0)
  }

  /** The counters after the line-end branch of `runCycles`. */
  function LineEnd(t: Timing): Timing
  {
    if t.vblankWait < 19 then Timing(0, t.scanline, t.vblankWait + 1)
    else if t.scanline == 243 then Timing(0, 0, 0)
    else Timing(0, t.scanline + 1, t.vblankWait)
  }

  /** One iteration of the `runCycles` loop. */
  function Tick(t: Timing): Timing
  {
    if t.scanlineCycles + 1 == LineCycles then LineEnd(t) else t.(scanlineCycles := t.scanlineCycles + 1)
  }

  /** `n` iterations. */
  function Ticks(t: Timing, n: nat): Timing
  {
    if n == 0 then t else Tick(Ticks(t, n - 1))
  }

  /** Whether the cycle ending this line is the last of a frame (scanline 243 after the wait): vertical blank starts. */
  predicate EndsFrame(t: Timing)
  {
    t.scanlineCycles + 1 == LineCycles && t.vblankWait == 19 && t.scanline == 243
  }

  /** Frame ends among `n` iterations from `t`. */
  function FrameEnds(t: Timing, n: nat): nat
  {
    if n == 0 then 0 else FrameEnds(t, n - 1) + (if EndsFrame(Ticks(t, n - 1)) then 1 else 0)
  }

  /** Where in the 263-line frame the counters are: the line (the wait lines first), then the cycle. */
  function Position(t: Timing): (p: int)
    requires ValidTiming(t)
    ensures 0 <= p < FrameCycles
  {
    (if t.vblankWait < 19 then t.vblankWait else 19 + t.scanline) * LineCycles + t.scanlineCycles
  }

  /** The position determines the counters. */
  lemma PositionInjective(s: Timing, t: Timing)
    requires ValidTiming(s) && ValidTiming(t) && Position(s) == Position(t)
    ensures s == t
  {
  }

  /** Each cycle keeps the counters valid and moves one step round the frame. */
  lemma TickAdvances(t: Timing)
    requires ValidTiming(t)
    ensures ValidTiming(Tick(t))
    ensures Position(Tick(t)) == (Position(t) + 1) % FrameCycles
    ensures EndsFrame(t) <==> Position(t) == FrameCycles - 1
  {
  }

  /** After `n` cycles the counters stand `n` steps further round the frame. */
  lemma {:induction false} TicksAdvance(t: Timing, n: nat)
    requires ValidTiming(t)
    ensures ValidTiming(Ticks(t, n))
    ensures Position(Ticks(t, n)) == (Position(t) + n) % FrameCycles
  {
    if n > 0 {
      TicksAdvance(t, n - 1);
      TickAdvances(Ticks(t, n - 1));
      ModSucc(Position(t) + n - 1);
    }
  }

  /** Counting one further round the frame after reducing is counting one further before. */
  lemma ModSucc(a: nat)
    ensures (a % FrameCycles + 1) % FrameCycles == (a + 1) % FrameCycles
  {
    var q := a / FrameCycles;
    var r := a % FrameCycles;
    assert a + 1 == q * FrameCycles + (r + 1);
    if r + 1 == FrameCycles {
      assert a + 1 == (q + 1) * FrameCycles;
    }
  }

  /** Whether the cycle ending this line starts a frame: the wait is over and scanline 0 ends. */
  predicate StartsFrame(t: Timing)
  {
    t.scanlineCycles + 1 == LineCycles && t.vblankWait == 19 && t.scanline == 0
  }

  /**
   * The status after a line end past the wait, before the line is drawn:
   * scanline 0 clears bits 7 and 6 (frame start), scanline 243 sets bit 7
   * (vertical blank), and other lines leave it alone.
   */
  function ScanlineStatus(line: int, s: bv8): (r: bv8)
    ensures r & 0x3F == s & 0x3F
    ensures line == 0 ==> r & 0xC0 == 0
    ensures line == 243 ==> r & 0x80 == 0x80 && r & 0x40 == s & 0x40
    ensures line != 0 && line != 243 ==> r == s
  {
    if line == 0 then s & 0x3F else if line == 243 then s | 0x80 else s
  }

  /** The status after one cycle, before any drawing: only a line end past the wait changes it. */
  function CycleStatus(t: Timing, s: bv8): (r: bv8)
    ensures StartsFrame(t) ==> r == s & 0x3F
    ensures EndsFrame(t) ==> r == s | 0x80
    ensures !StartsFrame(t) && !EndsFrame(t) ==> r == s
  {
    if t.scanlineCycles + 1 == LineCycles && t.vblankWait == 19 then ScanlineStatus(t.scanline, s) else s
  }

  /** Whether the cycle ending this line draws it: a visible scanline after the wait, with background or sprites shown (bits 3-4 of control register 2). */
  predicate DrawsLine(t: Timing, ctrl2: bv8)
  {
    t.scanlineCycles + 1 == LineCycles && t.vblankWait == 19 && t.scanline < 240 && ctrl2 & 0x18 != 0
  }

  /** Counting one cycle further adds a frame exactly when the count reaches the last cycle of a frame. */
  lemma DivSucc(a: nat)
    ensures (a + 1) / FrameCycles == a / FrameCycles + (if a % FrameCycles == FrameCycles - 1 then 1 else 0)
  {
    var q := a / FrameCycles;
    var r := a % FrameCycles;
    assert a + 1 == q * FrameCycles + (r + 1);
    if r + 1 == FrameCycles {
      assert a + 1 == (q + 1) * FrameCycles + 0;
    }
  }

  /**
   * The frame ends among n cycles are the times the position passes the end
   * of the frame: one per 89683 cycles, counted from where the frame stands.
   */
  lemma {:induction false} FrameEndsCount(t: Timing, n: nat)
    requires ValidTiming(t)
    ensures FrameEnds(t, n) == (Position(t) + n) / FrameCycles
  {
    if n > 0 {
      FrameEndsCount(t, n - 1);
      TicksAdvance(t, n - 1);
      TickAdvances(Ticks(t, n - 1));
      DivSucc(Position(t) + n - 1);
    }
  }

  /** Every 89683 cycles there is exactly one frame end. */
  lemma OneFrameEndPerFrame(t: Timing)
    requires ValidTiming(t)
    ensures FrameEnds(t, FrameCycles) == 1
  {
    FrameEndsCount(t, FrameCycles);
    assert (Position(t) + FrameCycles) / FrameCycles == 1;
  }

  /** A frame lasts 263 lines of 341 cycles: after that many cycles every counter is back where it was. */
  lemma FramePeriod(t: Timing)
    requires ValidTiming(t)
    ensures Ticks(t, FrameCycles) == t
  {
    WholeFrames(t, FrameCycles);
  }

  /** Any whole number of frames brings every counter back where it was. */
  lemma WholeFrames(t: Timing, n: nat)
    requires ValidTiming(t) && n % FrameCycles == 0
    ensures Ticks(t, n) == t
  {
    TicksAdvance(t, n);
    ShiftByFrames(Position(t), n);
    PositionInjective(Ticks(t, n), t);
  }

  /** Moving a whole number of frames round the frame lands on the same position. */
  lemma ShiftByFrames(p: int, n: nat)
    requires 0 <= p < FrameCycles && n % FrameCycles == 0
    ensures (p + n) % FrameCycles == p
  {
    var q := n / FrameCycles;
    assert p + n == q * FrameCycles + p;
  }
}
