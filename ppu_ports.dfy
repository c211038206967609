/**
 * The picture processor's CPU-visible ports 0x2000-0x2007 and 0x4014
 * (`externalRead` and `externalWrite`), on the register fields they change.
 * Memory effects (sprite memory, video memory) are stated by the methods of
 * the `Ppu` class.
 */
module PpuPorts {
  import opened Bytes
  import opened PpuRegs

  /**
   * The register fields the ports touch: the two control registers, the
   * status register, the sprite-memory address, the read buffer of 0x2007,
   * fine X, T, V and the write toggle shared by 0x2005 and 0x2006.
   */
  datatype Regs = Regs(ctrl1: bv8, ctrl2: bv8, status: bv8, sramAddress: Byte, latch: Byte,
                       fineX: int, t: bv16, v: bv16, firstWrite: bool)

  /** The invariant the ports keep: fine X is three bits and T never reaches bit 15. */
  predicate ValidRegs(r: Regs)
  {
    0 <= r.fineX < 8 && r.t < 0x8000
  }

  /** An access to 0x2007 goes through `vramMirror[V]`, which throws unless V is below 0x8000. */
  predicate VramAccessOk(r: Regs)
  {
    r.v < 0x8000
  }

  /** `externalWrite(address, value)` on the register fields. */
  function PortWrite(r: Regs, address: int, value: Byte): Regs
  {
    var b := Widen(value);
    if address == 0x2000 then r.(ctrl1 := value as bv8, t := ControlT(r.t, b))
    else if address == 0x2001 then r.(ctrl2 := value as bv8)
    else if address == 0x2003 then r.(sramAddress := value)
    else if address == 0x2004 then r.(sramAddress := (r.sramAddress + 1) % 0x100)
    else if address == 0x2005 then
      if r.firstWrite then r.(t := ScrollXT(r.t, b), fineX := value % 8, firstWrite := false)
      else r.(t := ScrollYT(r.t, b), firstWrite := true)
    else if address == 0x2006 then
      if r.firstWrite then r.(t := AddressHighT(r.t, b), firstWrite := false)
      else r.(t := AddressLowT(r.t, b), v := AddressLowT(r.t, b), firstWrite := true)
    else if address == 0x2007 && VramAccessOk(r) then r.(v := r.v + VramStep(r.ctrl1))
    else r
  }

  /**
   * `externalRead(address)`: the value and the new register fields, given the
   * byte at the sprite-memory address and the byte `ppuMemory[vramMirror[V]]`.
   * Addresses without a readable register give 0.
   */
  function PortRead(r: Regs, address: int, spriteByte: Byte, vramByte: Byte): (Byte, Regs)
  {
    if address == 0x2000 then (r.ctrl1 as int, r)
    else if address == 0x2001 then (r.ctrl2 as int, r)
    else if address == 0x2002 then (r.status as int, r.(status := r.status & 0x7F, firstWrite := true))
    else if address == 0x2004 then (spriteByte, r.(sramAddress := (r.sramAddress + 1) % 0x100))
    else if address == 0x2007 && VramAccessOk(r) then (r.latch, r.(latch := vramByte, v := r.v + VramStep(r.ctrl1)))
    else (0, r)
  }

  /** Every port write keeps the invariant. */
  lemma PortWriteKeepsValid(r: Regs, address: int, value: Byte)
    requires ValidRegs(r)
    ensures ValidRegs(PortWrite(r, address, value))
  {
    if address == 0x2000 {
      assert ValidRegs(PortWrite(r, 0x2000, value));
    } else if address == 0x2005 {
      assert ValidRegs(PortWrite(r, 0x2005, value));
    } else if address == 0x2006 {
      assert ValidRegs(PortWrite(r, 0x2006, value));
    } else {
      assert PortWrite(r, address, value).t == r.t && PortWrite(r, address, value).fineX == r.fineX;
    }
  }

  /** Every port read keeps the invariant. */
  lemma PortReadKeepsValid(r: Regs, address: int, spriteByte: Byte, vramByte: Byte)
    requires ValidRegs(r)
    ensures ValidRegs(PortRead(r, address, spriteByte, vramByte).1)
  {
  }

  /**
   * The two 0x2005 writes: the first sets coarse X from the value's top five
   * bits and fine X from its low three, the second coarse Y and fine Y, and
   * the toggle is back where it started; the rest of T is untouched.
   */
  lemma ScrollPair(r: Regs, x: Byte, y: Byte)
    requires r.firstWrite
    ensures var r2 := PortWrite(PortWrite(r, 0x2005, x), 0x2005, y);
      && r2.firstWrite
      && r2.fineX == x % 8
      && r2.t & 0x1F == Widen(x) >> 3
      && CoarseY(r2.t) == Widen(y) >> 3
      && FineY(r2.t) == Widen(y) & 7
      && r2.t & 0x8C00 == r.t & 0x8C00
      && r2.v == r.v
  {
    var r1 := PortWrite(r, 0x2005, x);
    var r2 := PortWrite(r1, 0x2005, y);
    assert r2.t & 0x1F == r1.t & 0x1F;
    assert r2.t & 0x8C00 == r1.t & 0x8C00 == r.t & 0x8C00;
  }

  /** The two 0x2006 writes set T and V to the 14-bit address `((hi & 0x3F) << 8) | lo` and restore the toggle. */
  lemma AddressPair(r: Regs, hi: Byte, lo: Byte)
    requires r.firstWrite
    ensures var r2 := PortWrite(PortWrite(r, 0x2006, hi), 0x2006, lo);
      && r2.firstWrite
      && r2.t == r2.v == ((Widen(hi) & 0x3F) << 8) | Widen(lo)
  {
    AddressPairSetsT(r.t, Widen(hi), Widen(lo));
  }

  /** Reading the status port returns the status, then clears bit 7 (vertical blank) and resets the toggle to the first write. */
  lemma StatusRead(r: Regs, s: Byte, m: Byte)
    ensures PortRead(r, 0x2002, s, m).0 == r.status as int
    ensures PortRead(r, 0x2002, s, m).1.status == r.status & 0x7F
    ensures PortRead(r, 0x2002, s, m).1.firstWrite
  {
  }

  /**
   * Reads of 0x2007 are buffered: each returns the byte the previous read
   * fetched, keeps the newly fetched one, and moves V by 1 or 32 without
   * masking.
   */
  lemma VramReadBuffered(r: Regs, s: Byte, m: Byte)
    requires VramAccessOk(r)
    ensures PortRead(r, 0x2007, s, m).0 == r.latch
    ensures PortRead(r, 0x2007, s, m).1.latch == m
    ensures PortRead(r, 0x2007, s, m).1.v == r.v + VramStep(r.ctrl1)
  {
    assert PortRead(r, 0x2007, s, m) == (r.latch, r.(latch := m, v := r.v + VramStep(r.ctrl1)));
  }

  /** 0x2004 reads and writes step the sprite-memory address modulo 256. */
  lemma SpriteAddressWraps(r: Regs, value: Byte, s: Byte, m: Byte)
    ensures PortWrite(r, 0x2004, value).sramAddress == (r.sramAddress + 1) % 0x100
    ensures PortRead(r, 0x2004, s, m).1.sramAddress == (r.sramAddress + 1) % 0x100
    ensures PortRead(r, 0x2004, s, m).0 == s
  {
  }
}
