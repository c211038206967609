/**
 * The arithmetic and flag logic of the 6502 interpreter in `CPU.java`, lifted
 * out of `processNextInstruction` into pure functions. Decimal mode is never
 * consulted: ADC and SBC are binary only.
 */
module Alu {
  import opened Bytes

  /**
   * The eight status flags. The Java fields `flagCarry` .. `flagSign` are `int`s
   * that only ever hold 0 or 1, so each is a `bool` here.
   */
  datatype Flags = Flags(
    carry: bool, zero: bool, interrupt: bool, decimal: bool,
    brk: bool, notUsed: bool, overflow: bool, sign: bool)

  /** A computed byte together with the flags after the operation. */
  datatype AluOut = AluOut(value: Byte, flags: Flags)

  function BitIf(b: bool, k: bv8): bv8
  {
    if b then k else 0
  }

  function PackBits(f: Flags): bv8
  {
    BitIf(f.carry, 0x01) | BitIf(f.zero, 0x02) | BitIf(f.interrupt, 0x04) | BitIf(f.decimal, 0x08)
    | BitIf(f.brk, 0x10) | BitIf(f.notUsed, 0x20) | BitIf(f.overflow, 0x40) | BitIf(f.sign, 0x80)
  }

  /**
   * The status byte pushed by interrupts, BRK and PHP: carry in bit 0, then
   * zero, interrupt, decimal, break, unused, overflow, and sign in bit 7.
   */
  function Pack(f: Flags): Byte
  {
    PackBits(f) as int
  }

  function UnpackBits(p: bv8): Flags
  {
    Flags(p & 0x01 != 0, p & 0x02 != 0, p & 0x04 != 0, p & 0x08 != 0,
          p & 0x10 != 0, p & 0x20 != 0, p & 0x40 != 0, p & 0x80 != 0)
  }

  /** The flags PLP and RTI load from a pulled status byte, `(temp >> k) & 1`. */
  function Unpack(p: Byte): Flags
  {
    UnpackBits(p as bv8)
  }

  /** Pulling what was pushed restores every flag. */
  lemma UnpackPack(f: Flags)
    ensures Unpack(Pack(f)) == f
  {
    Bv8ByteRoundTrip(PackBits(f));
  }

  /** Every byte is the packing of the flags it unpacks to. */
  lemma PackUnpack(p: Byte)
    ensures Pack(Unpack(p)) == p
  {
    ByteBv8RoundTrip(p);
  }

  function GetFlagsBits(f: Flags): bv8
  {
    BitIf(f.carry, 0x01) | BitIf(f.zero, 0x02) | BitIf(f.interrupt, 0x04) | BitIf(f.decimal, 0x08)
    | BitIf(f.notUsed, 0x10) | BitIf(f.overflow, 0x20) | BitIf(f.sign, 0x40)
  }

  /** `getFlags`: a 7-bit layout that leaves out the break flag. */
  function GetFlags(f: Flags): (r: int)
    ensures 0 <= r < 0x80
  {
    GetFlagsBits(f) as int
  }

  /**
   * The `getFlags` layout is the pushed layout with the break bit removed: the
   * low four bits agree, the upper bits are shifted down by one, and the break
   * flag appears only in the pushed byte.
   */
  lemma GetFlagsDropsBreak(f: Flags)
    ensures GetFlagsBits(f) & 0x0F == PackBits(f) & 0x0F
    ensures GetFlagsBits(f) >> 4 == PackBits(f) >> 5
    ensures (PackBits(f) & 0x10 != 0) == f.brk
    ensures GetFlagsBits(f.(brk := !f.brk)) == GetFlagsBits(f)
  {
  }

  /** The sign and zero flags as every load, transfer and logic operation sets them. */
  function SetSignZero(f: Flags, v: Byte): (r: Flags)
    ensures r.sign <==> v >= 0x80
    ensures r.zero <==> v == 0
    ensures r.(sign := f.sign, zero := f.zero) == f
  {
    f.(sign := Bit7(v), zero := v == 0)
  }

  function CarryIn(f: Flags): int
  {
    if f.carry then 1 else 0
  }

  /** ADC: add memory and carry to the accumulator. */
  function Adc(a: Byte, m: Byte, f: Flags): AluOut
  {
    var t := m + a + CarryIn(f);
    AluOut(Low8(t), f.(overflow := Bit7(a) == Bit7(m) && Bit7(a) != Bit7(t),
                       carry := t > 0xFF, sign := Bit7(t), zero := Low8(t) == 0))
  }

  /** SBC: subtract memory and the borrow (the complement of carry) from the accumulator. */
  function Sbc(a: Byte, m: Byte, f: Flags): AluOut
  {
    var t := a - m - (1 - CarryIn(f));
    AluOut(Low8(t), f.(overflow := Bit7(a) != Bit7(m) && Bit7(a) != Bit7(t),
                       carry := t >= 0, sign := Bit7(t), zero := Low8(t) == 0))
  }

  /**
   * ADC against the unsigned reading of its operands: the result and the carry
   * form the full unsigned sum, zero and sign describe the result, and no other
   * flag changes.
   */
  lemma AdcUnsignedSum(a: Byte, m: Byte, f: Flags)
    ensures var r := Adc(a, m, f);
      r.value + (if r.flags.carry then 0x100 else 0) == a + m + CarryIn(f)
      && (r.flags.zero <==> r.value == 0) && (r.flags.sign <==> Signed(r.value) < 0)
      && r.flags.(overflow := f.overflow, carry := f.carry, sign := f.sign, zero := f.zero) == f
  {
  }

  /**
   * ADC against the signed reading of its operands: overflow is set exactly
   * when the signed sum leaves the range of a signed byte, and otherwise the
   * result is that sum.
   */
  lemma AdcSignedOverflow(a: Byte, m: Byte, f: Flags)
    ensures var r := Adc(a, m, f);
      (r.flags.overflow <==> !(-0x80 <= Signed(a) + Signed(m) + CarryIn(f) < 0x80))
      && (!r.flags.overflow ==> Signed(r.value) == Signed(a) + Signed(m) + CarryIn(f))
  {
    var t := a + m + CarryIn(f);
    assert Low8(a) == a && Low8(m) == m;
    if a < 0x80 && m < 0x80 {
      assert Low8(t) == t;
    } else if a >= 0x80 && m >= 0x80 {
      assert Low8(t) == t - 0x100;
    } else if t < 0x100 {
      assert Low8(t) == t;
    } else {
      assert Low8(t) == t - 0x100;
    }
  }

  /**
   * SBC against the unsigned reading of its operands: the carry is the "no
   * borrow" bit of the unsigned difference.
   */
  lemma SbcUnsignedDifference(a: Byte, m: Byte, f: Flags)
    ensures var r := Sbc(a, m, f);
      r.value - (if r.flags.carry then 0 else 0x100) == a - m - (1 - CarryIn(f))
      && (r.flags.carry <==> a >= m + 1 - CarryIn(f))
  {
  }

  /**
   * SBC against the signed reading of its operands: overflow is set exactly
   * when the signed difference leaves the range of a signed byte, and otherwise
   * the result is that difference.
   */
  lemma SbcSignedOverflow(a: Byte, m: Byte, f: Flags)
    ensures var r := Sbc(a, m, f);
      (r.flags.overflow <==> !(-0x80 <= Signed(a) - Signed(m) - (1 - CarryIn(f)) < 0x80))
      && (!r.flags.overflow ==> Signed(r.value) == Signed(a) - Signed(m) - (1 - CarryIn(f)))
  {
    var t := a - m - (1 - CarryIn(f));
    assert Low8(a) == a && Low8(m) == m;
    if (a < 0x80) == (m < 0x80) {
      if t >= 0 {
        assert Low8(t) == t;
      } else {
        assert Low8(t) == t + 0x100;
      }
    } else if a < 0x80 {
      assert Low8(t) == t + 0x100;
    } else {
      assert Low8(t) == t;
    }
  }

  /** SBC is ADC of the one's complement of the operand, result and every flag alike. */
  lemma SbcIsAdcOfComplement(a: Byte, m: Byte, f: Flags)
    ensures Sbc(a, m, f) == Adc(a, 0xFF - m, f)
  {
    var t := a - m - (1 - CarryIn(f));
    assert t + 0x100 == (0xFF - m) + a + CarryIn(f);
    assert Low8(t) == Low8(t + 0x100);
    assert Bit7(t) == Bit7(t + 0x100);
    assert Bit7(m) != Bit7(0xFF - m);
  }

  /** CMP, CPX and CPY: `reg - M` sets carry, sign and zero and is then discarded. */
  function Compare(reg: Byte, m: Byte, f: Flags): Flags
  {
    var t := reg - m;
    f.(carry := t >= 0, sign := Bit7(t), zero := Low8(t) == 0)
  }

  /** A compare orders the register against the operand as unsigned bytes. */
  lemma CompareOrders(reg: Byte, m: Byte, f: Flags)
    ensures var r := Compare(reg, m, f);
      (r.carry <==> reg >= m) && (r.zero <==> reg == m)
      && (r.carry && !r.zero <==> reg > m)
      && r.(carry := f.carry, sign := f.sign, zero := f.zero) == f
  {
  }

  /** ASL: bit 7 goes to carry, `(t << 1) & 0xFE`. */
  function Asl(t: Byte, f: Flags): AluOut
  {
    var v := (2 * t) % 0x100;
    AluOut(v, SetSignZero(f.(carry := t >= 0x80), v))
  }

  /** LSR: bit 0 goes to carry, `(t >> 1) & 0x7F`; the sign flag is cleared. */
  function Lsr(t: Byte, f: Flags): AluOut
  {
    var v := t / 2;
    AluOut(v, f.(carry := t % 2 == 1, sign := false, zero := v == 0))
  }

  /** ROL: rotate left through carry. */
  function Rol(t: Byte, f: Flags): AluOut
  {
    var v := (2 * t) % 0x100 + CarryIn(f);
    AluOut(v, SetSignZero(f.(carry := t >= 0x80), v))
  }

  /** ROR: rotate right through carry. */
  function Ror(t: Byte, f: Flags): AluOut
  {
    var v := t / 2 + 0x80 * CarryIn(f);
    AluOut(v, SetSignZero(f.(carry := t % 2 == 1), v))
  }

  /** A shift left is a doubling and a shift right a halving, with the lost bit in carry. */
  lemma ShiftsScale(t: Byte, f: Flags)
    ensures Asl(t, f).value + (if Asl(t, f).flags.carry then 0x100 else 0) == 2 * t
    ensures 2 * Lsr(t, f).value + (if Lsr(t, f).flags.carry then 1 else 0) == t
  {
  }

  /** Rotating right then left through carry gives back the operand and the carry. */
  lemma RolUndoesRor(t: Byte, f: Flags)
    ensures var r := Ror(t, f);
      Rol(r.value, r.flags).value == t && Rol(r.value, r.flags).flags.carry == f.carry
  {
  }

  /** Rotating left then right through carry gives back the operand and the carry. */
  lemma RorUndoesRol(t: Byte, f: Flags)
    ensures var r := Rol(t, f);
      Ror(r.value, r.flags).value == t && Ror(r.value, r.flags).flags.carry == f.carry
  {
  }
}
