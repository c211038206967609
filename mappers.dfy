/**
 * The memory mappers: how a CPU address reaches RAM, the picture processor,
 * the sound unit, the joypads or cartridge memory (`NESMapper`), and the bank
 * switching of the AOROM, GNROM and UNROM boards. The CPU's 64 KiB memory and
 * the picture processor's 32 KiB memory are arrays the mapper shares; the
 * cartridge banks are the decoded image's PRG and CHR banks.
 */
module Mappers {
  import opened Bytes
  import Cartridge

  const CpuMemorySize := 0x10000
  const PpuMemorySize := 0x8000

  /** A device port a CPU access is handed to. */
  datatype Port = PpuPort(address: int) | ApuPort(address: int) | JoypadPort(pad: int)

  /**
   * The outcome of a CPU read: a byte from memory, a byte the named device
   * port supplies, or an index outside the array being read (the Java access
   * throws).
   */
  datatype ReadResult = Value(v: Byte) | Device(port: Port) | Fault

  /**
   * Where a CPU write goes: the 2 KiB RAM, the rest of CPU memory, a device
   * port, the mapper's own register, or the illegal range (the source prints
   * a message and exits).
   */
  datatype WriteTarget = Ram | Memory | ToDevice(port: Port) | MapperRegister | Illegal

  /** `NESMapper.read`: RAM mirrored every 2 KiB, the PPU ports, 0 for the sound registers, the joypads, then memory. */
  function BusRead(mem: seq<Byte>, address: Word): (r: ReadResult)
    requires |mem| == CpuMemorySize
    ensures address < 0x2000 ==> r == Value(mem[address % 0x800])
    ensures 0x2000 <= address <= 0x2007 ==> r == Device(PpuPort(address))
    ensures 0x2008 <= address <= 0x4015 ==> r == Value(0)
    ensures address == 0x4016 ==> r == Device(JoypadPort(0))
    ensures address == 0x4017 ==> r == Device(JoypadPort(1))
    ensures address > 0x4017 ==> r == Value(mem[address])
  {
    if address < 0x2000 then Value(mem[address % 0x800])
    else if address <= 0x2007 then Device(PpuPort(address))
    else if address <= 0x4015 then Value(0)
    else if address <= 0x4016 then Device(JoypadPort(0))
    else if address <= 0x4017 then Device(JoypadPort(1))
    else Value(mem[address])
  }

  /** `NESMapper.write`: the new CPU memory and where the write went. */
  function BusWrite(mem: seq<Byte>, address: Word, v: Byte): (r: (seq<Byte>, WriteTarget))
    requires |mem| == CpuMemorySize
    ensures |r.0| == CpuMemorySize
    ensures r.1.Ram? <==> address < 0x2000
    ensures r.1.Memory? <==> address > 0x4017
    ensures r.1.Illegal? <==> 0x2008 <= address < 0x4000
    ensures r.1.ToDevice? ==> r.0 == mem
    ensures r.1 == ToDevice(PpuPort(address)) <==> 0x2000 <= address <= 0x2007 || address == 0x4014
    ensures r.1 == ToDevice(ApuPort(address)) <==> 0x4000 <= address <= 0x4013 || address == 0x4015
    ensures r.1 == ToDevice(JoypadPort(address - 0x4016)) <==> address == 0x4016 || address == 0x4017
    ensures !r.1.MapperRegister?
  {
    if address < 0x2000 then (mem[address % 0x800 := v], Ram)
    else if address <= 0x2007 then (mem, ToDevice(PpuPort(address)))
    else if 0x4000 <= address <= 0x4013 then (mem, ToDevice(ApuPort(address)))
    else if address == 0x4014 then (mem, ToDevice(PpuPort(address)))
    else if address == 0x4015 then (mem, ToDevice(ApuPort(address)))
    else if address == 0x4016 then (mem, ToDevice(JoypadPort(0)))
    else if address == 0x4017 then (mem, ToDevice(JoypadPort(1)))
    else if address > 0x4017 then (mem[address := v], Memory)
    else (mem, Illegal)
  }

  /** A RAM write is read back at every address that shares its 2 KiB mirror, and changes nothing else. */
  lemma RamMirrorsAgree(mem: seq<Byte>, a: Word, b: Word, v: Byte)
    requires |mem| == CpuMemorySize && a < 0x2000 && b < 0x2000
    ensures BusRead(BusWrite(mem, a, v).0, b) == (if a % 0x800 == b % 0x800 then Value(v) else BusRead(mem, b))
  {
  }

  /** Cartridge space is plain memory: a write there, ROM included, is read back unchanged. */
  lemma MemoryWriteReadBack(mem: seq<Byte>, a: Word, v: Byte)
    requires |mem| == CpuMemorySize && a > 0x4017
    ensures BusRead(BusWrite(mem, a, v).0, a) == Value(v)
    ensures forall b :: 0 <= b < CpuMemorySize && b != a ==> BusWrite(mem, a, v).0[b] == mem[b]
  {
  }

  /** `mem` with the bytes of `src` written from index `at` on. */
  function Splice(mem: seq<Byte>, at: nat, src: seq<Byte>): (r: seq<Byte>)
    requires at + |src| <= |mem|
    ensures |r| == |mem|
    ensures forall k :: 0 <= k < |src| ==> r[at + k] == src[k]
    ensures forall k :: 0 <= k < |mem| && !(at <= k < at + |src|) ==> r[k] == mem[k]
  {
    mem[..at] + src + mem[at + |src|..]
  }

  /** `System.arraycopy(src, 0, dst, at, |src|)`. */
  method CopyInto(dst: array<Byte>, at: nat, src: seq<Byte>)
    requires at + |src| <= dst.Length
    modifies dst
    ensures dst[..] == Splice(old(dst[..]), at, src)
  {
    var i := 0;
    while i < |src|
      invariant 0 <= i <= |src|
      invariant forall k :: 0 <= k < i ==> dst[at + k] == src[k]
      invariant forall k :: 0 <= k < dst.Length && !(at <= k < at + i) ==> dst[k] == old(dst[k])
    {
      dst[at + i] := src[i];
      i := i + 1;
    }
  }

  /** Every PRG bank holds 16 KiB and every CHR bank 4 KiB, and CHR banks come in pairs, as the loader cuts them. */
  predicate WellFormedBanks(prg: seq<seq<Byte>>, chr: seq<seq<Byte>>)
  {
    && (forall i :: 0 <= i < |prg| ==> |prg[i]| == Cartridge.PrgBankSize)
    && (forall j :: 0 <= j < |chr| ==> |chr[j]| == Cartridge.ChrBankSize)
    && |chr| % 2 == 0
  }

  /** Every image the loader decodes satisfies `WellFormedBanks`. */
  lemma LoadedBanksWellFormed(data: seq<Byte>)
    requires Cartridge.Parse(data).Loaded?
    ensures WellFormedBanks(Cartridge.Parse(data).image.prg, Cartridge.Parse(data).image.chr)
  {
  }

  /** `NESMapper`: the base mapper, over the shared CPU and PPU memories and the cartridge banks. */
  class NesMapper {
    const cpuMemory: array<Byte>
    const ppuMemory: array<Byte>
    const prg: seq<seq<Byte>>
    const chr: seq<seq<Byte>>

    ghost predicate Valid()
    {
      cpuMemory.Length == CpuMemorySize && ppuMemory.Length == PpuMemorySize
      && cpuMemory != ppuMemory && WellFormedBanks(prg, chr)
    }

    constructor (cpuMemory: array<Byte>, ppuMemory: array<Byte>, prg: seq<seq<Byte>>, chr: seq<seq<Byte>>)
      requires cpuMemory.Length == CpuMemorySize && ppuMemory.Length == PpuMemorySize
      requires cpuMemory != ppuMemory && WellFormedBanks(prg, chr)
      ensures Valid()
      ensures this.cpuMemory == cpuMemory && this.ppuMemory == ppuMemory && this.prg == prg && this.chr == chr
    {
      this.cpuMemory := cpuMemory;
      this.ppuMemory := ppuMemory;
      this.prg := prg;
      this.chr := chr;
    }

    /** `read`: see `BusRead`. */
    function Read(address: Word): ReadResult
      requires Valid()
      reads cpuMemory
    {
      BusRead(cpuMemory[..], address)
    }

    /** `write`: memory changes as `BusWrite` says and the returned target names the device a port write goes to. */
    method Write(address: Word, v: Byte) returns (t: WriteTarget)
      requires Valid()
      modifies cpuMemory
      ensures (cpuMemory[..], t) == BusWrite(old(cpuMemory[..]), address, v)
    {
      if address < 0x2000 {
        cpuMemory[address % 0x800] := v;
        t := Ram;
      } else if address <= 0x2007 {
        t := ToDevice(PpuPort(address));
      } else if 0x4000 <= address <= 0x4013 {
        t := ToDevice(ApuPort(address));
      } else if address == 0x4014 {
        t := ToDevice(PpuPort(address));
      } else if address == 0x4015 {
        t := ToDevice(ApuPort(address));
      } else if address == 0x4016 {
        t := ToDevice(JoypadPort(0));
      } else if address == 0x4017 {
        t := ToDevice(JoypadPort(1));
      } else if address > 0x4017 {
        cpuMemory[address] := v;
        t := Memory;
      } else {
        t := Illegal;
      }
    }

    /**
     * `loadROMBank`: copies exactly the 16 KiB of PRG bank `bank` to CPU
     * memory at `address`. The copy checks its bounds first, so a bank the
     * image does not have (or a window past the end) throws (`ok` false)
     * with nothing copied.
     */
    method LoadRomBank(bank: int, address: int) returns (ok: bool)
      requires Valid()
      modifies cpuMemory
      ensures ok <==> 0 <= bank < |prg| && 0 <= address && address + Cartridge.PrgBankSize <= CpuMemorySize
      ensures ok ==> cpuMemory[..] == Splice(old(cpuMemory[..]), address, prg[bank])
      ensures !ok ==> cpuMemory[..] == old(cpuMemory[..])
    {
      if !(0 <= bank < |prg| && 0 <= address && address + Cartridge.PrgBankSize <= cpuMemory.Length) {
        return false;
      }
      CopyInto(cpuMemory, address, prg[bank]);
      return true;
    }

    /** `loadVROMBank`: copies exactly the 4 KiB of CHR bank `bank` to PPU memory at `address`, under the same rule. */
    method LoadVromBank(bank: int, address: int) returns (ok: bool)
      requires Valid()
      modifies ppuMemory
      ensures ok <==> 0 <= bank < |chr| && 0 <= address && address + Cartridge.ChrBankSize <= PpuMemorySize
      ensures ok ==> ppuMemory[..] == Splice(old(ppuMemory[..]), address, chr[bank])
      ensures !ok ==> ppuMemory[..] == old(ppuMemory[..])
    {
      if !(0 <= bank < |chr| && 0 <= address && address + Cartridge.ChrBankSize <= ppuMemory.Length) {
        return false;
      }
      CopyInto(ppuMemory, address, chr[bank]);
      return true;
    }

    /**
     * `loadROM`: PRG bank 0 at 0x8000, bank 1 (bank 0 again when there is
     * only one) at 0xC000, and CHR banks 0 and 1 at PPU 0x0000 and 0x1000
     * when there are at least two. An image without PRG banks throws at the
     * first copy (`ok` false) and nothing changes.
     */
    method LoadRom() returns (ok: bool)
      requires Valid()
      modifies cpuMemory, ppuMemory
      ensures ok <==> |prg| > 0
      ensures ok ==> (cpuMemory[..] ==
        Splice(Splice(old(cpuMemory[..]), 0x8000, prg[0]), 0xC000, prg[if |prg| < 2 then 0 else 1]))
      ensures ok && |chr| >= 2 ==> ppuMemory[..] == Splice(Splice(old(ppuMemory[..]), 0, chr[0]), 0x1000, chr[1])
      ensures !ok || |chr| < 2 ==> ppuMemory[..] == old(ppuMemory[..])
      ensures !ok ==> cpuMemory[..] == old(cpuMemory[..])
    {
      ok := LoadRomBank(0, 0x8000);
      if !ok {
        return;
      }
      var second := LoadRomBank(if |prg| < 2 then 0 else 1, 0xC000);
      if |chr| >= 2 {
        var first := LoadVromBank(0, 0x0000);
        second := LoadVromBank(1, 0x1000);
      }
    }
  }

  /** A loaded image puts its reset vector (the last bytes of bank 0 or 1) at the top of CPU memory. */
  lemma LoadRomFillsBothWindows(mem: seq<Byte>, prg: seq<seq<Byte>>, k: nat)
    requires |mem| == CpuMemorySize && |prg| > 0 && WellFormedBanks(prg, [])
    requires k < Cartridge.PrgBankSize
    ensures var m := Splice(Splice(mem, 0x8000, prg[0]), 0xC000, prg[if |prg| < 2 then 0 else 1]);
      m[0x8000 + k] == prg[0][k] && m[0xC000 + k] == prg[if |prg| < 2 then 0 else 1][k]
      && m[..0x8000] == mem[..0x8000]
  {
    var m1 := Splice(mem, 0x8000, prg[0]);
    var m := Splice(m1, 0xC000, prg[if |prg| < 2 then 0 else 1]);
    assert m[0x8000 + k] == m1[0x8000 + k];
    assert m[..0x8000] == mem[..0x8000] by {
      forall i | 0 <= i < 0x8000
        ensures m[i] == mem[i]
      {
        assert m[i] == m1[i];
      }
    }
  }

  /** AOROM: `offset` after a bank-select write of `v`, `((v & 0xF) - 1) << 15`. */
  function AoromOffset(v: Byte): int
  {
    (v % 0x10 - 1) * 0x8000
  }

  /** AOROM: the mirroring field after a write of `v`, `v & 0x10`. */
  function AoromMirroring(v: Byte): int
  {
    ((v / 0x10) % 2) * 0x10
  }

  /**
   * With the offset a write of `v` selects, CPU address 0x8000 + k reads entry
   * (v & 0xF) * 0x8000 + k of the concatenated PRG: `v & 0xF` picks a 32 KiB
   * bank.
   */
  lemma AoromSelectsBank(v: Byte, k: int)
    requires 0 <= k < 0x8000
    ensures 0x8000 + k + AoromOffset(v) == (v % 0x10) * 0x8000 + k
  {
  }

  /** The bytes of `src` written at `at` end the prefix of that length. */
  lemma SplicePrefix(mem: seq<Byte>, at: nat, src: seq<Byte>)
    requires at + |src| <= |mem|
    ensures Splice(mem, at, src)[..at + |src|] == mem[..at] + src
  {
    var r := Splice(mem, at, src);
    assert forall k :: 0 <= k < at ==> r[k] == mem[k];
  }

  /** The PRG banks copied one after another into a new array, as the AOROM constructor does. */
  method CopyBanks(banks: seq<seq<Byte>>) returns (rom: array<Byte>)
    requires forall i :: 0 <= i < |banks| ==> |banks[i]| == Cartridge.PrgBankSize
    ensures fresh(rom) && rom.Length == |banks| * Cartridge.PrgBankSize && rom[..] == Cartridge.Flatten(banks)
  {
    rom := new Byte[|banks| * Cartridge.PrgBankSize](_ => 0);
    Cartridge.FlattenLength(banks, Cartridge.PrgBankSize);
    var i := 0;
    while i < |banks|
      invariant 0 <= i <= |banks| && rom.Length == |banks| * Cartridge.PrgBankSize
      invariant rom[..i * Cartridge.PrgBankSize] == Cartridge.Flatten(banks[..i])
    {
      ghost var before := rom[..];
      CopyInto(rom, i * Cartridge.PrgBankSize, banks[i]);
      SplicePrefix(before, i * Cartridge.PrgBankSize, banks[i]);
      assert rom[..(i + 1) * Cartridge.PrgBankSize] == before[..i * Cartridge.PrgBankSize] + banks[i];
      assert banks[..i + 1][..i] == banks[..i];
      i := i + 1;
    }
    assert banks[..|banks|] == banks;
  }

  /** `AOROMMapper`: the whole PRG as one array, read through a 32 KiB window that writes move. */
  class AoromMapper {
    const base: NesMapper
    const prgROM: array<Byte>
    var offset: int
    var mirroring: int

    ghost predicate Valid()
    {
      base.Valid() && prgROM.Length == |base.prg| * Cartridge.PrgBankSize
      && prgROM != base.cpuMemory && prgROM != base.ppuMemory
    }

    /** The constructor: window offset 0, no mirroring chosen yet, and every PRG bank copied in order. */
    constructor (base: NesMapper)
      requires base.Valid()
      ensures Valid() && this.base == base && fresh(prgROM)
      ensures offset == 0 && mirroring == -1
      ensures prgROM[..] == Cartridge.Flatten(base.prg)
    {
      this.base := base;
      offset := 0;
      mirroring := -1;
      var rom := CopyBanks(base.prg);
      prgROM := rom;
    }

    /** `read`: below 0x8000 the base mapper; above, the window into the PRG array, which may lie outside it. */
    function Read(address: Word): (r: ReadResult)
      requires Valid()
      reads this, base.cpuMemory, prgROM
      ensures address < 0x8000 ==> r == base.Read(address)
      ensures address >= 0x8000 ==> (r.Fault? <==> !(0 <= address + offset < prgROM.Length))
      ensures address >= 0x8000 && !r.Fault? ==> r == Value(prgROM[address + offset])
    {
      if address < 0x8000 then base.Read(address)
      else if 0 <= address + offset < prgROM.Length then Value(prgROM[address + offset])
      else Fault
    }

    /**
     * `write`: below 0x8000 the base mapper. Above, the window moves to the
     * 32 KiB bank `v & 0xF`, and when bit 4 differs from the last one the
     * mirroring changes: the returned mode is passed to the picture processor
     * (single screen for 0, the second single screen otherwise).
     */
    method Write(address: Word, v: Byte) returns (t: WriteTarget, setMirroring: Option<int>)
      requires Valid()
      modifies this`offset, this`mirroring, base.cpuMemory
      ensures address < 0x8000 ==>
        && (base.cpuMemory[..], t) == BusWrite(old(base.cpuMemory[..]), address, v)
        && offset == old(offset) && mirroring == old(mirroring) && setMirroring.None?
      ensures address >= 0x8000 ==>
        && t == MapperRegister && base.cpuMemory[..] == old(base.cpuMemory[..])
        && offset == AoromOffset(v) && mirroring == AoromMirroring(v)
        && setMirroring == (if old(mirroring) == AoromMirroring(v) then None
                            else if AoromMirroring(v) == 0 then Some(Cartridge.SingleScreenMirroring)
                            else Some(Cartridge.SingleScreenMirroring2))
    {
      if address < 0x8000 {
        t := base.Write(address, v);
        setMirroring := None;
      } else {
        t := MapperRegister;
        offset := (v % 0x10 - 1) * 0x8000;
        setMirroring := None;
        if mirroring != AoromMirroring(v) {
          mirroring := AoromMirroring(v);
          if mirroring == 0 {
            setMirroring := Some(Cartridge.SingleScreenMirroring);
          } else {
            setMirroring := Some(Cartridge.SingleScreenMirroring2);
          }
        }
      }
    }

    /** After a bank-select write of `v`, address 0x8000 + k reads PRG entry (v & 0xF) * 0x8000 + k. */
    lemma ReadAfterSelect(v: Byte, k: int)
      requires Valid() && offset == AoromOffset(v) && 0 <= k < 0x8000
      ensures var i := (v % 0x10) * 0x8000 + k;
        Read(0x8000 + k) == if i < prgROM.Length then Value(prgROM[i]) else Fault
    {
      AoromSelectsBank(v, k);
    }
  }

  /** GNROM: the PRG bank a write of `v` puts at 0x8000, `(((v >> 4) & 3) * 2) % n`. */
  function GnromPrgBank(v: Byte, n: int): int
    requires n > 0
  {
    (((v / 0x10) % 4) * 2) % n
  }

  /** GNROM: the CHR bank a write of `v` puts at 0x0000, `((v & 3) * 2) % n`. */
  function GnromChrBank(v: Byte, n: int): int
    requires n > 0
  {
    ((v % 4) * 2) % n
  }

  /** Remainders of an even number by an even modulus are even, so the pair's second bank exists. */
  lemma GnromChrPairInRange(v: Byte, n: int)
    requires n > 0 && n % 2 == 0
    ensures 0 <= GnromChrBank(v, n) && GnromChrBank(v, n) + 1 < n
  {
    var x := (v % 4) * 2;
    var q := x / n;
    var r := x % n;
    assert x == q * n + r;
    assert r == x - q * n;
    assert q * n == 2 * (q * (n / 2));
    assert r % 2 == 0;
  }

  /** `GNROMMapper`: reads are the base mapper's; writes at 0x8000 and above switch a 32 KiB PRG pair and an 8 KiB CHR pair. */
  class GnromMapper {
    const base: NesMapper

    ghost predicate Valid()
    {
      base.Valid()
    }

    constructor (base: NesMapper)
      requires base.Valid()
      ensures Valid() && this.base == base
    {
      this.base := base;
    }

    /**
     * `write`: below 0x8000 the base mapper. Above, PRG banks 2p and 2p + 1
     * (modulo the bank count, with p = bits 4-5 of `v`) go to 0x8000 and
     * 0xC000, then, unless there are no CHR banks, CHR banks 2c and 2c + 1
     * (modulo their count, with c = bits 0-1) go to PPU 0x0000 and 0x1000.
     * An image without PRG banks divides by zero (`ok` false) before
     * anything is copied.
     */
    method Write(address: Word, v: Byte) returns (t: WriteTarget, ok: bool)
      requires Valid()
      modifies base.cpuMemory, base.ppuMemory
      ensures address < 0x8000 ==>
        && ok && (base.cpuMemory[..], t) == BusWrite(old(base.cpuMemory[..]), address, v)
        && base.ppuMemory[..] == old(base.ppuMemory[..])
      ensures address >= 0x8000 ==> t == MapperRegister && (ok <==> |base.prg| > 0)
      ensures address >= 0x8000 && ok ==>
        base.cpuMemory[..] == Splice(Splice(old(base.cpuMemory[..]), 0x8000, base.prg[GnromPrgBank(v, |base.prg|)]),
                                     0xC000, base.prg[((((v / 0x10) % 4) * 2) + 1) % |base.prg|])
      ensures address >= 0x8000 && ok && |base.chr| > 0 ==>
        var c := GnromChrBank(v, |base.chr|);
        c + 1 < |base.chr| &&
        base.ppuMemory[..] == Splice(Splice(old(base.ppuMemory[..]), 0, base.chr[c]), 0x1000, base.chr[c + 1])
      ensures address >= 0x8000 && (!ok || |base.chr| == 0) ==> base.ppuMemory[..] == old(base.ppuMemory[..])
      ensures address >= 0x8000 && !ok ==> base.cpuMemory[..] == old(base.cpuMemory[..])
    {
      if address < 0x8000 {
        t := base.Write(address, v);
        return t, true;
      }
      t := MapperRegister;
      var n := |base.prg|;
      if n == 0 {
        return t, false;
      }
      var bank1 := (((v / 0x10) % 4) * 2) % n;
      var bank2 := ((((v / 0x10) % 4) * 2) + 1) % n;
      var done := base.LoadRomBank(bank1, 0x8000);
      done := base.LoadRomBank(bank2, 0xC000);
      ok := true;
      if |base.chr| == 0 {
        return;
      }
      var vbank := ((v % 4) * 2) % |base.chr|;
      GnromChrPairInRange(v, |base.chr|);
      done := base.LoadVromBank(vbank, 0x0000);
      done := base.LoadVromBank(vbank + 1, 0x1000);
    }
  }

  /** `UNIROMMapper`: the last PRG bank fixed at 0xC000, a switchable bank at 0x8000. */
  class UniromMapper {
    const base: NesMapper

    ghost predicate Valid()
    {
      base.Valid()
    }

    constructor (base: NesMapper)
      requires base.Valid()
      ensures Valid() && this.base == base
    {
      this.base := base;
    }

    /** `loadROM`: bank 0 at 0x8000 and the last bank at 0xC000; no CHR is copied. Without PRG banks it throws (`ok` false). */
    method LoadRom() returns (ok: bool)
      requires Valid()
      modifies base.cpuMemory
      ensures ok <==> |base.prg| > 0
      ensures ok ==> (base.cpuMemory[..] ==
        Splice(Splice(old(base.cpuMemory[..]), 0x8000, base.prg[0]), 0xC000, base.prg[|base.prg| - 1]))
      ensures !ok ==> base.cpuMemory[..] == old(base.cpuMemory[..])
    {
      ok := base.LoadRomBank(0, 0x8000);
      if ok {
        var last := base.LoadRomBank(|base.prg| - 1, 0xC000);
      }
    }

    /**
     * `write`: below 0x8000 the base mapper; above, bank `v` replaces
     * 0x8000-0xBFFF. `v` is not masked, so a bank number the image does not
     * have throws (`ok` false) and nothing changes.
     */
    method Write(address: Word, v: Byte) returns (t: WriteTarget, ok: bool)
      requires Valid()
      modifies base.cpuMemory
      ensures address < 0x8000 ==> ok && (base.cpuMemory[..], t) == BusWrite(old(base.cpuMemory[..]), address, v)
      ensures address >= 0x8000 ==> t == MapperRegister && (ok <==> v < |base.prg|)
      ensures address >= 0x8000 && ok ==> base.cpuMemory[..] == Splice(old(base.cpuMemory[..]), 0x8000, base.prg[v])
      ensures address >= 0x8000 && !ok ==> base.cpuMemory[..] == old(base.cpuMemory[..])
    {
      if address < 0x8000 {
        t := base.Write(address, v);
        ok := true;
      } else {
        t := MapperRegister;
        ok := base.LoadRomBank(v, 0x8000);
      }
    }
  }

  /** A UNROM bank switch leaves the fixed window 0xC000-0xFFFF and everything below 0x8000 as it was. */
  lemma UniromSwitchKeepsFixedBank(mem: seq<Byte>, bank: seq<Byte>)
    requires |mem| == CpuMemorySize && |bank| == Cartridge.PrgBankSize
    ensures Splice(mem, 0x8000, bank)[0xC000..] == mem[0xC000..]
    ensures Splice(mem, 0x8000, bank)[..0x8000] == mem[..0x8000]
    ensures Splice(mem, 0x8000, bank)[0x8000..0xC000] == bank
  {
    var m := Splice(mem, 0x8000, bank);
    assert m[0xC000..] == mem[0xC000..] by {
      forall i | 0xC000 <= i < CpuMemorySize
        ensures m[i] == mem[i]
      {
      }
    }
    assert m[..0x8000] == mem[..0x8000] by {
      forall i | 0 <= i < 0x8000
        ensures m[i] == mem[i]
      {
      }
    }
    assert m[0x8000..0xC000] == bank by {
      forall i | 0 <= i < Cartridge.PrgBankSize
        ensures m[0x8000 + i] == bank[i]
      {
      }
    }
  }
}
