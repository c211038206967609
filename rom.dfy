/**
 * `ROM`: decoding an iNES cartridge image. The file's bytes are an input; the
 * header (16 bytes) gives the bank counts, the mapper number and the mirroring
 * bits, and the body is cut into 16 KiB PRG banks followed by 4 KiB CHR banks.
 */
module Cartridge {
  import opened Bytes

  const HeaderSize := 16
  const PrgBankSize := 0x4000
  const ChrBankSize := 0x1000

  /** The mirroring numbers shared with the picture processor. */
  const HorizontalMirroring := 0
  const VerticalMirroring := 1
  const SingleScreenMirroring := 3
  const SingleScreenMirroring2 := 4

  /**
   * `romData[k]`: the loader's copy of the file is one entry longer than the
   * file, and that last entry stays 0. Indices past the copy are never read
   * (the bank loops stop there and leave 0 behind), so 0 stands for them too.
   */
  function Padded(data: seq<Byte>, k: int): Byte
  {
    if 0 <= k < |data| then data[k] else 0
  }

  /** The magic number "NES" followed by 0x1A opens every iNES file. */
  predicate IsINes(data: seq<Byte>)
  {
    |data| >= 4 && data[0] == 0x4E && data[1] == 0x45 && data[2] == 0x53 && data[3] == 0x1A
  }

  /**
   * The loader compares the padded copy, so a file shorter than four bytes is
   * compared against its trailing 0 and rejected rather than read past its end.
   */
  lemma MagicOnPaddedCopy(data: seq<Byte>)
    ensures IsINes(data) <==>
      Padded(data, 0) == 0x4E && Padded(data, 1) == 0x45 && Padded(data, 2) == 0x53 && Padded(data, 3) == 0x1A
  {
  }

  /** The decoded header fields. */
  datatype Header = Header(
    prgBanks: nat, chrBanks: nat, trainer: bool, mapperType: int, mirrorMode: int, fourScreen: bool)

  /** The upper nibble of byte 6 and the upper nibble of byte 7 form the mapper number. */
  function MapperType(b6: Byte, b7: Byte): (r: int)
    ensures 0 <= r < 0x100
    ensures r % 0x10 == b6 / 0x10 && r / 0x10 == b7 / 0x10
  {
    b6 / 0x10 + (b7 / 0x10) * 0x10
  }

  /** The header fields as `load` computes them; needs the bytes up to index 7 of the padded copy. */
  function DecodeHeader(data: seq<Byte>): (h: Header)
    requires |data| >= 7
    ensures h.chrBanks % 2 == 0 && h.prgBanks < 0x100 && h.chrBanks < 0x200
    ensures h.mirrorMode == (if data[6] % 2 == 1 then VerticalMirroring else HorizontalMirroring)
    ensures h.trainer <==> (data[6] / 4) % 2 == 1
    ensures h.fourScreen <==> (data[6] / 8) % 2 == 1
  {
    Header(data[4], 2 * (data[5] as int), (data[6] / 4) % 2 == 1, MapperType(data[6], Padded(data, 7)),
           if data[6] % 2 == 1 then 1 else 0, (data[6] / 8) % 2 == 1)
  }

  /** Bank `size` bytes long starting at `offset` of the file; what lies past the file is 0. */
  function Chunk(data: seq<Byte>, offset: int, size: nat): (r: seq<Byte>)
    ensures |r| == size
  {
    seq<Byte>(size, j requires 0 <= j < size => Padded(data, offset + j))
  }

  /** The PRG banks: bank i starts at byte 16 + i * 0x4000; a trainer is not skipped. */
  function PrgBanks(data: seq<Byte>, n: nat): (r: seq<seq<Byte>>)
    ensures |r| == n
  {
    seq(n, i requires 0 <= i < n => Chunk(data, HeaderSize + i * PrgBankSize, PrgBankSize))
  }

  /** The CHR banks: bank j starts right after the PRG banks, at 16 + nPRG * 0x4000 + j * 0x1000. */
  function ChrBanks(data: seq<Byte>, nPrg: nat, n: nat): (r: seq<seq<Byte>>)
    ensures |r| == n
  {
    seq(n, j requires 0 <= j < n => Chunk(data, HeaderSize + nPrg * PrgBankSize + j * ChrBankSize, ChrBankSize))
  }

  /** A decoded cartridge. */
  datatype Image = Image(header: Header, prg: seq<seq<Byte>>, chr: seq<seq<Byte>>)

  /**
   * What `load` ends with: not an iNES file (nothing set), a header cut short
   * (an index past the padded copy throws while the header is decoded), or a
   * decoded image.
   */
  datatype LoadResult = NotINes | Truncated | Loaded(image: Image)

  function Parse(data: seq<Byte>): (r: LoadResult)
    ensures r.NotINes? <==> !IsINes(data)
    ensures r.Truncated? <==> IsINes(data) && |data| < 7
    ensures r.Loaded? ==> |r.image.prg| == data[4] && |r.image.chr| == 2 * (data[5] as int)
  {
    if !IsINes(data) then NotINes
    else if |data| < 7 then Truncated
    else
      var h := DecodeHeader(data);
      Loaded(Image(h, PrgBanks(data, h.prgBanks), ChrBanks(data, h.prgBanks, h.chrBanks)))
  }

  /** All banks laid end to end. */
  function Flatten(banks: seq<seq<Byte>>): seq<Byte>
  {
    if banks == [] then [] else Flatten(banks[..|banks| - 1]) + banks[|banks| - 1]
  }

  /** Laid end to end, equal-length banks put byte r of bank q at q * size + r. */
  lemma {:induction false} FlattenIndex(banks: seq<seq<Byte>>, size: nat, q: nat, r: nat)
    requires forall i :: 0 <= i < |banks| ==> |banks[i]| == size
    requires q < |banks| && r < size
    ensures |Flatten(banks)| == |banks| * size
    ensures q * size + r < |Flatten(banks)| && Flatten(banks)[q * size + r] == banks[q][r]
  {
    var n := |banks|;
    FlattenLength(banks, size);
    FlattenLength(banks[..n - 1], size);
    if q < n - 1 {
      FlattenIndex(banks[..n - 1], size, q, r);
    }
  }

  lemma {:induction false} FlattenLength(banks: seq<seq<Byte>>, size: nat)
    requires forall i :: 0 <= i < |banks| ==> |banks[i]| == size
    ensures |Flatten(banks)| == |banks| * size
  {
    if banks != [] {
      FlattenLength(banks[..|banks| - 1], size);
    }
  }

  /**
   * The banks cut the file after the header into consecutive pieces: the PRG
   * banks laid end to end are the file bytes from 16 on, and the CHR banks
   * continue right where they end. Bytes the file does not have read as 0.
   */
  lemma BanksPartitionBody(data: seq<Byte>)
    requires Parse(data).Loaded?
    ensures var img := Parse(data).image;
      var nPrg := |img.prg| * PrgBankSize;
      && Flatten(img.prg) == Chunk(data, HeaderSize, nPrg)
      && Flatten(img.chr) == Chunk(data, HeaderSize + nPrg, |img.chr| * ChrBankSize)
  {
    var h := DecodeHeader(data);
    assert Parse(data).image.prg == PrgBanks(data, h.prgBanks);
    assert Parse(data).image.chr == ChrBanks(data, h.prgBanks, h.chrBanks);
    ChunksFlatten(PrgBanks(data, h.prgBanks), data, HeaderSize, PrgBankSize);
    ChunksFlatten(ChrBanks(data, h.prgBanks, h.chrBanks), data, HeaderSize + h.prgBanks * PrgBankSize, ChrBankSize);
  }

  /** Consecutive chunks of one size, laid end to end, are the one chunk that spans them all. */
  lemma ChunksFlatten(banks: seq<seq<Byte>>, data: seq<Byte>, offset: int, size: nat)
    requires size > 0
    requires forall i :: 0 <= i < |banks| ==> banks[i] == Chunk(data, offset + i * size, size)
    ensures Flatten(banks) == Chunk(data, offset, |banks| * size)
  {
    var whole := Chunk(data, offset, |banks| * size);
    FlattenLength(banks, size);
    forall k | 0 <= k < |banks| * size
      ensures Flatten(banks)[k] == whole[k]
    {
      FlattenChunkAt(banks, data, offset, size, k);
    }
  }

  /** Byte k of the chunks laid end to end is the file byte k past the first one's start. */
  lemma FlattenChunkAt(banks: seq<seq<Byte>>, data: seq<Byte>, offset: int, size: nat, k: int)
    requires size > 0
    requires forall i :: 0 <= i < |banks| ==> banks[i] == Chunk(data, offset + i * size, size)
    requires 0 <= k < |banks| * size
    ensures k < |Flatten(banks)| && Flatten(banks)[k] == Padded(data, offset + k)
  {
    var q, r := k / size, k % size;
    DivideIntoBanks(k, size, |banks|);
    FlattenIndex(banks, size, q, r);
    assert banks[q][r] == Padded(data, offset + q * size + r);
  }

  /** Offset k of n banks of `size` bytes is byte k % size of bank k / size. */
  lemma DivideIntoBanks(k: int, size: int, n: int)
    requires size > 0 && 0 <= k < n * size
    ensures k == (k / size) * size + k % size && 0 <= k % size < size && 0 <= k / size < n
  {
    var q := k / size;
    assert q * size <= k < n * size;
    assert (n - q) * size == n * size - q * size;
  }

  /** `read(bank, address)`: the stored byte, or -1 where an index is out of range. */
  function BankRead(banks: seq<seq<Byte>>, bank: int, address: int): (r: int)
    requires forall i :: 0 <= i < |banks| ==> |banks[i]| == PrgBankSize
    ensures r == -1 <==> !(0 <= bank < |banks| && 0 <= address < PrgBankSize)
    ensures r != -1 ==> r == banks[bank][address]
  {
    if 0 <= bank < |banks| && 0 <= address < PrgBankSize then banks[bank][address] else -1
  }

  /** Reading a loaded PRG bank gives the file byte at 16 + bank * 0x4000 + address. */
  lemma ReadIsFileByte(data: seq<Byte>, bank: int, address: int)
    requires Parse(data).Loaded?
    requires 0 <= bank < |Parse(data).image.prg| && 0 <= address < PrgBankSize
    ensures BankRead(Parse(data).image.prg, bank, address) == Padded(data, HeaderSize + bank * PrgBankSize + address)
  {
    var banks := PrgBanks(data, DecodeHeader(data).prgBanks);
    assert Parse(data).image.prg == banks;
    assert banks[bank] == Chunk(data, HeaderSize + bank * PrgBankSize, PrgBankSize);
  }

  /** The mapper implementations `load` chooses between. */
  datatype MapperKind = UniRom | CnRom | AoRom | GnRom | Nes

  /** Mapper selection: 2, 3, 7 and 66 have their own mappers; everything else gets the plain one. */
  function SelectMapper(mapperType: int): (k: MapperKind)
    ensures k.Nes? <==> mapperType !in {2, 3, 7, 66}
    ensures k.UniRom? <==> mapperType == 2
    ensures k.AoRom? <==> mapperType == 7
    ensures k.GnRom? <==> mapperType == 66
  {
    match mapperType
    case 2 => UniRom
    case 3 => CnRom
    case 7 => AoRom
    case 66 => GnRom
    case _ => Nes
  }

  /** The names set in the constructor; every other entry of the 92-entry table is "Unknown Mapper". */
  const KnownNames: map<int, string> := map[
    0 := "Mapper 0", 1 := "Nintendo MMC1", 2 := "UNROM", 3 := "CNROM", 4 := "Nintendo MMC3",
    5 := "Nintendo MMC5", 6 := "FFE F4xxx", 7 := "AOROM", 8 := "FFE F3xxx", 9 := "Nintendo MMC2",
    10 := "Nintendo MMC4", 11 := "ColorDreams Chip", 12 := "FFE F6xxx", 15 := "100-in-1 switch",
    16 := "Bandai chip", 17 := "FFE F8xxx", 18 := "Jaleco SS8806 chip", 19 := "Namcot 106 chip",
    20 := "Nintendo DiskSystem", 21 := "Konami VRC4a", 22 := "Konami VRC2a", 23 := "Konami VRC2a",
    24 := "Konami VRC6", 25 := "Konami VRC4b", 32 := "Irem G-101 chip", 33 := "Taito TC0190/TC0350",
    34 := "32kB ROM switch", 64 := "Tengen RAMBO-1 chip", 65 := "Irem H-3001 chip",
    66 := "GNROM switch", 67 := "SunSoft3 chip", 68 := "SunSoft4 chip", 69 := "SunSoft5 FME-7 chip",
    71 := "Camerica chip", 78 := "Irem 74HC161/32-based", 91 := "Pirate HK-SF3 chip"]

  const Unknown := "Unknown Mapper"

  /** The length of the name table. */
  const NameCount := 92

  /** Entry `t` of the name table, for an index the table has. */
  function NameEntry(t: int): string
    requires 0 <= t < NameCount
  {
    if t in KnownNames then KnownNames[t] else Unknown
  }

  /**
   * `getMapperName` as written: the guard `mapperType > mapperNames.length`
   * lets 92 through to an index one past the table, which throws (`None`).
   */
  function MapperNameAsWritten(t: int): Option<string>
  {
    if t > NameCount || t < 0 then Some(Unknown)
    else if t < NameCount then Some(NameEntry(t))
    else None
  }

  /** The discrepancy: mapper 92, which bytes 6 = 0xC0 and 7 = 0x50 of a header select, throws. */
  lemma MapperNinetyTwoThrows()
    ensures MapperType(0xC0, 0x50) == 92
    ensures MapperNameAsWritten(92).None?
  {
  }

  /** `getMapperName` with the guard `>=`, as the table's length calls for. */
  function MapperName(t: int): string
  {
    if t >= NameCount || t < 0 then Unknown else NameEntry(t)
  }

  /**
   * The corrected name agrees with the written one wherever that one returns,
   * is "Unknown Mapper" for every number outside the table, and is defined for
   * every mapper number a header can produce.
   */
  lemma MapperNameCorrected(t: int)
    ensures MapperNameAsWritten(t).Some? ==> MapperName(t) == MapperNameAsWritten(t).value
    ensures MapperNameAsWritten(t).None? <==> t == NameCount
    ensures !(0 <= t < NameCount) ==> MapperName(t) == Unknown
    ensures t in KnownNames ==> MapperName(t) == KnownNames[t]
  {
  }

  /** The loader's fields; `rom`/`vrom` are `None` until an iNES image has been decoded. */
  class Rom {
    var numPRGBanks: nat
    var numCHRBanks: nat
    var mapperType: int
    var mirrorMode: int
    var fourscreenMode: bool
    var trainer: bool
    var rom: Option<seq<seq<Byte>>>
    var vrom: Option<seq<seq<Byte>>>
    var memoryMapper: Option<MapperKind>

    /** A loader with nothing decoded yet. */
    constructor ()
      ensures numPRGBanks == 0 && numCHRBanks == 0 && mapperType == 0 && mirrorMode == 0
      ensures !fourscreenMode && !trainer && rom.None? && vrom.None? && memoryMapper.None?
    {
      numPRGBanks := 0;
      numCHRBanks := 0;
      mapperType := 0;
      mirrorMode := 0;
      fourscreenMode := false;
      trainer := false;
      rom := None;
      vrom := None;
      memoryMapper := None;
    }

    /**
     * The bank loop of `load`: `size` entries from `offset` of the padded copy,
     * stopping at its end and leaving the rest of the bank 0.
     */
    static method ReadBank(data: seq<Byte>, offset: nat, size: nat) returns (bank: seq<Byte>)
      ensures bank == Chunk(data, offset, size)
    {
      var b := new Byte[size](_ => 0);
      var j := 0;
      while j < size
        invariant 0 <= j <= size
        invariant forall k :: 0 <= k < j ==> b[k] == Padded(data, offset + k)
        invariant forall k :: j <= k < size ==> b[k] == 0
      {
        if offset + j >= |data| + 1 {
          break;
        }
        b[j] := Padded(data, offset + j);
        j := j + 1;
      }
      assert forall k :: 0 <= k < size ==> b[k] == Padded(data, offset + k);
      bank := b[..];
    }

    /** The two bank loops of `load`: PRG banks from byte 16 on, then CHR banks. */
    static method CutBanks(data: seq<Byte>, nPrg: nat, nChr: nat) returns (prg: seq<seq<Byte>>, chr: seq<seq<Byte>>)
      ensures prg == PrgBanks(data, nPrg) && chr == ChrBanks(data, nPrg, nChr)
    {
      var offset := HeaderSize;
      prg := [];
      var i := 0;
      while i < nPrg
        invariant 0 <= i <= nPrg
        invariant offset == HeaderSize + i * PrgBankSize
        invariant prg == PrgBanks(data, i)
      {
        var bank := ReadBank(data, offset, PrgBankSize);
        prg := prg + [bank];
        offset := offset + PrgBankSize;
        i := i + 1;
      }
      chr := [];
      i := 0;
      while i < nChr
        invariant 0 <= i <= nChr
        invariant offset == HeaderSize + nPrg * PrgBankSize + i * ChrBankSize
        invariant chr == ChrBanks(data, nPrg, i)
      {
        var bank := ReadBank(data, offset, ChrBankSize);
        chr := chr + [bank];
        offset := offset + ChrBankSize;
        i := i + 1;
      }
    }

    /** The header fields hold the decoded header `h`. */
    ghost predicate HasHeader(h: Header)
      reads this
    {
      && numPRGBanks == h.prgBanks && numCHRBanks == h.chrBanks && trainer == h.trainer
      && mapperType == h.mapperType && mirrorMode == h.mirrorMode && fourscreenMode == h.fourScreen
    }

    /**
     * The header part of `load`, for a file with the magic number: each field
     * is set in turn, and reading past the padded copy throws (`complete` is
     * false) with the fields before it already set.
     */
    method ReadHeader(data: seq<Byte>) returns (complete: bool)
      requires IsINes(data)
      modifies this`numPRGBanks, this`numCHRBanks, this`trainer, this`mapperType, this`mirrorMode, this`fourscreenMode
      ensures complete <==> |data| >= 7
      ensures complete ==> HasHeader(DecodeHeader(data))
      ensures numPRGBanks == Padded(data, 4)
      ensures |data| >= 5 ==> numCHRBanks == 2 * Padded(data, 5)
      ensures |data| < 5 ==> numCHRBanks == old(numCHRBanks)
      ensures |data| >= 6 ==> (trainer <==> (Padded(data, 6) / 4) % 2 == 1)
      ensures |data| < 6 ==> trainer == old(trainer)
      ensures !complete ==> mapperType == old(mapperType) && mirrorMode == old(mirrorMode) && fourscreenMode == old(fourscreenMode)
    {
      numPRGBanks := Padded(data, 4);
      if |data| < 5 {
        return false;
      }
      numCHRBanks := 2 * Padded(data, 5);
      if |data| < 6 {
        return false;
      }
      trainer := (Padded(data, 6) / 4) % 2 == 1;
      if |data| < 7 {
        return false;
      }
      mapperType := MapperType(data[6], Padded(data, 7));
      mirrorMode := if data[6] % 2 == 1 then VerticalMirroring else HorizontalMirroring;
      fourscreenMode := (data[6] / 8) % 2 == 1;
      return true;
    }

    /**
     * `load`, given the file's bytes: checks the magic number, decodes the
     * header, cuts out the banks and picks the mapper. A file that is not
     * iNES changes nothing; a header cut short leaves the fields it reached
     * set (see `ReadHeader`) and no banks.
     */
    method Load(data: seq<Byte>) returns (result: LoadResult)
      modifies this
      ensures result == Parse(data)
      ensures !IsINes(data) ==> unchanged(this)
      ensures result.Truncated? ==> rom == old(rom) && vrom == old(vrom) && memoryMapper == old(memoryMapper)
      // a header cut short: the fields up to the failing index are set, the rest kept
      ensures result.Truncated? ==>
        && numPRGBanks == Padded(data, 4)
        && numCHRBanks == (if |data| >= 5 then 2 * Padded(data, 5) else old(numCHRBanks))
        && (trainer <==> if |data| >= 6 then (Padded(data, 6) / 4) % 2 == 1 else old(trainer))
        && mapperType == old(mapperType) && mirrorMode == old(mirrorMode) && fourscreenMode == old(fourscreenMode)
      ensures result.Loaded? ==>
        && HasHeader(result.image.header)
        && rom == Some(result.image.prg) && vrom == Some(result.image.chr)
        && memoryMapper == Some(SelectMapper(mapperType))
    {
      if !IsINes(data) {
        return NotINes;
      }
      var complete := ReadHeader(data);
      if !complete {
        return Truncated;
      }
      var prg, chr := CutBanks(data, numPRGBanks, numCHRBanks);
      rom := Some(prg);
      vrom := Some(chr);
      memoryMapper := Some(SelectMapper(mapperType));
      result := Loaded(Image(DecodeHeader(data), prg, chr));
    }
  }
}
