// Loading an iNES cartridge image: the 16-byte header, the signature check,
// the mapper number, where the PRG and CHR payloads start in the file, and
// the components mapper 0 registers on the CPU and PPU buses. The file is
// given as its bytes.
module Cartridge {
  import opened Common
  import Rom
  import Mirror
  import Hardware
  import Bus

  /** Size of one PRG ROM bank and of one CHR ROM bank. */
  const PrgBank: nat := 16384
  const ChrBank: nat := 8192

  /** Bytes before the payload: the header, and the trainer when present. */
  const HeaderSize: nat := 16
  const TrainerSize: nat := 512

  /** Where PRG ROM starts on the CPU bus. */
  const PrgBase: nat := 0x8000

  /** The header fields the loader uses. */
  datatype Header = Header(sig: seq<u8>, prgSize: nat, chrSize: nat, flags6: bv8, flags7: bv8)

  /** The components the loader adds to the CPU bus and to the PPU bus, in order. */
  datatype Layout = Layout(cpu: seq<Bus.Component>, ppu: seq<Bus.Component>)

  /**
   * `newNesHeader`: the signature, the PRG size in 16 KiB banks (a count of
   * 0 meaning one bank), the CHR size in 8 KiB banks, and flags 6 and 7.
   */
  function NewHeader(data: seq<u8>): (h: Header)
    requires |data| >= 8
  {
    var prg := data[4] * PrgBank;
    Header(data[..4], if prg == 0 then PrgBank else prg, data[5] * ChrBank, data[6] as bv8, data[7] as bv8)
  }

  /** The PRG size is 1 to 255 whole banks, byte 4 of them unless byte 4 is 0; CHR is byte 5 banks. */
  lemma HeaderSizes(data: seq<u8>)
    requires |data| >= 8
    ensures var h := NewHeader(data);
      && h.prgSize % PrgBank == 0 && PrgBank <= h.prgSize <= 255 * PrgBank
      && h.prgSize / PrgBank == (if data[4] == 0 then 1 else data[4])
      && h.chrSize == data[5] * ChrBank && h.chrSize <= 255 * ChrBank
      && h.sig == data[..4] && h.flags6 == data[6] as bv8 && h.flags7 == data[7] as bv8
  {
  }

  /** The first three header bytes spell "NES". */
  predicate SignatureOk(buf: seq<u8>)
    requires |buf| >= 3
  {
    buf[0] == 'N' as int && buf[1] == 'E' as int && buf[2] == 'S' as int
  }

  /**
   * The mapper number `(flags7 & 0xF0) | ((flags6 & 0xF0) >> 4)`: its high
   * nibble is the high nibble of flags 7, its low nibble that of flags 6.
   */
  function MapperNumber(h: Header): (n: bv8)
    ensures n >> 4 == h.flags7 >> 4 && n & 0xF == h.flags6 >> 4
  {
    (h.flags7 & 0xF0) | ((h.flags6 & 0xF0) >> 4)
  }

  /** The file offset of PRG ROM: after the header, and after the trainer when the low two bits of flags 6 are both set. */
  function PrgOffset(h: Header): (off: nat)
    ensures off == HeaderSize || off == HeaderSize + TrainerSize
    ensures off == HeaderSize + TrainerSize <==> h.flags6 & 3 == 3
  {
    if h.flags6 & 3 == 3 then HeaderSize + TrainerSize else HeaderSize
  }

  /** `f.Read(buffer)` into 16 zero bytes: empty file is an error, otherwise up to 16 bytes arrive. */
  function ReadHeader(file: seq<u8>): (r: Result<seq<u8>>)
    ensures r.Err? <==> |file| == 0
    ensures r.Ok? ==> |r.value| == HeaderSize
    ensures r.Ok? ==> forall i :: 0 <= i < HeaderSize ==>
      r.value[i] == if i < |file| then file[i] else 0
  {
    if |file| == 0 then Err(HeaderReadFailed)
    else if |file| >= HeaderSize then Ok(file[..HeaderSize])
    else Ok(file + seq(HeaderSize - |file|, _ => 0))
  }

  /** `f.ReadAt(buf, off)` of `n` bytes: it fails when the file ends before `off + n`. */
  function ReadAt(file: seq<u8>, off: nat, n: nat, e: Error): (r: Result<seq<u8>>)
    ensures r.Err? <==> n > 0 && off + n > |file|
    ensures r.Err? ==> r.error == e
    ensures r.Ok? ==> |r.value| == n && forall i :: 0 <= i < n ==> r.value[i] == file[off + i]
  {
    if n == 0 then Ok([])
    else if off + n > |file| then Err(e)
    else Ok(file[off..off + n])
  }

  /** The PRG ROM of mapper 0: [0x8000, uint16(0x8000 + size) - 1] over the PRG payload. */
  function PrgRom(h: Header, prg: seq<u8>): (r: Rom.Rom)
    requires h.prgSize < 0x1_0000_0000
    ensures r.startAddr == PrgBase && r.size == h.prgSize && r.memory == prg
    ensures 0 < h.prgSize <= 0x8000 ==> r.endAddr == PrgBase + h.prgSize - 1
  {
    Rom.New(PrgBase, Wrap16(Wrap16(PrgBase + h.prgSize) - 1), h.prgSize, prg)
  }

  /** The CHR ROM of mapper 0: [0, uint16(size) - 1] over the CHR payload. */
  function ChrRom(h: Header, chr: seq<u8>): (r: Rom.Rom)
    requires h.chrSize < 0x1_0000_0000
    ensures r.startAddr == 0 && r.size == h.chrSize && r.memory == chr
    ensures 0 < h.chrSize <= 0x10000 ==> r.endAddr == h.chrSize - 1
    ensures h.chrSize == 0 ==> r.endAddr == 0xffff
  {
    Rom.New(0, Wrap16(Wrap16(h.chrSize) - 1), h.chrSize, chr)
  }

  /** A PRG ROM of one or two full banks is sound: its data covers its window. */
  lemma PrgRomSound(h: Header, prg: seq<u8>)
    requires (h.prgSize == PrgBank || h.prgSize == 2 * PrgBank) && |prg| == h.prgSize
    ensures Hardware.Sound(Hardware.RomDevice(PrgRom(h, prg)))
  {
  }

  /**
   * A cartridge without CHR data gets the window [0, 0xffff] over no bytes,
   * so every read of it panics: soundness is not part of `Bus.Valid`.
   */
  lemma EmptyChrPanics(h: Header, addr: u16)
    requires h.chrSize == 0
    ensures !Hardware.Sound(Hardware.RomDevice(ChrRom(h, [])))
    ensures Rom.Read(ChrRom(h, []), addr, Cell(0)).err == Some(RuntimePanic)
  {
  }

  /**
   * The mapper-0 layout. A 16 KiB PRG ROM gets a mirror registered before
   * it, over [uint16(0x8000 + size), uint16(0x8000 + 2 * size)], backed by
   * the ROM, which comes next on a bus that already holds `cpuCount`
   * components.
   */
  function Mapper0(h: Header, prg: seq<u8>, chr: seq<u8>, cpuCount: nat): (l: Layout)
    requires h.prgSize < 0x1_0000_0000 && h.chrSize < 0x1_0000_0000
    ensures l.ppu == [Bus.Device(Hardware.RomDevice(ChrRom(h, chr)))]
    ensures |l.cpu| == if h.prgSize == 0x4000 then 2 else 1
    ensures l.cpu[|l.cpu| - 1] == Bus.Device(Hardware.RomDevice(PrgRom(h, prg)))
    ensures h.prgSize == 0x4000 ==>
      && l.cpu[0].Mirrored? && l.cpu[0].mirror.backing == cpuCount + 1
      && l.cpu[0].mirror.start == 0xc000 && l.cpu[0].mirror.end == 0
  {
    var prgRom := Bus.Device(Hardware.RomDevice(PrgRom(h, prg)));
    var chrRom := Bus.Device(Hardware.RomDevice(ChrRom(h, chr)));
    if h.prgSize == 0x4000 then
      var m := Mirror.Mirror(Wrap16(PrgBase + h.prgSize), Wrap16(PrgBase + 2 * h.prgSize), cpuCount + 1);
      Layout([Bus.Mirrored(m), prgRom], [chrRom])
    else
      Layout([prgRom], [chrRom])
  }

  /**
   * The pure part of `LoadCardridge` on the file's bytes: read the header,
   * check the signature, read PRG then CHR, and only then reject every
   * mapper but 0.
   */
  function Load(file: seq<u8>, cpuCount: nat): (r: Result<Layout>)
    ensures |file| == 0 ==> r == Err(HeaderReadFailed)
    ensures r.Err? ==> r.error in {HeaderReadFailed, InvalidSignature, PrgReadFailed, ChrReadFailed, UnsupportedMapper}
    ensures r.Ok? ==> |file| >= HeaderSize + PrgBank && SignatureOk(file)
    ensures r.Ok? ==> |r.value.ppu| == 1 && 1 <= |r.value.cpu| <= 2
  {
    match ReadHeader(file)
    case Err(e) => Err(e)
    case Ok(buf) =>
      if !SignatureOk(buf) then Err(InvalidSignature)
      else
        var h := NewHeader(buf);
        HeaderSizes(buf);
        var off := PrgOffset(h);
        match ReadAt(file, off, h.prgSize, PrgReadFailed)
        case Err(e) => Err(e)
        case Ok(prg) =>
          match ReadAt(file, off + h.prgSize, h.chrSize, ChrReadFailed)
          case Err(e) => Err(e)
          case Ok(chr) =>
            if MapperNumber(h) != 0 then Err(UnsupportedMapper)
            else Ok(Mapper0(h, prg, chr, cpuCount))
  }

  /** A file whose first three bytes are not "NES" is rejected before anything is registered. */
  lemma BadSignatureRejected(file: seq<u8>, cpuCount: nat)
    requires |file| >= 3 && !SignatureOk(file)
    ensures Load(file, cpuCount) == Err(InvalidSignature)
  {
    assert ReadHeader(file).value[..3] == file[..3];
  }

  /** Any mapper other than 0 is refused, once both payloads could be read. */
  lemma OtherMapperRejected(file: seq<u8>, cpuCount: nat)
    requires Load(file, cpuCount) != Err(HeaderReadFailed)
    requires Load(file, cpuCount) != Err(InvalidSignature)
    requires Load(file, cpuCount) != Err(PrgReadFailed)
    requires Load(file, cpuCount) != Err(ChrReadFailed)
    ensures Load(file, cpuCount).Ok? <==> MapperNumber(NewHeader(ReadHeader(file).value)) == 0
  {
  }

  /**
   * A successful load reads PRG from offset 16 (528 with a trainer) and CHR
   * straight after it, and registers one PRG ROM on the CPU bus and one
   * CHR ROM on the PPU bus holding exactly those bytes.
   */
  lemma LoadedPayloads(file: seq<u8>, cpuCount: nat)
    requires Load(file, cpuCount).Ok?
    ensures var h := NewHeader(ReadHeader(file).value);
      var l := Load(file, cpuCount).value;
      var off := PrgOffset(h);
      && MapperNumber(h) == 0
      && off + h.prgSize + h.chrSize <= |file|
      && l.cpu[|l.cpu| - 1].Device? && l.cpu[|l.cpu| - 1].device.RomDevice?
      && l.cpu[|l.cpu| - 1].device.rom.memory == file[off..off + h.prgSize]
      && |l.ppu| == 1 && l.ppu[0].Device? && l.ppu[0].device.RomDevice?
      && l.ppu[0].device.rom.memory == file[off + h.prgSize..off + h.prgSize + h.chrSize]
  {
    var h := NewHeader(ReadHeader(file).value);
    HeaderSizes(ReadHeader(file).value);
  }

  /**
   * The mapper-0 windows: a 32 KiB PRG ROM covers 0x8000-0xFFFF; a 16 KiB
   * one covers 0x8000-0xBFFF and is preceded by a mirror from 0xC000 to
   * uint16(0x10000) = 0, backed by the ROM, whose window is empty.
   */
  lemma Mapper0Windows(h: Header, prg: seq<u8>, chr: seq<u8>, cpuCount: nat)
    requires PrgBank <= h.prgSize <= 255 * PrgBank && h.chrSize <= 255 * ChrBank
    ensures var l := Mapper0(h, prg, chr, cpuCount);
      var rom := l.cpu[|l.cpu| - 1];
      && rom == Bus.Device(Hardware.RomDevice(Rom.Rom(PrgBase, Wrap16(Wrap16(PrgBase + h.prgSize) - 1), h.prgSize, prg)))
      && (h.prgSize == 0x8000 ==> |l.cpu| == 1 && Bus.StartAddr(rom) == 0x8000 && Bus.EndAddr(rom) == 0xffff)
      && (h.prgSize == 0x4000 ==>
            && |l.cpu| == 2 && Bus.StartAddr(rom) == 0x8000 && Bus.EndAddr(rom) == 0xbfff
            && l.cpu[0] == Bus.Mirrored(Mirror.Mirror(0xc000, 0, cpuCount + 1)))
      && (h.prgSize != 0x4000 ==> |l.cpu| == 1)
      && l.ppu == [Bus.Device(Hardware.RomDevice(Rom.Rom(0, Wrap16(Wrap16(h.chrSize) - 1), h.chrSize, chr)))]
  {
  }

  /** The mirror of a 16 KiB layout never answers, wherever the bus puts it. */
  lemma SmallPrgMirrorUnused(h: Header, prg: seq<u8>, chr: seq<u8>, before: seq<Bus.Component>, addr: u16)
    requires PrgBank <= h.prgSize <= 255 * PrgBank && h.chrSize <= 255 * ChrBank && h.prgSize == 0x4000
    ensures var comps := before + Mapper0(h, prg, chr, |before|).cpu;
      && Bus.Wired(comps, comps[|before|].mirror)
      && Bus.Select(comps, addr) != Some(|before|)
  {
    var comps := before + Mapper0(h, prg, chr, |before|).cpu;
    Mapper0Windows(h, prg, chr, |before|);
    Bus.EmptyWindowNeverSelected(comps, |before|, addr);
  }

  /**
   * An image with one PRG bank, one CHR bank, mapper 0 and no trainer: a
   * dead mirror [0xC000, 0] onto the ROM, the PRG ROM over 0x8000-0xBFFF
   * holding file bytes 16 to 16399, and the CHR ROM over 0-0x1FFF holding
   * the next 8192 bytes.
   */
  lemma OneBankImage(file: seq<u8>, cpuCount: nat)
    requires |file| >= HeaderSize + PrgBank + ChrBank
    requires file[..8] == ['N' as int, 'E' as int, 'S' as int, 0x1a, 1, 1, 0, 0]
    ensures Load(file, cpuCount) == Ok(Layout(
      [ Bus.Mirrored(Mirror.Mirror(0xc000, 0, cpuCount + 1)),
        Bus.Device(Hardware.RomDevice(Rom.Rom(0x8000, 0xbfff, PrgBank, file[16..16 + PrgBank]))) ],
      [ Bus.Device(Hardware.RomDevice(Rom.Rom(0, 0x1fff, ChrBank, file[16 + PrgBank..16 + PrgBank + ChrBank]))) ]))
  {
    var buf := ReadHeader(file).value;
    assert buf[..8] == file[..8];
    var h := NewHeader(buf);
    assert h.prgSize == PrgBank && h.chrSize == ChrBank;
    assert h.flags6 == 0 && h.flags7 == 0;
  }

  /**
   * `LoadCardridge` on two buses: on success it appends the layout's
   * components to each bus (to the one bus, CPU part first, when both are
   * the same object); on failure neither bus changes.
   */
  method LoadCardridge(cpuBus: Bus.SystemBus, ppuBus: Bus.SystemBus, file: seq<u8>) returns (err: Option<Error>)
    modifies cpuBus, ppuBus
    ensures var r := Load(file, |old(cpuBus.components)|);
      && (r.Err? ==>
            err == Some(r.error)
            && cpuBus.components == old(cpuBus.components)
            && ppuBus.components == old(ppuBus.components))
      && (r.Ok? && cpuBus != ppuBus ==>
            err == None
            && cpuBus.components == old(cpuBus.components) + r.value.cpu
            && ppuBus.components == old(ppuBus.components) + r.value.ppu)
      && (r.Ok? && cpuBus == ppuBus ==>
            err == None
            && cpuBus.components == old(cpuBus.components) + r.value.cpu + r.value.ppu)
  {
    var header := ReadHeader(file);
    if header.Err? {
      return Some(header.error);
    }
    var buffer := header.value;
    if !SignatureOk(buffer) {
      return Some(InvalidSignature);
    }
    var h := NewHeader(buffer);
    HeaderSizes(buffer);
    var mapperNumber := MapperNumber(h);
    var readOff := PrgOffset(h);
    var prg := ReadAt(file, readOff, h.prgSize, PrgReadFailed);
    if prg.Err? {
      return Some(prg.error);
    }
    readOff := readOff + h.prgSize;
    var chr := ReadAt(file, readOff, h.chrSize, ChrReadFailed);
    if chr.Err? {
      return Some(chr.error);
    }
    if mapperNumber != 0 {
      return Some(UnsupportedMapper);
    }
    var prgRom := Rom.New(PrgBase, Wrap16(Wrap16(PrgBase + h.prgSize) - 1), h.prgSize, prg.value);
    var chrRom := Rom.New(0, Wrap16(Wrap16(h.chrSize) - 1), h.chrSize, chr.value);
    if h.prgSize == 0x4000 {
      var m := Mirror.Mirror(Wrap16(PrgBase + h.prgSize), Wrap16(PrgBase + 2 * h.prgSize), |cpuBus.components| + 1);
      cpuBus.AddComponent(Bus.Mirrored(m));
    }
    cpuBus.AddComponent(Bus.Device(Hardware.RomDevice(prgRom)));
    ppuBus.AddComponent(Bus.Device(Hardware.RomDevice(chrRom)));
    err := None;
  }
}
