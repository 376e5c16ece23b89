// The CPU bus the console entry point wires up: 2 KiB of RAM over
// [0, 0x800], the PPU register window [0x2000, 0x2007], and 1023 eight-byte
// mirrors of that window covering 0x2008-0x3FFF, registered in that order.
module Console {
  import opened Common
  import Ram
  import Hardware
  import Mirror
  import Bus
  import PpuRegisters
  import Stack
  import CpuState

  /** Number of copies of the PPU register window above 0x2007. */
  const MirrorCount: nat := 1023

  /** Position of the RAM and of the PPU on the bus. */
  const RamSlot: nat := 0
  const PpuSlot: nat := 1

  /** Mirror `i`: [0x2008 + 8i, 0x200F + 8i] onto the PPU. */
  function PpuMirror(i: nat): (m: Mirror.Mirror)
    requires i < MirrorCount
    ensures m.end <= 0x3fff
  {
    Mirror.Mirror(0x2008 + 8 * i, 0x200f + 8 * i, PpuSlot)
  }

  /** The console's bus with the given RAM and PPU register states. */
  function Wiring(ram: Ram.Ram, ppu: PpuRegisters.Registers): (comps: seq<Bus.Component>)
    ensures |comps| == 2 + MirrorCount
    ensures comps[RamSlot] == Bus.Device(Hardware.RamDevice(ram))
    ensures comps[PpuSlot] == Bus.Device(Hardware.PpuDevice(ppu))
    ensures forall i :: 0 <= i < MirrorCount ==> comps[i + 2] == Bus.Mirrored(PpuMirror(i))
  {
    [Bus.Device(Hardware.RamDevice(ram)), Bus.Device(Hardware.PpuDevice(ppu))]
      + seq(MirrorCount, i requires 0 <= i < MirrorCount => Bus.Mirrored(PpuMirror(i)))
  }

  /** The bus as the entry point builds it. */
  function MainBus(): (comps: seq<Bus.Component>)
    ensures |comps| == 2 + MirrorCount
    ensures comps[RamSlot].Device? && comps[RamSlot].device.RamDevice?
    ensures var r := comps[RamSlot].device.ram;
      && r.startAddr == 0 && r.endAddr == 0x800 && r.size == 2048
      && forall i :: 0 <= i < |r.memory| ==> r.memory[i] == 0
    ensures comps[PpuSlot] == Bus.Device(Hardware.PpuDevice(PpuRegisters.Initial()))
    ensures forall i :: 0 <= i < MirrorCount ==> comps[i + 2] == Bus.Mirrored(PpuMirror(i))
  {
    Wiring(Ram.New(0, 0x800, 2048), PpuRegisters.Initial())
  }

  /**
   * A bus of the console's shape, whatever the RAM cells and PPU registers
   * currently hold.
   */
  predicate Shaped(comps: seq<Bus.Component>) {
    && |comps| == 2 + MirrorCount
    && comps[RamSlot].Device? && comps[RamSlot].device.RamDevice?
    && var r := comps[RamSlot].device.ram;
    && r.startAddr == 0 && r.endAddr == 0x800 && r.size == 2048 && Ram.Valid(r)
    && comps[PpuSlot].Device? && comps[PpuSlot].device.PpuDevice?
    && comps[PpuSlot].device.regs.startAddr == 0x2000 && comps[PpuSlot].device.regs.endAddr == 0x2007
    && forall i :: 0 <= i < MirrorCount ==> comps[i + 2] == Bus.Mirrored(PpuMirror(i))
  }

  /** The entry point's bus is well formed and has the console's shape. */
  lemma MainBusShaped()
    ensures Bus.Valid(MainBus()) && Shaped(MainBus())
  {
    var comps := MainBus();
    forall i | 0 <= i < MirrorCount
      ensures comps[i + 2] == Bus.Mirrored(PpuMirror(i))
    {
    }
  }

  /** Accesses keep the console's shape. */
  lemma ShapeKept(a: seq<Bus.Component>, b: seq<Bus.Component>)
    requires Shaped(a) && Bus.SameLayout(a, b) && Bus.Valid(b)
    ensures Shaped(b)
  {
    assert Bus.SameShape(a[RamSlot], b[RamSlot]) && Bus.SameShape(a[PpuSlot], b[PpuSlot]);
    forall i | 0 <= i < MirrorCount
      ensures b[i + 2] == Bus.Mirrored(PpuMirror(i))
    {
      assert Bus.SameShape(a[i + 2], b[i + 2]);
    }
  }

  /**
   * Every bus of the console's shape is sound, so no access the CPU makes on
   * it (including the ones whose error it ignores) can hit a Go panic.
   */
  lemma ShapedSound(comps: seq<Bus.Component>, addr: u16, p: Ptr, v: u8)
    requires Shaped(comps) && Bus.Valid(comps) && p.Cell?
    ensures Bus.Sound(comps)
    ensures Bus.Load(comps, addr, p).err != Some(RuntimePanic)
    ensures Bus.Store(comps, addr, v).err != Some(RuntimePanic)
  {
    forall j | 2 <= j < |comps|
      ensures comps[j].Mirrored?
    {
      assert comps[(j - 2) + 2] == Bus.Mirrored(PpuMirror(j - 2));
    }
    Bus.LoadNeverPanics(comps, addr, p);
    Bus.StoreNeverPanics(comps, addr, v);
  }

  /** The mirror that holds an address of 0x2008-0x3FFF, counted from 0. */
  function MirrorOf(addr: u16): (i: nat)
    requires 0x2008 <= addr <= 0x3fff
    ensures i < MirrorCount
    ensures PpuMirror(i).start <= addr <= PpuMirror(i).end
    ensures addr - PpuMirror(i).start == (addr - 0x2000) % 8
  {
    (addr - 0x2008) / 8
  }

  /**
   * Which component answers an address: the RAM up to 0x800, nothing from
   * 0x801 to 0x1FFF, the PPU for 0x2000-0x2007, mirror `MirrorOf` for
   * 0x2008-0x3FFF and nothing above.
   */
  lemma Owners(comps: seq<Bus.Component>, addr: u16)
    requires Shaped(comps)
    ensures addr <= 0x800 ==> Bus.Select(comps, addr) == Some(RamSlot)
    ensures 0x800 < addr < 0x2000 || 0x3fff < addr ==> Bus.Select(comps, addr).None?
    ensures 0x2000 <= addr <= 0x2007 ==> Bus.Select(comps, addr) == Some(PpuSlot)
    ensures 0x2008 <= addr <= 0x3fff ==> Bus.Select(comps, addr) == Some(MirrorOf(addr) + 2)
  {
    if 0x800 < addr < 0x2000 || 0x3fff < addr {
      forall j | 0 <= j < |comps|
        ensures !Bus.Contains(comps[j], addr)
      {
        if j >= 2 {
          assert comps[(j - 2) + 2] == Bus.Mirrored(PpuMirror(j - 2));
        }
      }
    } else if 0x2008 <= addr {
      var k := MirrorOf(addr) + 2;
      assert comps[(k - 2) + 2] == Bus.Mirrored(PpuMirror(k - 2));
      forall j | 0 <= j < k
        ensures !Bus.Contains(comps[j], addr)
      {
        if j >= 2 {
          assert comps[(j - 2) + 2] == Bus.Mirrored(PpuMirror(j - 2));
        }
      }
      Bus.FirstMatch(comps, addr, k);
    }
  }

  /** Stack accesses of the CPU go to the console's RAM, which holds page 1 apart. */
  lemma ConsoleStack(comps: seq<Bus.Component>)
    requires Shaped(comps)
    ensures Stack.StackRam(comps, RamSlot)
  {
    forall s: u8
      ensures Bus.Select(comps, CpuState.StackAddr(s)) == Some(RamSlot)
    {
      Owners(comps, CpuState.StackAddr(s));
    }
  }

  /**
   * Every address of 0x2000-0x3FFF reaches the PPU register its offset
   * modulo 8 names, and the access acts on the PPU's registers only.
   */
  lemma PpuWindowRepeats(comps: seq<Bus.Component>, addr: u16, p: Ptr)
    requires Bus.Valid(comps) && Shaped(comps) && 0x2000 <= addr <= 0x3fff
    ensures var regs := comps[PpuSlot].device.regs;
      var l := PpuRegisters.Read(regs, 0x2000 + (addr - 0x2000) % 8, p);
      Bus.Load(comps, addr, p) == Loaded(l.err, l.out, comps[PpuSlot := Bus.Device(Hardware.PpuDevice(l.state))])
  {
    Owners(comps, addr);
    if 0x2008 <= addr {
      var k := MirrorOf(addr) + 2;
      assert comps[(k - 2) + 2] == Bus.Mirrored(PpuMirror(k - 2));
    }
  }

  /** Reading 0x3FFA, the last copy of 0x2002, acknowledges vertical blank like 0x2002 itself. */
  lemma LastStatusCopy(comps: seq<Bus.Component>, b: u8)
    requires Bus.Valid(comps) && Shaped(comps)
    ensures var regs := comps[PpuSlot].device.regs;
      var l := Bus.Load(comps, 0x3ffa, Cell(b));
      && l.err == None && l.out == Cell(regs.status as int)
      && l.state[PpuSlot].device.regs == PpuRegisters.ClearStatusBits(regs, PpuRegisters.StatusInVBlank)
  {
    PpuWindowRepeats(comps, 0x3ffa, Cell(b));
  }

  /** A RAM address reads its cell, offset modulo 2048, and changes nothing. */
  lemma RamReads(comps: seq<Bus.Component>, addr: u16, b: u8)
    requires Bus.Valid(comps) && Shaped(comps) && addr <= 0x800
    ensures Bus.Load(comps, addr, Cell(b))
      == Loaded(None, Cell(comps[RamSlot].device.ram.memory[addr % 2048]), comps)
  {
    Owners(comps, addr);
    assert comps[RamSlot := comps[RamSlot]] == comps;
  }
}
