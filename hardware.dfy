// The devices that sit directly on a bus and implement the component
// interface themselves: RAM, ROM and the PPU register window.
module Hardware {
  import opened Common
  import Ram
  import Rom
  import PpuRegisters

  datatype Device =
    | RamDevice(ram: Ram.Ram)
    | RomDevice(rom: Rom.Rom)
    | PpuDevice(regs: PpuRegisters.Registers)

  predicate Valid(d: Device) {
    d.RamDevice? ==> Ram.Valid(d.ram)
  }

  function StartAddr(d: Device): u16 {
    match d
    case RamDevice(r) => r.startAddr
    case RomDevice(r) => r.startAddr
    case PpuDevice(r) => r.startAddr
  }

  function EndAddr(d: Device): u16 {
    match d
    case RamDevice(r) => r.endAddr
    case RomDevice(r) => r.endAddr
    case PpuDevice(r) => r.endAddr
  }

  /** True when two device states differ at most in their contents. */
  predicate SameKind(d: Device, d': Device) {
    && StartAddr(d) == StartAddr(d') && EndAddr(d) == EndAddr(d')
    && (d.RamDevice? <==> d'.RamDevice?)
    && (d.RomDevice? <==> d'.RomDevice?)
    && (d.RamDevice? ==> d'.ram.size == d.ram.size)
  }

  /**
   * The component interface's Read on a device. Only the PPU changes state
   * when read; a RAM or ROM comes back unchanged.
   */
  function Read(d: Device, addr: u16, p: Ptr): (res: Loaded<Device>)
    requires Valid(d)
    ensures Valid(res.state) && SameKind(d, res.state)
    ensures !d.PpuDevice? ==> res.state == d
    ensures p.Cell? ==> res.out.Cell?
    ensures d.RamDevice? ==> var l := Ram.Read(d.ram, addr, p); res == Loaded(l.err, l.out, RamDevice(l.state))
    ensures d.RomDevice? ==> var l := Rom.Read(d.rom, addr, p); res == Loaded(l.err, l.out, RomDevice(l.state))
    ensures d.PpuDevice? ==>
      var l := PpuRegisters.Read(d.regs, addr, p); res == Loaded(l.err, l.out, PpuDevice(l.state))
  {
    match d
    case RamDevice(r) => var l := Ram.Read(r, addr, p); Loaded(l.err, l.out, RamDevice(l.state))
    case RomDevice(r) => var l := Rom.Read(r, addr, p); Loaded(l.err, l.out, RomDevice(l.state))
    case PpuDevice(r) => var l := PpuRegisters.Read(r, addr, p); Loaded(l.err, l.out, PpuDevice(l.state))
  }

  /** The component interface's Write on a device. Only RAM changes state. */
  function Write(d: Device, addr: u16, v: u8): (res: Stored<Device>)
    requires Valid(d)
    ensures Valid(res.state) && SameKind(d, res.state)
    ensures !d.RamDevice? ==> res.state == d
    ensures d.RamDevice? ==> var s := Ram.Write(d.ram, addr, v); res == Stored(s.err, RamDevice(s.state))
    ensures d.RomDevice? ==> var s := Rom.Write(d.rom, addr, v); res == Stored(s.err, RomDevice(s.state))
    ensures d.PpuDevice? ==> var s := PpuRegisters.Write(d.regs, addr, v); res == Stored(s.err, PpuDevice(s.state))
  {
    match d
    case RamDevice(r) => var s := Ram.Write(r, addr, v); Stored(s.err, RamDevice(s.state))
    case RomDevice(r) => var s := Rom.Write(r, addr, v); Stored(s.err, RomDevice(s.state))
    case PpuDevice(r) => var s := PpuRegisters.Write(r, addr, v); Stored(s.err, PpuDevice(s.state))
  }
  /**
   * A device no access with a destination can make panic: a RAM with at
   * least one cell, and a ROM whose data covers its whole window.
   */
  predicate Sound(d: Device) {
    match d
    case RamDevice(r) => r.size > 0
    case RomDevice(r) => r.endAddr as int - r.startAddr as int < |r.memory|
    case PpuDevice(_) => true
  }

  /** A sound device's read into a destination never panics. */
  lemma ReadNeverPanics(d: Device, addr: u16, p: Ptr)
    requires Valid(d) && Sound(d) && p.Cell?
    ensures Read(d, addr, p).err != Some(RuntimePanic)
  {
  }

  /** A sound device's write never panics. */
  lemma WriteNeverPanics(d: Device, addr: u16, v: u8)
    requires Valid(d) && Sound(d)
    ensures Write(d, addr, v).err != Some(RuntimePanic)
  {
  }
}
