// The PPU as the CPU bus sees it: the register window 0x2000-0x2007, where
// reading the status register acknowledges the vertical-blank flag.
module PpuRegisters {
  import opened Common

  const PpuCtl: u16 := 0x2000
  const PpuMask: u16 := 0x2001
  const PpuStatus: u16 := 0x2002

  /** Status bit set while the PPU is in vertical blank. */
  const StatusInVBlank: bv8 := 0x80

  /** The bus-visible part of the PPU: its window and its three registers. */
  datatype Registers = Registers(startAddr: u16, endAddr: u16, ctl: bv8, mask: bv8, status: bv8)

  /** The registers of a freshly created PPU. */
  function Initial(): (r: Registers)
    ensures r.startAddr == 0x2000 && r.endAddr == 0x2007
    ensures r.ctl == 0 && r.mask == 0 && r.status == 0
  {
    Registers(0x2000, 0x2007, 0, 0, 0)
  }

  /** `ClearStatusBits`: clears exactly the given bits of the status register. */
  function ClearStatusBits(r: Registers, bits: bv8): (r': Registers)
    ensures r'.status & bits == 0
    ensures r'.status & !bits == r.status & !bits
    ensures r' == r.(status := r'.status)
  {
    r.(status := r.status & !bits)
  }

  /** `SetStatusBits`: sets exactly the given bits of the status register. */
  function SetStatusBits(r: Registers, bits: bv8): (r': Registers)
    ensures r'.status & bits == bits
    ensures r'.status & !bits == r.status & !bits
    ensures r' == r.(status := r'.status)
  {
    r.(status := r.status | bits)
  }

  /**
   * `PPU.Read`. Only 0x2000-0x2002 dereference the destination, so a nil
   * destination there is a Go nil-pointer panic; every other address leaves
   * the destination as it was. The read always reports success otherwise.
   */
  function Read(r: Registers, addr: u16, p: Ptr): (res: Loaded<Registers>)
    ensures addr == PpuCtl && p.Cell? ==> res == Loaded(None, Cell(r.ctl as int), r)
    ensures addr == PpuMask && p.Cell? ==> res == Loaded(None, Cell(r.mask as int), r)
    ensures addr == PpuStatus && p.Cell? ==>
      res == Loaded(None, Cell(r.status as int), ClearStatusBits(r, StatusInVBlank))
    ensures addr in {PpuCtl, PpuMask, PpuStatus} && p.Nil? ==> res == Loaded(Some(RuntimePanic), p, r)
    ensures addr !in {PpuCtl, PpuMask, PpuStatus} ==> res == Loaded(None, p, r)
  {
    match addr
    case 0x2000 => if p.Nil? then Loaded(Some(RuntimePanic), p, r) else Loaded(None, Cell(r.ctl as int), r)
    case 0x2001 => if p.Nil? then Loaded(Some(RuntimePanic), p, r) else Loaded(None, Cell(r.mask as int), r)
    case 0x2002 =>
      if p.Nil? then Loaded(Some(RuntimePanic), p, r)
      else Loaded(None, Cell(r.status as int), ClearStatusBits(r, StatusInVBlank))
    case _ => Loaded(None, p, r)
  }

  /** `PPU.Write` is a no-op that reports success. */
  function Write(r: Registers, addr: u16, v: u8): (res: Stored<Registers>)
    ensures res == Stored(None, r)
  {
    Stored(None, r)
  }

  /**
   * Reading 0x2002 returns the status as it was and clears only the
   * vertical-blank bit, so a second read right after shows that bit clear.
   */
  lemma StatusReadAcknowledges(r: Registers, p: Ptr, q: Ptr)
    requires p.Cell? && q.Cell?
    ensures Read(r, PpuStatus, p).out == Cell(r.status as int)
    ensures Read(r, PpuStatus, p).state.status == r.status & !StatusInVBlank
    ensures Read(Read(r, PpuStatus, p).state, PpuStatus, q).out.value as bv8 & StatusInVBlank == 0
    ensures Read(Read(r, PpuStatus, p).state, PpuStatus, q).out.value as bv8 & !StatusInVBlank
         == r.status & !StatusInVBlank
  {
    var r1 := ClearStatusBits(r, StatusInVBlank);
    assert Read(r, PpuStatus, p).state == r1;
    assert Read(r1, PpuStatus, q).out == Cell(r1.status as int);
    IntByte(r1.status);
  }
}
