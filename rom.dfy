// The ROM component: a read-only window [startAddr, endAddr] over a byte
// sequence, indexed by the offset into the window without any wrap-around.
module Rom {
  import opened Common

  datatype Rom = Rom(startAddr: u16, endAddr: u16, size: u32, memory: seq<u8>)

  predicate InWindow(r: Rom, addr: u16) {
    r.startAddr <= addr <= r.endAddr
  }

  /** `rom.New` keeps its arguments as they are. */
  function New(start: u16, end: u16, size: u32, data: seq<u8>): (r: Rom)
    ensures r.startAddr == start && r.endAddr == end
    ensures r.size == size && r.memory == data
  {
    Rom(start, end, size, data)
  }

  /**
   * `Rom.Read`. The offset indexes the data directly; an offset past the end
   * of the data is a Go index panic.
   */
  function Read(r: Rom, addr: u16, p: Ptr): (res: Loaded<Rom>)
    ensures res.state == r
    ensures p.Nil? ==> res.err == Some(RomNullBuffer) && res.out == p
    ensures p.Cell? && !InWindow(r, addr) ==> res.err == Some(RomReadOutOfRange) && res.out == p
    ensures p.Cell? && InWindow(r, addr) && addr - r.startAddr >= |r.memory| ==>
      res.err == Some(RuntimePanic) && res.out == p
    ensures res.err.None? <==> p.Cell? && InWindow(r, addr) && addr - r.startAddr < |r.memory|
    ensures res.err.None? ==> res.out == Cell(r.memory[addr - r.startAddr])
  {
    if p.Nil? then Loaded(Some(RomNullBuffer), p, r)
    else if addr > r.endAddr || addr < r.startAddr then Loaded(Some(RomReadOutOfRange), p, r)
    else if addr - r.startAddr >= |r.memory| then Loaded(Some(RuntimePanic), p, r)
    else Loaded(None, Cell(r.memory[addr - r.startAddr]), r)
  }

  /** `Rom.Write` always fails, whatever the address, and changes nothing. */
  function Write(r: Rom, addr: u16, v: u8): (res: Stored<Rom>)
    ensures res == Stored(Some(RomWrite), r)
  {
    Stored(Some(RomWrite), r)
  }

  /** A ROM whose data covers its window answers every in-window read. */
  lemma CoveredWindowReads(r: Rom, addr: u16, p: Ptr)
    requires p.Cell? && InWindow(r, addr) && |r.memory| > r.endAddr - r.startAddr
    ensures Read(r, addr, p) == Loaded(None, Cell(r.memory[addr - r.startAddr]), r)
  {
  }
}
