// The RAM component: a window [startAddr, endAddr] of the address space
// backed by `size` bytes; offsets into the window wrap modulo the size.
module Ram {
  import opened Common

  datatype Ram = Ram(startAddr: u16, endAddr: u16, size: u16, memory: seq<u8>)

  /** Every RAM value the program builds holds exactly `size` bytes. */
  predicate Valid(r: Ram) {
    |r.memory| == r.size
  }

  predicate InWindow(r: Ram, addr: u16) {
    r.startAddr <= addr <= r.endAddr
  }

  /** The cell an in-window address denotes: the offset modulo the size. */
  function Index(r: Ram, addr: u16): (i: nat)
    requires InWindow(r, addr) && r.size > 0
    ensures i < r.size
  {
    (addr - r.startAddr) % r.size
  }

  /** `ram.New`: a window over `size` zero bytes. */
  function New(start: u16, end: u16, size: u16): (r: Ram)
    ensures Valid(r)
    ensures r.startAddr == start && r.endAddr == end && r.size == size
    ensures forall i :: 0 <= i < |r.memory| ==> r.memory[i] == 0
  {
    Ram(start, end, size, seq(size, _ => 0))
  }

  /**
   * `Ram.Read`. A nil destination is checked before the window; the modulo
   * by a zero size is a run-time panic in Go.
   */
  function Read(r: Ram, addr: u16, p: Ptr): (res: Loaded<Ram>)
    requires Valid(r)
    ensures res.state == r
    ensures p.Nil? ==> res.err == Some(RamNullBuffer) && res.out == p
    ensures p.Cell? && !InWindow(r, addr) ==> res.err == Some(RamReadOutOfRange) && res.out == p
    ensures p.Cell? && InWindow(r, addr) && r.size == 0 ==> res.err == Some(RuntimePanic) && res.out == p
    ensures res.err.None? <==> p.Cell? && InWindow(r, addr) && r.size > 0
    ensures res.err.None? ==> res.out == Cell(r.memory[Index(r, addr)])
  {
    if p.Nil? then Loaded(Some(RamNullBuffer), p, r)
    else if addr > r.endAddr || addr < r.startAddr then Loaded(Some(RamReadOutOfRange), p, r)
    else if r.size == 0 then Loaded(Some(RuntimePanic), p, r)
    else Loaded(None, Cell(r.memory[(addr - r.startAddr) % r.size]), r)
  }

  /** `Ram.Write`: stores one cell in place; no other cell changes. */
  function Write(r: Ram, addr: u16, v: u8): (res: Stored<Ram>)
    requires Valid(r)
    ensures Valid(res.state)
    ensures res.state.startAddr == r.startAddr && res.state.endAddr == r.endAddr
    ensures res.state.size == r.size
    ensures !InWindow(r, addr) ==> res.err == Some(RamWriteOutOfRange) && res.state == r
    ensures InWindow(r, addr) && r.size == 0 ==> res.err == Some(RuntimePanic) && res.state == r
    ensures res.err.None? <==> InWindow(r, addr) && r.size > 0
    ensures res.err.None? ==> res.state.memory[Index(r, addr)] == v
    ensures res.err.None? ==>
      forall i :: 0 <= i < |r.memory| && i != Index(r, addr) ==> res.state.memory[i] == r.memory[i]
  {
    if addr > r.endAddr || addr < r.startAddr then Stored(Some(RamWriteOutOfRange), r)
    else if r.size == 0 then Stored(Some(RuntimePanic), r)
    else Stored(None, r.(memory := r.memory[(addr - r.startAddr) % r.size := v]))
  }

  /** A read after a write at the same in-window address returns the value. */
  lemma ReadAfterWrite(r: Ram, addr: u16, v: u8, p: Ptr)
    requires Valid(r) && p.Cell? && InWindow(r, addr) && r.size > 0
    ensures Read(Write(r, addr, v).state, addr, p) == Loaded(None, Cell(v), Write(r, addr, v).state)
  {
  }

  /** A write leaves the cells every other in-window address denotes alone. */
  lemma WriteKeepsOtherCells(r: Ram, addr: u16, other: u16, v: u8, p: Ptr)
    requires Valid(r) && p.Cell? && InWindow(r, addr) && InWindow(r, other) && r.size > 0
    requires Index(r, addr) != Index(r, other)
    ensures Read(Write(r, addr, v).state, other, p).out == Read(r, other, p).out
  {
  }

  /** Two in-window addresses with congruent offsets alias the same cell. */
  lemma Aliasing(r: Ram, a: u16, b: u16, v: u8, p: Ptr)
    requires Valid(r) && p.Cell? && InWindow(r, a) && InWindow(r, b) && r.size > 0
    requires (a - r.startAddr) % r.size == (b - r.startAddr) % r.size
    ensures Read(r, a, p) == Read(r, b, p)
    ensures Read(Write(r, a, v).state, b, p).out == Cell(v)
  {
  }

  /** In the console's RAM window [0, 0x800] of 2048 bytes, 0x800 aliases 0. */
  lemma ConsoleRamAliasing(v: u8)
    ensures Read(Write(New(0, 0x800, 2048), 0x800, v).state, 0, Cell(0)).out == Cell(v)
  {
    Aliasing(New(0, 0x800, 2048), 0x800, 0, v, Cell(0));
  }
}
