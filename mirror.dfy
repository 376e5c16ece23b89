// A mirror: a window [start, end] that forwards every access to a backing
// component, translated into the backing's own window. It owns no state;
// `backing` is the position of the backing component on its bus.
module Mirror {
  import opened Common
  import Ram
  import Hardware

  datatype Mirror = Mirror(start: u16, end: u16, backing: nat)

  predicate InWindow(m: Mirror, addr: u16) {
    m.start <= addr <= m.end
  }

  /** The backing address of an in-window address, in 16-bit arithmetic. */
  function Translate(m: Mirror, d: Hardware.Device, addr: u16): (t: u16)
    requires InWindow(m, addr)
    ensures Hardware.StartAddr(d) + (addr - m.start) < 0x10000 ==>
      t - Hardware.StartAddr(d) == addr - m.start
    ensures Hardware.StartAddr(d) + (addr - m.start) >= 0x10000 ==>
      t == Hardware.StartAddr(d) + (addr - m.start) - 0x10000
  {
    Wrap16(Hardware.StartAddr(d) + (addr - m.start))
  }

  /** True when an in-window address translates into the backing's window. */
  predicate InReach(m: Mirror, d: Hardware.Device, addr: u16) {
    InWindow(m, addr) && Translate(m, d, addr) <= Hardware.EndAddr(d)
  }

  /** `Mirror.Read`: window check, translation, reach check, forwarding. */
  function Read(m: Mirror, d: Hardware.Device, addr: u16, p: Ptr): (res: Loaded<Hardware.Device>)
    requires Hardware.Valid(d)
    ensures !InWindow(m, addr) ==> res == Loaded(Some(MirrorOutOfRange), p, d)
    ensures InWindow(m, addr) && !InReach(m, d, addr) ==> res == Loaded(Some(MirrorReadBeyondReach), p, d)
    ensures InReach(m, d, addr) ==> res == Hardware.Read(d, Translate(m, d, addr), p)
    ensures Hardware.Valid(res.state) && Hardware.SameKind(d, res.state)
    ensures p.Cell? ==> res.out.Cell?
  {
    if addr < m.start || addr > m.end then Loaded(Some(MirrorOutOfRange), p, d)
    else
      var t := Wrap16(Hardware.StartAddr(d) + (addr - m.start));
      if t > Hardware.EndAddr(d) then Loaded(Some(MirrorReadBeyondReach), p, d)
      else Hardware.Read(d, t, p)
  }

  /** `Mirror.Write`: window check, translation, reach check, forwarding. */
  function Write(m: Mirror, d: Hardware.Device, addr: u16, v: u8): (res: Stored<Hardware.Device>)
    requires Hardware.Valid(d)
    ensures !InWindow(m, addr) ==> res == Stored(Some(MirrorOutOfRange), d)
    ensures InWindow(m, addr) && !InReach(m, d, addr) ==> res == Stored(Some(MirrorWriteBeyondReach), d)
    ensures InReach(m, d, addr) ==> res == Hardware.Write(d, Translate(m, d, addr), v)
    ensures Hardware.Valid(res.state) && Hardware.SameKind(d, res.state)
    ensures !d.RamDevice? ==> res.state == d
  {
    if addr < m.start || addr > m.end then Stored(Some(MirrorOutOfRange), d)
    else
      var t := Wrap16(Hardware.StartAddr(d) + (addr - m.start));
      if t > Hardware.EndAddr(d) then Stored(Some(MirrorWriteBeyondReach), d)
      else Hardware.Write(d, t, v)
  }

  /**
   * Writing a value through the mirror at `start + delta` and then reading
   * the backing RAM at its own `start + delta` returns the value.
   */
  lemma WriteThroughThenReadBacking(m: Mirror, r: Ram.Ram, delta: nat, v: u8, p: Ptr)
    requires Ram.Valid(r) && r.size > 0 && p.Cell?
    requires m.start + delta <= m.end
    requires r.startAddr + delta <= r.endAddr
    ensures var d' := Write(m, Hardware.RamDevice(r), m.start + delta, v).state;
      Hardware.Read(d', r.startAddr + delta, p).out == Cell(v)
  {
    var d := Hardware.RamDevice(r);
    assert Translate(m, d, m.start + delta) == r.startAddr + delta;
    Ram.ReadAfterWrite(r, r.startAddr + delta, v, p);
  }
}
