// The 6502 stack round trips: on a bus whose page 1 belongs to one RAM that
// holds all 256 stack cells apart, a pop undoes a push.
module Stack {
  import opened Common
  import Ram
  import Hardware
  import Bus
  import opened CpuState

  /**
   * Component `k` is a RAM that owns every stack address, and page 1 fits
   * into it without the offsets wrapping around its size.
   */
  ghost predicate StackRam(bus: seq<Bus.Component>, k: nat) {
    && k < |bus| && bus[k].Device? && bus[k].device.RamDevice?
    && var r := bus[k].device.ram;
    && Ram.Valid(r)
    && r.startAddr <= 0x100 && 0x1ff <= r.endAddr && 0x1ff - r.startAddr < r.size
    && forall s: u8 :: Bus.Select(bus, StackAddr(s)) == Some(k)
  }

  /** Accesses keep the layout, so they keep the stack where it is. */
  lemma StackRamLayout(a: seq<Bus.Component>, b: seq<Bus.Component>, k: nat)
    requires StackRam(a, k) && Bus.SameLayout(a, b) && Bus.Valid(b)
    ensures StackRam(b, k)
  {
    assert Bus.SameShape(a[k], b[k]);
    forall s: u8
      ensures Bus.Select(b, StackAddr(s)) == Some(k)
    {
      Bus.SelectLayout(a, b, StackAddr(s));
    }
  }

  /** The RAM cell a stack address denotes. */
  function StackCell(bus: seq<Bus.Component>, k: nat, s: u8): (v: u8)
    requires StackRam(bus, k)
  {
    var r := bus[k].device.ram;
    r.memory[StackAddr(s) - r.startAddr]
  }

  /** Reading a stack address succeeds, yields its cell, and changes nothing. */
  lemma StackLoad(bus: seq<Bus.Component>, k: nat, s: u8, buf: u8)
    requires Bus.Valid(bus) && StackRam(bus, k)
    ensures Bus.Load(bus, StackAddr(s), Ptr.Cell(buf)) == Loaded(None, Ptr.Cell(StackCell(bus, k, s)), bus)
  {
    var a := StackAddr(s);
    var r := bus[k].device.ram;
    assert Bus.Select(bus, a) == Some(k);
    assert Ram.InWindow(r, a) && r.size > 0;
    var l := Ram.Read(r, a, Ptr.Cell(buf));
    assert l == Loaded(None, Ptr.Cell(StackCell(bus, k, s)), r) by {
      ModSmall(a - r.startAddr, r.size);
    }
    assert Hardware.Read(bus[k].device, a, Ptr.Cell(buf)) == Loaded(l.err, l.out, bus[k].device);
    assert bus[k := bus[k]] == bus;
  }

  /** Writing a stack address succeeds and changes exactly its cell. */
  lemma StackStore(bus: seq<Bus.Component>, k: nat, s: u8, v: u8)
    requires Bus.Valid(bus) && StackRam(bus, k)
    ensures var bus' := Bus.Store(bus, StackAddr(s), v).state;
      && StackRam(bus', k)
      && StackCell(bus', k, s) == v
      && forall t: u8 :: t != s ==> StackCell(bus', k, t) == StackCell(bus, k, t)
  {
    var a := StackAddr(s);
    var r := bus[k].device.ram;
    assert Bus.Select(bus, a) == Some(k);
    assert Ram.InWindow(r, a) && r.size > 0;
    var w := Ram.Write(r, a, v);
    ModSmall(a - r.startAddr, r.size);
    assert Hardware.Write(bus[k].device, a, v) == Stored(w.err, Hardware.RamDevice(w.state));
    var bus' := Bus.Store(bus, a, v).state;
    assert bus' == bus[k := Bus.Device(Hardware.RamDevice(w.state))];
    StackRamLayout(bus, bus', k);
  }

  /** `doPop8` after `doPush8` returns the pushed value and restores s. */
  lemma PushThenPop8(m: Machine, k: nat, v: u8, buf: u8)
    requires Bus.Valid(m.bus) && StackRam(m.bus, k)
    ensures Pop8(Push8(m, v), buf).value == v
    ensures Pop8(Push8(m, v), buf).m.regs == m.regs
    ensures Pop8(Push8(m, v), buf).m.bus == Push8(m, v).bus
  {
    var m1 := Push8(m, v);
    StackStore(m.bus, k, m.regs.s, v);
    assert Inc8(m1.regs.s) == m.regs.s;
    StackLoad(m1.bus, k, m.regs.s, buf);
  }

  /** `doPop8` reads the cell at s + 1 and changes no cell. */
  lemma Pop8Cell(m: Machine, k: nat, buf: u8)
    requires Bus.Valid(m.bus) && StackRam(m.bus, k)
    ensures Pop8(m, buf).value == StackCell(m.bus, k, Inc8(m.regs.s))
    ensures Pop8(m, buf).m.bus == m.bus
  {
    StackLoad(m.bus, k, Inc8(m.regs.s), buf);
  }

  /** `doPush16` leaves the high byte at s and the low byte at s - 1. */
  lemma Push16Cells(m: Machine, k: nat, w: u16)
    requires Bus.Valid(m.bus) && StackRam(m.bus, k)
    ensures StackRam(Push16(m, w).bus, k)
    ensures StackCell(Push16(m, w).bus, k, m.regs.s) == Hi(w)
    ensures StackCell(Push16(m, w).bus, k, Dec8(m.regs.s)) == Lo(w)
  {
    var s := m.regs.s;
    var t := Dec8(s);
    var m1 := Push8(m, Hi(w));
    StackStore(m.bus, k, s, Hi(w));
    assert m1.bus == Bus.Store(m.bus, StackAddr(s), Hi(w)).state && m1.regs.s == t;
    StackStore(m1.bus, k, t, Lo(w));
    assert Push16(m, w).bus == Bus.Store(m1.bus, StackAddr(t), Lo(w)).state;
    assert s != t;
  }

  /** `doPop16` reads the low byte at s + 1, the high byte at s + 2, and changes no cell. */
  lemma Pop16Cells(m: Machine, k: nat)
    requires Bus.Valid(m.bus) && StackRam(m.bus, k)
    ensures Pop16(m).value == Word(StackCell(m.bus, k, Inc8(m.regs.s)), StackCell(m.bus, k, Inc8(Inc8(m.regs.s))))
    ensures Pop16(m).m.bus == m.bus
  {
    var lo := Pop8(m, 0);
    Pop8Cell(m, k, 0);
    Pop8Cell(lo.m, k, 0);
  }

  /** `doPop16` after `doPush16` returns the pushed word and restores s. */
  lemma PushThenPop16(m: Machine, k: nat, w: u16)
    requires Bus.Valid(m.bus) && StackRam(m.bus, k)
    ensures Pop16(Push16(m, w)).value == w
    ensures Pop16(Push16(m, w)).m.regs == m.regs
    ensures Pop16(Push16(m, w)).m.bus == Push16(m, w).bus
  {
    var s := m.regs.s;
    var m2 := Push16(m, w);
    Push16Cells(m, k, w);
    Pop16Cells(m2, k);
    assert m2.regs.s == Dec8(Dec8(s));
    assert Inc8(m2.regs.s) == Dec8(s) && Inc8(Inc8(m2.regs.s)) == s;
    assert Pop16(m2).value == Word(Lo(w), Hi(w));
    WordOfBytes(w);
  }
}
