// The state of the 6502 core as values: the register file, the status
// flags, the machine (registers, bus contents and fetch state), and the
// bus-level helpers the core is built from: byte reads that ignore errors,
// the stack, the operand fetch, power-up and reset.
module CpuState {
  import opened Common
  import Bus
  import opened Instructions

  const FlagCarry: bv8 := 0x01
  const FlagZero: bv8 := 0x02
  const FlagIntDisable: bv8 := 0x04
  const FlagDecimal: bv8 := 0x08
  const FlagB: bv8 := 0x10
  const FlagReserved: bv8 := 0x20
  const FlagOverflow: bv8 := 0x40
  const FlagNegative: bv8 := 0x80

  /**
   * `CPU6502Register`. The data registers hold bytes as numbers; p is kept
   * as a bit vector because it is only ever used through its bits.
   */
  datatype Registers = Registers(a: u8, x: u8, y: u8, s: u8, p: bv8, pc: u16)

  /**
   * Everything one clock cycle reads or writes: the registers, the system
   * bus's components, the jump target a handler requests for the end of the
   * instruction (absent from the source, see README), the instruction in
   * progress and the cycles spent on it.
   */
  datatype Machine = Machine(
    regs: Registers,
    bus: seq<Bus.Component>,
    nextPc: Option<u16>,
    cInstr: Option<Instr>,
    nCycles: u8)

  /** `SetFlag`: sets the given bits of p and keeps every other bit. */
  function SetFlag(r: Registers, f: bv8): (r': Registers)
    ensures r'.p & f == f
    ensures r'.p & !f == r.p & !f
    ensures r' == r.(p := r'.p)
  {
    r.(p := r.p | f)
  }

  /** `ClearFlag`: clears the given bits of p and keeps every other bit. */
  function ClearFlag(r: Registers, f: bv8): (r': Registers)
    ensures r'.p & f == 0
    ensures r'.p & !f == r.p & !f
    ensures r' == r.(p := r'.p)
  {
    r.(p := r.p & !f)
  }

  /** `HasFlag`: all the given bits are set. */
  predicate HasFlag(r: Registers, f: bv8) {
    r.p & f == f
  }

  lemma SetThenHas(r: Registers, f: bv8)
    ensures HasFlag(SetFlag(r, f), f)
  {
  }

  lemma ClearThenHasNot(r: Registers, f: bv8)
    requires f != 0
    ensures !HasFlag(ClearFlag(r, f), f)
  {
  }

  /** The little-endian word of two bytes (`uint16(lo) | uint16(hi) << 8`). */
  function Word(lo: u8, hi: u8): (w: u16) {
    lo + 256 * hi
  }

  /** The low byte of a word (`uint8(w)`). */
  function Lo(w: u16): u8 {
    w % 256
  }

  /** The high byte of a word (`uint8(w >> 8)`). */
  function Hi(w: u16): u8 {
    w / 256
  }

  lemma WordOfBytes(w: u16)
    ensures Word(Lo(w), Hi(w)) == w
  {
  }

  /** The outcome of a byte read whose error the caller ignores. */
  datatype Fetched = Fetched(value: u8, bus: seq<Bus.Component>)

  /**
   * A bus read into a destination that holds `buf`, ignoring the error: a
   * failed read leaves the destination as it was.
   */
  function Peek(bus: seq<Bus.Component>, addr: u16, buf: u8): (f: Fetched)
    requires Bus.Valid(bus)
    ensures Bus.Valid(f.bus) && Bus.SameLayout(bus, f.bus) && Bus.OnlyPpuChanged(bus, f.bus)
    ensures Bus.Load(bus, addr, Cell(buf)).err.Some? ==> f.value == buf
    ensures Bus.Load(bus, addr, Cell(buf)).out == Cell(f.value) && f.bus == Bus.Load(bus, addr, Cell(buf)).state
  {
    var l := Bus.Load(bus, addr, Cell(buf));
    Bus.LoadFrame(bus, addr, Cell(buf));
    Fetched(l.out.value, l.state)
  }

  /** A bus write whose error the caller ignores. */
  function Poke(bus: seq<Bus.Component>, addr: u16, v: u8): (bus': seq<Bus.Component>)
    requires Bus.Valid(bus)
    ensures Bus.Valid(bus') && Bus.SameLayout(bus, bus')
    ensures bus' == Bus.Store(bus, addr, v).state
  {
    Bus.Store(bus, addr, v).state
  }

  /** The stack lives in page 1. */
  function StackAddr(s: u8): (addr: u16)
    ensures 0x100 <= addr <= 0x1ff
  {
    0x100 + s
  }

  /** `doPush8`: write at 0x0100 + s, then decrement s (mod 256). */
  function Push8(m: Machine, v: u8): (m': Machine)
    requires Bus.Valid(m.bus)
    ensures Bus.Valid(m'.bus) && Bus.SameLayout(m.bus, m'.bus)
    ensures m'.regs == m.regs.(s := Dec8(m.regs.s))
    ensures m' == m.(regs := m'.regs, bus := m'.bus)
  {
    m.(bus := Poke(m.bus, StackAddr(m.regs.s), v), regs := m.regs.(s := Dec8(m.regs.s)))
  }

  datatype Popped = Popped(value: u8, m: Machine)

  /** `doPop8`: increment s (mod 256), then read at 0x0100 + s into `buf`. */
  function Pop8(m: Machine, buf: u8): (r: Popped)
    requires Bus.Valid(m.bus)
    ensures Bus.Valid(r.m.bus) && Bus.SameLayout(m.bus, r.m.bus)
    ensures r.m.regs == m.regs.(s := Inc8(m.regs.s))
    ensures r.m == m.(regs := r.m.regs, bus := r.m.bus)
  {
    var s := Inc8(m.regs.s);
    var f := Peek(m.bus, StackAddr(s), buf);
    Popped(f.value, m.(regs := m.regs.(s := s), bus := f.bus))
  }

  /** `doPush16`: the high byte first, then the low byte. */
  function Push16(m: Machine, w: u16): (m': Machine)
    requires Bus.Valid(m.bus)
    ensures Bus.Valid(m'.bus) && Bus.SameLayout(m.bus, m'.bus)
    ensures m'.regs == m.regs.(s := Dec8(Dec8(m.regs.s)))
    ensures m' == m.(regs := m'.regs, bus := m'.bus)
  {
    Push8(Push8(m, Hi(w)), Lo(w))
  }

  datatype PoppedWord = PoppedWord(value: u16, m: Machine)

  /** `doPop16`: the low byte first, then the high byte. */
  function Pop16(m: Machine): (r: PoppedWord)
    requires Bus.Valid(m.bus)
    ensures Bus.Valid(r.m.bus) && Bus.SameLayout(m.bus, r.m.bus)
    ensures r.m.regs == m.regs.(s := Inc8(Inc8(m.regs.s)))
    ensures r.m == m.(regs := r.m.regs, bus := r.m.bus)
  {
    var lo := Pop8(m, 0);
    var hi := Pop8(lo.m, 0);
    PoppedWord(Word(lo.value, hi.value), hi.m)
  }

  /**
   * `Initialize`: the power-up register values, and pc loaded from the
   * little-endian reset vector at 0xfffc/0xfffd (a failed read counts as 0).
   */
  function Initialize(m: Machine): (m': Machine)
    requires Bus.Valid(m.bus)
    ensures Bus.Valid(m'.bus) && Bus.SameLayout(m.bus, m'.bus)
    ensures m'.regs.a == 0 && m'.regs.x == 0 && m'.regs.y == 0
    ensures m'.regs.s == 0xff && m'.regs.p == FlagIntDisable | FlagReserved
    ensures var lo := Peek(m.bus, 0xfffc, 0); var hi := Peek(lo.bus, 0xfffd, 0);
      m'.regs.pc == Word(lo.value, hi.value) && m'.bus == hi.bus
    ensures m' == m.(regs := m'.regs, bus := m'.bus)
  {
    var lo := Peek(m.bus, 0xfffc, 0);
    var hi := Peek(lo.bus, 0xfffd, 0);
    m.(regs := Registers(0, 0, 0, 0xff, FlagIntDisable | FlagReserved, Word(lo.value, hi.value)),
       bus := hi.bus)
  }

  /** `Reset`: s drops by 3, interrupts are disabled, pc becomes 0xfffc. */
  function Reset(m: Machine): (m': Machine)
    ensures m'.regs.s == Wrap8(m.regs.s as int - 3)
    ensures m'.regs.p == m.regs.p | FlagIntDisable
    ensures m'.regs.pc == 0xfffc
    ensures m'.regs.a == m.regs.a && m'.regs.x == m.regs.x && m'.regs.y == m.regs.y
    ensures m' == m.(regs := m'.regs)
  {
    m.(regs := m.regs.(s := Wrap8(m.regs.s as int - 3), p := m.regs.p | FlagIntDisable, pc := 0xfffc))
  }

  /** The address of byte `i` of the instruction at pc (16-bit wrap-around). */
  function OperandAddr(pc: u16, i: nat): u16 {
    Wrap16(pc as int + i)
  }

  /** The outcome of an operand fetch. */
  datatype Operand = Operand(err: Option<Error>, bytes: seq<u8>, bus: seq<Bus.Component>)

  /**
   * `fetchOpperand` from position `i` on: read `pc + i` into byte `i`, and
   * stop at the first read that fails.
   */
  function FetchFrom(bus: seq<Bus.Component>, pc: u16, i: nat, bytes: seq<u8>): (r: Operand)
    requires Bus.Valid(bus) && i <= |bytes|
    ensures Bus.Valid(r.bus) && Bus.SameLayout(bus, r.bus) && |r.bytes| == |bytes|
    decreases |bytes| - i
  {
    if i == |bytes| then Operand(None, bytes, bus)
    else
      var l := Bus.Load(bus, OperandAddr(pc, i), Cell(bytes[i]));
      if l.err.Some? then Operand(l.err, bytes, l.state)
      else FetchFrom(l.state, pc, i + 1, bytes[i := l.out.value])
  }

  /** One step of the fetch: the read at pc + i decides whether it goes on. */
  lemma FetchFromStep(bus: seq<Bus.Component>, pc: u16, i: nat, bytes: seq<u8>, l: Loaded<seq<Bus.Component>>)
    requires Bus.Valid(bus) && i < |bytes|
    requires l == Bus.Load(bus, OperandAddr(pc, i), Cell(bytes[i]))
    ensures l.out.Cell? && Bus.Valid(l.state)
    ensures l.err.Some? ==> FetchFrom(bus, pc, i, bytes) == Operand(l.err, bytes, l.state)
    ensures l.err.None? ==> FetchFrom(bus, pc, i, bytes) == FetchFrom(l.state, pc, i + 1, bytes[i := l.out.value])
  {
  }

  /** Past the last byte the fetch is complete: no error, bytes and bus as they are. */
  lemma FetchFromEnd(bus: seq<Bus.Component>, pc: u16, bytes: seq<u8>)
    requires Bus.Valid(bus)
    ensures FetchFrom(bus, pc, |bytes|, bytes) == Operand(None, bytes, bus)
  {
  }

  /** `fetchOpperand` into a fresh zeroed buffer of `len` bytes. */
  function FetchOperand(bus: seq<Bus.Component>, pc: u16, len: nat): (r: Operand)
    requires Bus.Valid(bus)
    ensures Bus.Valid(r.bus) && Bus.SameLayout(bus, r.bus) && |r.bytes| == len
  {
    FetchFrom(bus, pc, 0, seq(len, _ => 0))
  }

  /** A bus with no PPU device: reading it changes nothing. */
  predicate Quiet(bus: seq<Bus.Component>) {
    forall j :: 0 <= j < |bus| && bus[j].Device? ==> !bus[j].device.PpuDevice?
  }

  lemma QuietLoad(bus: seq<Bus.Component>, addr: u16, p: Ptr)
    requires Bus.Valid(bus) && Quiet(bus)
    ensures Bus.Load(bus, addr, p).state == bus
  {
    var st := Bus.Load(bus, addr, p).state;
    Bus.LoadFrame(bus, addr, p);
    assert forall j :: 0 <= j < |bus| ==> st[j] == bus[j];
  }

  /**
   * A read of `addr` has no side effect on this bus: the component it acts
   * on, if any, is not a PPU register file.
   */
  predicate QuietAt(bus: seq<Bus.Component>, addr: u16) {
    match Bus.Target(bus, addr)
    case None => true
    case Some(t) => !(bus[t].Device? && bus[t].device.PpuDevice?)
  }

  /** Every address pc + j, for j from i up to n, reads without side effect. */
  predicate QuietSpan(bus: seq<Bus.Component>, pc: u16, i: nat, n: nat) {
    forall j :: i <= j < n ==> QuietAt(bus, OperandAddr(pc, j))
  }

  /** On a bus without a PPU every address reads without side effect. */
  lemma QuietEverywhere(bus: seq<Bus.Component>, pc: u16, i: nat, n: nat)
    requires Quiet(bus)
    ensures QuietSpan(bus, pc, i, n)
  {
  }

  /** A read without side effect leaves every component as it was. */
  lemma QuietAtLoad(bus: seq<Bus.Component>, addr: u16, p: Ptr)
    requires Bus.Valid(bus) && QuietAt(bus, addr)
    ensures Bus.Load(bus, addr, p).state == bus
  {
    match Bus.Select(bus, addr)
    case None =>
    case Some(k) =>
      if bus[k].Device? {
        assert bus[k := Bus.Device(bus[k].device)] == bus;
      } else if Bus.Wired(bus, bus[k].mirror) {
        var b := bus[k].mirror.backing;
        assert bus[b := Bus.Device(bus[b].device)] == bus;
      }
  }

  /** Every address pc + j, for j from i up to n, can be read. */
  predicate Readable(bus: seq<Bus.Component>, pc: u16, i: nat, n: nat)
    requires Bus.Valid(bus)
    decreases n - i
  {
    i >= n || (Bus.Load(bus, OperandAddr(pc, i), Cell(0)).err.None? && Readable(bus, pc, i + 1, n))
  }

  /**
   * On a bus whose reads have no side effect, the fetch changes nothing and
   * succeeds iff every address pc + j (j from i on) can be read.
   */
  lemma {:induction false} FetchFromQuiet(bus: seq<Bus.Component>, pc: u16, i: nat, bytes: seq<u8>)
    requires Bus.Valid(bus) && QuietSpan(bus, pc, i, |bytes|) && i <= |bytes|
    ensures FetchFrom(bus, pc, i, bytes).bus == bus
    ensures FetchFrom(bus, pc, i, bytes).err.None? <==> Readable(bus, pc, i, |bytes|)
    decreases |bytes| - i
  {
    if i < |bytes| {
      var a := OperandAddr(pc, i);
      var l := Bus.Load(bus, a, Cell(bytes[i]));
      QuietAtLoad(bus, a, Cell(bytes[i]));
      LoadErrorIgnoresBuffer(bus, a, bytes[i], 0);
      if l.err.None? {
        FetchFromQuiet(bus, pc, i + 1, bytes[i := l.out.value]);
      }
    }
  }

  /**
   * When that fetch succeeds, byte j is kept below i and is what the bus
   * holds at pc + j from i on.
   */
  lemma {:induction false} FetchFromQuietByte(bus: seq<Bus.Component>, pc: u16, i: nat, bytes: seq<u8>, j: nat)
    requires Bus.Valid(bus) && QuietSpan(bus, pc, i, |bytes|) && i <= |bytes| && j < |bytes|
    requires FetchFrom(bus, pc, i, bytes).err.None?
    ensures FetchFrom(bus, pc, i, bytes).bytes[j] ==
      if j < i then bytes[j] else Bus.Load(bus, OperandAddr(pc, j), Cell(0)).out.value
    decreases |bytes| - i
  {
    if i < |bytes| {
      var b' := FetchStepQuiet(bus, pc, i, bytes);
      FetchFromQuietByte(bus, pc, i + 1, b', j);
    }
  }

  /**
   * One successful step of the fetch on a bus whose reads have no side
   * effect: it moves on with the byte read.
   */
  lemma FetchStepQuiet(bus: seq<Bus.Component>, pc: u16, i: nat, bytes: seq<u8>) returns (next: seq<u8>)
    requires Bus.Valid(bus) && QuietAt(bus, OperandAddr(pc, i)) && i < |bytes|
    requires FetchFrom(bus, pc, i, bytes).err.None?
    ensures Bus.Load(bus, OperandAddr(pc, i), Cell(0)).err.None?
    ensures next == bytes[i := Bus.Load(bus, OperandAddr(pc, i), Cell(0)).out.value]
    ensures FetchFrom(bus, pc, i + 1, next).err.None?
    ensures FetchFrom(bus, pc, i, bytes).bytes == FetchFrom(bus, pc, i + 1, next).bytes
  {
    var a := OperandAddr(pc, i);
    QuietAtLoad(bus, a, Cell(bytes[i]));
    LoadErrorIgnoresBuffer(bus, a, bytes[i], 0);
    next := bytes[i := Bus.Load(bus, a, Cell(0)).out.value];
  }

  /** Whether a read fails, and what it delivers on success, do not depend on the buffer. */
  lemma LoadErrorIgnoresBuffer(bus: seq<Bus.Component>, addr: u16, b1: u8, b2: u8)
    requires Bus.Valid(bus) && QuietAt(bus, addr)
    ensures Bus.Load(bus, addr, Cell(b1)).err == Bus.Load(bus, addr, Cell(b2)).err
    ensures Bus.Load(bus, addr, Cell(b1)).err.None? ==>
      Bus.Load(bus, addr, Cell(b1)).out == Bus.Load(bus, addr, Cell(b2)).out
  {
  }

  /**
   * `fetchOpperand` where the `len` addresses from pc on read without side
   * effect (none of them reaches a PPU register file): it succeeds iff
   * they can all be read, and byte i is then the byte at pc + i (byte 0 is
   * the opcode itself).
   */
  lemma FetchOperandQuiet(bus: seq<Bus.Component>, pc: u16, len: nat)
    requires Bus.Valid(bus) && QuietSpan(bus, pc, 0, len)
    ensures var r := FetchOperand(bus, pc, len);
      && r.bus == bus
      && (r.err.None? <==> Readable(bus, pc, 0, len))
      && (r.err.None? ==> forall j :: 0 <= j < len ==> r.bytes[j] == Bus.Load(bus, OperandAddr(pc, j), Cell(0)).out.value)
  {
    var bytes := seq(len, _ => 0);
    FetchFromQuiet(bus, pc, 0, bytes);
    if FetchOperand(bus, pc, len).err.None? {
      forall j | 0 <= j < len
        ensures FetchOperand(bus, pc, len).bytes[j] == Bus.Load(bus, OperandAddr(pc, j), Cell(0)).out.value
      {
        FetchFromQuietByte(bus, pc, 0, bytes, j);
      }
    }
  }

  /**
   * Power-up on a bus whose reset vector reads have no side effect: the bus
   * is unchanged and pc is the little-endian word at 0xfffc/0xfffd, each
   * byte that cannot be read counting as 0.
   */
  lemma InitializeQuiet(m: Machine)
    requires Bus.Valid(m.bus) && QuietAt(m.bus, 0xfffc) && QuietAt(m.bus, 0xfffd)
    ensures Initialize(m).bus == m.bus
    ensures Initialize(m).regs.pc ==
      Word(Bus.Load(m.bus, 0xfffc, Cell(0)).out.value, Bus.Load(m.bus, 0xfffd, Cell(0)).out.value)
  {
    QuietAtLoad(m.bus, 0xfffc, Cell(0));
    QuietAtLoad(m.bus, 0xfffd, Cell(0));
  }
}
