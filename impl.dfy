// The instruction handlers of the 6502 core: the addressing-mode resolver,
// the flag checks, and one state transformer per mnemonic. A handler maps
// the machine before the instruction to its error and the machine after.
module Impl {
  import opened Common
  import Bus
  import opened Instructions
  import opened CpuState
  import Stack

  /** `get16BitAddressLE`: operand bytes 1 and 2 as a little-endian word. */
  function Address16(op: seq<u8>): (a: u16)
    requires |op| >= 3
    ensures Lo(a) == op[1] && Hi(a) == op[2]
  {
    Word(op[1], op[2])
  }

  /** The number of operand bytes the resolver indexes for a mode. */
  function Needs(mode: Mode): nat {
    match mode
    case IMM | REL | ZPG | ZPX | ZPY | IDX | IDY => 2
    case ABS | ABX | ABY => 3
    case IMP | ACC | IND => 0
  }

  /** Every row of the table is long enough for its mode. */
  lemma RowLongEnough(i: Instr)
    requires WellFormedRow(i)
    ensures i.len >= Needs(i.mode)
  {
  }

  /** A byte read as a Go `int8`. */
  function Signed(b: u8): (n: int)
    ensures -128 <= n < 128
  {
    if b < 0x80 then b else b - 256
  }

  /**
   * The REL target: forward by a positive offset, otherwise back by the
   * negated offset converted to `uint16`. The negation is 8-bit, so -128
   * negates to itself and sign-extends to 0xff80, and subtracting that
   * moves 128 bytes forward instead of back.
   */
  function RelTarget(pc: u16, len: u8, off: u8): (t: u16)
    ensures off != 0x80 ==> t == Wrap16(pc as int + len + Signed(off))
    ensures off == 0x80 ==> t == Wrap16(pc as int + len + 128)
  {
    var o := Signed(off);
    if o > 0 then Wrap16(pc as int + len + o)
    else
      var neg := Wrap16(Signed(Wrap8(-(off as int))));
      NegatedOffset(off);
      Wrap16Sub(pc as int + len, -128);
      Wrap16(pc as int + len - neg)
  }

  /** The 8-bit negation of a non-positive offset, sign-extended to 16 bits. */
  lemma NegatedOffset(off: u8)
    requires Signed(off) <= 0
    ensures off == 0x80 ==> Wrap16(Signed(Wrap8(-(off as int)))) == Wrap16(-128) == 0xff80
    ensures off != 0x80 ==> Wrap16(Signed(Wrap8(-(off as int)))) == -Signed(off)
  {
  }

  /**
   * The address of the modes that need no bus read. The zero-page modes
   * wrap within page 0, the absolute indexed modes wrap at 64K, and IMM,
   * IMP, ACC and IND have no case and give address 0.
   */
  function DirectAddr(r: Registers, i: Instr, op: seq<u8>): (a: u16)
    requires i.mode !in {IDX, IDY} && |op| >= Needs(i.mode)
    ensures i.mode == REL ==> a == RelTarget(r.pc, i.len, op[1])
    ensures i.mode == ZPG ==> a == op[1]
    ensures i.mode in {ZPG, ZPX, ZPY} ==> a < 256
    ensures i.mode == ZPX ==> a == Wrap8(op[1] as int + r.x)
    ensures i.mode == ZPY ==> a == Wrap8(op[1] as int + r.y)
    ensures i.mode == ABS ==> a == Address16(op)
    ensures i.mode == ABX ==> a == Wrap16(Address16(op) as int + r.x)
    ensures i.mode == ABY ==> a == Wrap16(Address16(op) as int + r.y)
    ensures i.mode in {IMM, IMP, ACC, IND} ==> a == 0
  {
    match i.mode
    case REL => RelTarget(r.pc, i.len, op[1])
    case ZPG => Wrap8(op[1])
    case ZPX => Wrap8(op[1] as int + r.x)
    case ZPY => Wrap8(op[1] as int + r.y)
    case ABS => Address16(op)
    case ABX => Wrap16(Address16(op) as int + r.x)
    case ABY => Wrap16(Address16(op) as int + r.y)
    case IMM | IMP | ACC | IND => 0
  }

  /** An address together with the bus after the reads needed to find it. */
  datatype Located = Located(addr: u16, bus: seq<Bus.Component>)

  /**
   * The indexed indirect modes: IDX reads the pointer at (op + X) % 256 and
   * (op + X + 1) % 256, IDY reads it at op % 256 and (op + 1) % 256 and
   * adds Y modulo 64K. A failed pointer read counts as 0.
   */
  function Indirect(m: Machine, i: Instr, op: seq<u8>): (l: Located)
    requires Bus.Valid(m.bus) && i.mode in {IDX, IDY} && |op| >= 2
    ensures Bus.Valid(l.bus) && Bus.SameLayout(m.bus, l.bus) && Bus.OnlyPpuChanged(m.bus, l.bus)
    ensures i.mode == IDX ==>
      var lo := Peek(m.bus, Wrap8(op[1] as int + m.regs.x), 0);
      l.addr == Word(lo.value, Peek(lo.bus, Wrap8(op[1] as int + m.regs.x + 1), 0).value)
    ensures i.mode == IDY ==>
      var lo := Peek(m.bus, op[1], 0);
      l.addr == Wrap16(Word(lo.value, Peek(lo.bus, Wrap8(op[1] as int + 1), 0).value) as int + m.regs.y)
  {
    if i.mode == IDX then
      var lo := Peek(m.bus, Wrap8(op[1] as int + m.regs.x), 0);
      var hi := Peek(lo.bus, Wrap8(op[1] as int + (m.regs.x + 1)), 0);
      Located(Word(lo.value, hi.value), hi.bus)
    else
      var lo := Peek(m.bus, Wrap8(op[1]), 0);
      var hi := Peek(lo.bus, Wrap8(op[1] as int + 1), 0);
      Located(Wrap16(Word(lo.value, hi.value) as int + m.regs.y), hi.bus)
  }

  /** The address half of `getValueBasedOnOpperand`. */
  function Locate(m: Machine, i: Instr, op: seq<u8>): (l: Located)
    requires Bus.Valid(m.bus) && |op| >= Needs(i.mode)
    ensures Bus.Valid(l.bus) && Bus.SameLayout(m.bus, l.bus) && Bus.OnlyPpuChanged(m.bus, l.bus)
    ensures i.mode !in {IDX, IDY} ==> l == Located(DirectAddr(m.regs, i, op), m.bus)
  {
    if i.mode in {IDX, IDY} then Indirect(m, i, op)
    else Located(DirectAddr(m.regs, i, op), m.bus)
  }

  /** The value and address a handler works on, and the bus after the reads. */
  datatype Resolved = Resolved(value: u8, addr: u16, bus: seq<Bus.Component>)

  /**
   * `getValueBasedOnOpperand`: IMM yields operand byte 1 without touching
   * the bus; every other mode reads the bus at the located address, and a
   * failed read yields 0.
   */
  function Resolve(m: Machine, i: Instr, op: seq<u8>): (r: Resolved)
    requires Bus.Valid(m.bus) && |op| >= Needs(i.mode)
    ensures Bus.Valid(r.bus) && Bus.SameLayout(m.bus, r.bus)
    ensures r.addr == Locate(m, i, op).addr
    ensures i.mode == IMM ==> r.value == op[1] && r.bus == m.bus
    ensures i.mode != IMM ==>
      var l := Locate(m, i, op);
      Bus.Load(l.bus, l.addr, Cell(0)).err.Some? ==> r.value == 0
    ensures i.mode != IMM ==>
      var l := Locate(m, i, op);
      var f := Peek(l.bus, l.addr, 0);
      r.value == f.value && r.bus == f.bus
    ensures Bus.OnlyPpuChanged(m.bus, r.bus)
  {
    var l := Locate(m, i, op);
    if i.mode == IMM then Resolved(op[1], l.addr, m.bus)
    else
      var f := Peek(l.bus, l.addr, 0);
      Resolved(f.value, l.addr, f.bus)
  }

  /** Every bit of p outside `f` is as it was. */
  predicate SameFlagsExcept(r: Registers, r': Registers, f: bv8) {
    r'.p & !f == r.p & !f
  }

  /** Two updates that keep the bits outside `f` and outside `g` keep the bits outside both. */
  lemma FlagsThen(p0: bv8, p1: bv8, p2: bv8, f: bv8, g: bv8)
    requires p1 & !f == p0 & !f && p2 & !g == p1 & !g
    ensures p2 & !(f | g) == p0 & !(f | g)
  {
  }

  /** An update that keeps the bits outside `mask` keeps a flag outside it. */
  lemma FlagKept(p: bv8, p': bv8, mask: bv8, f: bv8)
    requires p' & !mask == p & !mask && f & mask == 0
    ensures p' & f == p & f
  {
  }

  /** Set the bits of `f` when `on` holds, clear them otherwise. */
  function FlagTo(r: Registers, f: bv8, on: bool): (r': Registers)
    ensures HasFlag(r', f) <==> on || f == 0
    ensures SameFlagsExcept(r, r', f) && r' == r.(p := r'.p)
  {
    if on then SetFlag(r, f) else ClearFlag(r, f)
  }

  /** Negative and Zero describe `v`. */
  predicate ReportsNZ(r: Registers, v: u8) {
    && (HasFlag(r, FlagNegative) <==> BitAnd(v, 0x80) == 0x80)
    && (HasFlag(r, FlagZero) <==> v == 0)
  }

  /** `doNegativeCheck`: Negative becomes bit 7 of `v`. */
  function NegativeCheck(r: Registers, v: u8): (r': Registers)
    ensures HasFlag(r', FlagNegative) <==> BitAnd(v, 0x80) == 0x80
    ensures SameFlagsExcept(r, r', FlagNegative) && r' == r.(p := r'.p)
  {
    if BitAnd(v, 0x80) == 0x80 then SetFlag(r, FlagNegative) else ClearFlag(r, FlagNegative)
  }

  /** `doZeroCheck`: Zero becomes `v == 0`. */
  function ZeroCheck(r: Registers, v: u8): (r': Registers)
    ensures HasFlag(r', FlagZero) <==> v == 0
    ensures SameFlagsExcept(r, r', FlagZero) && r' == r.(p := r'.p)
  {
    if v == 0 then SetFlag(r, FlagZero) else ClearFlag(r, FlagZero)
  }

  /** `doCarryCheck`: Carry becomes `sum > 256` (a sum of exactly 256 clears it). */
  function CarryCheck(r: Registers, sum: int): (r': Registers)
    ensures HasFlag(r', FlagCarry) <==> sum > 256
    ensures SameFlagsExcept(r, r', FlagCarry) && r' == r.(p := r'.p)
  {
    if sum > 256 then SetFlag(r, FlagCarry) else ClearFlag(r, FlagCarry)
  }

  /** `doOverflowCheck`: Overflow becomes `prev <= 127 && prev + sum >= 128`. */
  function OverflowCheck(r: Registers, prev: int, sum: int): (r': Registers)
    ensures HasFlag(r', FlagOverflow) <==> prev <= 127 && prev + sum >= 128
    ensures SameFlagsExcept(r, r', FlagOverflow) && r' == r.(p := r'.p)
  {
    if prev <= 127 && prev + sum >= 128 then SetFlag(r, FlagOverflow) else ClearFlag(r, FlagOverflow)
  }

  /** Negative then Zero from `v`; the handlers call the two in either order, on disjoint bits. */
  function CheckNZ(r: Registers, v: u8): (r': Registers)
    ensures ReportsNZ(r', v)
    ensures SameFlagsExcept(r, r', FlagNegative | FlagZero) && r' == r.(p := r'.p)
  {
    ZeroCheck(NegativeCheck(r, v), v)
  }

  /** The registers a load, store, compare or step names. */
  datatype Reg = A | X | Y

  function Get(r: Registers, reg: Reg): u8 {
    match reg
    case A => r.a
    case X => r.x
    case Y => r.y
  }

  function Put(r: Registers, reg: Reg, v: u8): (r': Registers)
    ensures Get(r', reg) == v
    ensures forall o: Reg :: o != reg ==> Get(r', o) == Get(r, o)
    ensures r'.s == r.s && r'.p == r.p && r'.pc == r.pc
  {
    match reg
    case A => r.(a := v)
    case X => r.(x := v)
    case Y => r.(y := v)
  }

  /** LDA, LDX, LDY: the register takes the value; Zero and Negative describe it. */
  function LoadReg(m: Machine, i: Instr, op: seq<u8>, reg: Reg): (m': Machine)
    requires Bus.Valid(m.bus) && |op| >= Needs(i.mode)
    ensures var r := Resolve(m, i, op);
      && Get(m'.regs, reg) == r.value
      && ReportsNZ(m'.regs, r.value)
      && SameFlagsExcept(m.regs, m'.regs, FlagNegative | FlagZero)
      && m'.regs == Put(m.regs, reg, r.value).(p := m'.regs.p)
      && m' == m.(regs := m'.regs, bus := r.bus)
  {
    var r := Resolve(m, i, op);
    m.(regs := Put(CheckNZ(m.regs, r.value), reg, r.value), bus := r.bus)
  }

  /** The carry-in of ADC. */
  function CarryIn(r: Registers): int {
    if HasFlag(r, FlagCarry) then 1 else 0
  }

  /** ADC: resolve the operand, then `AddWithCarry`. */
  function Adc(m: Machine, i: Instr, op: seq<u8>): (m': Machine)
    requires Bus.Valid(m.bus) && |op| >= Needs(i.mode)
    ensures var r := Resolve(m, i, op);
      m' == m.(regs := AddWithCarry(m.regs, r.value), bus := r.bus)
  {
    var r := Resolve(m, i, op);
    m.(regs := AddWithCarry(m.regs, r.value), bus := r.bus)
  }

  /**
   * The register update of ADC with operand `v`: sum = a + v + C as a
   * 16-bit value; Carry iff sum > 256; Overflow iff a <= 127 and
   * a + sum >= 128, using a before the update; then a is the low byte of
   * sum and Zero and Negative describe it.
   */
  function AddWithCarry(r: Registers, v: u8): (r': Registers)
    ensures var sum := r.a as int + v + CarryIn(r);
      && r'.a == sum % 256
      && (HasFlag(r', FlagCarry) <==> sum > 256)
      && (HasFlag(r', FlagOverflow) <==> r.a <= 127 && r.a + sum >= 128)
      && ReportsNZ(r', r'.a)
      && SameFlagsExcept(r, r', FlagCarry | FlagOverflow | FlagNegative | FlagZero)
      && r' == r.(a := r'.a, p := r'.p)
  {
    var sum := r.a as int + v + CarryIn(r);
    var c := CarryCheck(r, sum);
    var o := OverflowCheck(c, r.a, sum);
    var a := sum % 256;
    var n := CheckNZ(o.(a := a), a);
    FlagKept(c.p, o.p, FlagOverflow, FlagCarry);
    FlagKept(o.p, n.p, FlagNegative | FlagZero, FlagCarry);
    FlagKept(o.p, n.p, FlagNegative | FlagZero, FlagOverflow);
    FlagsThen(r.p, c.p, o.p, FlagCarry, FlagOverflow);
    FlagsThen(r.p, o.p, n.p, FlagCarry | FlagOverflow, FlagNegative | FlagZero);
    n
  }

  /** AND: a becomes a & m; Zero and Negative describe it. */
  function And(m: Machine, i: Instr, op: seq<u8>): (m': Machine)
    requires Bus.Valid(m.bus) && |op| >= Needs(i.mode)
    ensures var r := Resolve(m, i, op);
      && m'.regs.a == BitAnd(m.regs.a, r.value)
      && ReportsNZ(m'.regs, m'.regs.a)
      && SameFlagsExcept(m.regs, m'.regs, FlagNegative | FlagZero)
      && m'.regs == m.regs.(a := m'.regs.a, p := m'.regs.p)
      && m' == m.(regs := m'.regs, bus := r.bus)
  {
    var r := Resolve(m, i, op);
    var a := BitAnd(m.regs.a, r.value);
    m.(regs := CheckNZ(m.regs.(a := a), a), bus := r.bus)
  }

  /** ORA as written: a becomes m & a (not m | a); Zero and Negative describe it. */
  function Ora(m: Machine, i: Instr, op: seq<u8>): (m': Machine)
    requires Bus.Valid(m.bus) && |op| >= Needs(i.mode)
    ensures var r := Resolve(m, i, op);
      && m'.regs.a == BitAnd(r.value, m.regs.a)
      && ReportsNZ(m'.regs, m'.regs.a)
      && SameFlagsExcept(m.regs, m'.regs, FlagNegative | FlagZero)
      && m'.regs == m.regs.(a := m'.regs.a, p := m'.regs.p)
      && m' == m.(regs := m'.regs, bus := r.bus)
  {
    var r := Resolve(m, i, op);
    var result := BitAnd(r.value, m.regs.a);
    m.(regs := CheckNZ(m.regs.(a := result), result), bus := r.bus)
  }

  /** The outcome of a handler: its error and the machine after it. */
  datatype Outcome = Outcome(err: Option<Error>, m: Machine)

  /**
   * ASL as written. On the accumulator: Carry is set if the low three bits
   * of a are all set (it is never cleared), a shifts left, and Zero and
   * Negative describe it. On memory: the write address is always operand
   * bytes 1-2, so a two-byte row indexes past the operand (a Go panic); the
   * value is the resolved one (for ABX, read at the indexed address), and
   * the shifted value is written back at bytes 1-2.
   */
  function Asl(m: Machine, i: Instr, op: seq<u8>): (o: Outcome)
    requires Bus.Valid(m.bus) && |op| >= Needs(i.mode)
    ensures Framed(m, o.m, false, false, false)
    ensures o.err.Some? <==> i.mode != ACC && |op| < 3
    ensures o.err.Some? ==> o.err == Some(RuntimePanic) && o.m == m
    ensures i.mode == ACC ==> o == Outcome(None, AslAccumulator(m))
    ensures i.mode != ACC && |op| >= 3 ==> o == Outcome(None, AslMemory(m, i, op))
  {
    if i.mode == ACC then Outcome(None, AslAccumulator(m))
    else if |op| < 3 then Outcome(Some(RuntimePanic), m)
    else Outcome(None, AslMemory(m, i, op))
  }

  /** The accumulator half of ASL. */
  function AslAccumulator(m: Machine): (m': Machine)
    ensures m'.regs.a == m.regs.a * 2 % 256
    ensures HasFlag(m'.regs, FlagCarry) <==> HasFlag(m.regs, FlagCarry) || BitAnd(m.regs.a, 7) == 7
    ensures ReportsNZ(m'.regs, m'.regs.a)
    ensures SameFlagsExcept(m.regs, m'.regs, FlagCarry | FlagNegative | FlagZero)
    ensures m' == m.(regs := m.regs.(a := m'.regs.a, p := m'.regs.p))
  {
    var c := if BitAnd(m.regs.a, 7) == 7 then SetFlag(m.regs, FlagCarry) else m.regs;
    var a := m.regs.a * 2 % 256;
    m.(regs := CheckNZ(c.(a := a), a))
  }

  /** The memory half of ASL: read at the resolved address, write at operand bytes 1-2. */
  function AslMemory(m: Machine, i: Instr, op: seq<u8>): (m': Machine)
    requires Bus.Valid(m.bus) && |op| >= 3 && |op| >= Needs(i.mode)
    ensures var r := Resolve(m, i, op);
      && (HasFlag(m'.regs, FlagCarry) <==> HasFlag(m.regs, FlagCarry) || BitAnd(r.value, 7) == 7)
      && ReportsNZ(m'.regs, r.value * 2 % 256)
      && SameFlagsExcept(m.regs, m'.regs, FlagCarry | FlagNegative | FlagZero)
      && m' == m.(regs := m.regs.(p := m'.regs.p), bus := Poke(r.bus, Address16(op), r.value * 2 % 256))
  {
    var address := Address16(op);
    var r := Resolve(m, i, op);
    var c := if BitAnd(r.value, 7) == 7 then SetFlag(m.regs, FlagCarry) else m.regs;
    var v := r.value * 2 % 256;
    m.(regs := CheckNZ(c, v), bus := Poke(r.bus, address, v))
  }

  /** A rotated value and the registers after the carry update. */
  datatype Rotated = Rotated(value: u8, regs: Registers)

  /**
   * ROL's `caryfunc` as written: shift left and bring in the old Carry at
   * bit 0; the new Carry is whether the low three bits were all set.
   */
  function RolValue(r: Registers, v: u8): (x: Rotated)
    ensures x.value == if HasFlag(r, FlagCarry) then BitOr(v * 2 % 256, 1) else v * 2 % 256
    ensures HasFlag(x.regs, FlagCarry) <==> BitAnd(v, 7) == 7
    ensures SameFlagsExcept(r, x.regs, FlagCarry) && x.regs == r.(p := x.regs.p)
  {
    var n := v * 2 % 256;
    var n' := if HasFlag(r, FlagCarry) then BitOr(n, 1) else n;
    Rotated(n', FlagTo(r, FlagCarry, BitAnd(v, 7) == 7))
  }

  /**
   * ROR's `caryfunc` as written: shift right and OR in 7 (not bit 7) when
   * Carry was set; the new Carry is the old bit 0.
   */
  function RorValue(r: Registers, v: u8): (x: Rotated)
    ensures x.value == if HasFlag(r, FlagCarry) then BitOr(v / 2, 7) else v / 2
    ensures HasFlag(x.regs, FlagCarry) <==> BitAnd(v, 1) == 1
    ensures SameFlagsExcept(r, x.regs, FlagCarry) && x.regs == r.(p := x.regs.p)
  {
    var n := v / 2;
    var n' := if HasFlag(r, FlagCarry) then BitOr(n, 7) else n;
    Rotated(n', FlagTo(r, FlagCarry, BitAnd(v, 1) == 1))
  }

  /**
   * ROL and ROR: on the accumulator the rotated value replaces a; otherwise
   * it is written back at the resolved address. Neither touches Zero or
   * Negative.
   */
  function Rotate(m: Machine, i: Instr, op: seq<u8>, left: bool): (m': Machine)
    requires Bus.Valid(m.bus) && |op| >= Needs(i.mode)
    ensures i.mode == ACC ==>
      var x := if left then RolValue(m.regs, m.regs.a) else RorValue(m.regs, m.regs.a);
      m' == m.(regs := x.regs.(a := x.value))
    ensures i.mode != ACC ==>
      var r := Resolve(m, i, op);
      var x := if left then RolValue(m.regs, r.value) else RorValue(m.regs, r.value);
      m' == m.(regs := x.regs, bus := Poke(r.bus, r.addr, x.value))
    ensures Framed(m, m', false, false, false)
  {
    if i.mode == ACC then
      var x := if left then RolValue(m.regs, m.regs.a) else RorValue(m.regs, m.regs.a);
      m.(regs := x.regs.(a := x.value))
    else
      var r := Resolve(m, i, op);
      var x := if left then RolValue(m.regs, r.value) else RorValue(m.regs, r.value);
      m.(regs := x.regs, bus := Poke(r.bus, r.addr, x.value))
  }

  /** The flag test of each conditional branch, as the handlers write it (BVS tests Negative). */
  predicate BranchTaken(mn: Mnemonic, r: Registers) {
    match mn
    case BCC => !HasFlag(r, FlagCarry)
    case BCS => HasFlag(r, FlagCarry)
    case BEQ => HasFlag(r, FlagZero)
    case BNE => !HasFlag(r, FlagZero)
    case BMI => HasFlag(r, FlagNegative)
    case BPL => !HasFlag(r, FlagNegative)
    case BVC => !HasFlag(r, FlagOverflow)
    case BVS => HasFlag(r, FlagNegative)
    case _ => false
  }

  /**
   * A conditional branch: when the test fails nothing happens; when it
   * passes the resolver runs (reading the bus at the target) and the target
   * becomes the next pc. No flag changes.
   */
  function Branch(m: Machine, i: Instr, op: seq<u8>): (m': Machine)
    requires Bus.Valid(m.bus) && |op| >= Needs(i.mode)
    ensures !BranchTaken(i.instruction, m.regs) ==> m' == m
    ensures BranchTaken(i.instruction, m.regs) ==>
      var r := Resolve(m, i, op);
      m' == m.(bus := r.bus, nextPc := Some(r.addr))
    ensures Framed(m, m', true, false, false)
  {
    if !BranchTaken(i.instruction, m.regs) then m
    else
      var r := Resolve(m, i, op);
      m.(bus := r.bus, nextPc := Some(r.addr))
  }

  /**
   * The flag update of CMP, CPX and CPY: d = int8(x) - int8(v) with 8-bit
   * wrap-around; Negative is bit 7 of d, Carry is set iff d <= 0 as a
   * signed byte, Zero iff x == v.
   */
  function CompareFlags(r: Registers, x: u8, v: u8): (r': Registers)
    ensures HasFlag(r', FlagNegative) <==> BitAnd(Wrap8(x as int - v), 0x80) == 0x80
    ensures HasFlag(r', FlagCarry) <==> Signed(Wrap8(x as int - v)) <= 0
    ensures HasFlag(r', FlagZero) <==> x == v
    ensures SameFlagsExcept(r, r', FlagNegative | FlagCarry | FlagZero) && r' == r.(p := r'.p)
  {
    var d := Wrap8(x as int - v);
    var n := NegativeCheck(r, d);
    var c := ClearFlag(ClearFlag(n, FlagCarry), FlagZero);
    if Signed(d) <= 0 then
      var s := SetFlag(c, FlagCarry);
      if Signed(d) == 0 then SetFlag(s, FlagZero) else s
    else c
  }

  /** CMP, CPX, CPY: compare the register with the resolved value; the register is unchanged. */
  function Compare(m: Machine, i: Instr, op: seq<u8>, reg: Reg): (m': Machine)
    requires Bus.Valid(m.bus) && |op| >= Needs(i.mode)
    ensures var r := Resolve(m, i, op);
      m' == m.(regs := CompareFlags(m.regs, Get(m.regs, reg), r.value), bus := r.bus)
  {
    var r := Resolve(m, i, op);
    m.(regs := CompareFlags(m.regs, Get(m.regs, reg), r.value), bus := r.bus)
  }

  /** A byte plus or minus one, modulo 256. */
  function Step(v: u8, up: bool): (w: u8)
    ensures w == Wrap8(v as int + (if up then 1 else -1))
  {
    if up then Wrap8(v as int + 1) else Wrap8(v as int - 1)
  }

  /** DEC and INC: the resolved value steps by one, is reported, and is written back. */
  function StepMemory(m: Machine, i: Instr, op: seq<u8>, up: bool): (m': Machine)
    requires Bus.Valid(m.bus) && |op| >= Needs(i.mode)
    ensures var r := Resolve(m, i, op);
      && ReportsNZ(m'.regs, Step(r.value, up))
      && SameFlagsExcept(m.regs, m'.regs, FlagNegative | FlagZero)
      && m' == m.(regs := m.regs.(p := m'.regs.p), bus := Poke(r.bus, r.addr, Step(r.value, up)))
    ensures Framed(m, m', false, false, false)
  {
    var r := Resolve(m, i, op);
    var v := Step(r.value, up);
    m.(regs := CheckNZ(m.regs, v), bus := Poke(r.bus, r.addr, v))
  }

  /** DEX, DEY, INX, INY: the register steps by one modulo 256 and is reported. */
  function StepReg(m: Machine, reg: Reg, up: bool): (m': Machine)
    ensures Get(m'.regs, reg) == Step(Get(m.regs, reg), up)
    ensures ReportsNZ(m'.regs, Get(m'.regs, reg))
    ensures SameFlagsExcept(m.regs, m'.regs, FlagNegative | FlagZero)
    ensures m'.regs == Put(m.regs, reg, Get(m'.regs, reg)).(p := m'.regs.p)
    ensures m' == m.(regs := m'.regs)
  {
    var v := Step(Get(m.regs, reg), up);
    m.(regs := CheckNZ(Put(m.regs, reg, v), v))
  }

  /**
   * JMP: the target is operand bytes 1-2; for IND it is the little-endian
   * word read at that address and the next (16-bit wrap, failed reads give
   * 0). Operands shorter than three bytes panic.
   */
  function Jmp(m: Machine, i: Instr, op: seq<u8>): (o: Outcome)
    requires Bus.Valid(m.bus)
    ensures Framed(m, o.m, true, false, false)
    ensures o.err.Some? <==> |op| < 3
    ensures |op| < 3 ==> o == Outcome(Some(RuntimePanic), m)
    ensures |op| >= 3 && i.mode != IND ==> o.m == m.(nextPc := Some(Address16(op)))
    ensures |op| >= 3 && i.mode == IND ==>
      var lo := Peek(m.bus, Address16(op), 0);
      var hi := Peek(lo.bus, Wrap16(Address16(op) as int + 1), 0);
      o.m == m.(bus := hi.bus, nextPc := Some(Word(lo.value, hi.value)))
  {
    if |op| < 3 then Outcome(Some(RuntimePanic), m)
    else if i.mode == IND then
      var t := PointerAt(m.bus, Address16(op));
      Outcome(None, m.(bus := t.bus, nextPc := Some(t.addr)))
    else Outcome(None, m.(nextPc := Some(Address16(op))))
  }

  /** The little-endian word read at `addr` and `addr + 1` (16-bit wrap), and the bus after both reads. */
  function PointerAt(bus: seq<Bus.Component>, addr: u16): (l: Located)
    requires Bus.Valid(bus)
    ensures Bus.Valid(l.bus) && Bus.SameLayout(bus, l.bus)
    ensures var lo := Peek(bus, addr, 0); var hi := Peek(lo.bus, Wrap16(addr as int + 1), 0);
      l == Located(Word(lo.value, hi.value), hi.bus)
  {
    var lo := Peek(bus, addr, 0);
    var hi := Peek(lo.bus, Wrap16(addr as int + 1), 0);
    Located(Word(lo.value, hi.value), hi.bus)
  }

  /** The return address JSR pushes: the last byte of the JSR itself. */
  function ReturnAddr(r: Registers, i: Instr): u16 {
    Wrap16(r.pc as int + i.len - 1)
  }

  /** JSR: resolve the target (reading the bus there), push pc + Len - 1, jump to the target. */
  function Jsr(m: Machine, i: Instr, op: seq<u8>): (m': Machine)
    requires Bus.Valid(m.bus) && |op| >= Needs(i.mode)
    ensures var r := Resolve(m, i, op);
      m' == Push16(m.(bus := r.bus), ReturnAddr(m.regs, i)).(nextPc := Some(r.addr))
    ensures Framed(m, m', true, true, false)
  {
    var r := Resolve(m, i, op);
    Push16(m.(bus := r.bus), ReturnAddr(m.regs, i)).(nextPc := Some(r.addr))
  }

  /** RTS: pop a word and jump to the byte after it. */
  function Rts(m: Machine): (m': Machine)
    requires Bus.Valid(m.bus)
    ensures Framed(m, m', true, true, false)
    ensures m'.nextPc == Some(Inc16(Pop16(m).value)) && m'.regs == Pop16(m).m.regs
    ensures m'.bus == Pop16(m).m.bus && m'.cInstr == m.cInstr && m'.nCycles == m.nCycles
  {
    var w := Pop16(m);
    w.m.(nextPc := Some(Inc16(w.value)))
  }

  /**
   * RTI as written: pop p (a failed read keeps p), pop one byte and make it
   * the whole pc (the high byte is not restored).
   */
  function Rti(m: Machine): (m': Machine)
    requires Bus.Valid(m.bus)
    ensures var p := Pop8(m, m.regs.p as int);
      var m1 := p.m.(regs := p.m.regs.(p := p.value as bv8));
      var pc := Pop8(m1, 0);
      m' == pc.m.(regs := pc.m.regs.(pc := pc.value))
    ensures Framed(m, m', false, true, true)
  {
    var p := Pop8(m, m.regs.p as int);
    var m1 := p.m.(regs := p.m.regs.(p := p.value as bv8));
    var pc := Pop8(m1, 0);
    pc.m.(regs := pc.m.regs.(pc := pc.value))
  }

  /** PLA: pop into a. No flag changes. */
  function Pla(m: Machine): (m': Machine)
    requires Bus.Valid(m.bus)
    ensures var v := Pop8(m, 0);
      m' == v.m.(regs := v.m.regs.(a := v.value))
    ensures Framed(m, m', false, true, false)
  {
    var v := Pop8(m, 0);
    v.m.(regs := v.m.regs.(a := v.value))
  }

  /** PLP: pop into p with the B and reserved bits cleared. */
  function Plp(m: Machine): (m': Machine)
    requires Bus.Valid(m.bus)
    ensures var v := Pop8(m, 0);
      && m'.regs.p & (FlagB | FlagReserved) == 0
      && m'.regs.p & !(FlagB | FlagReserved) == (v.value as bv8) & !(FlagB | FlagReserved)
      && m' == v.m.(regs := v.m.regs.(p := m'.regs.p))
    ensures Framed(m, m', false, true, false)
  {
    var v := Pop8(m, 0);
    v.m.(regs := v.m.regs.(p := (v.value as bv8) & !(FlagB | FlagReserved)))
  }

  /** STA, STX, STY: resolve (reading the bus at the address), then write the register there. */
  function StoreReg(m: Machine, i: Instr, op: seq<u8>, reg: Reg): (m': Machine)
    requires Bus.Valid(m.bus) && |op| >= Needs(i.mode)
    ensures var r := Resolve(m, i, op);
      m' == m.(bus := Poke(r.bus, r.addr, Get(m.regs, reg)))
    ensures Framed(m, m', false, false, false)
  {
    var r := Resolve(m, i, op);
    m.(bus := Poke(r.bus, r.addr, Get(m.regs, reg)))
  }

  /** The mnemonics whose handler only reports that it is not implemented. */
  predicate NotImplemented(mn: Mnemonic) {
    match mn
    case BIT | BRA | BRK | EOR | LSR | PHX | PHY | PLX | PLY | SBC | STZ | TAX | TAY | TRB | TSB | TSX | TXA | TYA => true
    case _ => false
  }

  /** The mnemonics whose handler may request a jump. */
  predicate RequestsJump(mn: Mnemonic) {
    match mn
    case BCC | BCS | BEQ | BMI | BNE | BPL | BVC | BVS | JMP | JSR | RTS => true
    case _ => false
  }

  /** The mnemonics whose handler moves the stack pointer. */
  predicate UsesStack(mn: Mnemonic) {
    match mn
    case JSR | PHA | PHP | PLA | PLP | RTI | RTS | TXS => true
    case _ => false
  }

  /** A handler that only sets or clears one flag. */
  function Flag(m: Machine, f: bv8, on: bool): (m': Machine)
    ensures HasFlag(m'.regs, f) <==> on || f == 0
    ensures SameFlagsExcept(m.regs, m'.regs, f)
    ensures m' == m.(regs := m.regs.(p := m'.regs.p))
  {
    m.(regs := FlagTo(m.regs, f, on))
  }

  /** Machine fields no handler other than the named ones touches. */
  predicate Framed(m: Machine, m': Machine, jumps: bool, stack: bool, pc: bool) {
    && Bus.Valid(m'.bus) && Bus.SameLayout(m.bus, m'.bus)
    && m'.cInstr == m.cInstr && m'.nCycles == m.nCycles
    && (!jumps ==> m'.nextPc == m.nextPc)
    && (!stack ==> m'.regs.s == m.regs.s)
    && (!pc ==> m'.regs.pc == m.regs.pc)
  }

  /** Loads, logic, arithmetic and compares: registers and flags from the resolved value. */
  function ExecuteValue(m: Machine, i: Instr, op: seq<u8>): (m': Machine)
    requires Bus.Valid(m.bus) && |op| >= Needs(i.mode)
    ensures Framed(m, m', false, false, false)
  {
    match i.instruction
    case ADC => Adc(m, i, op)
    case AND => And(m, i, op)
    case ORA => Ora(m, i, op)
    case CMP => Compare(m, i, op, A)
    case CPX => Compare(m, i, op, X)
    case CPY => Compare(m, i, op, Y)
    case LDX => LoadReg(m, i, op, X)
    case LDY => LoadReg(m, i, op, Y)
    case _ => LoadReg(m, i, op, A)
  }

  /** Read-modify-write instructions other than ASL, and stores. */
  function ExecuteMemory(m: Machine, i: Instr, op: seq<u8>): (m': Machine)
    requires Bus.Valid(m.bus) && |op| >= Needs(i.mode)
    ensures Framed(m, m', false, false, false)
  {
    match i.instruction
    case DEC => StepMemory(m, i, op, false)
    case INC => StepMemory(m, i, op, true)
    case ROL => Rotate(m, i, op, true)
    case ROR => Rotate(m, i, op, false)
    case STX => StoreReg(m, i, op, X)
    case STY => StoreReg(m, i, op, Y)
    case _ => StoreReg(m, i, op, A)
  }

  /** Flag instructions, register steps and NOP: no bus access at all. */
  function ExecuteImplied(m: Machine, i: Instr): (m': Machine)
    requires Bus.Valid(m.bus)
    ensures Framed(m, m', false, false, false) && m'.bus == m.bus
  {
    match i.instruction
    case CLC => Flag(m, FlagCarry, false)
    case CLD => Flag(m, FlagDecimal, false)
    case CLI => Flag(m, FlagIntDisable, false)
    case CLV => Flag(m, FlagOverflow, false)
    case SEC => Flag(m, FlagCarry, true)
    case SED => Flag(m, FlagDecimal, true)
    case SEI => Flag(m, FlagIntDisable, true)
    case DEX => StepReg(m, X, false)
    case DEY => StepReg(m, Y, false)
    case INX => StepReg(m, X, true)
    case INY => StepReg(m, Y, true)
    case _ => m
  }

  /** Pushes and pulls. */
  function ExecuteStack(m: Machine, i: Instr): (m': Machine)
    requires Bus.Valid(m.bus)
    ensures Framed(m, m', false, true, false)
  {
    match i.instruction
    case PHA => Push8(m, m.regs.a)
    case PHP => Push8(m, m.regs.p as int)
    case TXS => Push8(m, m.regs.x)
    case PLA => Pla(m)
    case _ => Plp(m)
  }

  /** Branches, jumps, calls and returns. */
  function ExecuteControl(m: Machine, i: Instr, op: seq<u8>): (o: Outcome)
    requires Bus.Valid(m.bus) && |op| >= Needs(i.mode)
    ensures Framed(m, o.m, i.instruction != RTI, i.instruction in {JSR, RTI, RTS}, i.instruction == RTI)
    ensures o.err.Some? ==> o == Outcome(Some(RuntimePanic), m)
    ensures o.err.Some? <==> i.instruction == JMP && |op| < 3
  {
    match i.instruction
    case JMP => Jmp(m, i, op)
    case JSR => Outcome(None, Jsr(m, i, op))
    case RTS => Outcome(None, Rts(m))
    case RTI => Outcome(None, Rti(m))
    case _ => Outcome(None, Branch(m, i, op))
  }

  /** How the handler table groups the mnemonics. */
  datatype Group = ValueGroup | ShiftGroup | MemoryGroup | ImpliedGroup | StackGroup | ControlGroup | Missing

  function GroupOf(mn: Mnemonic): Group {
    match mn
    case ADC | AND | ORA | CMP | CPX | CPY | LDA | LDX | LDY => ValueGroup
    case ASL => ShiftGroup
    case DEC | INC | ROL | ROR | STA | STX | STY => MemoryGroup
    case CLC | CLD | CLI | CLV | SEC | SED | SEI | DEX | DEY | INX | INY | NOP => ImpliedGroup
    case PHA | PHP | PLA | PLP | TXS => StackGroup
    case BCC | BCS | BEQ | BMI | BNE | BPL | BVC | BVS | JMP | JSR | RTI | RTS => ControlGroup
    case BIT | BRA | BRK | EOR | LSR | PHX | PHY | PLX | PLY | SBC | STZ | TAX | TAY | TRB | TSB | TSX | TXA | TYA => Missing
  }

  /**
   * The handler table: the handler of the row's mnemonic applied to the
   * machine and the fetched operand (byte 0 is the opcode). A handler fails
   * only when it is not implemented or panics, and then changes nothing;
   * only branches, jumps, calls and returns request a jump, only stack
   * instructions move s, and only RTI writes pc.
   */
  function Execute(m: Machine, i: Instr, op: seq<u8>): (o: Outcome)
    requires Bus.Valid(m.bus) && |op| >= Needs(i.mode)
    ensures Framed(m, o.m, RequestsJump(i.instruction), UsesStack(i.instruction), i.instruction == RTI)
    ensures o.err.Some? ==> o.m == m
  {
    match GroupOf(i.instruction)
    case ValueGroup => Outcome(None, ExecuteValue(m, i, op))
    case ShiftGroup => Asl(m, i, op)
    case MemoryGroup => Outcome(None, ExecuteMemory(m, i, op))
    case ImpliedGroup => Outcome(None, ExecuteImplied(m, i))
    case StackGroup => Outcome(None, ExecuteStack(m, i))
    case ControlGroup => ExecuteControl(m, i, op)
    case Missing => Outcome(Some(Unimplemented), m)
  }

  /**
   * A handler fails only as unimplemented (exactly the mnemonics without a
   * handler) or with a panic (exactly JMP, and ASL on memory, when the
   * operand is shorter than three bytes).
   */
  lemma ExecuteErrors(m: Machine, i: Instr, op: seq<u8>)
    requires Bus.Valid(m.bus) && |op| >= Needs(i.mode)
    ensures var o := Execute(m, i, op);
      && (o.err == Some(Unimplemented) <==> NotImplemented(i.instruction))
      && (o.err == Some(RuntimePanic) <==>
            |op| < 3 && (i.instruction == JMP || (i.instruction == ASL && i.mode != ACC)))
      && (o.err.Some? ==> o.err == Some(Unimplemented) || o.err == Some(RuntimePanic))
  {
    var o := Execute(m, i, op);
    GroupFacts(i.instruction);
    match GroupOf(i.instruction)
    case ValueGroup => assert o.err.None?;
    case ShiftGroup => assert o == Asl(m, i, op);
    case MemoryGroup => assert o.err.None?;
    case ImpliedGroup => assert o.err.None?;
    case StackGroup => assert o.err.None?;
    case ControlGroup => assert o == ExecuteControl(m, i, op);
    case Missing => assert o.err == Some(Unimplemented);
  }

  /** The groups of the mnemonics the error cases single out. */
  lemma GroupFacts(mn: Mnemonic)
    ensures GroupOf(mn) == Missing <==> NotImplemented(mn)
    ensures GroupOf(mn) == ShiftGroup <==> mn == ASL
    ensures mn == JMP ==> GroupOf(mn) == ControlGroup
  {
  }

  /** The conditional branches (BRA has an unimplemented handler). */
  predicate Conditional(mn: Mnemonic) {
    match mn
    case BCC | BCS | BEQ | BMI | BNE | BPL | BVC | BVS => true
    case _ => false
  }

  /**
   * A conditional branch on a REL row jumps to pc + Len plus the signed
   * offset exactly when its flag test passes, and changes no register and
   * no flag either way.
   */
  lemma BranchTarget(m: Machine, i: Instr, op: seq<u8>)
    requires Bus.Valid(m.bus) && Conditional(i.instruction) && i.mode == REL && |op| >= 2
    requires m.nextPc.None?
    ensures var o := Execute(m, i, op);
      && o.err.None?
      && o.m.regs == m.regs
      && (BranchTaken(i.instruction, m.regs) <==> o.m.nextPc == Some(RelTarget(m.regs.pc, i.len, op[1])))
      && (!BranchTaken(i.instruction, m.regs) ==> o.m == m)
  {
    assert GroupOf(i.instruction) == ControlGroup;
    assert ExecuteControl(m, i, op) == Outcome(None, Branch(m, i, op));
    assert Execute(m, i, op) == Outcome(None, Branch(m, i, op));
    if BranchTaken(i.instruction, m.regs) {
      assert Resolve(m, i, op).addr == DirectAddr(m.regs, i, op) == RelTarget(m.regs.pc, i.len, op[1]);
    }
  }

  /** Reads on a bus without PPU devices change nothing. */
  lemma PeekQuiet(bus: seq<Bus.Component>, addr: u16, buf: u8)
    requires Bus.Valid(bus) && Quiet(bus)
    ensures Peek(bus, addr, buf).bus == bus
  {
    QuietLoad(bus, addr, Cell(buf));
  }

  /**
   * On a bus without PPU devices the resolver changes nothing; every mode
   * but IMM yields the byte at the address (0 if the read fails); IDX and
   * IDY take their pointer from the two page-0 bytes.
   */
  lemma ResolveQuiet(m: Machine, i: Instr, op: seq<u8>)
    requires Bus.Valid(m.bus) && Quiet(m.bus) && |op| >= Needs(i.mode)
    ensures var r := Resolve(m, i, op);
      && r.bus == m.bus
      && (i.mode != IMM ==> r.value == Peek(m.bus, r.addr, 0).value)
  {
    LocateQuiet(m, i, op);
    PeekQuiet(m.bus, Locate(m, i, op).addr, 0);
  }

  /** On a bus without PPU devices the pointer reads change nothing. */
  lemma LocateQuiet(m: Machine, i: Instr, op: seq<u8>)
    requires Bus.Valid(m.bus) && Quiet(m.bus) && |op| >= Needs(i.mode)
    ensures Locate(m, i, op).bus == m.bus
    ensures i.mode == IDX ==>
      Locate(m, i, op).addr == Word(Peek(m.bus, Wrap8(op[1] as int + m.regs.x), 0).value,
                                    Peek(m.bus, Wrap8(op[1] as int + m.regs.x + 1), 0).value)
    ensures i.mode == IDY ==>
      var lo := Peek(m.bus, op[1], 0).value;
      var hi := Peek(m.bus, Wrap8(op[1] as int + 1), 0).value;
      Locate(m, i, op).addr == Wrap16(Word(lo, hi) as int + m.regs.y)
  {
    if i.mode == IDX {
      PeekQuiet(m.bus, Wrap8(op[1] as int + m.regs.x), 0);
      PeekQuiet(m.bus, Wrap8(op[1] as int + m.regs.x + 1), 0);
    } else if i.mode == IDY {
      PeekQuiet(m.bus, op[1], 0);
      PeekQuiet(m.bus, Wrap8(op[1] as int + 1), 0);
    }
  }

  /**
   * JMP (IND) where the two pointer bytes read without side effect: the bus
   * is unchanged and the target is the little-endian word at the operand
   * address and the next one (16-bit wrap, not the 6502's page wrap), each
   * byte that cannot be read counting as 0.
   */
  lemma JmpIndirectQuiet(m: Machine, i: Instr, op: seq<u8>)
    requires Bus.Valid(m.bus) && i.mode == IND && |op| >= 3
    requires QuietAt(m.bus, Address16(op)) && QuietAt(m.bus, Wrap16(Address16(op) as int + 1))
    ensures Jmp(m, i, op) == Outcome(None, m.(nextPc := Some(Word(
      Bus.Load(m.bus, Address16(op), Cell(0)).out.value,
      Bus.Load(m.bus, Wrap16(Address16(op) as int + 1), Cell(0)).out.value))))
  {
    QuietAtLoad(m.bus, Address16(op), Cell(0));
    QuietAtLoad(m.bus, Wrap16(Address16(op) as int + 1), Cell(0));
  }

  /** The zero-page indexed modes wrap within page 0: 0xff + X = 1 is address 0. */
  lemma ZeroPageWraps(r: Registers, i: Instr, op: seq<u8>)
    requires i.mode == ZPX && |op| >= 2 && op[1] == 0xff && r.x == 1
    ensures DirectAddr(r, i, op) == 0
  {
  }

  /**
   * The REL offset 0x80 (-128) is taken as +128: 8-bit negation leaves it
   * at -128, whose `uint16` conversion is 0xff80, so the subtraction moves
   * forward. Every other offset moves by its signed value.
   */
  lemma RelOffsetMinus128(pc: u16, len: u8)
    ensures RelTarget(pc, len, 0x80) == Wrap16(pc as int + len + 128)
    ensures RelTarget(pc, len, 0x80) != Wrap16(pc as int + len - 128)
  {
    var t := RelTarget(pc, len, 0x80);
    assert Wrap16(pc as int + len + 128) != Wrap16(pc as int + len - 128) by {
      WrapApart(pc as int + len - 128, 256);
    }
  }

  /** Two numbers less than 64K apart wrap to different addresses. */
  lemma WrapApart(x: int, d: int)
    requires 0 < d < 0x10000
    ensures Wrap16(x) != Wrap16(x + d)
  {
    assert (Wrap16(x + d) - Wrap16(x) - d) % 0x10000 == 0;
  }

  /** `doPop16` reads only the bus and s. */
  lemma Pop16Frame(m: Machine, m': Machine)
    requires Bus.Valid(m.bus) && m'.bus == m.bus && m'.regs.s == m.regs.s
    ensures Pop16(m').value == Pop16(m).value && Pop16(m').m.bus == Pop16(m).m.bus
  {
    var lo := Pop8(m, 0);
    var lo' := Pop8(m', 0);
    assert lo'.value == lo.value && lo'.m.bus == lo.m.bus && lo'.m.regs.s == lo.m.regs.s;
  }

  /**
   * A JSR at pc P followed (with bus and s as the JSR left them) by an RTS
   * jumps to P + Len: JSR pushes P + Len - 1 and RTS adds one to what it
   * pops. The stack pointer is back where it was. This needs a RAM that
   * owns page 1; the resolver's reads touch PPU registers only.
   */
  lemma JsrThenRts(m: Machine, k: nat, i: Instr, op: seq<u8>, m2: Machine)
    requires Bus.Valid(m.bus) && Stack.StackRam(m.bus, k)
    requires i.instruction == JSR && |op| >= Needs(i.mode)
    requires m2.bus == Jsr(m, i, op).bus && m2.regs.s == Jsr(m, i, op).regs.s && Bus.Valid(m2.bus)
    ensures Rts(m2).nextPc == Some(Wrap16(m.regs.pc as int + i.len))
    ensures Rts(m2).regs.s == m.regs.s
  {
    JsrLeavesReturn(m, k, i, op, m2);
    RtsReturns(m2, ReturnAddr(m.regs, i));
    ReturnAddrNext(m.regs, i);
  }

  /** One past the return address is the instruction after the JSR. */
  lemma ReturnAddrNext(r: Registers, i: Instr)
    ensures Inc16(ReturnAddr(r, i)) == Wrap16(r.pc as int + i.len)
  {
    Inc16Wrap(ReturnAddr(r, i));
    Wrap16Add(r.pc as int + i.len - 1, 1);
  }

  /** RTS after a pop of `ret` continues at `ret + 1`. */
  lemma RtsReturns(m: Machine, ret: u16)
    requires Bus.Valid(m.bus) && Pop16(m).value == ret
    ensures Rts(m).nextPc == Some(Inc16(ret))
  {
  }

  /** After JSR, popping a word yields the return address and restores s. */
  lemma JsrLeavesReturn(m: Machine, k: nat, i: Instr, op: seq<u8>, m2: Machine)
    requires Bus.Valid(m.bus) && Stack.StackRam(m.bus, k)
    requires i.instruction == JSR && |op| >= Needs(i.mode)
    requires m2.bus == Jsr(m, i, op).bus && m2.regs.s == Jsr(m, i, op).regs.s && Bus.Valid(m2.bus)
    ensures Pop16(m2).value == ReturnAddr(m.regs, i)
    ensures Pop16(m2).m.regs.s == m.regs.s
  {
    var mb := m.(bus := Resolve(m, i, op).bus);
    var ret := ReturnAddr(m.regs, i);
    JsrPushes(m, k, i, op);
    var pushed := Push16(mb, ret);
    Stack.PushThenPop16(mb, k, ret);
    Pop16Frame(pushed, m2);
  }

  /** The handler table runs `Jsr` for JSR, and its reads keep the stack RAM. */
  lemma JsrPushes(m: Machine, k: nat, i: Instr, op: seq<u8>)
    requires Bus.Valid(m.bus) && Stack.StackRam(m.bus, k)
    requires i.instruction == JSR && |op| >= Needs(i.mode)
    ensures Stack.StackRam(Resolve(m, i, op).bus, k)
    ensures Execute(m, i, op) == Outcome(None, Jsr(m, i, op))
  {
    var r := Resolve(m, i, op);
    assert r.bus[k] == m.bus[k];
    Stack.StackRamLayout(m.bus, r.bus, k);
    ControlDispatch(m, i, op);
    assert ExecuteControl(m, i, op) == Outcome(None, Jsr(m, i, op));
  }

  /** RTS succeeds and jumps to one past the popped word. */
  lemma RtsPops(m: Machine, j: Instr, op: seq<u8>)
    requires Bus.Valid(m.bus) && j.instruction == RTS && |op| >= Needs(j.mode)
    ensures Execute(m, j, op) == Outcome(None, Rts(m))
  {
    ControlDispatch(m, j, op);
    assert ExecuteControl(m, j, op) == Outcome(None, Rts(m));
  }

  /** The handler table sends branches, jumps, calls and returns to `ExecuteControl`. */
  lemma ControlDispatch(m: Machine, i: Instr, op: seq<u8>)
    requires Bus.Valid(m.bus) && |op| >= Needs(i.mode) && GroupOf(i.instruction) == ControlGroup
    ensures Execute(m, i, op) == ExecuteControl(m, i, op)
  {
  }

  /** The handler table sends each value mnemonic to its handler, which never fails. */
  lemma ValueDispatch(m: Machine, i: Instr, op: seq<u8>)
    requires Bus.Valid(m.bus) && |op| >= Needs(i.mode) && GroupOf(i.instruction) == ValueGroup
    ensures Execute(m, i, op) == Outcome(None, ExecuteValue(m, i, op))
  {
  }

  /** The handler table sends ASL to `Asl`. */
  lemma ShiftDispatch(m: Machine, i: Instr, op: seq<u8>)
    requires Bus.Valid(m.bus) && |op| >= Needs(i.mode) && GroupOf(i.instruction) == ShiftGroup
    ensures Execute(m, i, op) == Asl(m, i, op)
  {
  }

  /** The handler table sends each read-modify-write and store mnemonic to its handler, which never fails. */
  lemma MemoryDispatch(m: Machine, i: Instr, op: seq<u8>)
    requires Bus.Valid(m.bus) && |op| >= Needs(i.mode) && GroupOf(i.instruction) == MemoryGroup
    ensures Execute(m, i, op) == Outcome(None, ExecuteMemory(m, i, op))
  {
  }

  /** The handler table sends each flag, register-step and no-op mnemonic to its handler, which never fails. */
  lemma ImpliedDispatch(m: Machine, i: Instr, op: seq<u8>)
    requires Bus.Valid(m.bus) && |op| >= Needs(i.mode) && GroupOf(i.instruction) == ImpliedGroup
    ensures Execute(m, i, op) == Outcome(None, ExecuteImplied(m, i))
  {
  }

  /** The handler table sends each push and pull to its handler, which never fails. */
  lemma StackDispatch(m: Machine, i: Instr, op: seq<u8>)
    requires Bus.Valid(m.bus) && |op| >= Needs(i.mode) && GroupOf(i.instruction) == StackGroup
    ensures Execute(m, i, op) == Outcome(None, ExecuteStack(m, i))
  {
  }

  /** ADC as written: 0xff + 0x01 with Carry clear gives a = 0, Zero set and Carry clear. */
  lemma AdcCarryAt256(r: Registers)
    requires r.a == 0xff && !HasFlag(r, FlagCarry)
    ensures var r' := AddWithCarry(r, 0x01);
      r'.a == 0 && HasFlag(r', FlagZero) && !HasFlag(r', FlagCarry)
  {
  }

  /** CMP as written: a = 5 against 3 clears Carry; a = 3 against 5 sets it. */
  lemma CompareCarryReversed(r: Registers)
    ensures !HasFlag(CompareFlags(r, 5, 3), FlagCarry)
    ensures HasFlag(CompareFlags(r, 3, 5), FlagCarry)
    ensures HasFlag(CompareFlags(r, 3, 5), FlagNegative)
    ensures HasFlag(CompareFlags(r, 7, 7), FlagCarry) && HasFlag(CompareFlags(r, 7, 7), FlagZero)
  {
  }
}
