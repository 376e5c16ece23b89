// The cycle-counting driver of the 6502 core (`DoCycle`) and the CPU object
// whose methods update the registers, the fetch state and the bus in place.
// The pure functions below are the specification the methods are proved
// against; the lemmas state the timing the driver promises.
module Cpu {
  import opened Common
  import Bus
  import opened Instructions
  import opened CpuState
  import opened Impl

  /** The number of entries of the handler table. */
  const HandlerCount: nat := 64

  /** The id of entry `n` of the handler table (the table follows the enumeration). */
  function HandlerId(n: nat): (id: Mnemonic)
    requires n < HandlerCount
  {
    match n
    case 0 => ADC
    case 1 => AND
    case 2 => ASL
    case 3 => BCC
    case 4 => BCS
    case 5 => BEQ
    case 6 => BIT
    case 7 => BMI
    case 8 => BNE
    case 9 => BPL
    case 10 => BRA
    case 11 => BRK
    case 12 => BVC
    case 13 => BVS
    case 14 => CLC
    case 15 => CLD
    case 16 => CLI
    case 17 => CLV
    case 18 => CMP
    case 19 => CPX
    case 20 => CPY
    case 21 => DEC
    case 22 => DEX
    case 23 => DEY
    case 24 => EOR
    case 25 => INC
    case 26 => INX
    case 27 => INY
    case 28 => JMP
    case 29 => JSR
    case 30 => LDA
    case 31 => LDX
    case 32 => LDY
    case 33 => LSR
    case 34 => NOP
    case 35 => ORA
    case 36 => PHA
    case 37 => PHP
    case 38 => PHX
    case 39 => PHY
    case 40 => PLA
    case 41 => PLP
    case 42 => PLX
    case 43 => PLY
    case 44 => ROL
    case 45 => ROR
    case 46 => RTI
    case 47 => RTS
    case 48 => SBC
    case 49 => SEC
    case 50 => SED
    case 51 => SEI
    case 52 => STA
    case 53 => STZ
    case 54 => STX
    case 55 => STY
    case 56 => TAX
    case 57 => TAY
    case 58 => TRB
    case 59 => TSB
    case 60 => TSX
    case 61 => TXA
    case 62 => TXS
    case _ => TYA
  }

  /** The entry at a mnemonic's id is that mnemonic: the table follows the enumeration. */
  lemma HandlerIdFollowsEnumeration(mn: Mnemonic)
    ensures Ordinal(mn) < HandlerCount && HandlerId(Ordinal(mn)) == mn
  {
    // one case per mnemonic, so that each lookup is evaluated on its own
    match mn
    case ADC => case AND => case ASL => case BCC => case BCS => case BEQ => case BIT => case BMI =>
    case BNE => case BPL => case BRA => case BRK => case BVC => case BVS => case CLC => case CLD =>
    case CLI => case CLV => case CMP => case CPX => case CPY => case DEC => case DEX => case DEY =>
    case EOR => case INC => case INX => case INY => case JMP => case JSR => case LDA => case LDX =>
    case LDY => case LSR => case NOP => case ORA => case PHA => case PHP => case PHX => case PHY =>
    case PLA => case PLP => case PLX => case PLY => case ROL => case ROR => case RTI => case RTS =>
    case SBC => case SEC => case SED => case SEI => case STA => case STZ => case STX => case STY =>
    case TAX => case TAY => case TRB => case TSB => case TSX => case TXA => case TXS => case TYA =>
  }

  /**
   * `fetchInstrImpl`: the entry at the id's position, provided the position
   * is inside the table and the entry carries that id; no entry otherwise.
   */
  function FetchInstrImpl(id: Mnemonic): (r: Option<Mnemonic>)
    ensures r.Some? ==> r.value == id
    ensures r.None? <==> Ordinal(id) >= HandlerCount || HandlerId(Ordinal(id)) != id
  {
    var n := Ordinal(id);
    if n >= HandlerCount then None
    else if HandlerId(n) != id then None
    else Some(id)
  }

  /** The handler lookup finds an entry for every mnemonic. */
  lemma FetchInstrImplTotal(mn: Mnemonic)
    ensures FetchInstrImpl(mn) == Some(mn)
  {
    HandlerIdFollowsEnumeration(mn);
  }

  /**
   * What every reachable CPU state satisfies: the bus is well formed, and an
   * instruction in progress is a row of the table's shape.
   */
  predicate Ready(m: Machine) {
    && Bus.Valid(m.bus)
    && (m.cInstr.Some? ==> WellFormedRow(m.cInstr.value))
  }

  /**
   * The state between two instructions or inside one that has not failed:
   * in addition, fewer cycles than the instruction takes have been counted,
   * and no jump is pending between instructions.
   */
  predicate Counting(m: Machine) {
    && Ready(m)
    && (m.cInstr.Some? ==> m.nCycles < m.cInstr.value.cycles)
    && (m.cInstr.None? ==> m.nextPc.None?)
  }

  /**
   * The first half of `DoCycle`: with no instruction in progress, read the
   * opcode at pc into a zero byte and look it up; a failed read or an
   * unknown opcode is returned as it is.
   */
  function Decode(m: Machine): (o: Outcome)
    requires Ready(m)
    ensures Ready(o.m) && Bus.SameLayout(m.bus, o.m.bus)
    ensures o.m.regs == m.regs && o.m.nextPc == m.nextPc
    ensures m.cInstr.Some? ==> o == Outcome(None, m)
    ensures m.cInstr.None? && o.err.None? ==> o.m.cInstr.Some? && o.m.nCycles == 0
    ensures o.err.Some? ==> m.cInstr.None? && o.m.cInstr.None? && o.m.nCycles == m.nCycles
  {
    if m.cInstr.Some? then Outcome(None, m)
    else
      var l := Bus.Load(m.bus, m.regs.pc, Cell(0));
      if l.err.Some? then Outcome(l.err, m.(bus := l.state))
      else
        match GetInstr(l.out.value)
        case Err(e) => Outcome(Some(e), m.(bus := l.state))
        case Ok(i) =>
          GetInstrWellFormed(l.out.value);
          Outcome(None, m.(bus := l.state, cInstr := Some(i), nCycles := 0))
  }

  /**
   * The end of an instruction: continue at the requested jump target if a
   * handler set one, otherwise after the instruction's bytes; then forget the
   * instruction and the request.
   */
  function Commit(m: Machine, i: Instr): (m': Machine)
    ensures m'.cInstr.None? && m'.nextPc.None?
    ensures m.nextPc.Some? ==> m'.regs.pc == m.nextPc.value
    ensures m.nextPc.None? ==> m'.regs.pc == Wrap16(m.regs.pc as int + i.len)
    ensures m' == m.(regs := m'.regs, cInstr := None, nextPc := None)
    ensures m'.regs == m.regs.(pc := m'.regs.pc)
  {
    var pc := if m.nextPc.Some? then m.nextPc.value else Wrap16(m.regs.pc as int + i.len);
    m.(regs := m.regs.(pc := pc), cInstr := None, nextPc := None)
  }

  /**
   * The last cycle of instruction `i`: fetch its bytes from pc, find the
   * handler, run it, and commit. Every error stops the cycle where it occurs.
   */
  function Finish(m: Machine, i: Instr): (o: Outcome)
    requires Bus.Valid(m.bus) && WellFormedRow(i)
    ensures Bus.Valid(o.m.bus) && Bus.SameLayout(m.bus, o.m.bus)
    ensures o.err.Some? ==> o.m.regs == m.regs && o.m.nextPc == m.nextPc && o.m.cInstr == m.cInstr
    ensures o.err.None? ==> o.m.cInstr.None? && o.m.nextPc.None?
    ensures o.m.nCycles == m.nCycles
  {
    var f := FetchOperand(m.bus, m.regs.pc, i.len);
    var m1 := m.(bus := f.bus);
    if f.err.Some? then Outcome(f.err, m1)
    else Dispatch(m1, i, f.bytes)
  }

  /**
   * The part of the last cycle after the fetch: find the handler, run it on
   * the fetched bytes, and commit.
   */
  function Dispatch(m: Machine, i: Instr, bytes: seq<u8>): (o: Outcome)
    requires Bus.Valid(m.bus) && WellFormedRow(i) && |bytes| == i.len as int
    ensures Bus.Valid(o.m.bus) && Bus.SameLayout(m.bus, o.m.bus)
    ensures o.err.Some? ==> o.m.regs == m.regs && o.m.nextPc == m.nextPc && o.m.cInstr == m.cInstr
    ensures o.err.None? ==> o.m.cInstr.None? && o.m.nextPc.None?
    ensures o.m.nCycles == m.nCycles
  {
    if FetchInstrImpl(i.instruction).None? then Outcome(Some(NoHandler), m)
    else
      RowLongEnough(i);
      var e := Execute(m, i, bytes);
      if e.err.Some? then e
      else Outcome(None, Commit(e.m, i))
  }

  /**
   * `DoCycle`: decode if no instruction is in progress, count the cycle
   * (a Go `byte`, so it wraps), and finish the instruction on the cycle that
   * reaches its cycle count.
   */
  function Cycle(m: Machine): (o: Outcome)
    requires Ready(m)
    ensures Ready(o.m) && Bus.SameLayout(m.bus, o.m.bus)
    ensures o.err.Some? ==> o.m.regs == m.regs && o.m.nextPc == m.nextPc
  {
    var d := Decode(m);
    if d.err.Some? then d
    else
      var i := d.m.cInstr.value;
      var m1 := d.m.(nCycles := Inc8(d.m.nCycles));
      if m1.nCycles == i.cycles then Finish(m1, i) else Outcome(None, m1)
  }

  /** `n` calls of `DoCycle`, stopping at the first error. */
  function Run(m: Machine, n: nat): (o: Outcome)
    requires Ready(m)
    ensures Ready(o.m)
    decreases n
  {
    if n == 0 then Outcome(None, m)
    else
      var o1 := Cycle(m);
      if o1.err.Some? then o1 else Run(o1.m, n - 1)
  }

  /** A cycle that does not fail keeps the cycle count below the instruction's. */
  lemma CycleKeepsCounting(m: Machine)
    requires Counting(m) && Cycle(m).err.None?
    ensures Counting(Cycle(m).m)
    ensures Cycle(m).m.cInstr.Some? ==> Cycle(m).m.nCycles <= Cycle(m).m.cInstr.value.cycles
  {
    var d := Decode(m);
    var i := d.m.cInstr.value;
    assert d.m.nCycles < i.cycles by {
      if m.cInstr.None? {
        assert d.m.nCycles == 0 && i.cycles >= 2;
      }
    }
  }

  /**
   * Inside an instruction, a cycle that does not reach the cycle count only
   * counts: registers, bus, jump request and instruction stay as they are.
   */
  lemma IdleCycle(m: Machine)
    requires Ready(m) && m.cInstr.Some? && m.nCycles + 1 < m.cInstr.value.cycles
    ensures Cycle(m) == Outcome(None, m.(nCycles := m.nCycles + 1))
  {
  }

  /**
   * With no instruction in progress, a successful opcode read of a listed
   * opcode starts that instruction with one cycle counted; nothing else
   * changes except what the read itself changes.
   */
  lemma DecodeCycle(m: Machine)
    requires Ready(m) && m.cInstr.None?
    requires Bus.Load(m.bus, m.regs.pc, Cell(0)).err.None?
    requires GetInstr(Bus.Load(m.bus, m.regs.pc, Cell(0)).out.value).Ok?
    ensures var l := Bus.Load(m.bus, m.regs.pc, Cell(0));
      Cycle(m) == Outcome(None, m.(bus := l.state, cInstr := Some(GetInstr(l.out.value).value), nCycles := 1))
  {
    var l := Bus.Load(m.bus, m.regs.pc, Cell(0));
    GetInstrWellFormed(l.out.value);
  }

  /**
   * With no instruction in progress, a failed opcode read or an unlisted
   * opcode fails the cycle and leaves registers, jump request, instruction
   * and count as they were.
   */
  lemma DecodeErrorKeepsState(m: Machine)
    requires Ready(m) && m.cInstr.None?
    requires var l := Bus.Load(m.bus, m.regs.pc, Cell(0));
      l.err.Some? || GetInstr(l.out.value).Err?
    ensures Cycle(m).err.Some?
    ensures Cycle(m).m == m.(bus := Bus.Load(m.bus, m.regs.pc, Cell(0)).state)
  {
  }

  /**
   * The cycle that reaches the count runs the instruction. When the fetch,
   * the handler lookup and the handler succeed, the new state is the
   * handler's, with pc moved to the requested target or past the
   * instruction, and the instruction cleared.
   */
  lemma FinalCycle(m: Machine)
    requires Ready(m) && m.cInstr.Some? && m.nCycles + 1 == m.cInstr.value.cycles
    ensures var i := m.cInstr.value;
      Cycle(m) == Finish(m.(nCycles := i.cycles), i)
  {
  }

  /** On success, `Finish` leaves exactly the handler's state, committed. */
  lemma FinishCommits(m: Machine, i: Instr)
    requires Bus.Valid(m.bus) && WellFormedRow(i)
    requires Finish(m, i).err.None?
    ensures var f := FetchOperand(m.bus, m.regs.pc, i.len);
      && f.err.None? && |f.bytes| >= Needs(i.mode)
      && Finish(m, i).m == Commit(Execute(m.(bus := f.bus), i, f.bytes).m, i)
      && Execute(m.(bus := f.bus), i, f.bytes).err.None?
  {
    RowLongEnough(i);
  }

  /**
   * Timing inside an instruction: from any count below the instruction's,
   * the cycles up to the last one only count.
   */
  lemma {:induction false} IdleRun(m: Machine, n: nat)
    requires Ready(m) && m.cInstr.Some? && m.nCycles + n < m.cInstr.value.cycles
    ensures Run(m, n) == Outcome(None, m.(nCycles := m.nCycles + n))
    decreases n
  {
    if n > 0 {
      IdleCycle(m);
      var m1 := m.(nCycles := m.nCycles + 1);
      IdleRun(m1, n - 1);
      assert m1.(nCycles := m1.nCycles + (n - 1)) == m.(nCycles := m.nCycles + n);
    }
  }

  /**
   * An instruction of k cycles: after it is decoded on the first call, the
   * next k - 2 calls only count, and the k-th call runs it.
   */
  lemma {:induction false} InstructionTakesItsCycles(m: Machine)
    requires Counting(m) && m.cInstr.None?
    requires Cycle(m).err.None?
    ensures var m1 := Cycle(m).m;
      && m1.cInstr.Some? && m1.nCycles == 1 && m1.regs == m.regs
      && var i := m1.cInstr.value;
      && Run(m1, i.cycles - 2) == Outcome(None, m1.(nCycles := i.cycles - 1))
      && Cycle(m1.(nCycles := i.cycles - 1)) == Finish(m1.(nCycles := i.cycles), i)
  {
    var d := Decode(m);
    var i := d.m.cInstr.value;
    assert i.cycles >= 2;
    var m1 := Cycle(m).m;
    assert m1 == d.m.(nCycles := 1);
    IdleRun(m1, i.cycles - 2);
    FinalCycle(m1.(nCycles := i.cycles - 1));
  }

  /**
   * The CPU object: the register file, the system bus it is wired to, the
   * instruction in progress, the cycles spent on it, and the jump target a
   * handler requested (absent from the source, see README).
   */
  class Cpu6502 {
    var registers: Registers
    const sbus: Bus.SystemBus
    var cInstr: Option<Instr>
    var nCycles: u8
    var nextPc: Option<u16>

    /** The object's state as the value the specification functions take. */
    function State(): (m: Machine)
      reads this, sbus
    {
      Machine(registers, sbus.components, nextPc, cInstr, nCycles)
    }

    predicate Valid()
      reads this, sbus
    {
      Ready(State())
    }

    /** `New`: zero registers, no instruction in progress, no cycles counted. */
    constructor (bus: Bus.SystemBus)
      requires Bus.Valid(bus.components)
      ensures sbus == bus && Valid() && Counting(State())
      ensures State() == Machine(Registers(0, 0, 0, 0, 0, 0), bus.components, None, None, 0)
    {
      registers := Registers(0, 0, 0, 0, 0, 0);
      sbus := bus;
      cInstr := None;
      nCycles := 0;
      nextPc := None;
    }

    /** `Initialize`: power-up registers, pc from the reset vector. */
    method Initialize()
      requires Valid()
      modifies this, sbus
      ensures Valid() && State() == CpuState.Initialize(old(State()))
    {
      registers := registers.(a := 0, x := 0, y := 0, s := 0xff, p := FlagIntDisable | FlagReserved);
      var errLo, lo := sbus.Read(0xfffc, Cell(0));
      var errHi, hi := sbus.Read(0xfffd, Cell(0));
      registers := registers.(pc := Word(lo.value, hi.value));
    }

    /** `Reset`: s drops by 3, interrupts are disabled, pc becomes 0xfffc. */
    method Reset()
      requires Valid()
      modifies this
      ensures Valid() && State() == CpuState.Reset(old(State()))
    {
      registers := registers.(s := Wrap8(registers.s as int - 3));
      registers := registers.(p := registers.p | FlagIntDisable);
      registers := registers.(pc := 0xfffc);
    }

    /** `SetFlag`: p |= flag. */
    method SetFlag(flag: bv8)
      modifies this
      ensures registers == CpuState.SetFlag(old(registers), flag)
      ensures unchanged(sbus) && cInstr == old(cInstr) && nCycles == old(nCycles) && nextPc == old(nextPc)
    {
      registers := registers.(p := registers.p | flag);
    }

    /** `ClearFlag`: p &= ^flag. */
    method ClearFlag(flag: bv8)
      modifies this
      ensures registers == CpuState.ClearFlag(old(registers), flag)
      ensures unchanged(sbus) && cInstr == old(cInstr) && nCycles == old(nCycles) && nextPc == old(nextPc)
    {
      registers := registers.(p := registers.p & !flag);
    }

    /** `HasFlag`: every bit of `flag` is set in p. */
    method HasFlag(flag: bv8) returns (b: bool)
      ensures b <==> CpuState.HasFlag(registers, flag)
    {
      b := (registers.p & flag) == flag;
    }

    /** `doPush8`: write at 0x0100 + s (ignoring the error), then s--. */
    method DoPush8(value: u8)
      requires Valid()
      modifies this, sbus
      ensures Valid() && State() == Push8(old(State()), value)
    {
      var ignored := sbus.Write(StackAddr(registers.s), value);
      registers := registers.(s := Dec8(registers.s));
    }

    /** `doPop8`: s++, then read 0x0100 + s into a destination holding `buf`. */
    method DoPop8(buf: u8) returns (value: u8)
      requires Valid()
      modifies this, sbus
      ensures Valid() && Popped(value, State()) == Pop8(old(State()), buf)
    {
      registers := registers.(s := Inc8(registers.s));
      var ignored, out := sbus.Read(StackAddr(registers.s), Cell(buf));
      Bus.LoadFrame(old(sbus.components), StackAddr(registers.s), Cell(buf));
      value := out.value;
    }

    /** `doPush16`: the high byte, then the low byte. */
    method DoPush16(value: u16)
      requires Valid()
      modifies this, sbus
      ensures Valid() && State() == Push16(old(State()), value)
    {
      DoPush8(Hi(value));
      DoPush8(Lo(value));
    }

    /** `doPop16`: the low byte, then the high byte, into zero bytes. */
    method DoPop16() returns (value: u16)
      requires Valid()
      modifies this, sbus
      ensures Valid() && PoppedWord(value, State()) == Pop16(old(State()))
    {
      var a := DoPop8(0);
      var b := DoPop8(0);
      value := Word(a, b);
    }

    /**
     * `fetchOpperand`: read pc + i into `operand[i]` for each position,
     * stopping at the first read that fails.
     */
    method FetchOpperand(operand: array<u8>) returns (err: Option<Error>)
      requires Bus.Valid(sbus.components)
      modifies sbus, operand
      ensures Operand(err, operand[..], sbus.components)
        == FetchFrom(old(sbus.components), registers.pc, 0, old(operand[..]))
    {
      err := None;
      var pc := registers.pc;
      ghost var goal := FetchFrom(sbus.components, pc, 0, operand[..]);
      var i := 0;
      while i < operand.Length
        invariant 0 <= i <= operand.Length
        invariant Bus.Valid(sbus.components)
        invariant FetchFrom(sbus.components, pc, i, operand[..]) == goal
        invariant err.None?
        decreases operand.Length - i
      {
        err := ReadOperandByte(operand, pc, i, goal);
        if err.Some? {
          return;
        }
        i := i + 1;
      }
      FetchFromEnd(sbus.components, pc, operand[..]);
    }

    /**
     * One round of `fetchOpperand`: the read of pc + i into `operand[i]`,
     * on the way to the fetch's outcome `goal`.
     */
    method ReadOperandByte(operand: array<u8>, pc: u16, i: nat, ghost goal: Operand) returns (err: Option<Error>)
      requires Bus.Valid(sbus.components) && i < operand.Length
      requires FetchFrom(sbus.components, pc, i, operand[..]) == goal
      modifies sbus, operand
      ensures Bus.Valid(sbus.components)
      ensures err.Some? ==> Operand(err, operand[..], sbus.components) == goal
      ensures err.None? ==> FetchFrom(sbus.components, pc, i + 1, operand[..]) == goal
    {
      ghost var bytes := operand[..];
      var out;
      err, out := sbus.Read(OperandAddr(pc, i), Cell(operand[i]));
      FetchFromStep(old(sbus.components), pc, i, bytes, Loaded(err, out, sbus.components));
      if err.None? {
        operand[i] := out.value;
        assert operand[..] == bytes[i := out.value];
      }
    }

    /** `DoCycle`, one clock cycle of the CPU. */
    method DoCycle() returns (err: Option<Error>)
      requires Valid()
      modifies this, sbus
      ensures Valid() && Outcome(err, State()) == Cycle(old(State()))
    {
      err := DecodeAtPc();
      if err.Some? {
        return;
      }
      nCycles := Inc8(nCycles);
      var i := cInstr.value;
      if nCycles == i.cycles {
        err := RunInstruction(i);
      }
    }

    /** The start of `DoCycle`: with no instruction in progress, read and look up the opcode at pc. */
    method DecodeAtPc() returns (err: Option<Error>)
      requires Valid()
      modifies this, sbus
      ensures Valid() && Outcome(err, State()) == Decode(old(State()))
    {
      err := None;
      if cInstr.None? {
        var e, opcode := sbus.Read(registers.pc, Cell(0));
        if e.Some? {
          return e;
        }
        var decoded := GetInstr(opcode.value);
        if decoded.Err? {
          return Some(decoded.error);
        }
        GetInstrWellFormed(opcode.value);
        cInstr := Some(decoded.value);
        nCycles := 0;
      }
    }

    /** The last cycle of `DoCycle`: fetch the bytes, run the handler, move pc on. */
    method RunInstruction(i: Instr) returns (err: Option<Error>)
      requires Bus.Valid(sbus.components) && WellFormedRow(i)
      modifies this, sbus
      ensures Outcome(err, State()) == Finish(old(State()), i)
    {
      var operand := new u8[i.len](_ => 0);
      assert operand[..] == seq(i.len as nat, _ => 0);
      err := FetchOpperand(operand);
      if err.Some? {
        return;
      }
      err := RunHandler(i, operand[..]);
    }

    /** Look the handler up, run it on the fetched bytes, and move pc on. */
    method RunHandler(i: Instr, bytes: seq<u8>) returns (err: Option<Error>)
      requires Bus.Valid(sbus.components) && WellFormedRow(i) && |bytes| == i.len as int
      modifies this, sbus
      ensures Outcome(err, State()) == Dispatch(old(State()), i, bytes)
    {
      if FetchInstrImpl(i.instruction).None? {
        return Some(NoHandler);
      }
      RowLongEnough(i);
      var o := Execute(State(), i, bytes);
      if o.err.Some? {
        return o.err;
      }
      registers, nextPc := o.m.regs, o.m.nextPc;
      sbus.components := o.m.bus;
      var m := Commit(State(), i);
      registers, cInstr, nextPc := m.regs, m.cInstr, m.nextPc;
      err := None;
    }
  }
}
