// The 6502 instruction set as the emulator knows it: the mnemonic and
// addressing-mode enumerations, the static opcode table in source order,
// and the linear first-match lookup `GetInstr`.
module Instructions {
  import opened Common

  /** The instruction identifiers, in the order of their enumeration. */
  datatype Mnemonic =
    | ADC | AND | ASL | BCC | BCS | BEQ | BIT | BMI | BNE | BPL | BRA | BRK | BVC | BVS | CLC | CLD
    | CLI | CLV | CMP | CPX | CPY | DEC | DEX | DEY | EOR | INC | INX | INY | JMP | JSR | LDA | LDX
    | LDY | LSR | NOP | ORA | PHA | PHP | PHX | PHY | PLA | PLP | PLX | PLY | ROL | ROR | RTI | RTS
    | SBC | SEC | SED | SEI | STA | STZ | STX | STY | TAX | TAY | TRB | TSB | TSX | TXA | TXS | TYA

  /** The addressing modes, in the order of their enumeration. */
  datatype Mode = IMM | IMP | REL | ZPG | ZPX | ZPY | ABS | ABX | ABY | IND | IDX | IDY | ACC

  /** One row of the opcode table. */
  datatype Instr = Instr(instruction: Mnemonic, mode: Mode, opcode: u8, len: u8, cycles: u8, pbCrossCycles: u8)

  /** The numeric value of a mnemonic (its position in the enumeration). */
  function Ordinal(m: Mnemonic): (n: nat)
    ensures n < 64
  {
    match m
    case ADC => 0
    case AND => 1
    case ASL => 2
    case BCC => 3
    case BCS => 4
    case BEQ => 5
    case BIT => 6
    case BMI => 7
    case BNE => 8
    case BPL => 9
    case BRA => 10
    case BRK => 11
    case BVC => 12
    case BVS => 13
    case CLC => 14
    case CLD => 15
    case CLI => 16
    case CLV => 17
    case CMP => 18
    case CPX => 19
    case CPY => 20
    case DEC => 21
    case DEX => 22
    case DEY => 23
    case EOR => 24
    case INC => 25
    case INX => 26
    case INY => 27
    case JMP => 28
    case JSR => 29
    case LDA => 30
    case LDX => 31
    case LDY => 32
    case LSR => 33
    case NOP => 34
    case ORA => 35
    case PHA => 36
    case PHP => 37
    case PHX => 38
    case PHY => 39
    case PLA => 40
    case PLP => 41
    case PLX => 42
    case PLY => 43
    case ROL => 44
    case ROR => 45
    case RTI => 46
    case RTS => 47
    case SBC => 48
    case SEC => 49
    case SED => 50
    case SEI => 51
    case STA => 52
    case STZ => 53
    case STX => 54
    case STY => 55
    case TAX => 56
    case TAY => 57
    case TRB => 58
    case TSB => 59
    case TSX => 60
    case TXA => 61
    case TXS => 62
    case TYA => 63
  }

  predicate IsBranch(m: Mnemonic) {
    m in {BCC, BCS, BEQ, BMI, BNE, BPL, BRA, BVC, BVS}
  }

  /** The operand length a mode implies: opcode byte plus operand bytes. */
  function ModeLen(m: Mnemonic, mode: Mode): u8 {
    match mode
    case IMP | ACC => 1
    case IMM | REL | ZPG | ZPX | ZPY | IDX | IDY => 2
    case ABS | ABX | ABY => 3
    case IND => if m == JMP then 3 else 2
  }

  /** The regularities every row of the table has. */
  predicate WellFormedRow(r: Instr) {
    && 1 <= r.len <= 3
    && r.len == ModeLen(r.instruction, r.mode)
    && r.cycles >= 2
    && r.pbCrossCycles <= 1
    && (r.mode == REL <==> IsBranch(r.instruction))
  }

  /** The LDA rows, in table order. */
  function LdaRows(): seq<Instr> {
    [ Instr(LDA, IMM, 0xa9, 2, 2, 0),
      Instr(LDA, ZPG, 0xa5, 2, 3, 0),
      Instr(LDA, ZPX, 0xb5, 2, 4, 0),
      Instr(LDA, ABS, 0xad, 3, 4, 0),
      Instr(LDA, ABX, 0xbd, 3, 4, 1),
      Instr(LDA, ABY, 0xb9, 3, 4, 1),
      Instr(LDA, IDX, 0xa1, 2, 6, 0),
      Instr(LDA, IDY, 0xb1, 2, 5, 1),
      Instr(LDA, IND, 0xb2, 2, 5, 0) ]
  }

  /** The LDX and LDY rows, in table order. */
  function LdxLdyRows(): seq<Instr> {
    [ Instr(LDX, IMM, 0xa2, 2, 2, 0),
      Instr(LDX, ZPG, 0xa6, 2, 3, 0),
      Instr(LDX, ZPY, 0xb6, 2, 4, 0),
      Instr(LDX, ABS, 0xae, 3, 4, 0),
      Instr(LDX, ABY, 0xbe, 3, 4, 1),
      Instr(LDY, IMM, 0xa0, 2, 2, 0),
      Instr(LDY, ZPG, 0xa4, 2, 3, 0),
      Instr(LDY, ZPX, 0xb4, 2, 4, 0),
      Instr(LDY, ABS, 0xac, 3, 4, 0),
      Instr(LDY, ABX, 0xbc, 3, 4, 1) ]
  }

  /** The STA and STX rows, in table order. */
  function StaStxRows(): seq<Instr> {
    [ Instr(STA, ZPG, 0x85, 2, 3, 0),
      Instr(STA, ZPX, 0x95, 2, 4, 0),
      Instr(STA, ABS, 0x8d, 3, 4, 0),
      Instr(STA, ABX, 0x9d, 3, 5, 0),
      Instr(STA, ABY, 0x99, 3, 5, 0),
      Instr(STA, IDX, 0x81, 2, 6, 0),
      Instr(STA, IDY, 0x91, 2, 6, 0),
      Instr(STA, IND, 0x92, 2, 5, 0),
      Instr(STX, ZPG, 0x86, 2, 3, 0),
      Instr(STX, ZPY, 0x96, 2, 4, 0),
      Instr(STX, ABS, 0x8e, 3, 4, 0) ]
  }

  /** The STY and STZ rows, in table order. */
  function StyStzRows(): seq<Instr> {
    [ Instr(STY, ZPG, 0x84, 2, 3, 0),
      Instr(STY, ZPX, 0x94, 2, 4, 0),
      Instr(STY, ABS, 0x8c, 3, 4, 0),
      Instr(STZ, ZPG, 0x64, 2, 3, 0),
      Instr(STZ, ZPX, 0x74, 2, 4, 0),
      Instr(STZ, ABS, 0x9c, 3, 4, 0),
      Instr(STZ, ABX, 0x9e, 3, 5, 0) ]
  }

  /** The ADC rows, in table order. */
  function AdcRows(): seq<Instr> {
    [ Instr(ADC, IMM, 0x69, 2, 2, 0),
      Instr(ADC, ZPG, 0x65, 2, 3, 0),
      Instr(ADC, ZPX, 0x75, 2, 4, 0),
      Instr(ADC, ABS, 0x6d, 3, 4, 0),
      Instr(ADC, ABX, 0x7d, 3, 4, 1),
      Instr(ADC, ABY, 0x79, 3, 4, 1),
      Instr(ADC, IDX, 0x61, 2, 6, 0),
      Instr(ADC, IDY, 0x71, 2, 5, 1),
      Instr(ADC, IND, 0x72, 2, 5, 1) ]
  }

  /** The SBC rows, in table order. */
  function SbcRows(): seq<Instr> {
    [ Instr(SBC, IMM, 0xe9, 2, 2, 0),
      Instr(SBC, ZPG, 0xe5, 2, 3, 0),
      Instr(SBC, ZPX, 0xf5, 2, 4, 0),
      Instr(SBC, ABS, 0xed, 3, 4, 0),
      Instr(SBC, ABX, 0xfd, 3, 4, 1),
      Instr(SBC, ABY, 0xf9, 3, 4, 1),
      Instr(SBC, IDX, 0xe1, 2, 6, 0),
      Instr(SBC, IDY, 0xf1, 2, 5, 1),
      Instr(SBC, IND, 0xf2, 2, 5, 1) ]
  }

  /** The CMP rows, in table order. */
  function CmpRows(): seq<Instr> {
    [ Instr(CMP, IMM, 0xc9, 2, 2, 0),
      Instr(CMP, ZPG, 0xc5, 2, 3, 0),
      Instr(CMP, ZPX, 0xd5, 2, 4, 0),
      Instr(CMP, ABS, 0xcd, 3, 4, 0),
      Instr(CMP, ABX, 0xdd, 3, 4, 1),
      Instr(CMP, ABY, 0xd9, 3, 4, 1),
      Instr(CMP, IDX, 0xc1, 2, 6, 0),
      Instr(CMP, IDY, 0xd1, 2, 5, 1),
      Instr(CMP, IND, 0xd2, 2, 5, 0) ]
  }

  /** The CPX, CPY and BIT rows, in table order. */
  function CpxCpyBitRows(): seq<Instr> {
    [ Instr(CPX, IMM, 0xe0, 2, 2, 0),
      Instr(CPX, ZPG, 0xe4, 2, 3, 0),
      Instr(CPX, ABS, 0xec, 3, 4, 0),
      Instr(CPY, IMM, 0xc0, 2, 2, 0),
      Instr(CPY, ZPG, 0xc4, 2, 3, 0),
      Instr(CPY, ABS, 0xcc, 3, 4, 0),
      Instr(BIT, IMM, 0x89, 2, 2, 0),
      Instr(BIT, ZPG, 0x24, 2, 3, 0),
      Instr(BIT, ZPX, 0x34, 2, 4, 0),
      Instr(BIT, ABS, 0x2c, 3, 4, 0),
      Instr(BIT, ABX, 0x3c, 3, 4, 1) ]
  }

  /** The CLC, SEC, CLI, SEI, CLD, SED and CLV rows, in table order. */
  function FlagRows(): seq<Instr> {
    [ Instr(CLC, IMP, 0x18, 1, 2, 0),
      Instr(SEC, IMP, 0x38, 1, 2, 0),
      Instr(CLI, IMP, 0x58, 1, 2, 0),
      Instr(SEI, IMP, 0x78, 1, 2, 0),
      Instr(CLD, IMP, 0xd8, 1, 2, 0),
      Instr(SED, IMP, 0xf8, 1, 2, 0),
      Instr(CLV, IMP, 0xb8, 1, 2, 0) ]
  }

  /** The BCC, BCS, BEQ, BNE, BMI, BPL, BVC, BVS, BRA and BRK rows, in table order. */
  function BranchRows(): seq<Instr> {
    [ Instr(BCC, REL, 0x90, 2, 2, 1),
      Instr(BCS, REL, 0xb0, 2, 2, 1),
      Instr(BEQ, REL, 0xf0, 2, 2, 1),
      Instr(BNE, REL, 0xd0, 2, 2, 1),
      Instr(BMI, REL, 0x30, 2, 2, 1),
      Instr(BPL, REL, 0x10, 2, 2, 1),
      Instr(BVC, REL, 0x50, 2, 2, 1),
      Instr(BVS, REL, 0x70, 2, 2, 1),
      Instr(BRA, REL, 0x80, 2, 2, 1),
      Instr(BRK, IMP, 0x00, 1, 7, 0) ]
  }

  /** The AND rows, in table order. */
  function AndRows(): seq<Instr> {
    [ Instr(AND, IMM, 0x29, 2, 2, 0),
      Instr(AND, ZPG, 0x25, 2, 3, 0),
      Instr(AND, ZPX, 0x35, 2, 4, 0),
      Instr(AND, ABS, 0x2d, 3, 4, 0),
      Instr(AND, ABX, 0x3d, 3, 4, 1),
      Instr(AND, ABY, 0x39, 3, 4, 1),
      Instr(AND, IDX, 0x21, 2, 6, 0),
      Instr(AND, IDY, 0x31, 2, 5, 1),
      Instr(AND, IND, 0x32, 2, 5, 0) ]
  }

  /** The ORA rows, in table order. */
  function OraRows(): seq<Instr> {
    [ Instr(ORA, IMM, 0x09, 2, 2, 0),
      Instr(ORA, ZPG, 0x05, 2, 3, 0),
      Instr(ORA, ZPX, 0x15, 2, 4, 0),
      Instr(ORA, ABS, 0x0d, 3, 4, 0),
      Instr(ORA, ABX, 0x1d, 3, 4, 1),
      Instr(ORA, ABY, 0x19, 3, 4, 1),
      Instr(ORA, IDX, 0x01, 2, 6, 0),
      Instr(ORA, IDY, 0x11, 2, 5, 1),
      Instr(ORA, IND, 0x12, 2, 5, 0) ]
  }

  /** The EOR rows, in table order. */
  function EorRows(): seq<Instr> {
    [ Instr(EOR, IMM, 0x49, 2, 2, 0),
      Instr(EOR, ZPG, 0x45, 2, 3, 0),
      Instr(EOR, ZPX, 0x55, 2, 4, 0),
      Instr(EOR, ABS, 0x4d, 3, 4, 0),
      Instr(EOR, ABX, 0x5d, 3, 4, 1),
      Instr(EOR, ABY, 0x59, 3, 4, 1),
      Instr(EOR, IDX, 0x41, 2, 6, 0),
      Instr(EOR, IDY, 0x51, 2, 5, 1),
      Instr(EOR, IND, 0x52, 2, 5, 0) ]
  }

  /** The INC and DEC rows, in table order. */
  function IncDecRows(): seq<Instr> {
    [ Instr(INC, ZPG, 0xe6, 2, 5, 0),
      Instr(INC, ZPX, 0xf6, 2, 6, 0),
      Instr(INC, ABS, 0xee, 3, 6, 0),
      Instr(INC, ABX, 0xfe, 3, 7, 0),
      Instr(INC, ACC, 0x1a, 1, 2, 0),
      Instr(DEC, ZPG, 0xc6, 2, 5, 0),
      Instr(DEC, ZPX, 0xd6, 2, 6, 0),
      Instr(DEC, ABS, 0xce, 3, 6, 0),
      Instr(DEC, ABX, 0xde, 3, 7, 0),
      Instr(DEC, ACC, 0x3a, 1, 2, 0) ]
  }

  /** The INX, INY, DEX, DEY, JMP, JSR, RTS, RTI and NOP rows, in table order. */
  function StepJumpRows(): seq<Instr> {
    [ Instr(INX, IMP, 0xe8, 1, 2, 0),
      Instr(INY, IMP, 0xc8, 1, 2, 0),
      Instr(DEX, IMP, 0xca, 1, 2, 0),
      Instr(DEY, IMP, 0x88, 1, 2, 0),
      Instr(JMP, ABS, 0x4c, 3, 3, 0),
      Instr(JMP, ABX, 0x7c, 3, 6, 0),
      Instr(JMP, IND, 0x6c, 3, 5, 0),
      Instr(JSR, ABS, 0x20, 3, 6, 0),
      Instr(RTS, IMP, 0x60, 1, 6, 0),
      Instr(RTI, IMP, 0x40, 1, 6, 0),
      Instr(NOP, IMP, 0xea, 1, 2, 0) ]
  }

  /** The TAX, TXA, TAY, TYA, TXS, TSX, TRB and TSB rows, in table order. */
  function TransferRows(): seq<Instr> {
    [ Instr(TAX, IMP, 0xaa, 1, 2, 0),
      Instr(TXA, IMP, 0x8a, 1, 2, 0),
      Instr(TAY, IMP, 0xa8, 1, 2, 0),
      Instr(TYA, IMP, 0x98, 1, 2, 0),
      Instr(TXS, IMP, 0x9a, 1, 2, 0),
      Instr(TSX, IMP, 0xba, 1, 2, 0),
      Instr(TRB, ZPG, 0x14, 2, 5, 0),
      Instr(TRB, ABS, 0x1c, 3, 6, 0),
      Instr(TSB, ZPG, 0x04, 2, 5, 0),
      Instr(TSB, ABS, 0x0c, 3, 6, 0) ]
  }

  /** The PHA, PLA, PHP, PLP, PHX, PLX, PHY and PLY rows, in table order. */
  function StackRows(): seq<Instr> {
    [ Instr(PHA, IMP, 0x48, 1, 3, 0),
      Instr(PLA, IMP, 0x68, 1, 4, 0),
      Instr(PHP, IMP, 0x08, 1, 3, 0),
      Instr(PLP, IMP, 0x28, 1, 4, 0),
      Instr(PHX, IMP, 0xda, 1, 3, 0),
      Instr(PLX, IMP, 0xfa, 1, 4, 0),
      Instr(PHY, IMP, 0x5a, 1, 3, 0),
      Instr(PLY, IMP, 0x7a, 1, 4, 0) ]
  }

  /** The ASL and LSR rows, in table order. */
  function AslLsrRows(): seq<Instr> {
    [ Instr(ASL, ACC, 0x0a, 1, 2, 0),
      Instr(ASL, ZPG, 0x06, 2, 5, 0),
      Instr(ASL, ZPX, 0x16, 2, 6, 0),
      Instr(ASL, ABS, 0x0e, 3, 6, 0),
      Instr(ASL, ABX, 0x1e, 3, 7, 0),
      Instr(LSR, ACC, 0x4a, 1, 2, 0),
      Instr(LSR, ZPG, 0x46, 2, 5, 0),
      Instr(LSR, ZPX, 0x56, 2, 6, 0),
      Instr(LSR, ABS, 0x4e, 3, 6, 0),
      Instr(LSR, ABX, 0x5e, 3, 7, 0) ]
  }

  /** The ROL and ROR rows, in table order. */
  function RolRorRows(): seq<Instr> {
    [ Instr(ROL, ACC, 0x2a, 1, 2, 0),
      Instr(ROL, ZPG, 0x26, 2, 5, 0),
      Instr(ROL, ZPX, 0x36, 2, 6, 0),
      Instr(ROL, ABS, 0x2e, 3, 6, 0),
      Instr(ROL, ABX, 0x3e, 3, 7, 0),
      Instr(ROR, ACC, 0x6a, 1, 2, 0),
      Instr(ROR, ZPG, 0x66, 2, 5, 0),
      Instr(ROR, ZPX, 0x76, 2, 6, 0),
      Instr(ROR, ABS, 0x6e, 3, 6, 0),
      Instr(ROR, ABX, 0x7e, 3, 7, 0) ]
  }

  function LoadStoreRows(): seq<Instr> {
    LdaRows() + LdxLdyRows() + StaStxRows() + StyStzRows()
  }

  function CompareArithmeticRows(): seq<Instr> {
    AdcRows() + SbcRows() + CmpRows() + CpxCpyBitRows()
  }

  function FlagBranchLogicRows(): seq<Instr> {
    FlagRows() + BranchRows() + AndRows() + OraRows() + EorRows()
  }

  function StepJumpStackShiftRows(): seq<Instr> {
    IncDecRows() + StepJumpRows() + TransferRows() + StackRows() + AslLsrRows() + RolRorRows()
  }

  /** `cpuInstructions`: all 178 rows, in source order. */
  function Table(): (t: seq<Instr>)
    ensures |t| == 178
  {
    LoadStoreRows() + CompareArithmeticRows() + FlagBranchLogicRows() + StepJumpStackShiftRows()
  }

  /** The position of the first row at index `i` or later with opcode `op`. */
  function SearchFrom(rows: seq<Instr>, op: u8, i: nat): (r: Option<nat>)
    requires i <= |rows|
    ensures r.Some? ==> i <= r.value < |rows| && rows[r.value].opcode == op
    ensures r.Some? ==> forall j :: i <= j < r.value ==> rows[j].opcode != op
    ensures r.None? ==> forall j :: i <= j < |rows| ==> rows[j].opcode != op
    decreases |rows| - i
  {
    if i == |rows| then None
    else if rows[i].opcode == op then Some(i)
    else SearchFrom(rows, op, i + 1)
  }

  /** `GetInstr`: the first row with the opcode, or the invalid-opcode error. */
  function GetInstr(op: u8): (r: Result<Instr>)
    ensures r.Ok? ==> r.value in Table() && r.value.opcode == op
    ensures r.Err? <==> forall j :: 0 <= j < |Table()| ==> Table()[j].opcode != op
    ensures r.Err? ==> r.error == InvalidOpcode
  {
    match SearchFrom(Table(), op, 0)
    case None => Err(InvalidOpcode)
    case Some(k) => Ok(Table()[k])
  }

  /**
   * The position of each opcode in the table, or -1 for an opcode the table
   * does not list; a proof device for the distinctness of the opcodes.
   */
  function RowIndex(op: u8): int {
    match op / 16
    case 0x0 => (match op case 0x00 => 91 case 0x01 => 107 case 0x04 => 148 case 0x05 => 102 case 0x06 => 159 case 0x08 => 152 case 0x09 => 101 case 0x0a => 158 case 0x0c => 149 case 0x0d => 104 case 0x0e => 161 case _ => -1)
    case 0x1 => (match op case 0x10 => 87 case 0x11 => 108 case 0x12 => 109 case 0x14 => 146 case 0x15 => 103 case 0x16 => 160 case 0x18 => 75 case 0x19 => 106 case 0x1a => 123 case 0x1c => 147 case 0x1d => 105 case 0x1e => 162 case _ => -1)
    case 0x2 => (match op case 0x20 => 136 case 0x21 => 98 case 0x24 => 71 case 0x25 => 93 case 0x26 => 169 case 0x28 => 153 case 0x29 => 92 case 0x2a => 168 case 0x2c => 73 case 0x2d => 95 case 0x2e => 171 case _ => -1)
    case 0x3 => (match op case 0x30 => 86 case 0x31 => 99 case 0x32 => 100 case 0x34 => 72 case 0x35 => 94 case 0x36 => 170 case 0x38 => 76 case 0x39 => 97 case 0x3a => 128 case 0x3c => 74 case 0x3d => 96 case 0x3e => 172 case _ => -1)
    case 0x4 => (match op case 0x40 => 138 case 0x41 => 116 case 0x45 => 111 case 0x46 => 164 case 0x48 => 150 case 0x49 => 110 case 0x4a => 163 case 0x4c => 133 case 0x4d => 113 case 0x4e => 166 case _ => -1)
    case 0x5 => (match op case 0x50 => 88 case 0x51 => 117 case 0x52 => 118 case 0x55 => 112 case 0x56 => 165 case 0x58 => 77 case 0x59 => 115 case 0x5a => 156 case 0x5d => 114 case 0x5e => 167 case _ => -1)
    case 0x6 => (match op case 0x60 => 137 case 0x61 => 43 case 0x64 => 33 case 0x65 => 38 case 0x66 => 174 case 0x68 => 151 case 0x69 => 37 case 0x6a => 173 case 0x6c => 135 case 0x6d => 40 case 0x6e => 176 case _ => -1)
    case 0x7 => (match op case 0x70 => 89 case 0x71 => 44 case 0x72 => 45 case 0x74 => 34 case 0x75 => 39 case 0x76 => 175 case 0x78 => 78 case 0x79 => 42 case 0x7a => 157 case 0x7c => 134 case 0x7d => 41 case 0x7e => 177 case _ => -1)
    case 0x8 => (match op case 0x80 => 90 case 0x81 => 24 case 0x84 => 30 case 0x85 => 19 case 0x86 => 27 case 0x88 => 132 case 0x89 => 70 case 0x8a => 141 case 0x8c => 32 case 0x8d => 21 case 0x8e => 29 case _ => -1)
    case 0x9 => (match op case 0x90 => 82 case 0x91 => 25 case 0x92 => 26 case 0x94 => 31 case 0x95 => 20 case 0x96 => 28 case 0x98 => 143 case 0x99 => 23 case 0x9a => 144 case 0x9c => 35 case 0x9d => 22 case 0x9e => 36 case _ => -1)
    case 0xa => (match op case 0xa0 => 14 case 0xa1 => 6 case 0xa2 => 9 case 0xa4 => 15 case 0xa5 => 1 case 0xa6 => 10 case 0xa8 => 142 case 0xa9 => 0 case 0xaa => 140 case 0xac => 17 case 0xad => 3 case 0xae => 12 case _ => -1)
    case 0xb => (match op case 0xb0 => 83 case 0xb1 => 7 case 0xb2 => 8 case 0xb4 => 16 case 0xb5 => 2 case 0xb6 => 11 case 0xb8 => 81 case 0xb9 => 5 case 0xba => 145 case 0xbc => 18 case 0xbd => 4 case 0xbe => 13 case _ => -1)
    case 0xc => (match op case 0xc0 => 67 case 0xc1 => 61 case 0xc4 => 68 case 0xc5 => 56 case 0xc6 => 124 case 0xc8 => 130 case 0xc9 => 55 case 0xca => 131 case 0xcc => 69 case 0xcd => 58 case 0xce => 126 case _ => -1)
    case 0xd => (match op case 0xd0 => 85 case 0xd1 => 62 case 0xd2 => 63 case 0xd5 => 57 case 0xd6 => 125 case 0xd8 => 79 case 0xd9 => 60 case 0xda => 154 case 0xdd => 59 case 0xde => 127 case _ => -1)
    case 0xe => (match op case 0xe0 => 64 case 0xe1 => 52 case 0xe4 => 65 case 0xe5 => 47 case 0xe6 => 119 case 0xe8 => 129 case 0xe9 => 46 case 0xea => 139 case 0xec => 66 case 0xed => 49 case 0xee => 121 case _ => -1)
    case 0xf => (match op case 0xf0 => 84 case 0xf1 => 53 case 0xf2 => 54 case 0xf5 => 48 case 0xf6 => 120 case 0xf8 => 80 case 0xf9 => 51 case 0xfa => 155 case 0xfd => 50 case 0xfe => 122 case _ => -1)
  }

  predicate Ranked(s: seq<Instr>, off: int) {
    forall i :: 0 <= i < |s| ==> RowIndex(s[i].opcode) == off + i
  }

  lemma RankedAppend(a: seq<Instr>, b: seq<Instr>, off: int)
    requires Ranked(a, off) && Ranked(b, off + |a|)
    ensures Ranked(a + b, off)
  {
  }

  predicate AllWellFormed(s: seq<Instr>) {
    forall i :: 0 <= i < |s| ==> WellFormedRow(s[i])
  }

  lemma WellFormedAppend(a: seq<Instr>, b: seq<Instr>)
    requires AllWellFormed(a) && AllWellFormed(b)
    ensures AllWellFormed(a + b)
  {
  }

  lemma LdaRowsRanked()
    ensures forall i :: 0 <= i < |LdaRows()| ==> RowIndex(LdaRows()[i].opcode) == 0 + i
  {
  }

  lemma LdaRowsWellFormed()
    ensures forall i :: 0 <= i < |LdaRows()| ==> WellFormedRow(LdaRows()[i])
  {
  }

  lemma LdxLdyRowsRanked()
    ensures forall i :: 0 <= i < |LdxLdyRows()| ==> RowIndex(LdxLdyRows()[i].opcode) == 9 + i
  {
  }

  lemma LdxLdyRowsWellFormed()
    ensures forall i :: 0 <= i < |LdxLdyRows()| ==> WellFormedRow(LdxLdyRows()[i])
  {
  }

  lemma StaStxRowsRanked()
    ensures forall i :: 0 <= i < |StaStxRows()| ==> RowIndex(StaStxRows()[i].opcode) == 19 + i
  {
  }

  lemma StaStxRowsWellFormed()
    ensures forall i :: 0 <= i < |StaStxRows()| ==> WellFormedRow(StaStxRows()[i])
  {
  }

  lemma StyStzRowsRanked()
    ensures forall i :: 0 <= i < |StyStzRows()| ==> RowIndex(StyStzRows()[i].opcode) == 30 + i
  {
  }

  lemma StyStzRowsWellFormed()
    ensures forall i :: 0 <= i < |StyStzRows()| ==> WellFormedRow(StyStzRows()[i])
  {
  }

  lemma AdcRowsRanked()
    ensures forall i :: 0 <= i < |AdcRows()| ==> RowIndex(AdcRows()[i].opcode) == 37 + i
  {
  }

  lemma AdcRowsWellFormed()
    ensures forall i :: 0 <= i < |AdcRows()| ==> WellFormedRow(AdcRows()[i])
  {
  }

  lemma SbcRowsRanked()
    ensures forall i :: 0 <= i < |SbcRows()| ==> RowIndex(SbcRows()[i].opcode) == 46 + i
  {
  }

  lemma SbcRowsWellFormed()
    ensures forall i :: 0 <= i < |SbcRows()| ==> WellFormedRow(SbcRows()[i])
  {
  }

  lemma CmpRowsRanked()
    ensures forall i :: 0 <= i < |CmpRows()| ==> RowIndex(CmpRows()[i].opcode) == 55 + i
  {
  }

  lemma CmpRowsWellFormed()
    ensures forall i :: 0 <= i < |CmpRows()| ==> WellFormedRow(CmpRows()[i])
  {
  }

  lemma CpxCpyBitRowsRanked()
    ensures forall i :: 0 <= i < |CpxCpyBitRows()| ==> RowIndex(CpxCpyBitRows()[i].opcode) == 64 + i
  {
  }

  lemma CpxCpyBitRowsWellFormed()
    ensures forall i :: 0 <= i < |CpxCpyBitRows()| ==> WellFormedRow(CpxCpyBitRows()[i])
  {
  }

  lemma FlagRowsRanked()
    ensures forall i :: 0 <= i < |FlagRows()| ==> RowIndex(FlagRows()[i].opcode) == 75 + i
  {
  }

  lemma FlagRowsWellFormed()
    ensures forall i :: 0 <= i < |FlagRows()| ==> WellFormedRow(FlagRows()[i])
  {
  }

  lemma BranchRowsRanked()
    ensures forall i :: 0 <= i < |BranchRows()| ==> RowIndex(BranchRows()[i].opcode) == 82 + i
  {
  }

  lemma BranchRowsWellFormed()
    ensures forall i :: 0 <= i < |BranchRows()| ==> WellFormedRow(BranchRows()[i])
  {
  }

  lemma AndRowsRanked()
    ensures forall i :: 0 <= i < |AndRows()| ==> RowIndex(AndRows()[i].opcode) == 92 + i
  {
  }

  lemma AndRowsWellFormed()
    ensures forall i :: 0 <= i < |AndRows()| ==> WellFormedRow(AndRows()[i])
  {
  }

  lemma OraRowsRanked()
    ensures forall i :: 0 <= i < |OraRows()| ==> RowIndex(OraRows()[i].opcode) == 101 + i
  {
  }

  lemma OraRowsWellFormed()
    ensures forall i :: 0 <= i < |OraRows()| ==> WellFormedRow(OraRows()[i])
  {
  }

  lemma EorRowsRanked()
    ensures forall i :: 0 <= i < |EorRows()| ==> RowIndex(EorRows()[i].opcode) == 110 + i
  {
  }

  lemma EorRowsWellFormed()
    ensures forall i :: 0 <= i < |EorRows()| ==> WellFormedRow(EorRows()[i])
  {
  }

  lemma IncDecRowsRanked()
    ensures forall i :: 0 <= i < |IncDecRows()| ==> RowIndex(IncDecRows()[i].opcode) == 119 + i
  {
  }

  lemma IncDecRowsWellFormed()
    ensures forall i :: 0 <= i < |IncDecRows()| ==> WellFormedRow(IncDecRows()[i])
  {
  }

  lemma StepJumpRowsRanked()
    ensures forall i :: 0 <= i < |StepJumpRows()| ==> RowIndex(StepJumpRows()[i].opcode) == 129 + i
  {
  }

  lemma StepJumpRowsWellFormed()
    ensures forall i :: 0 <= i < |StepJumpRows()| ==> WellFormedRow(StepJumpRows()[i])
  {
  }

  lemma TransferRowsRanked()
    ensures forall i :: 0 <= i < |TransferRows()| ==> RowIndex(TransferRows()[i].opcode) == 140 + i
  {
  }

  lemma TransferRowsWellFormed()
    ensures forall i :: 0 <= i < |TransferRows()| ==> WellFormedRow(TransferRows()[i])
  {
  }

  lemma StackRowsRanked()
    ensures forall i :: 0 <= i < |StackRows()| ==> RowIndex(StackRows()[i].opcode) == 150 + i
  {
  }

  lemma StackRowsWellFormed()
    ensures forall i :: 0 <= i < |StackRows()| ==> WellFormedRow(StackRows()[i])
  {
  }

  lemma AslLsrRowsRanked()
    ensures forall i :: 0 <= i < |AslLsrRows()| ==> RowIndex(AslLsrRows()[i].opcode) == 158 + i
  {
  }

  lemma AslLsrRowsWellFormed()
    ensures forall i :: 0 <= i < |AslLsrRows()| ==> WellFormedRow(AslLsrRows()[i])
  {
  }

  lemma RolRorRowsRanked()
    ensures forall i :: 0 <= i < |RolRorRows()| ==> RowIndex(RolRorRows()[i].opcode) == 168 + i
  {
  }

  lemma RolRorRowsWellFormed()
    ensures forall i :: 0 <= i < |RolRorRows()| ==> WellFormedRow(RolRorRows()[i])
  {
  }

  lemma LoadStoreRowsRanked()
    ensures Ranked(LoadStoreRows(), 0)
  {
    LdaRowsRanked();
    LdxLdyRowsRanked();
    RankedAppend(LdaRows(), LdxLdyRows(), 0);
    StaStxRowsRanked();
    RankedAppend(LdaRows() + LdxLdyRows(), StaStxRows(), 0);
    StyStzRowsRanked();
    RankedAppend(LdaRows() + LdxLdyRows() + StaStxRows(), StyStzRows(), 0);
  }

  lemma LoadStoreRowsWellFormed()
    ensures AllWellFormed(LoadStoreRows())
  {
    LdaRowsWellFormed();
    LdxLdyRowsWellFormed();
    WellFormedAppend(LdaRows(), LdxLdyRows());
    StaStxRowsWellFormed();
    WellFormedAppend(LdaRows() + LdxLdyRows(), StaStxRows());
    StyStzRowsWellFormed();
    WellFormedAppend(LdaRows() + LdxLdyRows() + StaStxRows(), StyStzRows());
  }

  lemma CompareArithmeticRowsRanked()
    ensures Ranked(CompareArithmeticRows(), 37)
  {
    AdcRowsRanked();
    SbcRowsRanked();
    RankedAppend(AdcRows(), SbcRows(), 37);
    CmpRowsRanked();
    RankedAppend(AdcRows() + SbcRows(), CmpRows(), 37);
    CpxCpyBitRowsRanked();
    RankedAppend(AdcRows() + SbcRows() + CmpRows(), CpxCpyBitRows(), 37);
  }

  lemma CompareArithmeticRowsWellFormed()
    ensures AllWellFormed(CompareArithmeticRows())
  {
    AdcRowsWellFormed();
    SbcRowsWellFormed();
    WellFormedAppend(AdcRows(), SbcRows());
    CmpRowsWellFormed();
    WellFormedAppend(AdcRows() + SbcRows(), CmpRows());
    CpxCpyBitRowsWellFormed();
    WellFormedAppend(AdcRows() + SbcRows() + CmpRows(), CpxCpyBitRows());
  }

  lemma FlagBranchLogicRowsRanked()
    ensures Ranked(FlagBranchLogicRows(), 75)
  {
    FlagRowsRanked();
    BranchRowsRanked();
    RankedAppend(FlagRows(), BranchRows(), 75);
    AndRowsRanked();
    RankedAppend(FlagRows() + BranchRows(), AndRows(), 75);
    OraRowsRanked();
    RankedAppend(FlagRows() + BranchRows() + AndRows(), OraRows(), 75);
    EorRowsRanked();
    RankedAppend(FlagRows() + BranchRows() + AndRows() + OraRows(), EorRows(), 75);
  }

  lemma FlagBranchLogicRowsWellFormed()
    ensures AllWellFormed(FlagBranchLogicRows())
  {
    FlagRowsWellFormed();
    BranchRowsWellFormed();
    WellFormedAppend(FlagRows(), BranchRows());
    AndRowsWellFormed();
    WellFormedAppend(FlagRows() + BranchRows(), AndRows());
    OraRowsWellFormed();
    WellFormedAppend(FlagRows() + BranchRows() + AndRows(), OraRows());
    EorRowsWellFormed();
    WellFormedAppend(FlagRows() + BranchRows() + AndRows() + OraRows(), EorRows());
  }

  lemma StepJumpStackShiftRowsRanked()
    ensures Ranked(StepJumpStackShiftRows(), 119)
  {
    IncDecRowsRanked();
    StepJumpRowsRanked();
    RankedAppend(IncDecRows(), StepJumpRows(), 119);
    TransferRowsRanked();
    RankedAppend(IncDecRows() + StepJumpRows(), TransferRows(), 119);
    StackRowsRanked();
    RankedAppend(IncDecRows() + StepJumpRows() + TransferRows(), StackRows(), 119);
    AslLsrRowsRanked();
    RankedAppend(IncDecRows() + StepJumpRows() + TransferRows() + StackRows(), AslLsrRows(), 119);
    RolRorRowsRanked();
    RankedAppend(IncDecRows() + StepJumpRows() + TransferRows() + StackRows() + AslLsrRows(), RolRorRows(), 119);
  }

  lemma StepJumpStackShiftRowsWellFormed()
    ensures AllWellFormed(StepJumpStackShiftRows())
  {
    IncDecRowsWellFormed();
    StepJumpRowsWellFormed();
    WellFormedAppend(IncDecRows(), StepJumpRows());
    TransferRowsWellFormed();
    WellFormedAppend(IncDecRows() + StepJumpRows(), TransferRows());
    StackRowsWellFormed();
    WellFormedAppend(IncDecRows() + StepJumpRows() + TransferRows(), StackRows());
    AslLsrRowsWellFormed();
    WellFormedAppend(IncDecRows() + StepJumpRows() + TransferRows() + StackRows(), AslLsrRows());
    RolRorRowsWellFormed();
    WellFormedAppend(IncDecRows() + StepJumpRows() + TransferRows() + StackRows() + AslLsrRows(), RolRorRows());
  }
  lemma TableRanked()
    ensures Ranked(Table(), 0)
  {
    LoadStoreRowsRanked();
    CompareArithmeticRowsRanked();
    RankedAppend(LoadStoreRows(), CompareArithmeticRows(), 0);
    FlagBranchLogicRowsRanked();
    RankedAppend(LoadStoreRows() + CompareArithmeticRows(), FlagBranchLogicRows(), 0);
    StepJumpStackShiftRowsRanked();
    RankedAppend(LoadStoreRows() + CompareArithmeticRows() + FlagBranchLogicRows(), StepJumpStackShiftRows(), 0);
  }

  /**
   * Every row has length 1 to 3 as its mode implies (IMP and ACC 1; IMM,
   * REL, the zero-page and the indexed-indirect modes 2; the absolute modes
   * 3; IND 2, except JMP's 3), at least two cycles, a page-cross penalty of
   * 0 or 1, and uses REL exactly when it is a branch.
   */
  lemma TableWellFormed()
    ensures |Table()| == 178
    ensures forall i :: 0 <= i < |Table()| ==> WellFormedRow(Table()[i])
  {
    LoadStoreRowsWellFormed();
    CompareArithmeticRowsWellFormed();
    WellFormedAppend(LoadStoreRows(), CompareArithmeticRows());
    FlagBranchLogicRowsWellFormed();
    WellFormedAppend(LoadStoreRows() + CompareArithmeticRows(), FlagBranchLogicRows());
    StepJumpStackShiftRowsWellFormed();
    WellFormedAppend(LoadStoreRows() + CompareArithmeticRows() + FlagBranchLogicRows(), StepJumpStackShiftRows());
  }

  /** No two rows of the table share an opcode. */
  lemma OpcodesDistinct()
    ensures forall i, j :: 0 <= i < |Table()| && 0 <= j < |Table()| && Table()[i].opcode == Table()[j].opcode ==> i == j
  {
    TableRanked();
  }

  /** Since opcodes are distinct, the first match is the only match. */
  lemma GetInstrFindsRow(i: nat)
    requires i < |Table()|
    ensures GetInstr(Table()[i].opcode) == Ok(Table()[i])
  {
    OpcodesDistinct();
  }

  /** Every row GetInstr returns is well formed. */
  lemma GetInstrWellFormed(op: u8)
    requires GetInstr(op).Ok?
    ensures WellFormedRow(GetInstr(op).value)
  {
    TableWellFormed();
  }

  /** An opcode whose position is -1 is not in the table. */
  lemma UnlistedOpcode(op: u8)
    requires RowIndex(op) == -1
    ensures GetInstr(op) == Err(InvalidOpcode)
  {
    TableRanked();
  }

  /** 0xa9 is LDA immediate: two bytes, two cycles. */
  lemma GetInstrLdaImmediate()
    ensures GetInstr(0xa9) == Ok(Instr(LDA, IMM, 0xa9, 2, 2, 0))
  {
    assert LoadStoreRows()[0] == LdaRows()[0] == Instr(LDA, IMM, 0xa9, 2, 2, 0);
    assert Table()[0] == LoadStoreRows()[0];
    GetInstrFindsRow(0);
  }

  /** 0xff and 0x02 are not in the table. */
  lemma GetInstrInvalid()
    ensures GetInstr(0xff) == Err(InvalidOpcode)
    ensures GetInstr(0x02) == Err(InvalidOpcode)
  {
    UnlistedOpcode(0xff);
    UnlistedOpcode(0x02);
  }
}
