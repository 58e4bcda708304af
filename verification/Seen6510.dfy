/** The instruction set that both interpreters implement is the one that the monitor prints. */
module Seen6510 {
  import opened Bytes
  import opened Status6510
  import opened Digits
  import opened Isa6510
  import M = Monitor6510
  import E = Eager6510

  // ---------- the opcode table ----------

  function ReadName(op: ReadOp): M.Mnemonic {
    match op
    case ORA => M.ORA
    case AND => M.AND
    case EOR => M.EOR
    case ADC => M.ADC
    case SBC => M.SBC
    case CMP => M.CMP
    case CPX => M.CPX
    case CPY => M.CPY
    case BIT => M.BIT
    case LDA => M.LDA
    case LDX => M.LDX
    case LDY => M.LDY
    case LAX => M.LAX
    case LAS => M.LAS
    case ANC => M.ANC
    case ASR => M.ASR
    case ARR => M.ARR
    case ANE => M.ANE
    case LXA => M.LXA
    case SBX => M.SBX
  }

  function ModifyName(op: ModifyOp): M.Mnemonic {
    match op
    case ASL => M.ASL
    case LSR => M.LSR
    case ROL => M.ROL
    case ROR => M.ROR
    case INC => M.INC
    case DEC => M.DEC
    case SLO => M.SLO
    case SRE => M.SRE
    case RLA => M.RLA
    case RRA => M.RRA
    case ISB => M.ISB
    case DCP => M.DCP
  }

  function ImpliedName(op: ImpliedOp): M.Mnemonic {
    match op
    case CLC => M.CLC
    case CLD => M.CLD
    case CLI => M.CLI
    case CLV => M.CLV
    case SEC => M.SEC
    case SED => M.SED
    case SEI => M.SEI
    case DEX => M.DEX
    case DEY => M.DEY
    case INX => M.INX
    case INY => M.INY
    case TAX => M.TAX
    case TAY => M.TAY
    case TSX => M.TSX
    case TXA => M.TXA
    case TXS => M.TXS
    case TYA => M.TYA
  }

  function StoreName(src: Register): M.Mnemonic {
    match src
    case A => M.STA
    case X => M.STX
    case Y => M.STY
    case AX => M.SAX
  }

  function StoreHighName(src: Register, toSp: bool): M.Mnemonic {
    match src
    case X => M.SHX
    case Y => M.SHY
    case _ => if toSp then M.SHS else M.SHA
  }

  function BranchName(f: Flag, want: bool): M.Mnemonic {
    match f
    case Sign => if want then M.BMI else M.BPL
    case Overflow => if want then M.BVS else M.BVC
    case Carry => if want then M.BCS else M.BCC
    case Zero => if want then M.BEQ else M.BNE
  }

  function ModeName(m: Mode): M.AddrMode {
    match m
    case Implied => M.Implied
    case Imm => M.Immediate
    case Zp => M.ZeroPage
    case ZpX => M.ZeroPageX
    case ZpY => M.ZeroPageY
    case Abs => M.Absolute
    case AbsX => M.AbsoluteX
    case AbsY => M.AbsoluteY
    case IndX => M.IndirectX
    case IndY => M.IndirectY
  }

  /** How the monitor spells an instruction. */
  function Spelled(i: Instr): M.Line {
    match i
    case Read(op, m) => M.Line(ReadName(op), ModeName(m))
    case Modify(op, m) => M.Line(ModifyName(op), ModeName(m))
    case Accumulator(op) => M.Line(ModifyName(op), M.Accumulator)
    case Store(src, m) => M.Line(StoreName(src), ModeName(m))
    case StoreHigh(src, m, toSp) => M.Line(StoreHighName(src, toSp), ModeName(m))
    case Reg(op) => M.Line(ImpliedName(op), M.Implied)
    case Noop(m) => M.Line(M.NOOP, ModeName(m))
    case Branch(f, want) => M.Line(BranchName(f, want), M.Relative)
    case Pha => M.Line(M.PHA, M.Implied)
    case Php => M.Line(M.PHP, M.Implied)
    case Pla => M.Line(M.PLA, M.Implied)
    case Plp => M.Line(M.PLP, M.Implied)
    case Jsr => M.Line(M.JSR, M.Absolute)
    case Rts => M.Line(M.RTS, M.Implied)
    case Rti => M.Line(M.RTI, M.Implied)
    case Brk => M.Line(M.BRK, M.Implied)
    case Jmp => M.Line(M.JMP, M.Absolute)
    case JmpInd => M.Line(M.JMP, M.AbsIndirect)
    case Jam => M.Line(M.JAM, M.Implied)
  }

  /** Two instructions have a second name: the undocumented SBC and the documented NOP. */
  function Renamed(l: M.Line): M.Line {
    match l.name
    case USBC => l.(name := M.SBC)
    case NOP => l.(name := M.NOOP)
    case _ => l
  }

  /** What an instruction that the processor can meet looks like. */
  predicate Regular(i: Instr) {
    match i
    case Read(_, m) => !m.Implied?
    case Modify(_, m) => !m.Implied? && !m.Imm?
    case Accumulator(op) => op.ASL? || op.LSR? || op.ROL? || op.ROR?
    case Store(_, m) => !m.Implied? && !m.Imm?
    case StoreHigh(src, m, toSp) =>
      if src.X? then m.AbsY? && !toSp else if src.Y? then m.AbsX? && !toSp
      else src.AX? && if toSp then m.AbsY? else m.AbsY? || m.IndY?
    case _ => true
  }

  lemma Listed00(op: u8)
    requires 0x00 <= op < 0x08
    ensures Renamed(M.Listing00(op)) == Spelled(Decode00(op)) && Regular(Decode00(op))
  {
  }

  lemma Listed08(op: u8)
    requires 0x08 <= op < 0x10
    ensures Renamed(M.Listing00(op)) == Spelled(Decode00(op)) && Regular(Decode00(op))
  {
  }

  lemma Listed10(op: u8)
    requires 0x10 <= op < 0x18
    ensures Renamed(M.Listing10(op)) == Spelled(Decode00(op)) && Regular(Decode00(op))
  {
  }

  lemma Listed18(op: u8)
    requires 0x18 <= op < 0x20
    ensures Renamed(M.Listing10(op)) == Spelled(Decode00(op)) && Regular(Decode00(op))
  {
  }

  lemma Listed20(op: u8)
    requires 0x20 <= op < 0x28
    ensures Renamed(M.Listing20(op)) == Spelled(Decode20(op)) && Regular(Decode20(op))
  {
  }

  lemma Listed28(op: u8)
    requires 0x28 <= op < 0x30
    ensures Renamed(M.Listing20(op)) == Spelled(Decode20(op)) && Regular(Decode20(op))
  {
  }

  lemma Listed30(op: u8)
    requires 0x30 <= op < 0x38
    ensures Renamed(M.Listing30(op)) == Spelled(Decode20(op)) && Regular(Decode20(op))
  {
  }

  lemma Listed38(op: u8)
    requires 0x38 <= op < 0x40
    ensures Renamed(M.Listing30(op)) == Spelled(Decode20(op)) && Regular(Decode20(op))
  {
  }

  lemma Listed40(op: u8)
    requires 0x40 <= op < 0x48
    ensures Renamed(M.Listing40(op)) == Spelled(Decode40(op)) && Regular(Decode40(op))
  {
  }

  lemma Listed48(op: u8)
    requires 0x48 <= op < 0x50
    ensures Renamed(M.Listing40(op)) == Spelled(Decode40(op)) && Regular(Decode40(op))
  {
  }

  lemma Listed50(op: u8)
    requires 0x50 <= op < 0x58
    ensures Renamed(M.Listing50(op)) == Spelled(Decode40(op)) && Regular(Decode40(op))
  {
  }

  lemma Listed58(op: u8)
    requires 0x58 <= op < 0x60
    ensures Renamed(M.Listing50(op)) == Spelled(Decode40(op)) && Regular(Decode40(op))
  {
  }

  lemma Listed60(op: u8)
    requires 0x60 <= op < 0x68
    ensures Renamed(M.Listing60(op)) == Spelled(Decode60(op)) && Regular(Decode60(op))
  {
  }

  lemma Listed68(op: u8)
    requires 0x68 <= op < 0x70
    ensures Renamed(M.Listing60(op)) == Spelled(Decode60(op)) && Regular(Decode60(op))
  {
  }

  lemma Listed70(op: u8)
    requires 0x70 <= op < 0x78
    ensures Renamed(M.Listing70(op)) == Spelled(Decode60(op)) && Regular(Decode60(op))
  {
  }

  lemma Listed78(op: u8)
    requires 0x78 <= op < 0x80
    ensures Renamed(M.Listing70(op)) == Spelled(Decode60(op)) && Regular(Decode60(op))
  {
  }

  lemma Listed80(op: u8)
    requires 0x80 <= op < 0x88
    ensures Renamed(M.Listing80(op)) == Spelled(Decode80(op)) && Regular(Decode80(op))
  {
  }

  lemma Listed88(op: u8)
    requires 0x88 <= op < 0x90
    ensures Renamed(M.Listing80(op)) == Spelled(Decode80(op)) && Regular(Decode80(op))
  {
  }

  lemma Listed90(op: u8)
    requires 0x90 <= op < 0x98
    ensures Renamed(M.Listing90(op)) == Spelled(Decode80(op)) && Regular(Decode80(op))
  {
  }

  lemma Listed98(op: u8)
    requires 0x98 <= op < 0x9c
    ensures Renamed(M.Listing90(op)) == Spelled(Decode80(op)) && Regular(Decode80(op))
  {
  }

  lemma Listed9C(op: u8)
    requires 0x9c <= op < 0xa0
    ensures Renamed(M.Listing90(op)) == Spelled(Decode80(op)) && Regular(Decode80(op))
  {
  }

  lemma ListedA0(op: u8)
    requires 0xa0 <= op < 0xa8
    ensures Renamed(M.ListingA0(op)) == Spelled(DecodeA0(op)) && Regular(DecodeA0(op))
  {
  }

  lemma ListedA8(op: u8)
    requires 0xa8 <= op < 0xb0
    ensures Renamed(M.ListingA0(op)) == Spelled(DecodeA0(op)) && Regular(DecodeA0(op))
  {
  }

  lemma ListedB0(op: u8)
    requires 0xb0 <= op < 0xb8
    ensures Renamed(M.ListingB0(op)) == Spelled(DecodeA0(op)) && Regular(DecodeA0(op))
  {
  }

  lemma ListedB8(op: u8)
    requires 0xb8 <= op < 0xc0
    ensures Renamed(M.ListingB0(op)) == Spelled(DecodeA0(op)) && Regular(DecodeA0(op))
  {
  }

  lemma ListedC0(op: u8)
    requires 0xc0 <= op < 0xc8
    ensures Renamed(M.ListingC0(op)) == Spelled(DecodeC0(op)) && Regular(DecodeC0(op))
  {
  }

  lemma ListedC8(op: u8)
    requires 0xc8 <= op < 0xd0
    ensures Renamed(M.ListingC0(op)) == Spelled(DecodeC0(op)) && Regular(DecodeC0(op))
  {
  }

  lemma ListedD0(op: u8)
    requires 0xd0 <= op < 0xd8
    ensures Renamed(M.ListingD0(op)) == Spelled(DecodeC0(op)) && Regular(DecodeC0(op))
  {
  }

  lemma ListedD8(op: u8)
    requires 0xd8 <= op < 0xe0
    ensures Renamed(M.ListingD0(op)) == Spelled(DecodeC0(op)) && Regular(DecodeC0(op))
  {
  }

  lemma ListedE0(op: u8)
    requires 0xe0 <= op < 0xe8
    ensures Renamed(M.ListingE0(op)) == Spelled(DecodeE0(op)) && Regular(DecodeE0(op))
  {
  }

  lemma ListedE8(op: u8)
    requires 0xe8 <= op < 0xf0
    ensures Renamed(M.ListingE0(op)) == Spelled(DecodeE0(op)) && Regular(DecodeE0(op))
  {
  }

  lemma ListedF0(op: u8)
    requires 0xf0 <= op < 0xf8
    ensures Renamed(M.ListingF0(op)) == Spelled(DecodeE0(op)) && Regular(DecodeE0(op))
  {
  }

  lemma ListedF8(op: u8)
    requires 0xf8 <= op
    ensures Renamed(M.ListingF0(op)) == Spelled(DecodeE0(op)) && Regular(DecodeE0(op))
  {
  }

  /** The monitor and the two switches agree on every opcode, JAM included. */
  lemma ListingIsIsa(op: u8)
    ensures Renamed(M.Listing(op)) == Spelled(Decode(op)) && Regular(Decode(op))
    ensures M.Listing(op).name.JAM? <==> Decode(op) == Jam
  {
    hide Spelled, Renamed, Regular;
    hide Decode00, Decode20, Decode40, Decode60, Decode80, DecodeA0, DecodeC0, DecodeE0;
    match op / 8 {
      case 0 => Listed00(op);
      case 1 => Listed08(op);
      case 2 => Listed10(op);
      case 3 => Listed18(op);
      case 4 => Listed20(op);
      case 5 => Listed28(op);
      case 6 => Listed30(op);
      case 7 => Listed38(op);
      case 8 => Listed40(op);
      case 9 => Listed48(op);
      case 10 => Listed50(op);
      case 11 => Listed58(op);
      case 12 => Listed60(op);
      case 13 => Listed68(op);
      case 14 => Listed70(op);
      case 15 => Listed78(op);
      case 16 => Listed80(op);
      case 17 => Listed88(op);
      case 18 => Listed90(op);
      case 19 => if op < 0x9c { Listed98(op); } else { Listed9C(op); }
      case 20 => ListedA0(op);
      case 21 => ListedA8(op);
      case 22 => ListedB0(op);
      case 23 => ListedB8(op);
      case 24 => ListedC0(op);
      case 25 => ListedC8(op);
      case 26 => ListedD0(op);
      case 27 => ListedD8(op);
      case 28 => ListedE0(op);
      case 29 => ListedE8(op);
      case 30 => ListedF0(op);
      case _ => ListedF8(op);
    }
    OnlyJam(M.Listing(op), Decode(op));
  }

  lemma OnlyJam(l: M.Line, i: Instr)
    requires Renamed(l) == Spelled(i)
    ensures l.name.JAM? <==> i == Jam
  {
  }
}
