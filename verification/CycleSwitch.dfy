/** The opcode switch of vice/src/6510dtvcore.c: operations applied to GET_ and SET_ macros. */
module CycleSwitch {
  import opened Bytes
  import opened Isa6510

  /** The set_func of a read-modify-write operation. */
  datatype SetFunc = SetZero | SetZeroX | SetAbs | SetAbsX | SetAbsY | SetInd

  datatype Call =
    | Get(op: ReadOp, get: Mode, pcInc: nat)                          // ORA(GET_IND_X, 2)
    | GetSet(mop: ModifyOp, pcInc: nat, get: Mode, put: SetFunc)      // ASL(2, GET_ZERO, SET_ZERO_RMW)
    | Set(src: Register, to: Mode, pcInc: nat)                        // ST(reg_x, SET_ABS, 3)
    | Skip(get: Mode, pcInc: nat)                                     // NOOP(GET_ZERO_DUMMY, 2)
    | Plain(i: Instr)

  /** The cycles of the GET_ macros, page crossings aside. */
  function GetClk(m: Mode): nat {
    match m
    case Implied | Imm => 0
    case Zp | Abs | AbsX | AbsY => 1
    case ZpX | ZpY => 2
    case IndX => 4
    case IndY => 3
  }

  /** The _RMW variants always spend the cycle that fixes the address. */
  function GetRmwClk(m: Mode): nat { GetClk(m) + OneIf(m.AbsX? || m.AbsY? || m.IndY?) }

  function SetClk(m: Mode): nat {
    match m
    case Zp | Abs => 1
    case IndX | IndY => 4
    case _ => 2
  }

  /** SET_IND_RMW works on the address that the GET_ macro left behind. */
  predicate Fits(g: Mode, p: SetFunc) {
    match g
    case Zp => p.SetZero?
    case ZpX => p.SetZeroX?
    case Abs => p.SetAbs?
    case AbsX => p.SetAbsX?
    case AbsY => p.SetAbsY?
    case IndX | IndY => p.SetInd?
    case _ => false
  }

  /** Does call c implement instruction i when its fetch is long or not? */
  predicate Implements(c: Call, i: Instr, long: bool) {
    var fetch := 2 + OneIf(long);
    match c
    case Get(op, m, pc) =>
      i == Read(op, m) && !m.Implied? && pc == Length(m) && fetch + GetClk(m) == ReadBase(m) && (pc == 3 ==> long)
    case GetSet(op, pc, m, p) =>
      i == Modify(op, m) && Fits(m, p) && pc == Length(m) && fetch + GetRmwClk(m) + 2 == ModifyCycles(m)
      && (pc == 3 ==> long)
    case Set(src, m, pc) =>
      i == Store(src, m) && !m.Implied? && !m.Imm? && pc == Length(m) && fetch + SetClk(m) == StoreCycles(m)
      && (pc == 3 ==> long)
    case Skip(m, pc) =>
      i == Noop(m) && !m.IndX? && !m.IndY? && pc == Length(m) && fetch + GetClk(m) == ReadBase(m) && (pc == 3 ==> long)
    case Plain(j) => i == j && long == NeedsWord(i) && PlainMacro(i)
  }

  /** The instructions with macros of their own. */
  predicate PlainMacro(i: Instr) {
    match i
    case Read(_, _) | Modify(_, _) | Store(_, _) | Noop(_) | Jam => false
    case StoreHigh(src, m, toSp) =>
      (m.AbsX? || m.AbsY? || m.IndY?) && (toSp ==> src == AX && m == AbsY) && (m == IndY ==> src == AX)
    case Accumulator(op) => op.ASL? || op.LSR? || op.ROL? || op.ROR?
    case _ => true
  }

  predicate NeedsWord(i: Instr) {
    match i
    case StoreHigh(_, m, _) => m != IndY
    case Jmp | JmpInd => true
    case _ => false
  }

  // ---------- the cases ----------

  function Switch(op: u8): Call {
    if op < 0x80 then
      (if op < 0x40 then (if op < 0x20 then Switch00(op) else Switch20(op))
       else (if op < 0x60 then Switch40(op) else Switch60(op)))
    else
      (if op < 0xc0 then (if op < 0xa0 then Switch80(op) else SwitchA0(op))
       else (if op < 0xe0 then SwitchC0(op) else SwitchE0(op)))
  }

  function Switch00(op: u8): Call {
    match op
    case 0x00 => Plain(Brk)
    case 0x01 => Get(ORA, IndX, 2)
    case 0x03 => GetSet(SLO, 2, IndX, SetInd)
    case 0x04 => Skip(Zp, 2)
    case 0x05 => Get(ORA, Zp, 2)
    case 0x06 => GetSet(ASL, 2, Zp, SetZero)
    case 0x07 => GetSet(SLO, 2, Zp, SetZero)
    case 0x08 => Plain(Php)
    case 0x09 => Get(ORA, Imm, 2)
    case 0x0a => Plain(Accumulator(ASL))
    case 0x0b => Get(ANC, Imm, 2)
    case 0x0c => Skip(Abs, 3)
    case 0x0d => Get(ORA, Abs, 3)
    case 0x0e => GetSet(ASL, 3, Abs, SetAbs)
    case 0x0f => GetSet(SLO, 3, Abs, SetAbs)
    case 0x10 => Plain(Branch(Sign, false))
    case 0x11 => Get(ORA, IndY, 2)
    case 0x13 => GetSet(SLO, 2, IndY, SetInd)
    case 0x14 => Skip(ZpX, 2)
    case 0x15 => Get(ORA, ZpX, 2)
    case 0x16 => GetSet(ASL, 2, ZpX, SetZeroX)
    case 0x17 => GetSet(SLO, 2, ZpX, SetZeroX)
    case 0x18 => Plain(Reg(CLC))
    case 0x19 => Get(ORA, AbsY, 3)
    case 0x1a => Skip(Implied, 1)
    case 0x1b => GetSet(SLO, 3, AbsY, SetAbsY)
    case 0x1c => Skip(AbsX, 3)
    case 0x1d => Get(ORA, AbsX, 3)
    case 0x1e => GetSet(ASL, 3, AbsX, SetAbsX)
    case 0x1f => GetSet(SLO, 3, AbsX, SetAbsX)
    case _ => Plain(Jam)
  }

  function Switch20(op: u8): Call {
    match op
    case 0x20 => Plain(Jsr)
    case 0x21 => Get(AND, IndX, 2)
    case 0x23 => GetSet(RLA, 2, IndX, SetInd)
    case 0x24 => Get(BIT, Zp, 2)
    case 0x25 => Get(AND, Zp, 2)
    case 0x26 => GetSet(ROL, 2, Zp, SetZero)
    case 0x27 => GetSet(RLA, 2, Zp, SetZero)
    case 0x28 => Plain(Plp)
    case 0x29 => Get(AND, Imm, 2)
    case 0x2a => Plain(Accumulator(ROL))
    case 0x2b => Get(ANC, Imm, 2)
    case 0x2c => Get(BIT, Abs, 3)
    case 0x2d => Get(AND, Abs, 3)
    case 0x2e => GetSet(ROL, 3, Abs, SetAbs)
    case 0x2f => GetSet(RLA, 3, Abs, SetAbs)
    case 0x30 => Plain(Branch(Sign, true))
    case 0x31 => Get(AND, IndY, 2)
    case 0x33 => GetSet(RLA, 2, IndY, SetInd)
    case 0x34 => Skip(ZpX, 2)
    case 0x35 => Get(AND, ZpX, 2)
    case 0x36 => GetSet(ROL, 2, ZpX, SetZeroX)
    case 0x37 => GetSet(RLA, 2, ZpX, SetZeroX)
    case 0x38 => Plain(Reg(SEC))
    case 0x39 => Get(AND, AbsY, 3)
    case 0x3a => Skip(Implied, 1)
    case 0x3b => GetSet(RLA, 3, AbsY, SetAbsY)
    case 0x3c => Skip(AbsX, 3)
    case 0x3d => Get(AND, AbsX, 3)
    case 0x3e => GetSet(ROL, 3, AbsX, SetAbsX)
    case 0x3f => GetSet(RLA, 3, AbsX, SetAbsX)
    case _ => Plain(Jam)
  }

  function Switch40(op: u8): Call {
    match op
    case 0x40 => Plain(Rti)
    case 0x41 => Get(EOR, IndX, 2)
    case 0x43 => GetSet(SRE, 2, IndX, SetInd)
    case 0x44 => Skip(Zp, 2)
    case 0x45 => Get(EOR, Zp, 2)
    case 0x46 => GetSet(LSR, 2, Zp, SetZero)
    case 0x47 => GetSet(SRE, 2, Zp, SetZero)
    case 0x48 => Plain(Pha)
    case 0x49 => Get(EOR, Imm, 2)
    case 0x4a => Plain(Accumulator(LSR))
    case 0x4b => Get(ASR, Imm, 2)
    case 0x4c => Plain(Jmp)
    case 0x4d => Get(EOR, Abs, 3)
    case 0x4e => GetSet(LSR, 3, Abs, SetAbs)
    case 0x4f => GetSet(SRE, 3, Abs, SetAbs)
    case 0x50 => Plain(Branch(Overflow, false))
    case 0x51 => Get(EOR, IndY, 2)
    case 0x53 => GetSet(SRE, 2, IndY, SetInd)
    case 0x54 => Skip(ZpX, 2)
    case 0x55 => Get(EOR, ZpX, 2)
    case 0x56 => GetSet(LSR, 2, ZpX, SetZeroX)
    case 0x57 => GetSet(SRE, 2, ZpX, SetZeroX)
    case 0x58 => Plain(Reg(CLI))
    case 0x59 => Get(EOR, AbsY, 3)
    case 0x5a => Skip(Implied, 1)
    case 0x5b => GetSet(SRE, 3, AbsY, SetAbsY)
    case 0x5c => Skip(AbsX, 3)
    case 0x5d => Get(EOR, AbsX, 3)
    case 0x5e => GetSet(LSR, 3, AbsX, SetAbsX)
    case 0x5f => GetSet(SRE, 3, AbsX, SetAbsX)
    case _ => Plain(Jam)
  }

  function Switch60(op: u8): Call {
    match op
    case 0x60 => Plain(Rts)
    case 0x61 => Get(ADC, IndX, 2)
    case 0x63 => GetSet(RRA, 2, IndX, SetInd)
    case 0x64 => Skip(Zp, 2)
    case 0x65 => Get(ADC, Zp, 2)
    case 0x66 => GetSet(ROR, 2, Zp, SetZero)
    case 0x67 => GetSet(RRA, 2, Zp, SetZero)
    case 0x68 => Plain(Pla)
    case 0x69 => Get(ADC, Imm, 2)
    case 0x6a => Plain(Accumulator(ROR))
    case 0x6b => Get(ARR, Imm, 2)
    case 0x6c => Plain(JmpInd)
    case 0x6d => Get(ADC, Abs, 3)
    case 0x6e => GetSet(ROR, 3, Abs, SetAbs)
    case 0x6f => GetSet(RRA, 3, Abs, SetAbs)
    case 0x70 => Plain(Branch(Overflow, true))
    case 0x71 => Get(ADC, IndY, 2)
    case 0x73 => GetSet(RRA, 2, IndY, SetInd)
    case 0x74 => Skip(ZpX, 2)
    case 0x75 => Get(ADC, ZpX, 2)
    case 0x76 => GetSet(ROR, 2, ZpX, SetZeroX)
    case 0x77 => GetSet(RRA, 2, ZpX, SetZeroX)
    case 0x78 => Plain(Reg(SEI))
    case 0x79 => Get(ADC, AbsY, 3)
    case 0x7a => Skip(Implied, 1)
    case 0x7b => GetSet(RRA, 3, AbsY, SetAbsY)
    case 0x7c => Skip(AbsX, 3)
    case 0x7d => Get(ADC, AbsX, 3)
    case 0x7e => GetSet(ROR, 3, AbsX, SetAbsX)
    case 0x7f => GetSet(RRA, 3, AbsX, SetAbsX)
    case _ => Plain(Jam)
  }

  function Switch80(op: u8): Call {
    match op
    case 0x80 | 0x82 | 0x89 => Skip(Imm, 2)
    case 0x81 => Set(A, IndX, 2)
    case 0x83 => Set(AX, IndX, 2)
    case 0x84 => Set(Y, Zp, 2)
    case 0x85 => Set(A, Zp, 2)
    case 0x86 => Set(X, Zp, 2)
    case 0x87 => Set(AX, Zp, 2)
    case 0x88 => Plain(Reg(DEY))
    case 0x8a => Plain(Reg(TXA))
    case 0x8b => Get(ANE, Imm, 2)
    case 0x8c => Set(Y, Abs, 3)
    case 0x8d => Set(A, Abs, 3)
    case 0x8e => Set(X, Abs, 3)
    case 0x8f => Set(AX, Abs, 3)
    case 0x90 => Plain(Branch(Carry, false))
    case 0x91 => Set(A, IndY, 2)
    case 0x93 => Plain(StoreHigh(AX, IndY, false))
    case 0x94 => Set(Y, ZpX, 2)
    case 0x95 => Set(A, ZpX, 2)
    case 0x96 => Set(X, ZpY, 2)
    case 0x97 => Set(AX, ZpY, 2)
    case 0x98 => Plain(Reg(TYA))
    case 0x99 => Set(A, AbsY, 3)
    case 0x9a => Plain(Reg(TXS))
    case 0x9b => Plain(StoreHigh(AX, AbsY, true))
    case 0x9c => Plain(StoreHigh(Y, AbsX, false))
    case 0x9d => Set(A, AbsX, 3)
    case 0x9e => Plain(StoreHigh(X, AbsY, false))
    case 0x9f => Plain(StoreHigh(AX, AbsY, false))
    case _ => Plain(Jam)
  }

  function SwitchA0(op: u8): Call {
    match op
    case 0xa0 => Get(LDY, Imm, 2)
    case 0xa1 => Get(LDA, IndX, 2)
    case 0xa2 => Get(LDX, Imm, 2)
    case 0xa3 => Get(LAX, IndX, 2)
    case 0xa4 => Get(LDY, Zp, 2)
    case 0xa5 => Get(LDA, Zp, 2)
    case 0xa6 => Get(LDX, Zp, 2)
    case 0xa7 => Get(LAX, Zp, 2)
    case 0xa8 => Plain(Reg(TAY))
    case 0xa9 => Get(LDA, Imm, 2)
    case 0xaa => Plain(Reg(TAX))
    case 0xab => Get(LXA, Imm, 2)
    case 0xac => Get(LDY, Abs, 3)
    case 0xad => Get(LDA, Abs, 3)
    case 0xae => Get(LDX, Abs, 3)
    case 0xaf => Get(LAX, Abs, 3)
    case 0xb0 => Plain(Branch(Carry, true))
    case 0xb1 => Get(LDA, IndY, 2)
    case 0xb3 => Get(LAX, IndY, 2)
    case 0xb4 => Get(LDY, ZpX, 2)
    case 0xb5 => Get(LDA, ZpX, 2)
    case 0xb6 => Get(LDX, ZpY, 2)
    case 0xb7 => Get(LAX, ZpY, 2)
    case 0xb8 => Plain(Reg(CLV))
    case 0xb9 => Get(LDA, AbsY, 3)
    case 0xba => Plain(Reg(TSX))
    case 0xbb => Get(LAS, AbsY, 3)
    case 0xbc => Get(LDY, AbsX, 3)
    case 0xbd => Get(LDA, AbsX, 3)
    case 0xbe => Get(LDX, AbsY, 3)
    case 0xbf => Get(LAX, AbsY, 3)
    case _ => Plain(Jam)
  }

  function SwitchC0(op: u8): Call {
    match op
    case 0xc0 => Get(CPY, Imm, 2)
    case 0xc1 => Get(CMP, IndX, 2)
    case 0xc2 => Skip(Imm, 2)
    case 0xc3 => GetSet(DCP, 2, IndX, SetInd)
    case 0xc4 => Get(CPY, Zp, 2)
    case 0xc5 => Get(CMP, Zp, 2)
    case 0xc6 => GetSet(DEC, 2, Zp, SetZero)
    case 0xc7 => GetSet(DCP, 2, Zp, SetZero)
    case 0xc8 => Plain(Reg(INY))
    case 0xc9 => Get(CMP, Imm, 2)
    case 0xca => Plain(Reg(DEX))
    case 0xcb => Get(SBX, Imm, 2)
    case 0xcc => Get(CPY, Abs, 3)
    case 0xcd => Get(CMP, Abs, 3)
    case 0xce => GetSet(DEC, 3, Abs, SetAbs)
    case 0xcf => GetSet(DCP, 3, Abs, SetAbs)
    case 0xd0 => Plain(Branch(Zero, false))
    case 0xd1 => Get(CMP, IndY, 2)
    case 0xd3 => GetSet(DCP, 2, IndY, SetInd)
    case 0xd4 => Skip(ZpX, 2)
    case 0xd5 => Get(CMP, ZpX, 2)
    case 0xd6 => GetSet(DEC, 2, ZpX, SetZeroX)
    case 0xd7 => GetSet(DCP, 2, ZpX, SetZeroX)
    case 0xd8 => Plain(Reg(CLD))
    case 0xd9 => Get(CMP, AbsY, 3)
    case 0xda => Skip(Implied, 1)
    case 0xdb => GetSet(DCP, 3, AbsY, SetAbsY)
    case 0xdc => Skip(AbsX, 3)
    case 0xdd => Get(CMP, AbsX, 3)
    case 0xde => GetSet(DEC, 3, AbsX, SetAbsX)
    case 0xdf => GetSet(DCP, 3, AbsX, SetAbsX)
    case _ => Plain(Jam)
  }

  function SwitchE0(op: u8): Call {
    match op
    case 0xe0 => Get(CPX, Imm, 2)
    case 0xe1 => Get(SBC, IndX, 2)
    case 0xe2 => Skip(Imm, 2)
    case 0xe3 => GetSet(ISB, 2, IndX, SetInd)
    case 0xe4 => Get(CPX, Zp, 2)
    case 0xe5 => Get(SBC, Zp, 2)
    case 0xe6 => GetSet(INC, 2, Zp, SetZero)
    case 0xe7 => GetSet(ISB, 2, Zp, SetZero)
    case 0xe8 => Plain(Reg(INX))
    case 0xe9 | 0xeb => Get(SBC, Imm, 2)
    case 0xea | 0xfa => Skip(Implied, 1)
    case 0xec => Get(CPX, Abs, 3)
    case 0xed => Get(SBC, Abs, 3)
    case 0xee => GetSet(INC, 3, Abs, SetAbs)
    case 0xef => GetSet(ISB, 3, Abs, SetAbs)
    case 0xf0 => Plain(Branch(Zero, true))
    case 0xf1 => Get(SBC, IndY, 2)
    case 0xf3 => GetSet(ISB, 2, IndY, SetInd)
    case 0xf4 => Skip(ZpX, 2)
    case 0xf5 => Get(SBC, ZpX, 2)
    case 0xf6 => GetSet(INC, 2, ZpX, SetZeroX)
    case 0xf7 => GetSet(ISB, 2, ZpX, SetZeroX)
    case 0xf8 => Plain(Reg(SED))
    case 0xf9 => Get(SBC, AbsY, 3)
    case 0xfb => GetSet(ISB, 3, AbsY, SetAbsY)
    case 0xfc => Skip(AbsX, 3)
    case 0xfd => Get(SBC, AbsX, 3)
    case 0xfe => GetSet(INC, 3, AbsX, SetAbsX)
    case 0xff => GetSet(ISB, 3, AbsX, SetAbsX)
    case _ => Plain(Jam)
  }

  lemma Cases00(op: u8)
    requires 0x00 <= op < 0x10 && Decode00(op) != Jam
    ensures Implements(Switch00(op), Decode00(op), LongFetch(op))
  {
  }

  lemma Cases10(op: u8)
    requires 0x10 <= op < 0x20 && Decode00(op) != Jam
    ensures Implements(Switch00(op), Decode00(op), LongFetch(op))
  {
  }

  lemma Cases20(op: u8)
    requires 0x20 <= op < 0x30 && Decode20(op) != Jam
    ensures Implements(Switch20(op), Decode20(op), LongFetch(op))
  {
  }

  lemma Cases30(op: u8)
    requires 0x30 <= op < 0x40 && Decode20(op) != Jam
    ensures Implements(Switch20(op), Decode20(op), LongFetch(op))
  {
  }

  lemma Cases40(op: u8)
    requires 0x40 <= op < 0x50 && Decode40(op) != Jam
    ensures Implements(Switch40(op), Decode40(op), LongFetch(op))
  {
  }

  lemma Cases50(op: u8)
    requires 0x50 <= op < 0x60 && Decode40(op) != Jam
    ensures Implements(Switch40(op), Decode40(op), LongFetch(op))
  {
  }

  lemma Cases60(op: u8)
    requires 0x60 <= op < 0x70 && Decode60(op) != Jam
    ensures Implements(Switch60(op), Decode60(op), LongFetch(op))
  {
  }

  lemma Cases70(op: u8)
    requires 0x70 <= op < 0x80 && Decode60(op) != Jam
    ensures Implements(Switch60(op), Decode60(op), LongFetch(op))
  {
  }

  lemma Cases80(op: u8)
    requires 0x80 <= op < 0x90 && Decode80(op) != Jam
    ensures Implements(Switch80(op), Decode80(op), LongFetch(op))
  {
  }

  lemma Cases90(op: u8)
    requires 0x90 <= op < 0xa0 && Decode80(op) != Jam
    ensures Implements(Switch80(op), Decode80(op), LongFetch(op))
  {
  }

  lemma CasesA0(op: u8)
    requires 0xa0 <= op < 0xb0 && DecodeA0(op) != Jam
    ensures Implements(SwitchA0(op), DecodeA0(op), LongFetch(op))
  {
  }

  lemma CasesB0(op: u8)
    requires 0xb0 <= op < 0xc0 && DecodeA0(op) != Jam
    ensures Implements(SwitchA0(op), DecodeA0(op), LongFetch(op))
  {
  }

  lemma CasesC0(op: u8)
    requires 0xc0 <= op < 0xd0 && DecodeC0(op) != Jam
    ensures Implements(SwitchC0(op), DecodeC0(op), LongFetch(op))
  {
  }

  lemma CasesD0(op: u8)
    requires 0xd0 <= op < 0xe0 && DecodeC0(op) != Jam
    ensures Implements(SwitchC0(op), DecodeC0(op), LongFetch(op))
  {
  }

  lemma CasesE0(op: u8)
    requires 0xe0 <= op < 0xf0 && DecodeE0(op) != Jam
    ensures Implements(SwitchE0(op), DecodeE0(op), LongFetch(op))
  {
  }

  lemma CasesF0(op: u8)
    requires 0xf0 <= op < 0x100 && DecodeE0(op) != Jam
    ensures Implements(SwitchE0(op), DecodeE0(op), LongFetch(op))
  {
  }

  /** Every case of the switch names the operation and the addressing mode of its opcode, and one
      cycle per access adds up to the data sheet's count. */
  lemma SwitchImplementsIsa(op: u8)
    requires Decode(op) != Jam
    ensures Implements(Switch(op), Decode(op), LongFetch(op))
  {
    hide Implements, LongFetch;
    hide Switch00, Switch20, Switch40, Switch60, Switch80, SwitchA0, SwitchC0, SwitchE0;
    hide Decode00, Decode20, Decode40, Decode60, Decode80, DecodeA0, DecodeC0, DecodeE0;
    match op / 0x10 {
      case 0 => Cases00(op);
      case 1 => Cases10(op);
      case 2 => Cases20(op);
      case 3 => Cases30(op);
      case 4 => Cases40(op);
      case 5 => Cases50(op);
      case 6 => Cases60(op);
      case 7 => Cases70(op);
      case 8 => Cases80(op);
      case 9 => Cases90(op);
      case 10 => CasesA0(op);
      case 11 => CasesB0(op);
      case 12 => CasesC0(op);
      case 13 => CasesD0(op);
      case 14 => CasesE0(op);
      case _ => CasesF0(op);
    }
  }
}
