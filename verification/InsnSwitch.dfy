/** The opcode switch of vice/src/6510core.c: which macro each case calls, with which arguments. */
module InsnSwitch {
  import opened Bytes
  import opened Isa6510

  const CLK_ABS_I_STORE2 := 2
  const CLK_ABS_RMW2 := 3
  const CLK_ABS_I_RMW2 := 3
  const CLK_ZERO_I_STORE := 2
  const CLK_ZERO_I2 := 2
  const CLK_ZERO_RMW := 3
  const CLK_ZERO_I_RMW := 4
  const CLK_IND_X_RMW := 3
  const CLK_NOOP_ZERO_X := 2

  /** The load_func and store_func arguments of the read-modify-write macros. */
  datatype Access = ZeroPage | Absolute | AbsoluteX | AbsoluteY

  /** The address arguments p1, p2, (p1 + reg) & 0xff, LOAD_ZERO_ADDR(p1 + reg_x) and p1 + reg. */
  datatype Address = AtP1 | AtP2 | AtP1X | AtP1Y | AtPointerX | AtSumX | AtSumY

  datatype Call =
    | Value(op: ReadOp, value: Mode, clkInc: nat, pcInc: nat)  // ORA(LOAD_IND_X(p1), 1, 2)
    | Fixed(op: ReadOp, value: Mode, pcInc: nat)               // BIT(LOAD_ZERO(p1), 2)
    | Shift(mop: ModifyOp, addr: Address, clkInc: nat, pcInc: nat, f: Access)
    | Combine(mop: ModifyOp, addr: Address, clkInc1: nat, clkInc2: nat, pcInc: nat, f: Access)
    | CombineIndY(mop: ModifyOp)
    | StoreTo(src: Register, addr: Address, clkInc1: nat, clkInc2: nat, pcInc: nat)  // STA, SAX, STX and STY
    | StaIndexed(index: Register, clkInc1: nat, clkInc2: nat, pcInc: nat)
    | StoreZero(src: Register, addr: Address, clkInc: nat, pcInc: nat)
    | Skip(clkInc: nat, pcInc: nat)                            // NOOP and NOOP_IMM
    | Plain(i: Instr)                                          // a macro for just this instruction

  // ---------- which instruction a call implements, and whether its cycles add up ----------

  /** The cycles inside the LOAD_ macros, page crossings aside. */
  function ValueClk(m: Mode): nat { if m.IndX? then 3 else if m.IndY? then 2 else 0 }

  /** BIT adds one cycle itself; the immediate macros add none. */
  function FixedClk(op: ReadOp): nat { if op.BIT? then 1 else 0 }

  function LoadClk(f: Access): nat { if f.AbsoluteX? || f.AbsoluteY? then 1 else 0 }

  function ModifyMode(a: Address, f: Access): Mode {
    match a
    case AtP1 => Zp
    case AtP1X => ZpX
    case AtPointerX => IndX
    case _ => if f.AbsoluteX? then AbsX else if f.AbsoluteY? then AbsY else Abs
  }

  predicate Compatible(a: Address, f: Access) {
    match a
    case AtP1 => f.ZeroPage?
    case AtP1X => f.ZeroPage? || f.Absolute?
    case AtPointerX => f.Absolute?
    case AtP2 => !f.ZeroPage?
    case _ => false
  }

  function StoreMode(a: Address): Mode {
    match a
    case AtP1 => Zp
    case AtP2 => Abs
    case AtP1X | AtSumX => ZpX
    case AtP1Y | AtSumY => ZpY
    case AtPointerX => IndX
  }

  predicate FixedOp(op: ReadOp) { op.BIT? || op.ANC? || op.ASR? || op.ARR? || op.ANE? || op.LXA? || op.SBX? }

  predicate CombineOp(op: ModifyOp) { op.SLO? || op.SRE? || op.RLA? || op.RRA? || op.ISB? || op.DCP? }

  /** Does call c implement instruction i when its fetch is long or not? Only long fetches provide the whole of p2. */
  predicate Implements(c: Call, i: Instr, long: bool) {
    var fetch := 2 + OneIf(long);
    match c
    case Value(op, m, clk, pc) =>
      i == Read(op, m) && pc == Length(m) && fetch + ValueClk(m) + clk == ReadBase(m) && (pc == 3 ==> long)
      && !FixedOp(op) && !m.Implied?
    case Fixed(op, m, pc) =>
      i == Read(op, m) && pc == Length(m) && fetch + ValueClk(m) + FixedClk(op) == ReadBase(m) && (pc == 3 ==> long)
      && FixedOp(op) && !m.Implied?
    case Shift(op, a, clk, pc, f) =>
      var m := ModifyMode(a, f);
      Compatible(a, f) && i == Modify(op, m) && pc == Length(m) && fetch + LoadClk(f) + clk == ModifyCycles(m)
      && (pc == 3 ==> long) && !CombineOp(op)
    case Combine(op, a, clk1, clk2, pc, f) =>
      var m := ModifyMode(a, f);
      Compatible(a, f) && i == Modify(op, m) && pc == Length(m) && fetch + LoadClk(f) + clk1 + clk2 == ModifyCycles(m)
      && (pc == 3 ==> long) && CombineOp(op)
    case CombineIndY(op) => i == Modify(op, IndY) && !long && CombineOp(op)
    case StoreTo(src, a, clk1, clk2, pc) =>
      var m := StoreMode(a);
      !a.AtSumX? && !a.AtSumY? && i == Store(src, m) && pc == Length(m) && fetch + clk1 + clk2 == StoreCycles(m)
      && (pc == 3 ==> long)
    case StaIndexed(x, clk1, clk2, pc) =>
      var m := if x.X? then AbsX else AbsY;
      i == Store(A, m) && pc == Length(m) && fetch + clk1 + clk2 == StoreCycles(m) && clk2 >= 2 && long
    case StoreZero(src, a, clk, pc) =>
      var m := StoreMode(a);
      (a.AtP1? || a.AtSumX? || a.AtSumY?) && i == Store(src, m) && pc == Length(m) && fetch + clk == StoreCycles(m)
    case Skip(clk, pc) =>
      i.Noop? && (i.mode.Implied? || i.mode.Imm? || i.mode.Zp? || i.mode.ZpX?)
      && pc == Length(i.mode) && fetch + clk == ReadBase(i.mode)
    case Plain(j) => i == j && long == NeedsWord(i) && PlainMacro(i)
  }

  /** The instructions with macros of their own. */
  predicate PlainMacro(i: Instr) {
    match i
    case Read(_, _) | Modify(_, _) => false
    case Store(src, m) => src == A && m == IndY
    case StoreHigh(src, m, toSp) =>
      (m.AbsX? || m.AbsY? || m.IndY?) && (toSp ==> src == AX && m == AbsY) && (m == IndY ==> src == AX)
    case Noop(m) => m.Abs? || m.AbsX?
    case Accumulator(op) => op.ASL? || op.LSR? || op.ROL? || op.ROR?
    case Jam => false
    case _ => true
  }

  /** The instructions whose macros use the whole of p2. */
  predicate NeedsWord(i: Instr) {
    match i
    case StoreHigh(_, m, _) => m != IndY
    case Noop(m) => m == Abs || m == AbsX
    case Jmp | JmpInd => true
    case _ => false
  }

  // ---------- the cases ----------

  function Switch(op: u8): Call {
    if op < 0x80 then
      (if op < 0x40 then (if op < 0x20 then Switch00(op) else Switch20(op))
       else (if op < 0x60 then Switch40(op) else Switch60(op)))
    else
      (if op < 0xc0 then (if op < 0xa0 then Switch80(op) else SwitchA0(op))
       else (if op < 0xe0 then SwitchC0(op) else SwitchE0(op)))
  }

  function Switch00(op: u8): Call {
    match op
    case 0x00 => Plain(Brk)
    case 0x01 => Value(ORA, IndX, 1, 2)
    case 0x03 => Combine(SLO, AtPointerX, 3, CLK_IND_X_RMW, 2, Absolute)
    case 0x04 => Skip(1, 2)
    case 0x05 => Value(ORA, Zp, 1, 2)
    case 0x06 => Shift(ASL, AtP1, CLK_ZERO_RMW, 2, ZeroPage)
    case 0x07 => Combine(SLO, AtP1, 0, CLK_ZERO_RMW, 2, ZeroPage)
    case 0x08 => Plain(Php)
    case 0x09 => Value(ORA, Imm, 0, 2)
    case 0x0a => Plain(Accumulator(ASL))
    case 0x0b => Fixed(ANC, Imm, 2)
    case 0x0c => Plain(Noop(Abs))
    case 0x0d => Value(ORA, Abs, 1, 3)
    case 0x0e => Shift(ASL, AtP2, CLK_ABS_RMW2, 3, Absolute)
    case 0x0f => Combine(SLO, AtP2, 0, CLK_ABS_RMW2, 3, Absolute)
    case 0x10 => Plain(Branch(Sign, false))
    case 0x11 => Value(ORA, IndY, 1, 2)
    case 0x13 => CombineIndY(SLO)
    case 0x14 => Skip(CLK_NOOP_ZERO_X, 2)
    case 0x15 => Value(ORA, ZpX, CLK_ZERO_I2, 2)
    case 0x16 => Shift(ASL, AtP1X, CLK_ZERO_I_RMW, 2, ZeroPage)
    case 0x17 => Combine(SLO, AtP1X, 0, CLK_ZERO_I_RMW, 2, ZeroPage)
    case 0x18 => Plain(Reg(CLC))
    case 0x19 => Value(ORA, AbsY, 1, 3)
    case 0x1a => Skip(0, 1)
    case 0x1b => Combine(SLO, AtP2, 0, CLK_ABS_I_RMW2, 3, AbsoluteY)
    case 0x1c => Plain(Noop(AbsX))
    case 0x1d => Value(ORA, AbsX, 1, 3)
    case 0x1e => Shift(ASL, AtP2, CLK_ABS_I_RMW2, 3, AbsoluteX)
    case 0x1f => Combine(SLO, AtP2, 0, CLK_ABS_I_RMW2, 3, AbsoluteX)
    case _ => Plain(Jam)
  }

  function Switch20(op: u8): Call {
    match op
    case 0x20 => Plain(Jsr)
    case 0x21 => Value(AND, IndX, 1, 2)
    case 0x23 => Combine(RLA, AtPointerX, 3, CLK_IND_X_RMW, 2, Absolute)
    case 0x24 => Fixed(BIT, Zp, 2)
    case 0x25 => Value(AND, Zp, 1, 2)
    case 0x26 => Shift(ROL, AtP1, CLK_ZERO_RMW, 2, ZeroPage)
    case 0x27 => Combine(RLA, AtP1, 0, CLK_ZERO_RMW, 2, ZeroPage)
    case 0x28 => Plain(Plp)
    case 0x29 => Value(AND, Imm, 0, 2)
    case 0x2a => Plain(Accumulator(ROL))
    case 0x2b => Fixed(ANC, Imm, 2)
    case 0x2c => Fixed(BIT, Abs, 3)
    case 0x2d => Value(AND, Abs, 1, 3)
    case 0x2e => Shift(ROL, AtP2, CLK_ABS_RMW2, 3, Absolute)
    case 0x2f => Combine(RLA, AtP2, 0, CLK_ABS_RMW2, 3, Absolute)
    case 0x30 => Plain(Branch(Sign, true))
    case 0x31 => Value(AND, IndY, 1, 2)
    case 0x33 => CombineIndY(RLA)
    case 0x34 => Skip(CLK_NOOP_ZERO_X, 2)
    case 0x35 => Value(AND, ZpX, CLK_ZERO_I2, 2)
    case 0x36 => Shift(ROL, AtP1X, CLK_ZERO_I_RMW, 2, ZeroPage)
    case 0x37 => Combine(RLA, AtP1X, 0, CLK_ZERO_I_RMW, 2, ZeroPage)
    case 0x38 => Plain(Reg(SEC))
    case 0x39 => Value(AND, AbsY, 1, 3)
    case 0x3a => Skip(0, 1)
    case 0x3b => Combine(RLA, AtP2, 0, CLK_ABS_I_RMW2, 3, AbsoluteY)
    case 0x3c => Plain(Noop(AbsX))
    case 0x3d => Value(AND, AbsX, 1, 3)
    case 0x3e => Shift(ROL, AtP2, CLK_ABS_I_RMW2, 3, AbsoluteX)
    case 0x3f => Combine(RLA, AtP2, 0, CLK_ABS_I_RMW2, 3, AbsoluteX)
    case _ => Plain(Jam)
  }

  function Switch40(op: u8): Call {
    match op
    case 0x40 => Plain(Rti)
    case 0x41 => Value(EOR, IndX, 1, 2)
    case 0x43 => Combine(SRE, AtPointerX, 3, CLK_IND_X_RMW, 2, Absolute)
    case 0x44 => Skip(1, 2)
    case 0x45 => Value(EOR, Zp, 1, 2)
    case 0x46 => Shift(LSR, AtP1, CLK_ZERO_RMW, 2, ZeroPage)
    case 0x47 => Combine(SRE, AtP1, 0, CLK_ZERO_RMW, 2, ZeroPage)
    case 0x48 => Plain(Pha)
    case 0x49 => Value(EOR, Imm, 0, 2)
    case 0x4a => Plain(Accumulator(LSR))
    case 0x4b => Fixed(ASR, Imm, 2)
    case 0x4c => Plain(Jmp)
    case 0x4d => Value(EOR, Abs, 1, 3)
    case 0x4e => Shift(LSR, AtP2, CLK_ABS_RMW2, 3, Absolute)
    case 0x4f => Combine(SRE, AtP2, 0, CLK_ABS_RMW2, 3, Absolute)
    case 0x50 => Plain(Branch(Overflow, false))
    case 0x51 => Value(EOR, IndY, 1, 2)
    case 0x53 => CombineIndY(SRE)
    case 0x54 => Skip(CLK_NOOP_ZERO_X, 2)
    case 0x55 => Value(EOR, ZpX, CLK_ZERO_I2, 2)
    case 0x56 => Shift(LSR, AtP1X, CLK_ZERO_I_RMW, 2, ZeroPage)
    case 0x57 => Combine(SRE, AtP1X, 0, CLK_ZERO_I_RMW, 2, ZeroPage)
    case 0x58 => Plain(Reg(CLI))
    case 0x59 => Value(EOR, AbsY, 1, 3)
    case 0x5a => Skip(0, 1)
    case 0x5b => Combine(SRE, AtP2, 0, CLK_ABS_I_RMW2, 3, AbsoluteY)
    case 0x5c => Plain(Noop(AbsX))
    case 0x5d => Value(EOR, AbsX, 1, 3)
    case 0x5e => Shift(LSR, AtP2, CLK_ABS_I_RMW2, 3, AbsoluteX)
    case 0x5f => Combine(SRE, AtP2, 0, CLK_ABS_I_RMW2, 3, AbsoluteX)
    case _ => Plain(Jam)
  }

  function Switch60(op: u8): Call {
    match op
    case 0x60 => Plain(Rts)
    case 0x61 => Value(ADC, IndX, 1, 2)
    case 0x63 => Combine(RRA, AtPointerX, 3, CLK_IND_X_RMW, 2, Absolute)
    case 0x64 => Skip(1, 2)
    case 0x65 => Value(ADC, Zp, 1, 2)
    case 0x66 => Shift(ROR, AtP1, CLK_ZERO_RMW, 2, ZeroPage)
    case 0x67 => Combine(RRA, AtP1, 0, CLK_ZERO_RMW, 2, ZeroPage)
    case 0x68 => Plain(Pla)
    case 0x69 => Value(ADC, Imm, 0, 2)
    case 0x6a => Plain(Accumulator(ROR))
    case 0x6b => Fixed(ARR, Imm, 2)
    case 0x6c => Plain(JmpInd)
    case 0x6d => Value(ADC, Abs, 1, 3)
    case 0x6e => Shift(ROR, AtP2, CLK_ABS_RMW2, 3, Absolute)
    case 0x6f => Combine(RRA, AtP2, 0, CLK_ABS_RMW2, 3, Absolute)
    case 0x70 => Plain(Branch(Overflow, true))
    case 0x71 => Value(ADC, IndY, 1, 2)
    case 0x73 => CombineIndY(RRA)
    case 0x74 => Skip(CLK_NOOP_ZERO_X, 2)
    case 0x75 => Value(ADC, ZpX, CLK_ZERO_I2, 2)
    case 0x76 => Shift(ROR, AtP1X, CLK_ZERO_I_RMW, 2, ZeroPage)
    case 0x77 => Combine(RRA, AtP1X, 0, CLK_ZERO_I_RMW, 2, ZeroPage)
    case 0x78 => Plain(Reg(SEI))
    case 0x79 => Value(ADC, AbsY, 1, 3)
    case 0x7a => Skip(0, 1)
    case 0x7b => Combine(RRA, AtP2, 0, CLK_ABS_I_RMW2, 3, AbsoluteY)
    case 0x7c => Plain(Noop(AbsX))
    case 0x7d => Value(ADC, AbsX, 1, 3)
    case 0x7e => Shift(ROR, AtP2, CLK_ABS_I_RMW2, 3, AbsoluteX)
    case 0x7f => Combine(RRA, AtP2, 0, CLK_ABS_I_RMW2, 3, AbsoluteX)
    case _ => Plain(Jam)
  }

  function Switch80(op: u8): Call {
    match op
    case 0x80 | 0x82 | 0x89 => Skip(0, 2)
    case 0x81 => StoreTo(A, AtPointerX, 3, 1, 2)
    case 0x83 => StoreTo(AX, AtPointerX, 3, 1, 2)
    case 0x84 => StoreZero(Y, AtP1, 1, 2)
    case 0x85 => StoreZero(A, AtP1, 1, 2)
    case 0x86 => StoreZero(X, AtP1, 1, 2)
    case 0x87 => StoreZero(AX, AtP1, 1, 2)
    case 0x88 => Plain(Reg(DEY))
    case 0x8a => Plain(Reg(TXA))
    case 0x8b => Fixed(ANE, Imm, 2)
    case 0x8c => StoreTo(Y, AtP2, 0, 1, 3)
    case 0x8d => StoreTo(A, AtP2, 0, 1, 3)
    case 0x8e => StoreTo(X, AtP2, 0, 1, 3)
    case 0x8f => StoreTo(AX, AtP2, 0, 1, 3)
    case 0x90 => Plain(Branch(Carry, false))
    case 0x91 => Plain(Store(A, IndY))
    case 0x93 => Plain(StoreHigh(AX, IndY, false))
    case 0x94 => StoreZero(Y, AtSumX, CLK_ZERO_I_STORE, 2)
    case 0x95 => StoreZero(A, AtSumX, CLK_ZERO_I_STORE, 2)
    case 0x96 => StoreZero(X, AtSumY, CLK_ZERO_I_STORE, 2)
    case 0x97 => StoreTo(AX, AtP1Y, 0, CLK_ZERO_I_STORE, 2)
    case 0x98 => Plain(Reg(TYA))
    case 0x99 => StaIndexed(Y, 0, CLK_ABS_I_STORE2, 3)
    case 0x9a => Plain(Reg(TXS))
    case 0x9b => Plain(StoreHigh(AX, AbsY, true))
    case 0x9c => Plain(StoreHigh(Y, AbsX, false))
    case 0x9d => StaIndexed(X, 0, CLK_ABS_I_STORE2, 3)
    case 0x9e => Plain(StoreHigh(X, AbsY, false))
    case 0x9f => Plain(StoreHigh(AX, AbsY, false))
    case _ => Plain(Jam)
  }

  function SwitchA0(op: u8): Call {
    match op
    case 0xa0 => Value(LDY, Imm, 0, 2)
    case 0xa1 => Value(LDA, IndX, 1, 2)
    case 0xa2 => Value(LDX, Imm, 0, 2)
    case 0xa3 => Value(LAX, IndX, 1, 2)
    case 0xa4 => Value(LDY, Zp, 1, 2)
    case 0xa5 => Value(LDA, Zp, 1, 2)
    case 0xa6 => Value(LDX, Zp, 1, 2)
    case 0xa7 => Value(LAX, Zp, 1, 2)
    case 0xa8 => Plain(Reg(TAY))
    case 0xa9 => Value(LDA, Imm, 0, 2)
    case 0xaa => Plain(Reg(TAX))
    case 0xab => Fixed(LXA, Imm, 2)
    case 0xac => Value(LDY, Abs, 1, 3)
    case 0xad => Value(LDA, Abs, 1, 3)
    case 0xae => Value(LDX, Abs, 1, 3)
    case 0xaf => Value(LAX, Abs, 1, 3)
    case 0xb0 => Plain(Branch(Carry, true))
    case 0xb1 => Value(LDA, IndY, 1, 2)
    case 0xb3 => Value(LAX, IndY, 1, 2)
    case 0xb4 => Value(LDY, ZpX, CLK_ZERO_I2, 2)
    case 0xb5 => Value(LDA, ZpX, CLK_ZERO_I2, 2)
    case 0xb6 => Value(LDX, ZpY, CLK_ZERO_I2, 2)
    case 0xb7 => Value(LAX, ZpY, CLK_ZERO_I2, 2)
    case 0xb8 => Plain(Reg(CLV))
    case 0xb9 => Value(LDA, AbsY, 1, 3)
    case 0xba => Plain(Reg(TSX))
    case 0xbb => Value(LAS, AbsY, 1, 3)
    case 0xbc => Value(LDY, AbsX, 1, 3)
    case 0xbd => Value(LDA, AbsX, 1, 3)
    case 0xbe => Value(LDX, AbsY, 1, 3)
    case 0xbf => Value(LAX, AbsY, 1, 3)
    case _ => Plain(Jam)
  }

  function SwitchC0(op: u8): Call {
    match op
    case 0xc0 => Value(CPY, Imm, 0, 2)
    case 0xc1 => Value(CMP, IndX, 1, 2)
    case 0xc2 => Skip(0, 2)
    case 0xc3 => Combine(DCP, AtPointerX, 3, CLK_IND_X_RMW, 2, Absolute)
    case 0xc4 => Value(CPY, Zp, 1, 2)
    case 0xc5 => Value(CMP, Zp, 1, 2)
    case 0xc6 => Shift(DEC, AtP1, CLK_ZERO_RMW, 2, ZeroPage)
    case 0xc7 => Combine(DCP, AtP1, 0, CLK_ZERO_RMW, 2, ZeroPage)
    case 0xc8 => Plain(Reg(INY))
    case 0xc9 => Value(CMP, Imm, 0, 2)
    case 0xca => Plain(Reg(DEX))
    case 0xcb => Fixed(SBX, Imm, 2)
    case 0xcc => Value(CPY, Abs, 1, 3)
    case 0xcd => Value(CMP, Abs, 1, 3)
    case 0xce => Shift(DEC, AtP2, CLK_ABS_RMW2, 3, Absolute)
    case 0xcf => Combine(DCP, AtP2, 0, CLK_ABS_RMW2, 3, Absolute)
    case 0xd0 => Plain(Branch(Zero, false))
    case 0xd1 => Value(CMP, IndY, 1, 2)
    case 0xd3 => CombineIndY(DCP)
    case 0xd4 => Skip(CLK_NOOP_ZERO_X, 2)
    case 0xd5 => Value(CMP, ZpX, CLK_ZERO_I2, 2)
    case 0xd6 => Shift(DEC, AtP1X, CLK_ZERO_I_RMW, 2, Absolute)
    case 0xd7 => Combine(DCP, AtP1X, 0, CLK_ZERO_I_RMW, 2, Absolute)
    case 0xd8 => Plain(Reg(CLD))
    case 0xd9 => Value(CMP, AbsY, 1, 3)
    case 0xda => Skip(0, 1)
    case 0xdb => Combine(DCP, AtP2, 0, CLK_ABS_I_RMW2, 3, AbsoluteY)
    case 0xdc => Plain(Noop(AbsX))
    case 0xdd => Value(CMP, AbsX, 1, 3)
    case 0xde => Shift(DEC, AtP2, CLK_ABS_I_RMW2, 3, AbsoluteX)
    case 0xdf => Combine(DCP, AtP2, 0, CLK_ABS_I_RMW2, 3, AbsoluteX)
    case _ => Plain(Jam)
  }

  function SwitchE0(op: u8): Call {
    match op
    case 0xe0 => Value(CPX, Imm, 0, 2)
    case 0xe1 => Value(SBC, IndX, 1, 2)
    case 0xe2 => Skip(0, 2)
    case 0xe3 => Combine(ISB, AtPointerX, 3, CLK_IND_X_RMW, 2, Absolute)
    case 0xe4 => Value(CPX, Zp, 1, 2)
    case 0xe5 => Value(SBC, Zp, 1, 2)
    case 0xe6 => Shift(INC, AtP1, CLK_ZERO_RMW, 2, ZeroPage)
    case 0xe7 => Combine(ISB, AtP1, 0, CLK_ZERO_RMW, 2, ZeroPage)
    case 0xe8 => Plain(Reg(INX))
    case 0xe9 | 0xeb => Value(SBC, Imm, 0, 2)
    case 0xea | 0xfa => Skip(0, 1)
    case 0xec => Value(CPX, Abs, 1, 3)
    case 0xed => Value(SBC, Abs, 1, 3)
    case 0xee => Shift(INC, AtP2, CLK_ABS_RMW2, 3, Absolute)
    case 0xef => Combine(ISB, AtP2, 0, CLK_ABS_RMW2, 3, Absolute)
    case 0xf0 => Plain(Branch(Zero, true))
    case 0xf1 => Value(SBC, IndY, 1, 2)
    case 0xf3 => CombineIndY(ISB)
    case 0xf4 => Skip(CLK_NOOP_ZERO_X, 2)
    case 0xf5 => Value(SBC, ZpX, CLK_ZERO_I2, 2)
    case 0xf6 => Shift(INC, AtP1X, CLK_ZERO_I_RMW, 2, ZeroPage)
    case 0xf7 => Combine(ISB, AtP1X, 0, CLK_ZERO_I_RMW, 2, ZeroPage)
    case 0xf8 => Plain(Reg(SED))
    case 0xf9 => Value(SBC, AbsY, 1, 3)
    case 0xfb => Combine(ISB, AtP2, 0, CLK_ABS_I_RMW2, 3, AbsoluteY)
    case 0xfc => Plain(Noop(AbsX))
    case 0xfd => Value(SBC, AbsX, 1, 3)
    case 0xfe => Shift(INC, AtP2, CLK_ABS_I_RMW2, 3, AbsoluteX)
    case 0xff => Combine(ISB, AtP2, 0, CLK_ABS_I_RMW2, 3, AbsoluteX)
    case _ => Plain(Jam)
  }

  lemma Cases00(op: u8)
    requires 0x00 <= op < 0x08 && Decode00(op) != Jam
    ensures Implements(Switch00(op), Decode00(op), LongFetch(op))
  {
  }

  lemma Cases08(op: u8)
    requires 0x08 <= op < 0x10 && Decode00(op) != Jam
    ensures Implements(Switch00(op), Decode00(op), LongFetch(op))
  {
  }

  lemma Cases10(op: u8)
    requires 0x10 <= op < 0x18 && Decode00(op) != Jam
    ensures Implements(Switch00(op), Decode00(op), LongFetch(op))
  {
  }

  lemma Cases18(op: u8)
    requires 0x18 <= op < 0x20 && Decode00(op) != Jam
    ensures Implements(Switch00(op), Decode00(op), LongFetch(op))
  {
  }

  lemma Cases20(op: u8)
    requires 0x20 <= op < 0x28 && Decode20(op) != Jam
    ensures Implements(Switch20(op), Decode20(op), LongFetch(op))
  {
  }

  lemma Cases28(op: u8)
    requires 0x28 <= op < 0x30 && Decode20(op) != Jam
    ensures Implements(Switch20(op), Decode20(op), LongFetch(op))
  {
  }

  lemma Cases30(op: u8)
    requires 0x30 <= op < 0x38 && Decode20(op) != Jam
    ensures Implements(Switch20(op), Decode20(op), LongFetch(op))
  {
  }

  lemma Cases38(op: u8)
    requires 0x38 <= op < 0x40 && Decode20(op) != Jam
    ensures Implements(Switch20(op), Decode20(op), LongFetch(op))
  {
  }

  lemma Cases40(op: u8)
    requires 0x40 <= op < 0x48 && Decode40(op) != Jam
    ensures Implements(Switch40(op), Decode40(op), LongFetch(op))
  {
  }

  lemma Cases48(op: u8)
    requires 0x48 <= op < 0x50 && Decode40(op) != Jam
    ensures Implements(Switch40(op), Decode40(op), LongFetch(op))
  {
  }

  lemma Cases50(op: u8)
    requires 0x50 <= op < 0x58 && Decode40(op) != Jam
    ensures Implements(Switch40(op), Decode40(op), LongFetch(op))
  {
  }

  lemma Cases58(op: u8)
    requires 0x58 <= op < 0x60 && Decode40(op) != Jam
    ensures Implements(Switch40(op), Decode40(op), LongFetch(op))
  {
  }

  lemma Cases60(op: u8)
    requires 0x60 <= op < 0x68 && Decode60(op) != Jam
    ensures Implements(Switch60(op), Decode60(op), LongFetch(op))
  {
  }

  lemma Cases68(op: u8)
    requires 0x68 <= op < 0x70 && Decode60(op) != Jam
    ensures Implements(Switch60(op), Decode60(op), LongFetch(op))
  {
  }

  lemma Cases70(op: u8)
    requires 0x70 <= op < 0x78 && Decode60(op) != Jam
    ensures Implements(Switch60(op), Decode60(op), LongFetch(op))
  {
  }

  lemma Cases78(op: u8)
    requires 0x78 <= op < 0x80 && Decode60(op) != Jam
    ensures Implements(Switch60(op), Decode60(op), LongFetch(op))
  {
  }

  lemma Cases80(op: u8)
    requires 0x80 <= op < 0x88 && Decode80(op) != Jam
    ensures Implements(Switch80(op), Decode80(op), LongFetch(op))
  {
  }

  lemma Cases88(op: u8)
    requires 0x88 <= op < 0x90 && Decode80(op) != Jam
    ensures Implements(Switch80(op), Decode80(op), LongFetch(op))
  {
  }

  lemma Cases90(op: u8)
    requires 0x90 <= op < 0x98 && Decode80(op) != Jam
    ensures Implements(Switch80(op), Decode80(op), LongFetch(op))
  {
  }

  lemma Cases98(op: u8)
    requires 0x98 <= op < 0xa0 && Decode80(op) != Jam
    ensures Implements(Switch80(op), Decode80(op), LongFetch(op))
  {
  }

  lemma CasesA0(op: u8)
    requires 0xa0 <= op < 0xa8 && DecodeA0(op) != Jam
    ensures Implements(SwitchA0(op), DecodeA0(op), LongFetch(op))
  {
  }

  lemma CasesA8(op: u8)
    requires 0xa8 <= op < 0xb0 && DecodeA0(op) != Jam
    ensures Implements(SwitchA0(op), DecodeA0(op), LongFetch(op))
  {
  }

  lemma CasesB0(op: u8)
    requires 0xb0 <= op < 0xb8 && DecodeA0(op) != Jam
    ensures Implements(SwitchA0(op), DecodeA0(op), LongFetch(op))
  {
  }

  lemma CasesB8(op: u8)
    requires 0xb8 <= op < 0xc0 && DecodeA0(op) != Jam
    ensures Implements(SwitchA0(op), DecodeA0(op), LongFetch(op))
  {
  }

  lemma CasesC0(op: u8)
    requires 0xc0 <= op < 0xc8 && DecodeC0(op) != Jam
    ensures Implements(SwitchC0(op), DecodeC0(op), LongFetch(op))
  {
  }

  lemma CasesC8(op: u8)
    requires 0xc8 <= op < 0xd0 && DecodeC0(op) != Jam
    ensures Implements(SwitchC0(op), DecodeC0(op), LongFetch(op))
  {
  }

  lemma CasesD0(op: u8)
    requires 0xd0 <= op < 0xd8 && DecodeC0(op) != Jam
    ensures Implements(SwitchC0(op), DecodeC0(op), LongFetch(op))
  {
  }

  lemma CasesD8(op: u8)
    requires 0xd8 <= op < 0xe0 && DecodeC0(op) != Jam
    ensures Implements(SwitchC0(op), DecodeC0(op), LongFetch(op))
  {
  }

  lemma CasesE0(op: u8)
    requires 0xe0 <= op < 0xe8 && DecodeE0(op) != Jam
    ensures Implements(SwitchE0(op), DecodeE0(op), LongFetch(op))
  {
  }

  lemma CasesE8(op: u8)
    requires 0xe8 <= op < 0xf0 && DecodeE0(op) != Jam
    ensures Implements(SwitchE0(op), DecodeE0(op), LongFetch(op))
  {
  }

  lemma CasesF0(op: u8)
    requires 0xf0 <= op < 0xf8 && DecodeE0(op) != Jam
    ensures Implements(SwitchE0(op), DecodeE0(op), LongFetch(op))
  {
  }

  lemma CasesF8(op: u8)
    requires 0xf8 <= op && DecodeE0(op) != Jam
    ensures Implements(SwitchE0(op), DecodeE0(op), LongFetch(op))
  {
  }

  /** Every case of the switch calls the macro of the instruction that its opcode stands for, and
      its cycle arguments, the cycles inside the macros and the fetch add up to the data sheet's count. */
  lemma SwitchImplementsIsa(op: u8)
    requires Decode(op) != Jam
    ensures Implements(Switch(op), Decode(op), LongFetch(op))
  {
    hide Implements, LongFetch;
    hide Switch00, Switch20, Switch40, Switch60, Switch80, SwitchA0, SwitchC0, SwitchE0;
    hide Decode00, Decode20, Decode40, Decode60, Decode80, DecodeA0, DecodeC0, DecodeE0;
    match op / 8 {
      case 0 => Cases00(op);
      case 1 => Cases08(op);
      case 2 => Cases10(op);
      case 3 => Cases18(op);
      case 4 => Cases20(op);
      case 5 => Cases28(op);
      case 6 => Cases30(op);
      case 7 => Cases38(op);
      case 8 => Cases40(op);
      case 9 => Cases48(op);
      case 10 => Cases50(op);
      case 11 => Cases58(op);
      case 12 => Cases60(op);
      case 13 => Cases68(op);
      case 14 => Cases70(op);
      case 15 => Cases78(op);
      case 16 => Cases80(op);
      case 17 => Cases88(op);
      case 18 => Cases90(op);
      case 19 => Cases98(op);
      case 20 => CasesA0(op);
      case 21 => CasesA8(op);
      case 22 => CasesB0(op);
      case 23 => CasesB8(op);
      case 24 => CasesC0(op);
      case 25 => CasesC8(op);
      case 26 => CasesD0(op);
      case 27 => CasesD8(op);
      case 28 => CasesE0(op);
      case 29 => CasesE8(op);
      case 30 => CasesF0(op);
      case _ => CasesF8(op);
    }
  }
}
