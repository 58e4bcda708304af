/** The reference machine with its lazily evaluated flags is the machine of the mnemonics, for every instruction. */
module Refinement6510 {
  import opened Bytes
  import opened Status6510
  import opened Digits
  import opened Isa6510
  import opened Seen6510
  import M = Monitor6510
  import E = Eager6510

  /** The registers as a program sees them: N and Z come from the bytes they were last set from. */
  function Visible(r: Regs): E.Regs {
    E.Regs(r.a, r.x, r.y, r.sp, E.Flags(r.n >= 0x80, r.p.v, r.p.d, r.p.i, r.z == 0, r.p.c))
  }

  function Shown(s: Cpu): E.Cpu { E.Cpu(Visible(s.r), s.pc, s.clk, s.ram) }

  /** reg_p itself never holds N or Z. */
  predicate Lazy(r: Regs) { !r.p.n && !r.p.z }

  // ---------- registers ----------

  lemma AdcSeen(r: Regs, v: u8)
    requires Lazy(r)
    ensures E.Add(Visible(r), v) == Visible(Adc(r, v)) && Lazy(Adc(r, v))
  {
    AddRange(r.a, v, r.p.c);
    DecimalAddRange(r.a, v, r.p.c);
    hide DecAdd, OutOfRange, Signed, SignedDigit, AddOverflows;
  }

  lemma SbcSeen(r: Regs, v: u8)
    requires Lazy(r)
    ensures E.Subtract(Visible(r), v) == Visible(Sbc(r, v)) && Lazy(Sbc(r, v))
  {
    SubRange(r.a, v, r.p.c);
    hide DecSub, OutOfRange, Signed, SubOverflows;
  }

  lemma CompareSeen(r: Regs, reg: u8, v: u8)
    requires Lazy(r)
    ensures E.Compare(Visible(r), reg, v) == Visible(Compare(r, reg, v)) && Lazy(Compare(r, reg, v))
  {
  }

  lemma NzSeen(r: Regs, v: u8)
    ensures E.NZ(Visible(r), v) == Visible(NZ(r, v))
  {
  }

  lemma Fields(r: Regs)
    ensures Visible(r).a == r.a && Visible(r).x == r.x && Visible(r).y == r.y && Visible(r).sp == r.sp
    ensures Visible(r).f.c == r.p.c && Visible(r).f.d == r.p.d
  {
  }

  /** A byte loaded into a register sets N and Z. */
  lemma LoadedSeen(r: Regs, v: u8)
    ensures E.Load(M.LDA, Visible(r), v) == Visible(NZ(r.(a := v), v)) && Lazy(NZ(r.(a := v), v)) == Lazy(r)
    ensures E.Load(M.LDX, Visible(r), v) == Visible(NZ(r.(x := v), v)) && Lazy(NZ(r.(x := v), v)) == Lazy(r)
    ensures E.Load(M.LDY, Visible(r), v) == Visible(NZ(r.(y := v), v)) && Lazy(NZ(r.(y := v), v)) == Lazy(r)
    ensures var t := NZ(r.(a := v, x := v), v); E.Load(M.LAX, Visible(r), v) == Visible(t) && Lazy(t) == Lazy(r)
  {
    hide Or, And, Xor;
    NzSeen(r.(a := v), v);
    NzSeen(r.(x := v), v);
    NzSeen(r.(y := v), v);
    NzSeen(r.(a := v, x := v), v);
    hide E.NZ;
  }

  lemma ArrSeen(r: Regs, v: u8)
    requires Lazy(r)
    ensures E.AndRotate(Visible(r), v) == Visible(Arr(r, v)) && Lazy(Arr(r, v))
  {
    var t := And(r.a, v);
    var w: u8 := t / 2 + 0x80 * OneIf(r.p.c);
    hide And, Visible, Arr, E.AndRotate;
    if r.p.d {
      ArrDecimalSeen(r, v, t, w);
    } else {
      ArrBinarySeen(r, v, t, w);
    }
  }

  lemma ArrDecimalSeen(r: Regs, v: u8, t: u8, w: u8)
    requires Lazy(r) && r.p.d && t == And(r.a, v) && w == t / 2 + 0x80 * OneIf(r.p.c)
    ensures E.AndRotate(Visible(r), v) == Visible(Arr(r, v)) && Lazy(Arr(r, v))
  {
    RotatedBits(t, r.p.c);
    FixedDigits(t, w);
    hide And, Bit6, Lo4, Hi4, E.DigitsFixed;
  }

  lemma ArrBinarySeen(r: Regs, v: u8, t: u8, w: u8)
    requires Lazy(r) && !r.p.d && t == And(r.a, v) && w == t / 2 + 0x80 * OneIf(r.p.c)
    ensures E.AndRotate(Visible(r), v) == Visible(Arr(r, v)) && Lazy(Arr(r, v))
  {
    RotatedBits(t, r.p.c);
    hide And, Bit6, Lo4, Hi4, E.DigitsFixed;
  }

  lemma RotatedBits(t: u8, c: bool)
    ensures var w: u8 := t / 2 + 0x80 * OneIf(c);
            && (Bit6(w) <==> t >= 0x80) && (w / 0x20 % 2 == t / 0x40 % 2) && (Bit6(t) <==> t / 0x40 % 2 == 1)
            && (w >= 0x80 <==> c)
  {
  }

  lemma FixedDigits(t: u8, w: u8)
    ensures var fixHi := Hi4(t) + Hi4(t) % 2 > 5;
            var lo := if Lo4(t) + t % 2 > 5 then Lo4(w + 6) else Lo4(w);
            var hi := if fixHi then Lo4(Hi4(w) + 6) else Hi4(w);
            E.DigitsFixed(t, w) == 16 * hi + lo && fixHi == (t / 16 + t / 16 % 2 > 5)
  {
    SixMore(w);
  }

  lemma SixMore(w: u8)
    ensures (w + 6) % 16 == (w % 16 + 6) % 16
  {
  }

  /** The magic constant 0xff of ANE does not show. */
  lemma AneConstant(a: u8, x: u8, v: u8)
    ensures And(And(Or(a, 0xff), x), v) == And(x, v)
  {
    assert Power2(8) == 0x100;
    forall k | 0 <= k < 8
      ensures BitAt(And(Or(a, 0xff), x), k) <==> BitAt(x, k)
    {
      LogicBits(Or(a, 0xff), x, k);
      LogicBits(a, 0xff, k);
      AllOnes(k);
    }
    SameBits(And(Or(a, 0xff), x), x, 8);
  }

  lemma AllOnes(k: nat)
    requires k < 8
    ensures BitAt(0xff, k)
  {
    BitsByWeight(0xff);
  }

  lemma LogicSeen(r: Regs, v: u8)
    ensures E.Load(M.ORA, Visible(r), v) == Visible(NZ(r.(a := Or(r.a, v)), Or(r.a, v)))
    ensures E.Load(M.AND, Visible(r), v) == Visible(NZ(r.(a := And(r.a, v)), And(r.a, v)))
    ensures E.Load(M.EOR, Visible(r), v) == Visible(NZ(r.(a := Xor(r.a, v)), Xor(r.a, v)))
  {
    hide Or, And, Xor;
  }

  lemma LoadSeen(op: ReadOp, r: Regs, v: u8)
    requires Lazy(r) && op in {ORA, AND, EOR, LDA, LDX, LDY, LAX}
    ensures E.Alu(ReadName(op), Visible(r), v) == Visible(ReadEffect(op, r, v)) && Lazy(ReadEffect(op, r, v))
  {
    hide And, Or, Xor, Visible, E.Load, E.Combine, E.Add, E.Subtract, E.Compare, E.AndRotate, Adc, Sbc, Compare, Arr;
    LoadedSeen(r, v);
    LogicSeen(r, v);
  }

  lemma CarriedSeen(r: Regs, v: u8, c: bool)
    ensures E.NZ(E.Carry(Visible(r).(a := v), c), v) == Visible(NZ(r.(a := v, p := r.p.(c := c)), v))
    ensures E.NZ(E.Carry(Visible(r).(x := v), c), v) == Visible(NZ(r.(x := v, p := r.p.(c := c)), v))
  {
  }

  lemma LastSeen(r: Regs, v: u8)
    ensures E.NZ(Visible(r).(a := v, x := v, sp := v), v) == Visible(NZ(r.(a := v, x := v, sp := v), v))
    ensures E.NZ(Visible(r).(a := v, x := v), v) == Visible(NZ(r.(a := v, x := v), v))
    ensures E.NZ(Visible(r).(a := v), v) == Visible(NZ(r.(a := v), v))
  {
  }

  lemma AndedSeen(op: ReadOp, r: Regs, v: u8)
    requires Lazy(r) && op in {LAS, ANE, LXA}
    ensures E.Combine(ReadName(op), Visible(r), v) == Visible(ReadEffect(op, r, v))
  {
    hide Adc, Sbc, Compare, Arr, And, Or, Xor, Bit6, NZ, E.NZ, E.Carry, Visible;
    Fields(r);
    AneConstant(r.a, r.x, v);
    match op {
      case LAS => LastSeen(r, And(r.sp, v));
      case ANE => LastSeen(r, And(r.x, v));
      case LXA => LastSeen(r, And(Or(r.a, 0xee), v));
    }
  }

  lemma CombineSeen(op: ReadOp, r: Regs, v: u8)
    requires Lazy(r) && op in {ANC, ASR, SBX}
    ensures E.Combine(ReadName(op), Visible(r), v) == Visible(ReadEffect(op, r, v))
  {
    hide Adc, Sbc, Compare, Arr, And, Or, Xor, Bit6, NZ, E.NZ, E.Carry, Visible;
    Fields(r);
    match op {
      case ANC => CarriedSeen(r, And(r.a, v), Bit7(And(r.a, v)));
      case ASR => CarriedSeen(r, And(r.a, v) / 2, And(r.a, v) % 2 == 1);
      case SBX => CarriedSeen(r, Low(And(r.a, r.x) - v), And(r.a, r.x) >= v);
    }
  }

  lemma StaysLazy(op: ReadOp, r: Regs, v: u8)
    requires Lazy(r)
    ensures Lazy(ReadEffect(op, r, v))
  {
    hide Adc, Sbc, Compare, Arr, And, Or, Xor, Bit6, Bit7, Low;
    AdcSeen(r, v);
    SbcSeen(r, v);
    CompareSeen(r, r.a, v);
    CompareSeen(r, r.x, v);
    CompareSeen(r, r.y, v);
    ArrSeen(r, v);
  }

  lemma BitSeen(r: Regs, v: u8)
    requires Lazy(r)
    ensures E.Alu(M.BIT, Visible(r), v) == Visible(ReadEffect(BIT, r, v))
  {
    AndCommutes(r.a, v);
    hide And, E.Load, E.Combine, E.Add, E.Subtract, E.Compare, E.AndRotate, Adc, Sbc, Compare, Arr;
  }

  lemma AndCommutes(a: u8, b: u8)
    ensures And(a, b) == And(b, a)
  {
    assert Power2(8) == 0x100;
    forall k | 0 <= k < 8
      ensures BitAt(And(a, b), k) <==> BitAt(And(b, a), k)
    {
      LogicBits(a, b, k);
      LogicBits(b, a, k);
    }
    SameBits(And(a, b), And(b, a), 8);
  }

  lemma SumSeen(op: ReadOp, r: Regs, v: u8)
    requires Lazy(r) && op in {ADC, SBC, CMP, CPX, CPY, ARR}
    ensures E.Alu(ReadName(op), Visible(r), v) == Visible(ReadEffect(op, r, v))
  {
    hide Adc, Sbc, Compare, Arr, E.Add, E.Subtract, E.Compare, E.AndRotate, E.Load, E.Combine, Visible, Lazy, And;
    AdcSeen(r, v);
    SbcSeen(r, v);
    CompareSeen(r, r.a, v);
    CompareSeen(r, r.x, v);
    CompareSeen(r, r.y, v);
    ArrSeen(r, v);
    Fields(r);
  }

  lemma ReadSeen(op: ReadOp, r: Regs, v: u8)
    requires Lazy(r)
    ensures E.Alu(ReadName(op), Visible(r), v) == Visible(ReadEffect(op, r, v)) && Lazy(ReadEffect(op, r, v))
  {
    hide Visible, ReadEffect, Lazy, E.Load, E.Combine, E.Add, E.Subtract, E.Compare, E.AndRotate;
    StaysLazy(op, r, v);
    match op {
      case ORA | AND | EOR | LDA | LDX | LDY | LAX => LoadSeen(op, r, v);
      case LAS | ANE | LXA => AndedSeen(op, r, v);
      case ANC | ASR | SBX => CombineSeen(op, r, v);
      case BIT => BitSeen(r, v);
      case ADC | SBC | CMP | CPX | CPY | ARR => SumSeen(op, r, v);
    }
  }

  lemma ChangedSeen(op: ModifyOp, c: bool, v: u8)
    ensures E.Changed(ModifyName(op), c, v) == Modified(op, c, v)
  {
  }

  /** The carry of the shifts, alone or in combination. */
  predicate Shifts(op: ModifyOp) { !op.INC? && !op.DEC? && !op.ISB? && !op.DCP? }

  lemma ShiftSeen(op: ModifyOp, r: Regs, v: u8)
    ensures E.ShiftFlags(ModifyName(op), Visible(r), v) == Visible(Shifted(op, r, v))
    ensures Lazy(Shifted(op, r, v)) == Lazy(r)
  {
    hide Visible, E.Carry;
    CarrySeen(r, ShiftedOut(op, v));
  }

  function Shifted(op: ModifyOp, r: Regs, v: u8): Regs {
    if Shifts(op) then r.(p := r.p.(c := ShiftedOut(op, v))) else r
  }

  lemma CarrySeen(r: Regs, c: bool)
    ensures E.Carry(Visible(r), c) == Visible(r.(p := r.p.(c := c)))
  {
  }

  lemma PlainModifySeen(op: ModifyOp, r: Regs, v: u8)
    requires Lazy(r) && op in {ASL, LSR, ROL, ROR, INC, DEC}
    ensures E.Rmw(ModifyName(op), Visible(r), v) == Visible(ModifyEffect(op, r, v)) && Lazy(ModifyEffect(op, r, v))
  {
    hide Visible, Modified, E.Changed, E.ShiftFlags, ShiftedOut, E.NZ;
    ChangedSeen(op, r.p.c, v);
    ShiftSeen(op, r, v);
    Fields(r);
    var w := Modified(op, r.p.c, v);
    var t := Shifted(op, r, v);
    NzSeen(t, w);
  }

  lemma LogicModifySeen(op: ModifyOp, r: Regs, v: u8)
    requires Lazy(r) && op in {SLO, RLA, SRE}
    ensures E.Rmw(ModifyName(op), Visible(r), v) == Visible(ModifyEffect(op, r, v)) && Lazy(ModifyEffect(op, r, v))
  {
    hide Visible, Modified, E.Changed, E.ShiftFlags, ShiftedOut, E.Alu, ReadEffect, Lazy;
    ChangedSeen(op, r.p.c, v);
    ShiftSeen(op, r, v);
    Fields(r);
    var w := Modified(op, r.p.c, v);
    var t := Shifted(op, r, v);
    match op {
      case SLO => ReadSeen(ORA, t, w);
      case RLA => ReadSeen(AND, t, w);
      case SRE => ReadSeen(EOR, t, w);
    }
  }

  lemma SumModifySeen(op: ModifyOp, r: Regs, v: u8)
    requires Lazy(r) && op in {RRA, ISB, DCP}
    ensures E.Rmw(ModifyName(op), Visible(r), v) == Visible(ModifyEffect(op, r, v)) && Lazy(ModifyEffect(op, r, v))
  {
    hide Visible, Modified, E.Changed, E.ShiftFlags, ShiftedOut, E.Add, E.Subtract, E.Compare, Adc, Sbc, Compare, Lazy;
    ChangedSeen(op, r.p.c, v);
    ShiftSeen(op, r, v);
    Fields(r);
    var w := Modified(op, r.p.c, v);
    var t := Shifted(op, r, v);
    AdcSeen(t, w);
    SbcSeen(t, w);
    CompareSeen(t, t.a, w);
    Fields(t);
  }

  lemma ModifySeen(op: ModifyOp, r: Regs, v: u8)
    requires Lazy(r)
    ensures E.Rmw(ModifyName(op), Visible(r), v) == Visible(ModifyEffect(op, r, v)) && Lazy(ModifyEffect(op, r, v))
  {
    hide Visible, E.Rmw, ModifyEffect, ModifyName;
    match op {
      case ASL | LSR | ROL | ROR | INC | DEC => PlainModifySeen(op, r, v);
      case SLO | RLA | SRE => LogicModifySeen(op, r, v);
      case RRA | ISB | DCP => SumModifySeen(op, r, v);
    }
  }

  lemma CarryOpSeen(op: ImpliedOp, r: Regs)
    requires Lazy(r) && op in {CLC, SEC, CLV}
    ensures E.SetFlag(ImpliedName(op), Visible(r)) == Visible(ImpliedEffect(op, r)) && Lazy(ImpliedEffect(op, r))
  {
    hide NZ, Low;
  }

  lemma ModeOpSeen(op: ImpliedOp, r: Regs)
    requires Lazy(r) && op in {CLD, SED, CLI, SEI}
    ensures E.SetFlag(ImpliedName(op), Visible(r)) == Visible(ImpliedEffect(op, r)) && Lazy(ImpliedEffect(op, r))
  {
    hide NZ, Low;
  }

  lemma CountSeen(op: ImpliedOp, r: Regs)
    requires Lazy(r) && op in {DEX, DEY, INX, INY}
    ensures E.Direct(ImpliedName(op), Visible(r)) == Visible(ImpliedEffect(op, r)) && Lazy(ImpliedEffect(op, r))
  {
    hide E.Load, E.SetFlag, NZ, Visible, Lazy;
    Fields(r);
    LoadedSeen(r, Low(if op.DEX? then r.x - 1 else if op.INX? then r.x + 1 else if op.DEY? then r.y - 1 else r.y + 1));
  }

  lemma FromASeen(op: ImpliedOp, r: Regs)
    requires Lazy(r) && op in {TAX, TAY}
    ensures E.Direct(ImpliedName(op), Visible(r)) == Visible(ImpliedEffect(op, r)) && Lazy(ImpliedEffect(op, r))
  {
    hide E.Load, E.SetFlag, NZ, Low, Visible, Lazy;
    Fields(r);
    LoadedSeen(r, r.a);
  }

  lemma ToASeen(op: ImpliedOp, r: Regs)
    requires Lazy(r) && op in {TXA, TYA}
    ensures E.Direct(ImpliedName(op), Visible(r)) == Visible(ImpliedEffect(op, r)) && Lazy(ImpliedEffect(op, r))
  {
    hide E.Load, E.SetFlag, NZ, Low, Visible, Lazy;
    Fields(r);
    LoadedSeen(r, if op.TXA? then r.x else r.y);
  }

  lemma PointerSeen(op: ImpliedOp, r: Regs)
    requires Lazy(r) && op in {TSX, TXS}
    ensures E.Direct(ImpliedName(op), Visible(r)) == Visible(ImpliedEffect(op, r)) && Lazy(ImpliedEffect(op, r))
  {
    hide E.Load, E.SetFlag, NZ, Low, Visible, Lazy;
    Fields(r);
    LoadedSeen(r, r.sp);
    SpSeen(r, r.x);
  }

  lemma SpSeen(r: Regs, v: u8)
    ensures Visible(r.(sp := v)) == Visible(r).(sp := v) && Lazy(r.(sp := v)) == Lazy(r)
  {
  }

  lemma DirectSeen(op: ImpliedOp, r: Regs)
    requires Lazy(r)
    ensures E.Direct(ImpliedName(op), Visible(r)) == Visible(ImpliedEffect(op, r)) && Lazy(ImpliedEffect(op, r))
  {
    hide Visible, Lazy, E.SetFlag, E.Load, ImpliedEffect;
    match op {
      case DEX | DEY | INX | INY => CountSeen(op, r);
      case TAX | TAY => FromASeen(op, r);
      case TXA | TYA => ToASeen(op, r);
      case TSX | TXS => PointerSeen(op, r);
      case CLC | SEC | CLV => CarryOpSeen(op, r);
      case CLD | SED | CLI | SEI => ModeOpSeen(op, r);
    }
  }

  // ---------- addresses ----------

  lemma OperandBytes(s: Cpu)
    ensures E.Byte1(Shown(s)) == P1(s) && E.Word1(Shown(s)) == P2(s)
  {
  }

  lemma PointerSeen0(s: Cpu, zp: nat)
    ensures E.ZeroWord(Shown(s), zp) == Pointer(s.ram, zp)
  {
  }

  lemma CrossedSeen(base: u16, index: u8)
    ensures Crosses(base, index) <==> (base + index) / 0x100 != base / 0x100
  {
  }

  lemma AddressSeen(s: Cpu, m: Mode)
    requires !m.Implied? && !m.Imm?
    ensures E.Address(Shown(s), ModeName(m)) == Ea(s, m, P1(s), P2(s))
  {
    hide P1, P2, E.Byte1, E.Word1, E.ZeroWord, Pointer;
    OperandBytes(s);
    PointerSeen0(s, P1(s));
    PointerSeen0(s, P1(s) + s.r.x);
  }

  lemma PenaltySeen(s: Cpu, m: Mode)
    ensures E.PageCrossed(Shown(s), ModeName(m)) == Penalty(s, m, P1(s), P2(s))
  {
    hide P1, P2, E.Byte1, E.Word1, E.ZeroWord, Pointer, Crosses;
    OperandBytes(s);
    PointerSeen0(s, P1(s));
    CrossedSeen(P2(s), s.r.x);
    CrossedSeen(P2(s), s.r.y);
    CrossedSeen(Pointer(s.ram, P1(s)), s.r.y);
  }

  lemma OperandSeen(s: Cpu, m: Mode)
    requires !m.Implied?
    ensures E.OperandOf(Shown(s), ModeName(m)) == Operand(s, m, P1(s), P2(s))
  {
    hide P1, P2, E.Byte1, E.Word1, E.Address, Ea;
    OperandBytes(s);
    if !m.Imm? {
      AddressSeen(s, m);
    }
  }

  lemma NextSeen(s: Cpu, m: Mode, cycles: nat)
    ensures E.Next(Shown(s), ModeName(m), cycles) == Shown(Advance(s, Length(m), cycles))
    ensures Advance(s, Length(m), cycles).r == s.r && !ModeName(m).Accumulator?
  {
    hide Visible;
  }

  // ---------- instructions ----------

  /** The instruction does what its line in the monitor's table says. */
  predicate Agrees(i: Instr, s: Cpu) {
    var t := Exec(i, s, P1(s), P2(s));
    E.Execute(Spelled(i), Shown(s)) == Shown(t) && Lazy(t.r)
  }

  lemma ReadKind(op: ReadOp)
    ensures E.KindOf(ReadName(op)) == E.Reads
  {
  }

  lemma ReadInstr(op: ReadOp, m: Mode, s: Cpu)
    requires Lazy(s.r) && !m.Implied?
    ensures Agrees(Read(op, m), s)
  {
    hide E.ChangeIt, E.WriteHighIt, E.BranchIt, E.Other, ModifyAt, StoreAt;
    hide StoreHighAt, BranchTo, JsrTo, RtsFrom, RtiFrom, Enter;
    hide Visible, Lazy, E.Alu, ReadEffect, ReadName, E.KindOf, E.OperandOf, Operand, P1, P2, Penalty, E.PageCrossed;
    hide E.Next, Advance, ModeName, Length, ReadBase, E.Cycles, Wrap16;
    ReadKind(op);
    var v := Operand(s, m, P1(s), P2(s));
    OperandSeen(s, m);
    PenaltySeen(s, m);
    ReadSeen(op, s.r, v);
    ReadCost(m);
    NextSeen(s.(r := ReadEffect(op, s.r, v)), m, ReadCycles(s, m, P1(s), P2(s)));
  }

  lemma ReadCost(m: Mode)
    ensures E.Cycles(E.Reads, ModeName(m)) == ReadBase(m)
    ensures !m.Implied? && !m.Imm? ==> E.Cycles(E.Changes, ModeName(m)) == ModifyCycles(m)
    ensures !m.Implied? && !m.Imm? ==>
              E.Cycles(E.Writes, ModeName(m)) == E.Cycles(E.WritesHigh, ModeName(m)) == StoreCycles(m)
  {
  }

  lemma NoopInstr(m: Mode, s: Cpu)
    requires Lazy(s.r)
    ensures Agrees(Noop(m), s)
  {
    hide E.ReadIt, E.ChangeIt, E.WriteHighIt, E.BranchIt, E.Other, ReadAt, ModifyAt;
    hide StoreAt, StoreHighAt, BranchTo, JsrTo, RtsFrom, RtiFrom, Enter;
    hide Visible, Lazy, P1, P2, Penalty, E.PageCrossed, E.Next, Advance, ModeName, Length, ReadBase, E.Cycles;
    PenaltySeen(s, m);
    ReadCost(m);
    NextSeen(s, m, ReadCycles(s, m, P1(s), P2(s)));
  }

  lemma ModifyKind(op: ModifyOp)
    ensures E.KindOf(ModifyName(op)) == E.Changes
  {
  }

  lemma ChangeSeen(op: ModifyOp, m: Mode, s: Cpu)
    requires Lazy(s.r) && !m.Implied? && !m.Imm?
    ensures var t := ModifyAt(op, s, Ea(s, m, P1(s), P2(s)), Length(m), ModifyCycles(m));
            E.ChangeIt(ModifyName(op), ModeName(m), Shown(s)) == Shown(t) && Lazy(t.r)
  {
    hide Visible, Lazy, E.Rmw, E.Changed, ModifyEffect, Modified, ModifyName, E.Address, Ea, P1, P2;
    hide E.Next, Advance, Length, ModifyCycles, E.Cycles, ModeName;
    AddressSeen(s, m);
    var ea := Ea(s, m, P1(s), P2(s));
    var v := s.ram[ea];
    Fields(s.r);
    ChangedSeen(op, s.r.p.c, v);
    ModifySeen(op, s.r, v);
    ReadCost(m);
    NextSeen(s.(r := ModifyEffect(op, s.r, v), ram := s.ram[ea := Modified(op, s.r.p.c, v)]), m, ModifyCycles(m));
  }

  lemma ModifyInstr(op: ModifyOp, m: Mode, s: Cpu)
    requires Lazy(s.r) && !m.Implied? && !m.Imm?
    ensures Agrees(Modify(op, m), s)
  {
    hide E.ReadIt, E.ChangeIt, E.WriteHighIt, E.BranchIt, E.Other, ReadAt, ModifyAt, StoreAt, StoreHighAt, BranchTo;
    hide JsrTo, RtsFrom, RtiFrom, Enter, ModifyName, ModeName, E.KindOf, Visible, Lazy, Ea, P1, P2, ModifyCycles;
    hide Length;
    ModifyKind(op);
    ChangeSeen(op, m, s);
  }

  lemma ASeen(r: Regs, v: u8)
    ensures Visible(r.(a := v)) == Visible(r).(a := v) && Lazy(r.(a := v)) == Lazy(r)
  {
  }

  lemma AccumulatorInstr(op: ModifyOp, s: Cpu)
    requires Lazy(s.r)
    ensures Agrees(Accumulator(op), s)
  {
    hide E.ReadIt, E.WriteHighIt, E.BranchIt, E.Other, ReadAt, ModifyAt;
    hide StoreAt, StoreHighAt, BranchTo, JsrTo, RtsFrom, RtiFrom, Enter;
    hide Visible, Lazy, E.Rmw, E.Changed, ModifyEffect, Modified, ModifyName, E.KindOf, E.Address, P1, P2;
    ModifyKind(op);
    Fields(s.r);
    ChangedSeen(op, s.r.p.c, s.r.a);
    ModifySeen(op, s.r, s.r.a);
    ASeen(ModifyEffect(op, s.r, s.r.a), Modified(op, s.r.p.c, s.r.a));
  }

  lemma StoredSeen(src: Register, r: Regs)
    ensures E.Value(StoreName(src), Visible(r)) == Stored(src, r) && E.KindOf(StoreName(src)) == E.Writes
  {
    hide And;
  }

  lemma StoreInstr(src: Register, m: Mode, s: Cpu)
    requires Lazy(s.r) && !m.Implied? && !m.Imm?
    ensures Agrees(Store(src, m), s)
  {
    hide E.ReadIt, E.ChangeIt, E.WriteHighIt, E.BranchIt, E.Other, ReadAt;
    hide ModifyAt, StoreHighAt, BranchTo, JsrTo, RtsFrom, RtiFrom, Enter;
    hide Visible, Lazy, E.Value, Stored, StoreName, E.KindOf, E.Address, Ea, P1, P2;
    hide E.Next, Advance, Length, StoreCycles, E.Cycles, Wrap16;
    AddressSeen(s, m);
    StoredSeen(src, s.r);
    ReadCost(m);
    NextSeen(s.(ram := s.ram[Ea(s, m, P1(s), P2(s)) := Stored(src, s.r)]), m, StoreCycles(m));
  }

  lemma RegInstr(op: ImpliedOp, s: Cpu)
    requires Lazy(s.r)
    ensures Agrees(Reg(op), s)
  {
    hide E.ReadIt, E.ChangeIt, E.WriteHighIt, E.BranchIt, E.Other, ReadAt, ModifyAt;
    hide StoreAt, StoreHighAt, BranchTo, JsrTo, RtsFrom, RtiFrom, Enter;
    hide Visible, Lazy, E.Direct, ImpliedEffect, ImpliedName, E.KindOf;
    DirectKind(op);
    DirectSeen(op, s.r);
  }

  lemma DirectKind(op: ImpliedOp)
    ensures E.KindOf(ImpliedName(op)) == E.Moves
  {
  }

  lemma TakenSeen(f: Flag, want: bool, r: Regs)
    ensures E.Taken(BranchName(f, want), Visible(r).f) == (FlagSet(f, r) == want)
    ensures E.KindOf(BranchName(f, want)) == E.Branches
  {
  }

  lemma PageOf(a: u16)
    ensures High(a) == a / 0x100 && Low(a) == a % 0x100
  {
  }

  lemma BranchInstr(f: Flag, want: bool, s: Cpu)
    requires Lazy(s.r)
    ensures Agrees(Branch(f, want), s)
  {
    hide E.ReadIt, E.ChangeIt, E.WriteHighIt, E.Other, ReadAt, ModifyAt;
    hide StoreAt, StoreHighAt, JsrTo, RtsFrom, RtiFrom, Enter;
    hide Visible, Lazy, E.Taken, FlagSet, BranchName, E.KindOf, P1, P2, E.Byte1, E.Word1, High;
    OperandBytes(s);
    TakenSeen(f, want, s.r);
    PageOf(Wrap16(s.pc + 2));
    PageOf(Wrap16(Wrap16(s.pc + 2) + Signed(P1(s))));
  }

  lemma StoreHighInstr(src: Register, m: Mode, toSp: bool, s: Cpu)
    requires Lazy(s.r) && Regular(StoreHigh(src, m, toSp))
    ensures Agrees(StoreHigh(src, m, toSp), s)
  {
    hide E.ReadIt, E.ChangeIt, E.WriteHighIt, E.BranchIt, E.Other, ReadAt, ModifyAt, StoreHighAt, BranchTo, JsrTo;
    hide RtsFrom, RtiFrom, Enter, Visible, Lazy, Stored, StoreHighName, E.KindOf, P1, P2, Pointer, E.Next, Advance;
    StoredHighSeen(src, toSp, s.r);
    SpSeen(s.r, Stored(src, s.r));
    HighSeen(src, m, toSp, s);
  }

  /** The address and the value of the store. */
  lemma HighSeen(src: Register, m: Mode, toSp: bool, s: Cpu)
    requires Regular(StoreHigh(src, m, toSp))
    ensures var base := if m.IndY? then Pointer(s.ram, P1(s)) else P2(s);
            var index := if m.AbsX? then s.r.x else s.r.y;
            var t := StoreHighAt(s, base, index, Stored(src, s.r), Length(m), StoreCycles(m));
            && E.WriteHighIt(StoreHighName(src, toSp), ModeName(m), Shown(s))
            == Shown(if toSp then t.(r := s.r.(sp := Stored(src, s.r))) else t)
            && t.r == s.r
  {
    hide Visible, E.Value, Stored, StoreHighName, P1, P2, Pointer, And, E.Base, E.IndexOf, ModeName;
    hide Wrap16, Low, High, Crosses, Word, E.Next, Advance, StoreCycles, E.Cycles;
    StoredHighSeen(src, toSp, s.r);
    Fields(s.r);
    BaseSeen(src, m, toSp, s);
    var base := if m.IndY? then Pointer(s.ram, P1(s)) else P2(s);
    var index := if m.AbsX? then s.r.x else s.r.y;
    var v := And(Stored(src, s.r), Low(High(base) + 1));
    HighAddress(base, index, v);
    ReadCost(m);
    var ea := if Crosses(base, index) then Word(Low(base + index), v) else base + index;
    var t := s.(ram := s.ram[ea := v]);
    NextSeen(t, m, StoreCycles(m));
    SpSeen(s.r, Stored(src, s.r));
    NextSeen(t.(r := s.r.(sp := Stored(src, s.r))), m, StoreCycles(m));
    AdvanceWith(t, Length(m), StoreCycles(m), s.r.(sp := Stored(src, s.r)));
  }

  lemma BaseSeen(src: Register, m: Mode, toSp: bool, s: Cpu)
    requires Regular(StoreHigh(src, m, toSp))
    ensures E.Base(Shown(s), ModeName(m)) == if m.IndY? then Pointer(s.ram, P1(s)) else P2(s)
    ensures E.IndexOf(Shown(s), ModeName(m)) == if m.AbsX? then s.r.x else s.r.y
  {
    hide P1, P2, E.Byte1, E.Word1, Pointer, E.ZeroWord, Visible;
    OperandBytes(s);
    PointerSeen0(s, P1(s));
    Fields(s.r);
  }

  lemma AdvanceWith(s: Cpu, len: nat, cycles: nat, r: Regs)
    ensures Advance(s.(r := r), len, cycles) == Advance(s, len, cycles).(r := r)
  {
  }

  lemma HighAddress(base: u16, index: u8, v: u8)
    ensures Low(High(base) + 1) == (base / 0x100 + 1) % 0x100
    ensures var low := base % 0x100 + index;
            && (Crosses(base, index) <==> low > 0xff) && Word(Low(base + index), v) == 0x100 * v + low % 0x100
  {
    PageOf(base);
    LowAfter(base, index);
  }

  lemma StoredHighSeen(src: Register, toSp: bool, r: Regs)
    requires !src.A? && (toSp ==> src.AX?)
    ensures E.Value(StoreHighName(src, toSp), Visible(r)) == Stored(src, r)
    ensures E.KindOf(StoreHighName(src, toSp)) == E.WritesHigh && (StoreHighName(src, toSp).SHS? <==> toSp)
  {
    hide And;
  }

  // ---------- the stack ----------

  lemma StatusSeen(r: Regs, brk: bool)
    requires Lazy(r)
    ensures E.StatusByte(Visible(r).f, brk) == Joined(r.p.(b := brk), r.n, r.z)
  {
    BitWeights(r.p.(b := brk, n := r.p.n || r.n >= 0x80, u := true, z := r.p.z || r.z == 0));
    hide Status.ToByte;
  }

  lemma FlagsPulled(r: Regs, x: u8)
    ensures Visible(SetStatus(r, x)) == Visible(r).(f := E.FlagsOf(x)) && Lazy(SetStatus(r, x))
  {
    BitsOfByte(x);
    hide FromByte;
  }

  lemma PushSeen(s: Cpu, v: u8)
    ensures E.Pushed(Shown(s), v) == Shown(Push(s, v)) && Lazy(Push(s, v).r) == Lazy(s.r)
  {
  }

  lemma PushWordSeen(s: Cpu, w: u16)
    ensures E.PushedWord(Shown(s), w) == Shown(PushWord(s, w)) && Lazy(PushWord(s, w).r) == Lazy(s.r)
  {
    hide Shown, Push, E.Pushed, Lazy;
    PageOf(w);
    PushSeen(s, High(w));
    PushSeen(Push(s, High(w)), Low(w));
  }

  lemma PulledSeen(s: Cpu)
    ensures Top(s) == E.OnStack(Shown(s), 1) && Shown(Pull(s)) == E.Pulled(Shown(s), 1)
    ensures Top(Pull(s)) == E.OnStack(Shown(s), 2) && Shown(Pull(Pull(s))) == E.Pulled(Shown(s), 2)
    ensures Top(Pull(Pull(s))) == E.OnStack(Shown(s), 3) && Shown(Pull(Pull(Pull(s)))) == E.Pulled(Shown(s), 3)
    ensures Lazy(Pull(s).r) == Lazy(Pull(Pull(s)).r) == Lazy(s.r)
  {
    LowAfter(s.r.sp + 1, 1);
    LowAfter(s.r.sp + 2, 1);
  }

  /** The entry into BRK or an interrupt. */
  lemma EnterSeen(s: Cpu, returnPc: u16, brk: bool, nmi: bool)
    requires Lazy(s.r)
    ensures var t := Enter(s, returnPc, brk, if nmi then 0xfffa else 0xfffe, 7);
            Shown(t) == E.Interrupted(Shown(s), returnPc, brk, nmi) && Lazy(t.r)
  {
    hide Push, PushWord, E.Pushed, E.PushedWord, Joined, E.StatusByte;
    StatusSeen(s.r, brk);
    PushWordSeen(s, returnPc);
    PushSeen(PushWord(s, returnPc), Joined(s.r.p.(b := brk), s.r.n, s.r.z));
    MaskedSeen(s, returnPc, Joined(s.r.p.(b := brk), s.r.n, s.r.z), brk);
  }

  lemma MaskedSeen(s: Cpu, returnPc: u16, status: u8, brk: bool)
    ensures var t := Push(PushWord(s, returnPc), status);
            Visible(t.r.(p := s.r.p.(b := brk, i := true))) == Visible(t.r).(f := Visible(t.r).f.(i := true))
  {
    hide High, Low;
  }

  lemma PushInstr(i: Instr, s: Cpu)
    requires Lazy(s.r) && (i.Pha? || i.Php?)
    ensures Agrees(i, s)
  {
    hide E.ReadIt, E.ChangeIt, E.WriteHighIt, E.BranchIt, ReadAt, ModifyAt, StoreAt, StoreHighAt, BranchTo;
    hide JsrTo, RtsFrom, RtiFrom, Enter, Push, E.Pushed, Joined, E.StatusByte, Visible, Lazy, P1, P2, E.Next, Advance;
    Fields(s.r);
    StatusSeen(s.r, true);
    PushSeen(s, s.r.a);
    PushSeen(s, Joined(s.r.p.(b := true), s.r.n, s.r.z));
    NextSeen(Push(s, s.r.a), Implied, 3);
    NextSeen(Push(s, Joined(s.r.p.(b := true), s.r.n, s.r.z)), Implied, 3);
  }

  lemma PullASeen(s: Cpu)
    requires Lazy(s.r)
    ensures var t := Pull(s); E.PullA(Shown(s)) == Shown(Advance(t.(r := NZ(t.r.(a := Top(s)), Top(s))), 1, 4))
    ensures Lazy(NZ(Pull(s).r.(a := Top(s)), Top(s)))
  {
    hide Pull, Top, E.Pulled, E.OnStack, Visible, Lazy, E.Next, Advance, NZ, E.NZ;
    PulledSeen(s);
    var r, v := Pull(s).r, Top(s);
    NzSeen(r.(a := v), v);
    ASeen(r, v);
    LazyNz(r.(a := v), v);
    NextSeen(Pull(s).(r := NZ(r.(a := v), v)), Implied, 4);
  }

  lemma PullPSeen(s: Cpu)
    requires Lazy(s.r)
    ensures var t := Pull(s); E.PullP(Shown(s)) == Shown(Advance(t.(r := SetStatus(t.r, Top(s))), 1, 4))
    ensures Lazy(SetStatus(Pull(s).r, Top(s)))
  {
    hide Pull, Top, E.Pulled, E.OnStack, Visible, Lazy, E.Next, Advance, SetStatus, E.FlagsOf;
    PulledSeen(s);
    FlagsPulled(Pull(s).r, Top(s));
    NextSeen(Pull(s).(r := SetStatus(Pull(s).r, Top(s))), Implied, 4);
  }

  lemma PullInstr(i: Instr, s: Cpu)
    requires Lazy(s.r) && (i.Pla? || i.Plp?)
    ensures Agrees(i, s)
  {
    hide E.ReadIt, E.ChangeIt, E.WriteHighIt, E.BranchIt, ReadAt, ModifyAt, StoreAt, StoreHighAt, BranchTo;
    hide JsrTo, RtsFrom, RtiFrom, Enter, Pull, Top, E.PullA, E.PullP, Visible, Lazy, P1, P2, SetStatus, NZ, Advance;
    PullASeen(s);
    PullPSeen(s);
    AdvanceKeeps(Pull(s).(r := NZ(Pull(s).r.(a := Top(s)), Top(s))), 1, 4);
    AdvanceKeeps(Pull(s).(r := SetStatus(Pull(s).r, Top(s))), 1, 4);
  }

  lemma AdvanceKeeps(s: Cpu, len: nat, cycles: nat)
    ensures Advance(s, len, cycles).r == s.r
  {
  }

  lemma LazyNz(r: Regs, v: u8)
    ensures Lazy(NZ(r, v)) == Lazy(r)
  {
  }

  lemma CallSeen(s: Cpu)
    requires Lazy(s.r)
    ensures E.Call(Shown(s)) == Shown(JsrTo(s, P1(s))) && Lazy(JsrTo(s, P1(s)).r)
  {
    hide PushWord, E.PushedWord, Visible, Lazy, P1, P2, E.Byte1, E.Word1;
    OperandBytes(s);
    PushWordSeen(s, Wrap16(s.pc + 2));
  }

  lemma CallInstr(i: Instr, s: Cpu)
    requires Lazy(s.r) && (i.Jsr? || i.Brk?)
    ensures Agrees(i, s)
  {
    hide E.ReadIt, E.ChangeIt, E.WriteHighIt, E.BranchIt, ReadAt, ModifyAt, StoreAt, StoreHighAt, BranchTo;
    hide RtsFrom, RtiFrom, Enter, E.Interrupted, JsrTo, E.Call, Visible, Lazy, P1, P2;
    CallSeen(s);
    EnterSeen(s, Wrap16(s.pc + 2), true, false);
  }

  lemma ReturnSeen(s: Cpu)
    requires Lazy(s.r)
    ensures E.Return(Shown(s)) == Shown(RtsFrom(s)) && Lazy(RtsFrom(s).r)
  {
    hide Pull, Top, E.Pulled, E.OnStack, Visible, Lazy;
    PulledSeen(s);
  }

  lemma InterruptReturnSeen(s: Cpu)
    requires Lazy(s.r)
    ensures E.ReturnFromInterrupt(Shown(s)) == Shown(RtiFrom(s)) && Lazy(RtiFrom(s).r)
  {
    hide Pull, Top, E.Pulled, E.OnStack, Visible, Lazy, SetStatus, E.FlagsOf, RtiFrom;
    PulledSeen(s);
    SetThenPull(s);
  }

  lemma ReturnInstr(i: Instr, s: Cpu)
    requires Lazy(s.r) && (i.Rts? || i.Rti?)
    ensures Agrees(i, s)
  {
    hide E.ReadIt, E.ChangeIt, E.WriteHighIt, E.BranchIt, ReadAt, ModifyAt, StoreAt, StoreHighAt, BranchTo;
    hide JsrTo, Enter, RtsFrom, RtiFrom, E.Return, E.ReturnFromInterrupt, Visible, Lazy, P1, P2;
    ReturnSeen(s);
    InterruptReturnSeen(s);
  }

  /** RTI sets the flags before it pulls the address. */
  lemma SetThenPull(s: Cpu)
    ensures RtiFrom(s) == Pull(Pull(Pull(s))).(r := SetStatus(Pull(Pull(Pull(s))).r, Top(s)), clk := s.clk + 6,
                                               pc := Word(Top(Pull(s)), Top(Pull(Pull(s)))))
    ensures Visible(SetStatus(Pull(Pull(Pull(s))).r, Top(s)))
         == Visible(Pull(Pull(Pull(s))).r).(f := E.FlagsOf(Top(s)))
    ensures Lazy(SetStatus(Pull(Pull(Pull(s))).r, Top(s)))
  {
    FlagsPulled(Pull(Pull(Pull(s))).r, Top(s));
    hide Split, E.FlagsOf, Low;
  }

  lemma JumpSeen(s: Cpu)
    ensures E.Jump(M.Absolute, Shown(s)) == Shown(s.(pc := P2(s), clk := s.clk + 3))
    ensures var w := P2(s);
            E.Jump(M.AbsIndirect, Shown(s)) ==
              Shown(s.(pc := Word(s.ram[w], s.ram[Word(Low(w + 1), High(w))]), clk := s.clk + 5))
  {
    hide Visible, P1, P2, E.Byte1, E.Word1, Low, High, E.NextInPage;
    OperandBytes(s);
    NextInPage(P2(s));
  }

  lemma JumpInstr(i: Instr, s: Cpu)
    requires Lazy(s.r) && (i.Jmp? || i.JmpInd?)
    ensures Agrees(i, s)
  {
    hide E.ReadIt, E.ChangeIt, E.WriteHighIt, E.BranchIt, ReadAt, ModifyAt, StoreAt, StoreHighAt, BranchTo;
    hide JsrTo, RtsFrom, RtiFrom, Enter, Visible, Lazy, P1, P2, E.Jump, Low, High;
    JumpSeen(s);
  }

  lemma NextInPage(w: u16)
    ensures Word(Low(w + 1), High(w)) == E.NextInPage(w)
  {
    PageOf(w);
  }

  // ---------- every instruction, every run ----------

  lemma ExecSeen(i: Instr, s: Cpu)
    requires Lazy(s.r) && Regular(i) && i != Jam
    ensures Agrees(i, s)
  {
    hide Agrees, Lazy;
    match i {
      case Read(op, m) => ReadInstr(op, m, s);
      case Modify(op, m) => ModifyInstr(op, m, s);
      case Accumulator(op) => AccumulatorInstr(op, s);
      case Store(src, m) => StoreInstr(src, m, s);
      case StoreHigh(src, m, toSp) => StoreHighInstr(src, m, toSp, s);
      case Reg(op) => RegInstr(op, s);
      case Noop(m) => NoopInstr(m, s);
      case Branch(f, want) => BranchInstr(f, want, s);
      case Pha | Php => PushInstr(i, s);
      case Pla | Plp => PullInstr(i, s);
      case Jsr | Brk => CallInstr(i, s);
      case Rts | Rti => ReturnInstr(i, s);
      case Jmp | JmpInd => JumpInstr(i, s);
    }
  }

  lemma RenamedExecutes(l: M.Line, s: E.Cpu)
    ensures E.Execute(Renamed(l), s) == E.Execute(l, s)
  {
    hide E.ChangeIt, E.WriteHighIt, E.BranchIt, E.Other, E.Next, E.Load, E.Combine, E.Subtract, E.Add, E.Address;
    hide E.PageCrossed, E.Cycles, E.OperandOf, E.Direct;
  }

  /** An instruction does what the monitor prints for its opcode. */
  lemma StepSeen(s: Cpu)
    requires Lazy(s.r) && Decode(Opcode(s)) != Jam
    ensures Shown(Step(s)) == E.Step(Shown(s)) && Lazy(Step(s).r)
  {
    hide Exec, Decode, M.Listing, E.Execute, Lazy, Spelled, Renamed, Visible;
    ListingIsIsa(Opcode(s));
    ExecSeen(Decode(Opcode(s)), s);
    RenamedExecutes(M.Listing(Opcode(s)), Shown(s));
  }

  function Happen(s: E.Cpu, e: Event): E.Cpu {
    match e
    case Instruction => E.Step(s)
    case Irq => E.Interrupted(s, s.pc, false, false)
    case Nmi => E.Interrupted(s, s.pc, false, true)
    case HijackedIrq => E.Interrupted(s, s.pc, false, true)
    case HijackedBrk => E.Interrupted(s, (s.pc + 2) % 0x1_0000, true, true)
  }

  lemma HappenSeen(s: Cpu, e: Event)
    requires Lazy(s.r) && Allowed(s, e)
    ensures Shown(Isa6510.Happen(s, e)) == Happen(Shown(s), e) && Lazy(Isa6510.Happen(s, e).r)
  {
    hide Lazy, Step, E.Step, Enter, E.Interrupted, Visible, Decode;
    match e {
      case Instruction => StepSeen(s);
      case Irq => EnterSeen(s, s.pc, false, false);
      case Nmi => EnterSeen(s, s.pc, false, true);
      case HijackedIrq => EnterSeen(s, s.pc, false, true);
      case HijackedBrk => EnterSeen(s, Wrap16(s.pc + 2), true, true);
    }
  }

  function Run(s: E.Cpu, events: seq<Event>): E.Cpu
    decreases |events|
  {
    if events == [] then s else Run(Happen(s, events[0]), events[1..])
  }

  /** Over any run, the lazily evaluated flags are the flags that each instruction sets; everything else agrees, too. */
  lemma {:induction false} RunSeen(s: Cpu, events: seq<Event>)
    requires Lazy(s.r) && JamFree(s, events)
    ensures Shown(Isa6510.Run(s, events)) == Run(Shown(s), events) && Lazy(Isa6510.Run(s, events).r)
    decreases |events|
  {
    hide Shown, Lazy, Isa6510.Happen, Happen, Allowed;
    if events != [] {
      HappenSeen(s, events[0]);
      RunSeen(Isa6510.Happen(s, events[0]), events[1..]);
    }
  }
}
