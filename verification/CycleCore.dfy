/** The cycle-stepped interpreter, vice/src/6510dtvcore.c: one CLK_INC per memory access, with the
    dummy reads and the dummy writes of the real chip. */
module CycleCore {
  import opened Bytes
  import opened Status6510
  import opened Digits
  import opened Isa6510
  import opened Machine6510
  import opened NmosAlu
  import opened CycleSwitch

  method ClkInc(m: Machine)
    requires m.Valid()
    modifies m`clk
    ensures m.View() == old(m.View().(clk := m.clk + 1))
  {
    m.clk := m.clk + 1;
  }

  // ---------- GET_ macros ----------

  /** INT_ABS_I_R when not always, INT_ABS_I_W otherwise: the dummy read at the uncorrected address. */
  method FixAddress(m: Machine, base: u16, index: u8, always: bool)
    requires m.Valid()
    modifies m`clk
    ensures m.View() == old(m.View().(clk := m.clk + OneIf(always || Crosses(base, index))))
  {
    hide Wrap16, High;
    if always || Low(base) + index > 0xff {
      var _ := m.Load(Word(Low(base + index), High(base)));
      m.clk := m.clk + 1;
    }
  }

  /** INT_ZERO_I */
  method DummyZero(m: Machine, p1: u8)
    requires m.Valid()
    modifies m`clk
    ensures m.View() == old(m.View().(clk := m.clk + 1))
  {
    var _ := m.LoadZero(p1);
    m.clk := m.clk + 1;
  }

  /** INT_IND_X */
  method PointerX(m: Machine, p1: u8) returns (addr: u16)
    requires m.Valid()
    modifies m`clk
    ensures m.View() == old(m.View().(clk := m.clk + 3))
    ensures addr == Pointer(m.View().ram, p1 + m.x)
  {
    DummyZero(m, p1);
    var tmpa: int := Low(p1 + m.x);
    var lo := m.LoadZero(tmpa);
    m.clk := m.clk + 1;
    tmpa := Low(tmpa + 1);
    var hi := m.LoadZero(tmpa);
    m.clk := m.clk + 1;
    addr := Word(lo, hi);
  }

  /** The pointer of INT_IND_Y_R, INT_IND_Y_W and INT_IND_Y_W_NOADDR. */
  method PointerY(m: Machine, p1: u8) returns (tmpa: u16)
    requires m.Valid()
    modifies m`clk
    ensures m.View() == old(m.View().(clk := m.clk + 2))
    ensures tmpa == Pointer(m.View().ram, p1)
  {
    hide Low;
    var lo := m.LoadZero(p1);
    m.clk := m.clk + 1;
    var hi := m.LoadZero(p1 + 1);
    m.clk := m.clk + 1;
    tmpa := Word(lo, hi);
  }

  /** GET_IND_X and GET_IND_Y. */
  method GetIndirect(m: Machine, mode: Mode, rmw: bool, p1: u8, ghost p2: u16) returns (v: u8, addr: u16)
    requires m.Valid() && (mode.IndX? || mode.IndY?)
    modifies m`clk
    ensures addr == Ea(m.View(), mode, p1, p2) && v == m.View().ram[addr]
    ensures m.View() == old(m.View().(clk := m.clk + (if rmw then GetRmwClk(mode)
                                                      else GetClk(mode) + OneIf(Penalty(m.View(), mode, p1, p2)))))
  {
    hide Wrap16, Low, Pointer, Crosses;
    if mode.IndX? {
      addr := PointerX(m, p1);
    } else {
      var tmpa := PointerY(m, p1);
      FixAddress(m, tmpa, m.y, rmw);
      addr := Wrap16(tmpa + m.y);
    }
    v := m.Load(addr);
    ClkInc(m);
  }

  /** The GET_ macros, for a read (rmw false) or a read-modify-write; addr is what SET_IND_RMW uses. */
  method GetOperand(m: Machine, mode: Mode, rmw: bool, p1: u8, p2: u16) returns (v: u8, addr: u16)
    requires m.Valid() && !mode.Implied?
    modifies m`clk
    ensures v == Operand(m.View(), mode, p1, p2)
    ensures (mode.IndX? || mode.IndY?) ==> addr == Ea(m.View(), mode, p1, p2)
    ensures m.View() == old(m.View().(clk := m.clk + (if rmw then GetRmwClk(mode)
                                                      else GetClk(mode) + OneIf(Penalty(m.View(), mode, p1, p2)))))
  {
    hide Wrap16, Low, Pointer, Crosses;
    addr := 0;
    match mode {
      case Imm =>
        v := p1;
      case Abs =>
        v := m.Load(p2);
        ClkInc(m);
      case AbsX =>
        FixAddress(m, p2, m.x, rmw);
        v := m.Load(p2 + m.x);
        ClkInc(m);
      case AbsY =>
        FixAddress(m, p2, m.y, rmw);
        v := m.Load(p2 + m.y);
        ClkInc(m);
      case Zp =>
        v := m.LoadZero(p1);
        ClkInc(m);
      case ZpX =>
        DummyZero(m, p1);
        v := m.LoadZero(p1 + m.x);
        ClkInc(m);
      case ZpY =>
        DummyZero(m, p1);
        v := m.LoadZero(p1 + m.y);
        ClkInc(m);
      case IndX | IndY =>
        v, addr := GetIndirect(m, mode, rmw, p1, p2);
    }
  }

  // ---------- SET_ macros ----------

  /** The two writes of a read-modify-write: the old value goes back first, and is overwritten. */
  method WriteTwice(m: Machine, addr: u16, oldValue: nat, newValue: nat)
    requires m.Valid()
    modifies m`clk, m.mem
    ensures m.View() == old(m.View().(clk := m.clk + 2, ram := m.mem[..][addr := Low(newValue)]))
  {
    hide Wrap16, Low;
    ghost var before: Ram := m.mem[..];
    m.Store(addr, oldValue);
    m.clk := m.clk + 1;
    m.Store(addr, newValue);
    m.clk := m.clk + 1;
    assert m.mem[..] == before[addr := Low(newValue)];
  }

  function SetTarget(put: SetFunc, x: u8, y: u8, p1: u8, p2: u16, addr: u16): u16 {
    match put
    case SetZero => p1
    case SetZeroX => Low(p1 + x)
    case SetAbs => p2
    case SetAbsX => Wrap16(p2 + x)
    case SetAbsY => Wrap16(p2 + y)
    case SetInd => addr
  }

  /** SET_ZERO_RMW, SET_ZERO_X_RMW, SET_ABS_RMW, SET_ABS_X_RMW, SET_ABS_Y_RMW and SET_IND_RMW. */
  method SetModified(m: Machine, put: SetFunc, oldValue: nat, newValue: nat, p1: u8, p2: u16, addr: u16)
    requires m.Valid()
    modifies m`clk, m.mem
    ensures m.View() == old(m.View().(clk := m.clk + 2,
                                      ram := m.mem[..][SetTarget(put, m.x, m.y, p1, p2, addr) := Low(newValue)]))
  {
    hide Wrap16, Low;
    match put {
      case SetZero => WriteTwice(m, p1, oldValue, newValue);
      case SetZeroX => WriteTwice(m, Low(p1 + m.x), oldValue, newValue);
      case SetAbs => WriteTwice(m, p2, oldValue, newValue);
      case SetAbsX => WriteTwice(m, Wrap16(p2 + m.x), oldValue, newValue);
      case SetAbsY => WriteTwice(m, Wrap16(p2 + m.y), oldValue, newValue);
      case SetInd => WriteTwice(m, addr, oldValue, newValue);
    }
  }

  /** SET_ZERO, SET_ABS, SET_ABS_X, SET_IND_Y, ... */
  method SetOperand(m: Machine, mode: Mode, value: u8, p1: u8, p2: u16)
    requires m.Valid() && !mode.Implied? && !mode.Imm?
    modifies m`clk, m.mem
    ensures m.View() == old(m.View().(clk := m.clk + SetClk(mode),
                                      ram := m.mem[..][Ea(m.View(), mode, p1, p2) := value]))
  {
    hide Wrap16, Low, Pointer;
    var ea: nat;
    match mode {
      case Abs => ea := p2;
      case AbsX => FixAddress(m, p2, m.x, true); ea := Wrap16(p2 + m.x);
      case AbsY => FixAddress(m, p2, m.y, true); ea := Wrap16(p2 + m.y);
      case Zp => ea := p1;
      case ZpX => DummyZero(m, p1); ea := Low(p1 + m.x);
      case ZpY => DummyZero(m, p1); ea := Low(p1 + m.y);
      case IndX => ea := PointerX(m, p1);
      case IndY =>
        var tmpa := PointerY(m, p1);
        FixAddress(m, tmpa, m.y, true);
        ea := Wrap16(tmpa + m.y);
    }
    m.Store(ea, value);
    m.clk := m.clk + 1;
  }

  /** SET_ABS_SH_I; the value is not ANDed when a cycle was stolen before. */
  method SetAbsSh(m: Machine, addr: u16, regAnd: u8, index: u8, stolen: bool)
    requires m.Valid()
    modifies m`clk, m.mem
    ensures var v := And(regAnd, Low(High(addr) + 1));
            var ea := if Crosses(addr, index) then Word(Low(addr + index), v) else addr + index;
            m.View() == old(m.View().(clk := m.clk + 1, ram := m.mem[..][ea := if stolen then regAnd else v]))
  {
    hide Wrap16, Low, High, And;
    var tmp3 := And(regAnd, Low(High(addr) + 1));
    var tmp2: nat := addr + index;
    if Low(addr) + index > 0xff {
      tmp2 := Word(Low(tmp2), tmp3);
    }
    m.Store(tmp2, if stolen then regAnd else tmp3);
    m.clk := m.clk + 1;
  }

  // ---------- operations on the fetched value ----------

  /** What an operation does to the registers, written with the statements of its macro. */
  method ReadBody(m: Machine, op: ReadOp, value: u8)
    requires m.Valid()
    modifies m
    ensures m.View() == old(m.View().(r := ReadEffect(op, m.View().r, value))) && m.pc == old(m.pc)
  {
    hide Wrap16, Low, Bit7, Bit6, And, Or, Xor, Adc, Sbc, Arr;
    match op {
      case ORA => m.a := Or(m.a, value); m.SetNz(m.a);
      case AND => m.a := And(m.a, value); m.SetNz(m.a);
      case EOR => m.a := Xor(m.a, value); m.SetNz(m.a);
      case ADC => var r := AdcBytes(m.Registers(), value); m.SetRegisters(r);
      case SBC => var r := SbcBytes(m.Registers(), value); m.SetRegisters(r);
      case CMP => CompareRegister(m, m.a, value);
      case CPX => CompareRegister(m, m.x, value);
      case CPY => CompareRegister(m, m.y, value);
      case BIT =>
        m.n := if Bit7(value) then 0x80 else 0;
        m.p := m.p.(v := Bit6(value));
        m.z := OneIf(And(value, m.a) != 0);
      case LDA => m.a := value; m.SetNz(m.a);
      case LDX => m.x := value; m.SetNz(m.x);
      case LDY => m.y := value; m.SetNz(m.y);
      case LAX => m.x := value; m.a := m.x; m.SetNz(m.a);
      case LAS => m.sp := And(m.sp, value); m.x := m.sp; m.a := m.x; m.SetNz(m.a);
      case ANC => m.a := And(m.a, value); m.SetNz(m.a); m.p := m.p.(c := Bit7(m.n));
      case ASR =>
        var tmp := And(m.a, value);
        m.p := m.p.(c := tmp % 2 == 1);
        m.a := tmp / 2;
        m.SetNz(m.a);
      case ARR => var r := ArrBytes(m.Registers(), value); m.SetRegisters(r);
      case ANE => m.a := And(And(Or(m.a, 0xff), m.x), value); m.SetNz(m.a);
      case LXA => m.x := And(Or(m.a, 0xee), value); m.a := m.x; m.SetNz(m.a);
      case SBX =>
        WrappedDifference(And(m.a, m.x) - value);
        var tmp := (And(m.a, m.x) - value) % 0x1_0000_0000;
        m.p := m.p.(c := tmp < 0x100);
        m.x := Low(tmp);
        m.SetNz(m.x);
    }
  }

  /** CP */
  method CompareRegister(m: Machine, reg: u8, value: u8)
    requires m.Valid()
    modifies m`p, m`n, m`z
    ensures m.View() == old(m.View().(r := Compare(m.View().r, reg, value)))
  {
    hide Wrap16, Low;
    WrappedDifference(reg - value);
    var tmp := (reg - value) % 0x1_0000_0000;
    m.p := m.p.(c := tmp < 0x100);
    m.SetNz(Low(tmp));
  }

  /** The middle of a read-modify-write macro: from old_value to new_value. */
  method ModifyBody(m: Machine, op: ModifyOp, oldValue: u8) returns (newValue: nat)
    requires m.Valid()
    modifies m
    ensures m.View() == old(m.View().(r := ModifyEffect(op, m.View().r, oldValue))) && m.pc == old(m.pc)
    ensures Low(newValue) == Modified(op, old(m.p.c), oldValue)
  {
    hide Wrap16, Low, ModifyEffect, Modified;
    match op {
      case ASL | LSR | ROL | ROR => newValue := ShiftBody(m, op, oldValue);
      case INC | DEC => newValue := CountBody(m, op, oldValue);
      case _ => newValue := CombineBody(m, op, oldValue);
    }
  }

  method CountBody(m: Machine, op: ModifyOp, oldValue: u8) returns (newValue: nat)
    requires m.Valid() && (op.INC? || op.DEC?)
    modifies m
    ensures m.View() == old(m.View().(r := ModifyEffect(op, m.View().r, oldValue))) && m.pc == old(m.pc)
    ensures Low(newValue) == Modified(op, old(m.p.c), oldValue)
  {
    hide Wrap16, And, Or, Xor, Adc, Sbc;
    newValue := Low(if op.INC? then oldValue + 1 else oldValue - 1);
    m.SetNz(newValue);
  }

  method ShiftBody(m: Machine, op: ModifyOp, oldValue: u8) returns (newValue: nat)
    requires m.Valid() && (op.ASL? || op.LSR? || op.ROL? || op.ROR?)
    modifies m
    ensures m.View() == old(m.View().(r := ModifyEffect(op, m.View().r, oldValue))) && m.pc == old(m.pc)
    ensures Low(newValue) == Modified(op, old(m.p.c), oldValue)
  {
    hide Wrap16, Low, High, Bit7, Bit8, And, Or, Xor, Adc, Sbc;
    RotatedOut(oldValue, m.p.c);
    LowIdempotent(oldValue * 2);
    LowIdempotent(oldValue * 2 + OneIf(m.p.c));
    match op {
      case ASL =>
        m.p := m.p.(c := Bit7(oldValue));
        newValue := Low(oldValue * 2);
        m.SetNz(newValue);
      case LSR =>
        m.p := m.p.(c := oldValue % 2 == 1);
        newValue := oldValue / 2;
        m.SetNz(newValue);
      case ROL =>
        newValue := oldValue * 2 + OneIf(m.p.c);
        m.p := m.p.(c := Bit8(newValue));
        m.SetNz(Low(newValue));
      case ROR =>
        newValue := oldValue + 0x100 * OneIf(m.p.c);
        m.p := m.p.(c := newValue % 2 == 1);
        newValue := newValue / 2;
        m.SetNz(newValue);
    }
  }

  /** SLO, SRE, RLA, RRA, ISB and DCP: a shift or a count, and an operation on the accumulator. */
  method CombineBody(m: Machine, op: ModifyOp, oldValue: u8) returns (newValue: nat)
    requires m.Valid() && (op.SLO? || op.SRE? || op.RLA? || op.RRA? || op.ISB? || op.DCP?)
    modifies m
    ensures m.View() == old(m.View().(r := ModifyEffect(op, m.View().r, oldValue))) && m.pc == old(m.pc)
    ensures Low(newValue) == Modified(op, old(m.p.c), oldValue)
  {
    hide Wrap16, Low, High, Bit7, Bit8, And, Or, Xor, Adc, Sbc;
    RotatedOut(oldValue, m.p.c);
    LowIdempotent(oldValue * 2);
    LowIdempotent(oldValue * 2 + OneIf(m.p.c));
    match op {
      case SLO =>
        m.p := m.p.(c := Bit7(oldValue));
        newValue := oldValue * 2;
        m.a := Or(m.a, Low(newValue));
        m.SetNz(m.a);
      case SRE =>
        m.p := m.p.(c := oldValue % 2 == 1);
        newValue := oldValue / 2;
        m.a := Xor(m.a, newValue);
        m.SetNz(m.a);
      case RLA =>
        newValue := oldValue * 2 + OneIf(m.p.c);
        m.p := m.p.(c := Bit8(newValue));
        m.a := And(m.a, Low(newValue));
        m.SetNz(m.a);
      case RRA | ISB | DCP =>
        newValue := ArithmeticBody(m, op, oldValue);
    }
  }

  method ArithmeticBody(m: Machine, op: ModifyOp, oldValue: u8) returns (newValue: nat)
    requires m.Valid() && (op.RRA? || op.ISB? || op.DCP?)
    modifies m
    ensures m.View() == old(m.View().(r := ModifyEffect(op, m.View().r, oldValue))) && m.pc == old(m.pc)
    ensures Low(newValue) == Modified(op, old(m.p.c), oldValue)
  {
    hide Wrap16, Low, High, Bit7, Adc, Sbc;
    RotatedOut(oldValue, m.p.c);
    match op {
      case RRA =>
        newValue := oldValue + 0x100 * OneIf(m.p.c);
        m.p := m.p.(c := newValue % 2 == 1);
        newValue := newValue / 2;
        var r := AdcBytes(m.Registers(), newValue);
        m.SetRegisters(r);
      case ISB =>
        newValue := Low(oldValue + 1);
        var r := SbcBytes(m.Registers(), newValue);
        m.SetRegisters(r);
      case DCP =>
        newValue := Low(oldValue - 1);
        m.p := m.p.(c := m.a >= newValue);
        m.SetNz(Low(m.a - newValue));
    }
  }

  // ---------- the cases of the switch ----------

  /** ORA(get_func, pc_inc) and its like. */
  method DoGet(m: Machine, ghost s: Cpu, p0: u8, op: ReadOp, mode: Mode, pcInc: nat, p1: u8, p2: u16)
    requires m.Valid() && Fetched(m, s, p0, p1, p2)
    requires Implements(Get(op, mode, pcInc), Read(op, mode), LongFetch(p0))
    modifies m
    ensures m.View() == Exec(Read(op, mode), s, p1, P2(s))
  {
    hide LongFetch, ReadEffect, Crosses, Pointer, Wrap16, Low, Word;
    var v, _ := GetOperand(m, mode, false, p1, p2);
    assert v == Operand(s, mode, p1, P2(s));
    ReadBody(m, op, v);
    IncPc(m, pcInc);
  }

  /** ASL(pc_inc, get_func, set_func) and its like. */
  method DoGetSet(m: Machine, ghost s: Cpu, p0: u8, op: ModifyOp, pcInc: nat, mode: Mode, put: SetFunc, p1: u8, p2: u16)
    requires m.Valid() && Fetched(m, s, p0, p1, p2)
    requires Implements(GetSet(op, pcInc, mode, put), Modify(op, mode), LongFetch(p0))
    modifies m, m.mem
    ensures m.View() == Exec(Modify(op, mode), s, p1, P2(s))
  {
    hide LongFetch, ModifyEffect, Modified, Crosses, Pointer, Wrap16, Low, Word;
    ghost var ea := Ea(s, mode, p1, P2(s));
    var oldValue, addr := GetOperand(m, mode, true, p1, p2);
    assert SetTarget(put, m.x, m.y, p1, p2, addr) == ea && oldValue == s.ram[ea];
    ModifyKeepsIndexes(op, m.Registers(), oldValue);
    var newValue := ModifyBody(m, op, oldValue);
    IncPc(m, pcInc);
    assert SetTarget(put, m.x, m.y, p1, p2, addr) == ea;
    SetModified(m, put, oldValue, newValue, p1, p2, addr);
  }

  lemma ModifyKeepsIndexes(op: ModifyOp, r: Regs, v: u8)
    ensures ModifyEffect(op, r, v).x == r.x && ModifyEffect(op, r, v).y == r.y && ModifyEffect(op, r, v).sp == r.sp
  {
    hide Wrap16, Low, Bit7, And, Or, Xor, Modified, ShiftedOut;
  }

  /** ST(value, set_func, pc_inc) */
  method DoSet(m: Machine, ghost s: Cpu, p0: u8, src: Register, mode: Mode, pcInc: nat, p1: u8, p2: u16)
    requires m.Valid() && Fetched(m, s, p0, p1, p2)
    requires Implements(Set(src, mode, pcInc), Store(src, mode), LongFetch(p0))
    modifies m, m.mem
    ensures m.View() == Exec(Store(src, mode), s, p1, P2(s))
  {
    hide LongFetch, Pointer, Wrap16, Low, Word, Stored;
    IncPc(m, pcInc);
    assert Ea(m.View(), mode, p1, p2) == Ea(s, mode, p1, P2(s));
    SetOperand(m, mode, SourceOf(m, src), p1, p2);
  }

  /** NOOP(get_func, pc_inc) */
  method DoSkip(m: Machine, ghost s: Cpu, p0: u8, mode: Mode, pcInc: nat, p1: u8, p2: u16)
    requires m.Valid() && Fetched(m, s, p0, p1, p2)
    requires Implements(Skip(mode, pcInc), Noop(mode), LongFetch(p0))
    modifies m
    ensures m.View() == Exec(Noop(mode), s, p1, P2(s))
  {
    hide LongFetch, Pointer, Crosses, Wrap16, Low, Word;
    if !mode.Implied? {
      var _, _ := GetOperand(m, mode, false, p1, p2);
    }
    IncPc(m, pcInc);
  }

  /** ASL_A, LSR_A, ROL_A, ROR_A */
  method ShiftA(m: Machine, op: ModifyOp)
    requires m.Valid() && (op.ASL? || op.LSR? || op.ROL? || op.ROR?)
    modifies m
    ensures m.View() == old(Advance(m.View().(r := AccumulatorEffect(op, m.View().r)), 1, 0))
  {
    hide Wrap16, Low, High, Bit7, Bit8;
    RotatedOut(m.a, m.p.c);
    LowIdempotent(m.a * 2 + OneIf(m.p.c));
    if op.ASL? {
      m.p := m.p.(c := Bit7(m.a));
      m.a := Low(m.a * 2);
    } else if op.LSR? {
      m.p := m.p.(c := m.a % 2 == 1);
      m.a := m.a / 2;
    } else if op.ROL? {
      var tmp := m.a * 2 + OneIf(m.p.c);
      m.a := Low(tmp);
      m.p := m.p.(c := Bit8(tmp));
    } else {
      var tmp := m.a;
      m.a := m.a / 2 + 0x80 * OneIf(m.p.c);
      m.p := m.p.(c := tmp % 2 == 1);
    }
    m.SetNz(m.a);
    IncPc(m, 1);
  }

  method ImpliedOp(m: Machine, op: Isa6510.ImpliedOp)
    requires m.Valid()
    modifies m
    ensures m.View() == old(Advance(m.View().(r := ImpliedEffect(op, m.View().r)), 1, 0))
  {
    hide Wrap16, Low;
    match op {
      case CLC => m.p := m.p.(c := false);
      case CLD => m.p := m.p.(d := false);
      case CLI => m.p := m.p.(i := false);
      case CLV => m.p := m.p.(v := false);
      case SEC => m.p := m.p.(c := true);
      case SED => m.p := m.p.(d := true);
      case SEI => m.p := m.p.(i := true);
      case DEX => m.x := Low(m.x - 1); m.SetNz(m.x);
      case DEY => m.y := Low(m.y - 1); m.SetNz(m.y);
      case INX => m.x := Low(m.x + 1); m.SetNz(m.x);
      case INY => m.y := Low(m.y + 1); m.SetNz(m.y);
      case TAX => m.x := m.a; m.SetNz(m.a);
      case TAY => m.y := m.a; m.SetNz(m.a);
      case TSX => m.x := m.sp; m.SetNz(m.sp);
      case TXA => m.a := m.x; m.SetNz(m.a);
      case TXS => m.sp := m.x;
      case TYA => m.a := m.y; m.SetNz(m.a);
    }
    IncPc(m, 1);
  }

  /** SHA_IND_Y, SH_ABS_I and SHS_ABS_Y */
  method DoStoreHigh(m: Machine, ghost s: Cpu, p0: u8, i: Instr, p1: u8, p2: u16)
    requires m.Valid() && Fetched(m, s, p0, p1, p2) && i.StoreHigh?
    requires LongFetch(p0) == NeedsWord(i) && PlainMacro(i)
    modifies m, m.mem
    ensures m.View() == Exec(i, s, p1, P2(s))
  {
    hide LongFetch, Pointer, Wrap16, Low, High, Word, And, Crosses;
    var base := p2;
    var index := if i.mode.AbsX? then m.x else m.y;
    if i.mode.IndY? {
      base := PointerY(m, p1);
    }
    StoreHighTo(m, base, SourceOf(m, i.src), index, Length(i.mode));
    if i.toSp {
      m.sp := And(m.a, m.x);
    }
  }

  method StoreHighTo(m: Machine, base: u16, reg: u8, index: u8, len: nat)
    requires m.Valid()
    modifies m`pc, m`clk, m.mem
    ensures m.View() == old(StoreHighAt(m.View(), base, index, reg, len, 2))
  {
    hide Wrap16, Low, High, Word, And;
    FixAddress(m, base, index, true);
    SetAbsSh(m, base, reg, index, false);
    IncPc(m, len);
  }

  method BranchIf(m: Machine, ghost s: Cpu, cond: bool, p1: u8)
    requires m.Valid() && m.View() == s.(clk := s.clk + 2)
    modifies m
    ensures m.View() == BranchTo(s, cond, p1)
  {
    hide Wrap16, Low, High;
    WrapAdd(m.pc, 2);
    m.pc := m.pc + 2;
    if cond {
      var dest: int := m.pc + Signed(p1);
      Bytewise(m.pc);
      Bytewise(dest);
      WrapAdd(m.pc, Signed(p1));
      var _ := m.Load(m.pc);
      m.clk := m.clk + 1;
      if High(m.pc) != High(dest) {
        var _ := m.Load(Word(Low(dest), High(m.pc)));
        m.clk := m.clk + 1;
      }
      m.pc := Wrap16(dest);
    }
  }

  /** The two bytes of reg_pc, a cycle each. */
  method PushPcCycles(m: Machine)
    requires m.Valid()
    modifies m, m.mem
    ensures m.View() == old(PushWord(m.View(), m.View().pc).(clk := m.clk + 2)) && m.pc == old(m.pc)
  {
    hide Wrap16, Low, High, Pushed;
    Bytewise(m.pc);
    m.PushByte(High(m.pc));
    m.clk := m.clk + 1;
    m.PushByte(Low(m.pc));
    m.clk := m.clk + 1;
  }

  /** The three pushes of DO_IRQBRK and of an NMI. */
  method PushFrame(m: Machine, ghost s: Cpu, ghost returnPc: u16, ghost brk: bool, ghost cycles: nat)
    requires m.Valid()
    requires m.View() == s.(pc := returnPc, clk := s.clk + cycles, r := s.r.(p := s.r.p.(b := brk)))
    modifies m, m.mem
    ensures var p := s.r.p.(b := brk);
            var t := Push(PushWord(s, returnPc), Joined(p, s.r.n, s.r.z));
            m.View() == t.(pc := returnPc, clk := s.clk + cycles + 3, r := t.r.(p := p))
  {
    hide Wrap16, Low, High, Joined, Pushed, Word;
    PushPcCycles(m);
    ghost var t1 := PushWord(s, returnPc);
    assert m.View().ram == t1.ram;
    var status := m.LocalStatus();
    m.PushByte(status);
    m.clk := m.clk + 1;
  }

  /** DO_IRQBRK, after the return address was put into reg_pc; nmi tells whether an NMI is pending after the pushes. */
  method DoIrqBrk(m: Machine, ghost s: Cpu, ghost returnPc: u16, ghost brk: bool, ghost cycles: nat, nmi: bool)
    requires m.Valid()
    requires m.View() == s.(pc := returnPc, clk := s.clk + cycles, r := s.r.(p := s.r.p.(b := brk)))
    modifies m, m.mem
    ensures m.View() == Enter(s, returnPc, brk, if nmi then 0xfffa else 0xfffe, cycles + 5)
  {
    hide Wrap16, Joined, Push, PushWord, Word;
    var handlerVector := 0xfffe;
    PushFrame(m, s, returnPc, brk, cycles);
    if nmi {
      handlerVector := 0xfffa;
    }
    m.p := m.p.(i := true);
    var lo := m.Load(handlerVector);
    m.clk := m.clk + 1;
    var hi := m.Load(handlerVector + 1);
    m.clk := m.clk + 1;
    m.pc := Word(lo, hi);
  }

  method BrkTrap(m: Machine, ghost s: Cpu, nmi: bool)
    requires m.Valid() && m.View() == s.(clk := s.clk + 2)
    modifies m, m.mem
    ensures m.View() == Enter(s, Wrap16(s.pc + 2), true, if nmi then 0xfffa else 0xfffe, 7)
  {
    hide Wrap16, Enter;
    WrapAdd(m.pc, 2);
    m.pc := m.pc + 2;
    m.p := m.p.(b := true);
    DoIrqBrk(m, s, Wrap16(s.pc + 2), true, 2, nmi);
  }

  method JsrAbs(m: Machine, ghost s: Cpu, p1: u8)
    requires m.Valid() && m.View() == s.(clk := s.clk + 2)
    modifies m, m.mem
    ensures m.View() == JsrTo(s, p1)
  {
    hide Wrap16, Low, High, Pushed, Word;
    WrapAdd(m.pc, 2);
    var _ := m.Load(0x100 + m.sp);
    m.clk := m.clk + 1;
    m.pc := m.pc + 2;
    PushPcCycles(m);
    var hi := m.Load(m.pc);
    m.clk := m.clk + 1;
    m.pc := Word(p1, hi);
  }

  /** STACK_PEEK and a pull. */
  method PeekPull(m: Machine) returns (v: u8)
    requires m.Valid()
    modifies m`sp, m`clk
    ensures m.View() == old(Pull(m.View()).(clk := m.clk + 2)) && v == old(Top(m.View()))
  {
    var _ := m.Load(0x100 + m.sp);
    m.clk := m.clk + 1;
    v := m.PullByte();
    m.clk := m.clk + 1;
  }

  /** tmp is a 16-bit variable, so reg_pc is wrapped here. */
  method RtsSub(m: Machine, ghost s: Cpu)
    requires m.Valid() && m.View() == s.(clk := s.clk + 2)
    modifies m
    ensures m.View() == RtsFrom(s)
    ensures m.pc == Wrap16(TopWord(s) + 1)
  {
    hide Low, Word;
    var lo := PeekPull(m);
    var hi := m.PullByte();
    m.clk := m.clk + 1;
    var tmp: u16 := Word(lo, hi);
    var _ := m.Load(tmp);
    m.clk := m.clk + 1;
    m.pc := Wrap16(tmp + 1);
  }

  method RtiInt(m: Machine, ghost s: Cpu)
    requires m.Valid() && m.View() == s.(clk := s.clk + 2)
    modifies m
    ensures m.View() == RtiFrom(s)
  {
    hide Split, Wrap16, Low, Word;
    var status := PeekPull(m);
    m.SetStatusByte(status);
    var lo := m.PullByte();
    m.clk := m.clk + 1;
    var hi := m.PullByte();
    m.clk := m.clk + 1;
    m.pc := Word(lo, hi);
  }

  method PhaStack(m: Machine)
    requires m.Valid()
    modifies m, m.mem
    ensures m.View() == old(Advance(Push(m.View(), m.a), 1, 1))
  {
    hide Wrap16, Low, Pushed;
    m.PushByte(m.a);
    m.clk := m.clk + 1;
    IncPc(m, 1);
  }

  method PhpStack(m: Machine)
    requires m.Valid()
    modifies m, m.mem
    ensures m.View() == old(Advance(Push(m.View(), StatusByte(m.View().r.(p := m.p.(b := true)))), 1, 1))
  {
    hide Status.ToByte, Wrap16, Low, Pushed;
    m.PushByte(m.p.(b := true, n := m.p.n || m.n >= 0x80, u := true, z := m.p.z || m.z == 0).ToByte());
    m.clk := m.clk + 1;
    IncPc(m, 1);
  }

  method PlaStack(m: Machine)
    requires m.Valid()
    modifies m
    ensures m.View() == old(var t := Pull(m.View()); var v := Top(m.View());
                            Advance(t.(r := NZ(t.r.(a := v), v)), 1, 2))
  {
    hide Wrap16, Low;
    m.a := PeekPull(m);
    m.SetNz(m.a);
    IncPc(m, 1);
  }

  method PlpStack(m: Machine)
    requires m.Valid()
    modifies m
    ensures m.View() == old(var t := Pull(m.View()); Advance(t.(r := SetStatus(t.r, Top(m.View()))), 1, 2))
  {
    hide Split, Wrap16, Low;
    var status := PeekPull(m);
    m.SetStatusByte(status);
    IncPc(m, 1);
  }

  method JmpIndirect(m: Machine, p2: u16)
    requires m.Valid()
    modifies m
    ensures m.View() == old(m.View().(pc := Word(m.View().ram[p2], m.View().ram[Word(Low(p2 + 1), High(p2))]),
                                      clk := m.clk + 2))
  {
    hide Wrap16, Low, High;
    var lo := m.Load(p2);
    m.clk := m.clk + 1;
    var hi := m.Load(Word(Low(p2 + 1), High(p2)));
    m.clk := m.clk + 1;
    m.pc := Word(lo, hi);
  }

  method DoPlain(m: Machine, ghost s: Cpu, p0: u8, i: Instr, p1: u8, p2: u16)
    requires m.Valid() && Fetched(m, s, p0, p1, p2)
    requires LongFetch(p0) == NeedsWord(i) && PlainMacro(i)
    modifies m, m.mem
    ensures m.View() == Exec(i, s, p1, P2(s))
  {
    hide LongFetch, Pointer, Crosses, Wrap16, Low, High, Word, And, AccumulatorEffect, ImpliedEffect, StoreHighAt;
    hide BranchTo, JsrTo, RtsFrom, RtiFrom, Enter, SetStatus, NZ, Joined, Pushed;
    match i {
      case Accumulator(op) => ShiftA(m, op);
      case StoreHigh(_, _, _) => DoStoreHigh(m, s, p0, i, p1, p2);
      case Reg(op) => ImpliedOp(m, op);
      case Branch(f, want) => BranchIf(m, s, FlagSet(f, m.Registers()) == want, p1);
      case Pha => PhaStack(m);
      case Php => PhpStack(m);
      case Pla => PlaStack(m);
      case Plp => PlpStack(m);
      case Jsr => JsrAbs(m, s, p1);
      case Rts => RtsSub(m, s);
      case Rti => RtiInt(m, s);
      case Brk => BrkTrap(m, s, false);
      case Jmp => m.pc := p2;
      case JmpInd => JmpIndirect(m, p2);
    }
  }

  method Perform(m: Machine, ghost s: Cpu, p0: u8, c: Call, ghost i: Instr, p1: u8, p2: u16)
    requires m.Valid() && Fetched(m, s, p0, p1, p2) && Implements(c, i, LongFetch(p0))
    modifies m, m.mem
    ensures m.View() == Exec(i, s, p1, P2(s))
  {
    hide LongFetch, Exec, ReadBase, ModifyCycles, StoreCycles, Length;
    match c {
      case Get(op, mode, pc) => DoGet(m, s, p0, op, mode, pc, p1, p2);
      case GetSet(op, pc, mode, put) => DoGetSet(m, s, p0, op, pc, mode, put, p1, p2);
      case Set(src, mode, pc) => DoSet(m, s, p0, src, mode, pc, p1, p2);
      case Skip(mode, pc) => DoSkip(m, s, p0, mode, pc, p1, p2);
      case Plain(j) => DoPlain(m, s, p0, j, p1, p2);
    }
  }

  /** One instruction: the fetch and the switch. */
  method Step(m: Machine)
    requires m.Valid() && Decode(Opcode(m.View())) != Jam
    modifies m, m.mem
    ensures m.View() == old(Isa6510.Step(m.View()))
  {
    hide Exec, Decode, Switch, Implements;
    ghost var s := m.View();
    var p0, p1, p2 := FetchOpcode(m, s);
    SwitchImplementsIsa(p0);
    Perform(m, s, p0, Switch(p0), Decode(p0), p1, p2);
  }

  /** DO_INTERRUPT for an accepted NMI or IRQ; a late NMI takes over the IRQ. */
  method DoInterrupt(m: Machine, nmi: bool, late: bool)
    requires m.Valid()
    modifies m, m.mem
    ensures m.View() == old(Enter(m.View(), m.View().pc, false, if nmi || late then 0xfffa else 0xfffe, 7))
  {
    hide Wrap16, Low, High, Joined, Pushed, Word;
    ghost var s := m.View();
    var _ := m.Load(m.pc);
    m.clk := m.clk + 1;
    var _ := m.Load(m.pc);
    m.clk := m.clk + 1;
    m.p := m.p.(b := false);
    if nmi {
      NmiSequence(m, s);
    } else {
      DoIrqBrk(m, s, s.pc, false, 2, late);
    }
  }

  /** An NMI fetches its vector before it sets the interrupt flag. */
  method NmiSequence(m: Machine, ghost s: Cpu)
    requires m.Valid() && m.View() == s.(clk := s.clk + 2, r := s.r.(p := s.r.p.(b := false)))
    modifies m, m.mem
    ensures m.View() == Enter(s, s.pc, false, 0xfffa, 7)
  {
    hide Wrap16, Joined, Push, PushWord, Word;
    PushFrame(m, s, s.pc, false, 2);
    var lo := m.Load(0xfffa);
    m.clk := m.clk + 1;
    var hi := m.Load(0xfffb);
    m.clk := m.clk + 1;
    m.p := m.p.(i := true);
    m.pc := Word(lo, hi);
  }

  lemma BrkCase(op: u8)
    requires Decode(op) == Brk
    ensures Switch(op) == Plain(Brk) && !LongFetch(op)
  {
    hide Decode, Switch, LongFetch;
    SwitchImplementsIsa(op);
  }

  /** The case of BRK when an NMI comes up. */
  method TakeOver(m: Machine)
    requires m.Valid() && Decode(Opcode(m.View())) == Brk
    modifies m, m.mem
    ensures m.View() == old(Enter(m.View(), Wrap16(m.View().pc + 2), true, 0xfffa, 7))
  {
    hide Decode, Enter, LongFetch;
    ghost var s := m.View();
    BrkCase(Opcode(s));
    var _, _, _ := FetchOpcode(m, s);
    BrkTrap(m, s, true);
  }

  method React(m: Machine, e: Event)
    requires m.Valid() && Allowed(m.View(), e)
    modifies m, m.mem
    ensures m.View() == old(Happen(m.View(), e))
  {
    hide Isa6510.Step, Enter, Decode;
    match e {
      case Instruction => Step(m);
      case Irq => DoInterrupt(m, false, false);
      case Nmi => DoInterrupt(m, true, false);
      case HijackedIrq => DoInterrupt(m, false, true);
      case HijackedBrk => TakeOver(m);
    }
  }

  /** Any sequence of instructions and accepted interrupts. */
  method RunEvents(m: Machine, events: seq<Event>)
    requires m.Valid() && JamFree(m.View(), events)
    modifies m, m.mem
    ensures m.View() == old(Run(m.View(), events))
  {
    hide Happen, Allowed;
    for k := 0 to |events|
      invariant JamFree(m.View(), events[k..])
      invariant Run(m.View(), events[k..]) == old(Run(m.View(), events))
    {
      assert events[k..][1..] == events[k + 1..];
      React(m, events[k]);
    }
  }
}
