/** The instruction-stepped interpreter, vice/src/6510core.c, macro by macro.
    Every macro adds its cycles in lumps; pages are crossed inside the load macros. */
module InsnCore {
  import opened Bytes
  import opened Status6510
  import opened Digits
  import opened Isa6510
  import opened Machine6510
  import opened NmosAlu
  import opened InsnSwitch

  const CLK_RTS := 3
  const CLK_RTI := 4
  const CLK_BRK := 5
  const CLK_STACK_PUSH := 1
  const CLK_STACK_PULL := 2
  const CLK_IND_Y_RMW1 := 1
  const CLK_IND_Y_RMW2 := 3
  const CLK_BRANCH2 := 1
  const CLK_INT_CYCLE := 1
  const CLK_JSR_INT_CYCLE := 1
  const CLK_IND_Y_W := 2

  // ---------- addressing modes ----------

  method LoadAbsIndexed(m: Machine, addr: u16, index: u8) returns (v: u8)
    requires m.Valid()
    modifies m`clk
    ensures m.View() == old(m.View().(clk := m.clk + OneIf(Crosses(addr, index))))
    ensures v == m.View().ram[Wrap16(addr + index)]
  {
    hide Wrap16, Low, High, Bit7, Bit6, Target, Bit8;
    if Low(addr) + index > 0xff {
      var _ := m.Load(Word(Low(addr + index), High(addr)));
      m.clk := m.clk + CLK_INT_CYCLE;
    }
    v := m.Load(addr + index);
  }

  method LoadIndX(m: Machine, addr: u8) returns (v: u8)
    requires m.Valid()
    modifies m`clk
    ensures m.View() == old(m.View().(clk := m.clk + 3))
    ensures v == m.View().ram[Pointer(m.View().ram, addr + m.x)]
  {
    hide Wrap16, Low, High, Bit7, Bit6, Target, Bit8;
    m.clk := m.clk + 3;
    var ea := m.LoadZeroAddr(addr + m.x);
    v := m.Load(ea);
  }

  /** LOAD_IND_Y and LOAD_IND_Y_BANK. */
  method LoadIndY(m: Machine, addr: u8) returns (v: u8)
    requires m.Valid()
    modifies m`clk
    ensures m.View() == old(m.View().(clk := m.clk + 2 + OneIf(Crosses(Pointer(m.View().ram, addr), m.y))))
    ensures v == m.View().ram[Wrap16(Pointer(m.View().ram, addr) + m.y)]
  {
    hide Wrap16, Low, High, Bit7, Bit6, Target, Bit8;
    m.clk := m.clk + 2;
    var base := m.LoadZeroAddr(addr);
    if Low(base) + m.y > 0xff {
      var _ := m.Load(Word(Low(base + m.y), High(base)));
      m.clk := m.clk + CLK_INT_CYCLE;
    }
    v := m.Load(base + m.y);
  }

  function Target(f: Access, addr: nat, x: u8, y: u8): u16 {
    match f
    case ZeroPage => Low(addr)
    case Absolute => Wrap16(addr)
    case AbsoluteX => Wrap16(addr + x)
    case AbsoluteY => Wrap16(addr + y)
  }

  /** LOAD_ZERO, LOAD_ABS, LOAD_ABS_X_RMW, LOAD_ABS_Y_RMW */
  method LoadBy(m: Machine, f: Access, addr: nat) returns (v: u8)
    requires m.Valid()
    modifies m`clk
    ensures m.View() == old(m.View().(clk := m.clk + LoadClk(f)))
    ensures v == m.View().ram[Target(f, addr, m.x, m.y)]
  {
    hide Wrap16, Low, High;
    match f {
      case ZeroPage => v := m.LoadZero(addr);
      case Absolute => v := m.Load(addr);
      case AbsoluteX =>
        var _ := m.Load(Word(Low(addr + m.x), High(addr)));
        m.clk := m.clk + CLK_INT_CYCLE;
        v := m.Load(addr + m.x);
      case AbsoluteY =>
        var _ := m.Load(Word(Low(addr + m.y), High(addr)));
        m.clk := m.clk + CLK_INT_CYCLE;
        v := m.Load(addr + m.y);
    }
  }

  /** STORE_ABS (also used for page zero), STORE_ABS_X_RMW, STORE_ABS_Y_RMW */
  method StoreBy(m: Machine, f: Access, addr: nat, v: nat, inc: nat)
    requires m.Valid()
    requires f.ZeroPage? ==> addr < 0x100
    modifies m`clk, m.mem
    ensures m.View() == old(m.View().(clk := m.clk + inc, ram := m.mem[..][Target(f, addr, m.x, m.y) := Low(v)]))
  {
    hide Wrap16, Low, High;
    m.clk := m.clk + inc;
    match f {
      case ZeroPage | Absolute => m.Store(addr, v);
      case AbsoluteX => m.Store(addr + m.x, v);
      case AbsoluteY => m.Store(addr + m.y, v);
    }
  }

  method StoreAbs(m: Machine, addr: nat, v: nat, inc: nat)
    requires m.Valid()
    modifies m`clk, m.mem
    ensures m.View() == old(m.View().(clk := m.clk + inc, ram := m.mem[..][Wrap16(addr) := Low(v)]))
  {
    hide Wrap16, Low, High;
    StoreBy(m, Absolute, addr, v, inc);
  }

  /** STORE_ABS_X and STORE_ABS_Y */
  method StoreAbsIndexed(m: Machine, addr: u16, index: u8, v: nat, inc: nat)
    requires m.Valid() && inc >= 2
    modifies m`clk, m.mem
    ensures m.View() == old(m.View().(clk := m.clk + inc, ram := m.mem[..][Wrap16(addr + index) := Low(v)]))
  {
    hide Wrap16, Low, High, Bit7, Bit6, Target, Bit8;
    m.clk := m.clk + (inc - 2);
    var _ := m.Load(Word(Low(addr + index), High(addr)));
    m.clk := m.clk + 2;
    m.Store(addr + index, v);
  }

  /** STORE_ABS_SH_X and STORE_ABS_SH_Y */
  method StoreAbsSh(m: Machine, addr: u16, index: u8, v: u8, inc: nat)
    requires m.Valid() && inc >= 2
    modifies m`clk, m.mem
    ensures var ea := if Crosses(addr, index) then Word(Low(addr + index), v) else addr + index;
            m.View() == old(m.View().(clk := m.clk + inc, ram := m.mem[..][ea := v]))
  {
    hide Wrap16, Low, High, Bit7, Bit6, Target, Bit8;
    m.clk := m.clk + (inc - 2);
    var _ := m.Load(Word(Low(addr + index), High(addr)));
    m.clk := m.clk + 2;
    var tmp2 := addr + index;
    if Low(addr) + index > 0xff {
      tmp2 := Word(Low(tmp2), v);
    }
    m.Store(tmp2, v);
  }

  // ---------- arithmetic ----------

  method AdcA(m: Machine, value: u8, clkInc: nat, pcInc: nat)
    requires m.Valid()
    modifies m
    ensures m.View() == old(ReadAt(ADC, m.View(), value, pcInc, clkInc))
  {
    hide Adc, Wrap16, Low, High, Bit7, Bit6, Target, Bit8;
    m.clk := m.clk + clkInc;
    var r := AdcBytes(m.Registers(), value);
    m.SetRegisters(r);
    IncPc(m, pcInc);
  }

  method SbcA(m: Machine, value: u8, clkInc: nat, pcInc: nat)
    requires m.Valid()
    modifies m
    ensures m.View() == old(ReadAt(SBC, m.View(), value, pcInc, clkInc))
  {
    hide Sbc, Wrap16, Low, High, Bit7, Bit6, Target, Bit8;
    m.clk := m.clk + clkInc;
    var r := SbcBytes(m.Registers(), value);
    m.SetRegisters(r);
    IncPc(m, pcInc);
  }

  /** CMP, CPX and CPY: an unsigned 32-bit difference. */
  method CompareWith(m: Machine, op: ReadOp, value: u8, clkInc: nat, pcInc: nat)
    requires m.Valid() && op in {CMP, CPX, CPY}
    modifies m
    ensures m.View() == old(ReadAt(op, m.View(), value, pcInc, clkInc))
  {
    hide Wrap16, Compare;
    SetCompared(m, if op == CMP then m.a else if op == CPX then m.x else m.y, value);
    m.clk := m.clk + clkInc;
    IncPc(m, pcInc);
  }

  method SetCompared(m: Machine, reg: u8, value: u8)
    requires m.Valid()
    modifies m`p, m`n, m`z
    ensures m.View() == old(m.View().(r := Compare(m.View().r, reg, value)))
  {
    hide Wrap16, Low;
    WrappedDifference(reg - value);
    var tmp := (reg - value) % 0x1_0000_0000;
    m.p := m.p.(c := tmp < 0x100);
    m.SetNz(Low(tmp));
  }

  // ---------- loads and logic ----------

  method Ora(m: Machine, value: u8, clkInc: nat, pcInc: nat)
    requires m.Valid()
    modifies m
    ensures m.View() == old(ReadAt(ORA, m.View(), value, pcInc, clkInc))
  {
    hide Or, Wrap16, Low, High, Bit7, Bit6, Target, Bit8;
    var tmp := Or(m.a, value);
    m.a := tmp;
    m.SetNz(tmp);
    m.clk := m.clk + clkInc;
    IncPc(m, pcInc);
  }

  method AndA(m: Machine, value: u8, clkInc: nat, pcInc: nat)
    requires m.Valid()
    modifies m
    ensures m.View() == old(ReadAt(AND, m.View(), value, pcInc, clkInc))
  {
    hide And, Wrap16, Low, High, Bit7, Bit6, Target, Bit8;
    var tmp := And(m.a, value);
    m.a := tmp;
    m.SetNz(tmp);
    m.clk := m.clk + clkInc;
    IncPc(m, pcInc);
  }

  method Eor(m: Machine, value: u8, clkInc: nat, pcInc: nat)
    requires m.Valid()
    modifies m
    ensures m.View() == old(ReadAt(EOR, m.View(), value, pcInc, clkInc))
  {
    hide Xor, Wrap16, Low, High, Bit7, Bit6, Target, Bit8;
    var tmp := Xor(m.a, value);
    m.a := tmp;
    m.SetNz(tmp);
    m.clk := m.clk + clkInc;
    IncPc(m, pcInc);
  }

  method Bit(m: Machine, value: u8, pcInc: nat)
    requires m.Valid()
    modifies m
    ensures m.View() == old(ReadAt(BIT, m.View(), value, pcInc, 1))
  {
    hide And, Wrap16, Low, High, Bit7, Bit6, Target, Bit8;
    m.clk := m.clk + 1;
    m.n := if Bit7(value) then 0x80 else 0;
    m.p := m.p.(v := Bit6(value));
    m.z := OneIf(And(value, m.a) != 0);
    IncPc(m, pcInc);
  }

  method Lda(m: Machine, value: u8, clkInc: nat, pcInc: nat)
    requires m.Valid()
    modifies m
    ensures m.View() == old(ReadAt(LDA, m.View(), value, pcInc, clkInc))
  {
    hide Wrap16, Low, High, Bit7, Bit6, Target, Bit8;
    m.a := value;
    m.clk := m.clk + clkInc;
    m.SetNz(value);
    IncPc(m, pcInc);
  }

  method Ldx(m: Machine, value: u8, clkInc: nat, pcInc: nat)
    requires m.Valid()
    modifies m
    ensures m.View() == old(ReadAt(LDX, m.View(), value, pcInc, clkInc))
  {
    hide Wrap16, Low, High, Bit7, Bit6, Target, Bit8;
    m.x := value;
    m.SetNz(m.x);
    m.clk := m.clk + clkInc;
    IncPc(m, pcInc);
  }

  method Ldy(m: Machine, value: u8, clkInc: nat, pcInc: nat)
    requires m.Valid()
    modifies m
    ensures m.View() == old(ReadAt(LDY, m.View(), value, pcInc, clkInc))
  {
    hide Wrap16, Low, High, Bit7, Bit6, Target, Bit8;
    m.y := value;
    m.SetNz(m.y);
    m.clk := m.clk + clkInc;
    IncPc(m, pcInc);
  }

  method Lax(m: Machine, value: u8, clkInc: nat, pcInc: nat)
    requires m.Valid()
    modifies m
    ensures m.View() == old(ReadAt(LAX, m.View(), value, pcInc, clkInc))
  {
    hide Wrap16, Low, High, Bit7, Bit6, Target, Bit8;
    m.x := value;
    m.a := value;
    m.SetNz(value);
    m.clk := m.clk + clkInc;
    IncPc(m, pcInc);
  }

  method Las(m: Machine, value: u8, clkInc: nat, pcInc: nat)
    requires m.Valid()
    modifies m
    ensures m.View() == old(ReadAt(LAS, m.View(), value, pcInc, clkInc))
  {
    hide And, Wrap16, Low, High, Bit7, Bit6, Target, Bit8;
    m.sp := And(m.sp, value);
    m.x := m.sp;
    m.a := m.sp;
    m.SetNz(m.sp);
    m.clk := m.clk + clkInc;
    IncPc(m, pcInc);
  }

  // ---------- immediate-only operations ----------

  method Anc(m: Machine, value: u8, pcInc: nat)
    requires m.Valid()
    modifies m
    ensures m.View() == old(ReadAt(ANC, m.View(), value, pcInc, 0))
  {
    hide And, Wrap16, Low, High, Bit7, Bit6, Target, Bit8;
    var tmp := And(m.a, value);
    m.a := tmp;
    m.SetNz(tmp);
    m.p := m.p.(c := Bit7(m.n));
    IncPc(m, pcInc);
  }

  method Asr(m: Machine, value: u8, pcInc: nat)
    requires m.Valid()
    modifies m
    ensures m.View() == old(ReadAt(ASR, m.View(), value, pcInc, 0))
  {
    hide And, Wrap16, Low, High, Bit7, Bit6, Target, Bit8;
    var tmp := And(m.a, value);
    m.p := m.p.(c := tmp % 2 == 1);
    tmp := tmp / 2;
    m.a := tmp;
    m.SetNz(tmp);
    IncPc(m, pcInc);
  }

  method Ane(m: Machine, value: u8, pcInc: nat)
    requires m.Valid()
    modifies m
    ensures m.View() == old(ReadAt(ANE, m.View(), value, pcInc, 0))
  {
    hide And, Or, Wrap16, Low, High, Bit7, Bit6, Target, Bit8;
    var tmp := And(And(Or(m.a, 0xff), m.x), value);
    m.a := tmp;
    m.SetNz(tmp);
    IncPc(m, pcInc);
  }

  method Lxa(m: Machine, value: u8, pcInc: nat)
    requires m.Valid()
    modifies m
    ensures m.View() == old(ReadAt(LXA, m.View(), value, pcInc, 0))
  {
    hide And, Or, Wrap16, Low, High, Bit7, Bit6, Target, Bit8;
    var tmp := And(Or(m.a, 0xee), value);
    m.x := tmp;
    m.a := tmp;
    m.SetNz(tmp);
    IncPc(m, pcInc);
  }

  method Sbx(m: Machine, value: u8, pcInc: nat)
    requires m.Valid()
    modifies m
    ensures m.View() == old(ReadAt(SBX, m.View(), value, pcInc, 0))
  {
    hide And, Wrap16, Low, High, Bit7, Bit6, Target, Bit8;
    IncPc(m, pcInc);
    WrappedDifference(And(m.a, m.x) - value);
    var tmp := (And(m.a, m.x) - value) % 0x1_0000_0000;
    m.p := m.p.(c := tmp < 0x100);
    m.x := Low(tmp);
    m.SetNz(m.x);
  }

  method ArrImm(m: Machine, value: u8, pcInc: nat)
    requires m.Valid()
    modifies m
    ensures m.View() == old(ReadAt(ARR, m.View(), value, pcInc, 0))
  {
    hide Arr, Wrap16, Low, High, Bit7, Bit6, Target, Bit8;
    var r := ArrBytes(m.Registers(), value);
    m.SetRegisters(r);
    IncPc(m, pcInc);
  }

  // ---------- read-modify-write ----------

  /** The contract of a read-modify-write macro. */
  twostate predicate Modifies(m: Machine, op: ModifyOp, f: Access, addr: nat, len: nat, cycles: nat)
    requires m.Valid()
    reads m, m.mem
  {
    m.View() == old(ModifyAt(op, m.View(), Target(f, addr, m.x, m.y), len, LoadClk(f) + cycles))
  }

  method Asl(m: Machine, addr: nat, clkInc: nat, pcInc: nat, f: Access)
    requires m.Valid() && (f.ZeroPage? ==> addr < 0x100)
    modifies m, m.mem
    ensures Modifies(m, ASL, f, addr, pcInc, clkInc)
  {
    hide Wrap16, Low, High, Bit7, Bit6, Target, Bit8;
    var v: int := LoadBy(m, f, addr);
    m.p := m.p.(c := Bit7(v));
    v := Low(v * 2);
    m.SetNz(v);
    IncPc(m, pcInc);
    StoreBy(m, f, addr, v, clkInc);
  }

  method Lsr(m: Machine, addr: nat, clkInc: nat, pcInc: nat, f: Access)
    requires m.Valid() && (f.ZeroPage? ==> addr < 0x100)
    modifies m, m.mem
    ensures Modifies(m, LSR, f, addr, pcInc, clkInc)
  {
    hide Wrap16, Low, High, Bit7, Bit6, Target, Bit8;
    var tmp: int := LoadBy(m, f, addr);
    m.p := m.p.(c := tmp % 2 == 1);
    tmp := tmp / 2;
    m.SetNz(tmp);
    IncPc(m, pcInc);
    StoreBy(m, f, addr, tmp, clkInc);
  }

  method Rol(m: Machine, addr: nat, clkInc: nat, pcInc: nat, f: Access)
    requires m.Valid() && (f.ZeroPage? ==> addr < 0x100)
    modifies m, m.mem
    ensures Modifies(m, ROL, f, addr, pcInc, clkInc)
  {
    hide Wrap16, Low, High, Bit7, Bit6, Target, Bit8;
    var v: int := LoadBy(m, f, addr);
    RotatedOut(v, m.p.c);
    var tmp: int := v * 2 + OneIf(m.p.c);
    m.p := m.p.(c := Bit8(tmp));
    m.SetNz(Low(tmp));
    IncPc(m, pcInc);
    StoreBy(m, f, addr, tmp, clkInc);
  }

  method Ror(m: Machine, addr: nat, clkInc: nat, pcInc: nat, f: Access)
    requires m.Valid() && (f.ZeroPage? ==> addr < 0x100)
    modifies m, m.mem
    ensures Modifies(m, ROR, f, addr, pcInc, clkInc)
  {
    hide Wrap16, Low, High, Bit7, Bit6, Target, Bit8;
    var src: int := LoadBy(m, f, addr);
    if m.p.c {
      src := src + 0x100;
    }
    m.p := m.p.(c := src % 2 == 1);
    src := src / 2;
    m.SetNz(src);
    IncPc(m, pcInc);
    StoreBy(m, f, addr, src, clkInc);
  }

  method Inc(m: Machine, addr: nat, clkInc: nat, pcInc: nat, f: Access)
    requires m.Valid() && (f.ZeroPage? ==> addr < 0x100)
    modifies m, m.mem
    ensures Modifies(m, INC, f, addr, pcInc, clkInc)
  {
    hide Wrap16, Low, High, Bit7, Bit6, Target, Bit8;
    var tmp: int := LoadBy(m, f, addr);
    tmp := Low(tmp + 1);
    m.SetNz(tmp);
    IncPc(m, pcInc);
    StoreBy(m, f, addr, tmp, clkInc);
  }

  method Dec(m: Machine, addr: nat, clkInc: nat, pcInc: nat, f: Access)
    requires m.Valid() && (f.ZeroPage? ==> addr < 0x100)
    modifies m, m.mem
    ensures Modifies(m, DEC, f, addr, pcInc, clkInc)
  {
    hide Wrap16, Low, High, Bit7, Bit6, Target, Bit8;
    var tmp: int := LoadBy(m, f, addr);
    tmp := Low(tmp - 1);
    m.SetNz(tmp);
    IncPc(m, pcInc);
    StoreBy(m, f, addr, tmp, clkInc);
  }

  method Slo(m: Machine, addr: nat, clkInc1: nat, clkInc2: nat, pcInc: nat, f: Access)
    requires m.Valid() && (f.ZeroPage? ==> addr < 0x100)
    modifies m, m.mem
    ensures Modifies(m, SLO, f, addr, pcInc, clkInc1 + clkInc2)
  {
    hide Or, Wrap16, Low, High, Bit7, Bit6, Target, Bit8;
    m.clk := m.clk + clkInc1;
    var tmp: int := LoadBy(m, f, addr);
    m.p := m.p.(c := Bit7(tmp));
    tmp := Low(tmp * 2);
    m.a := Or(m.a, tmp);
    m.SetNz(m.a);
    IncPc(m, pcInc);
    StoreBy(m, f, addr, tmp, clkInc2);
  }

  method Sre(m: Machine, addr: nat, clkInc1: nat, clkInc2: nat, pcInc: nat, f: Access)
    requires m.Valid() && (f.ZeroPage? ==> addr < 0x100)
    modifies m, m.mem
    ensures Modifies(m, SRE, f, addr, pcInc, clkInc1 + clkInc2)
  {
    hide Xor, Wrap16, Low, High, Bit7, Bit6, Target, Bit8;
    m.clk := m.clk + clkInc1;
    var tmp: int := LoadBy(m, f, addr);
    m.p := m.p.(c := tmp % 2 == 1);
    tmp := tmp / 2;
    m.a := Xor(m.a, tmp);
    m.SetNz(m.a);
    IncPc(m, pcInc);
    StoreBy(m, f, addr, tmp, clkInc2);
  }

  method Rla(m: Machine, addr: nat, clkInc1: nat, clkInc2: nat, pcInc: nat, f: Access)
    requires m.Valid() && (f.ZeroPage? ==> addr < 0x100)
    modifies m, m.mem
    ensures Modifies(m, RLA, f, addr, pcInc, clkInc1 + clkInc2)
  {
    hide And, Wrap16, Low, High, Bit7, Bit6, Target, Bit8;
    m.clk := m.clk + clkInc1;
    var v: int := LoadBy(m, f, addr);
    RotatedOut(v, m.p.c);
    var tmp: int := v * 2 + OneIf(m.p.c);
    m.p := m.p.(c := Bit8(tmp));
    m.a := And(m.a, Low(tmp));
    m.SetNz(m.a);
    IncPc(m, pcInc);
    StoreBy(m, f, addr, tmp, clkInc2);
  }

  method Rra(m: Machine, addr: nat, clkInc1: nat, clkInc2: nat, pcInc: nat, f: Access)
    requires m.Valid() && (f.ZeroPage? ==> addr < 0x100)
    modifies m, m.mem
    ensures Modifies(m, RRA, f, addr, pcInc, clkInc1 + clkInc2)
  {
    hide Wrap16, Target, Adc, Modified, ShiftedOut;
    m.clk := m.clk + clkInc1;
    var src := LoadBy(m, f, addr);
    var temp := RotateAndAdd(m, src, pcInc);
    StoreBy(m, f, addr, temp, clkInc2);
  }

  method RotateAndAdd(m: Machine, src: u8, pcInc: nat) returns (temp: u8)
    requires m.Valid()
    modifies m
    ensures m.View() == old(Advance(m.View().(r := ModifyEffect(RRA, m.View().r, src)), pcInc, 0))
    ensures temp == old(Modified(RRA, m.p.c, src))
  {
    hide Adc, Wrap16;
    var rotated := src / 2;
    if m.p.c {
      rotated := rotated + 0x80;
    }
    temp := rotated;
    m.p := m.p.(c := src % 2 == 1);
    IncPc(m, pcInc);
    AdcA(m, temp, 0, 0);
  }

  method Isb(m: Machine, addr: nat, clkInc1: nat, clkInc2: nat, pcInc: nat, f: Access)
    requires m.Valid() && (f.ZeroPage? ==> addr < 0x100)
    modifies m, m.mem
    ensures Modifies(m, ISB, f, addr, pcInc, clkInc1 + clkInc2)
  {
    hide Sbc, Wrap16, Low, High, Bit7, Bit6, Target, Bit8;
    m.clk := m.clk + clkInc1;
    var src: int := LoadBy(m, f, addr);
    src := Low(src + 1);
    SbcA(m, src, 0, 0);
    IncPc(m, pcInc);
    StoreBy(m, f, addr, src, clkInc2);
  }

  method Dcp(m: Machine, addr: nat, clkInc1: nat, clkInc2: nat, pcInc: nat, f: Access)
    requires m.Valid() && (f.ZeroPage? ==> addr < 0x100)
    modifies m, m.mem
    ensures Modifies(m, DCP, f, addr, pcInc, clkInc1 + clkInc2)
  {
    hide Wrap16, Low, High, Bit7, Bit6, Target, Bit8;
    m.clk := m.clk + clkInc1;
    var tmp: int := LoadBy(m, f, addr);
    tmp := Low(tmp - 1);
    m.p := m.p.(c := m.a >= tmp);
    m.SetNz(Low(m.a - tmp));
    IncPc(m, pcInc);
    StoreBy(m, f, addr, tmp, clkInc2);
  }

  /** The opening of the _IND_Y read-modify-write macros, which then go on like their absolute forms. */
  method IndYRmw(m: Machine, zp: u8) returns (addr: nat)
    requires m.Valid()
    modifies m`clk
    ensures m.View() == old(m.View().(clk := m.clk + 3))
    ensures addr == Pointer(m.View().ram, zp) + m.y
  {
    hide Wrap16, Low, High, Bit7, Bit6, Target, Bit8;
    var base := m.LoadZeroAddr(zp);
    m.clk := m.clk + 2;
    var _ := m.Load(Word(Low(base + m.y), High(base)));
    m.clk := m.clk + CLK_IND_Y_RMW1;
    addr := base + m.y;
  }

  /** ASL_A, LSR_A, ROL_A, ROR_A */
  method ShiftA(m: Machine, op: ModifyOp)
    requires m.Valid() && op in {ASL, LSR, ROL, ROR}
    modifies m
    ensures m.View() == old(Advance(m.View().(r := AccumulatorEffect(op, m.View().r)), 1, 0))
  {
    hide Wrap16, Low, High, Bit7, Bit6, Target, Bit8;
    var tmp: int := m.a;
    if op == ASL {
      m.p := m.p.(c := Bit7(tmp));
      tmp := Low(tmp * 2);
    } else if op == LSR {
      m.p := m.p.(c := tmp % 2 == 1);
      tmp := tmp / 2;
    } else if op == ROL {
      tmp := tmp * 2 + OneIf(m.p.c);
      RotatedOut(m.a, m.p.c);
      m.p := m.p.(c := Bit8(tmp));
      tmp := Low(tmp);
    } else {
      var tmp2 := tmp / 2 + 0x80 * OneIf(m.p.c);
      m.p := m.p.(c := tmp % 2 == 1);
      tmp := tmp2;
    }
    m.a := tmp;
    m.SetNz(tmp);
    IncPc(m, 1);
  }

  // ---------- stores ----------

  method Sta(m: Machine, addr: nat, clkInc1: nat, clkInc2: nat, pcInc: nat)
    requires m.Valid()
    modifies m, m.mem
    ensures m.View() == old(StoreAt(m.View(), Wrap16(addr), m.a, pcInc, clkInc1 + clkInc2))
  {
    hide Wrap16, Low, High, Bit7, Bit6, Target, Bit8;
    m.clk := m.clk + clkInc1;
    IncPc(m, pcInc);
    StoreAbs(m, addr, m.a, clkInc2);
  }

  method StaIndexed(m: Machine, addr: u16, index: u8, clkInc: nat, pcInc: nat)
    requires m.Valid() && clkInc >= 2
    modifies m, m.mem
    ensures m.View() == old(StoreAt(m.View(), Wrap16(addr + index), m.a, pcInc, clkInc))
  {
    hide Wrap16, Low, High, Bit7, Bit6, Target, Bit8;
    IncPc(m, pcInc);
    StoreAbsIndexed(m, addr, index, m.a, clkInc);
  }

  method StaIndY(m: Machine, zp: u8)
    requires m.Valid()
    modifies m, m.mem
    ensures m.View() == old(StoreAt(m.View(), Wrap16(Pointer(m.View().ram, zp) + m.y), m.a, 2, 4))
  {
    hide Wrap16, Low, High, Bit7, Bit6, Target, Bit8;
    m.clk := m.clk + 2;
    var tmp := m.LoadZeroAddr(zp);
    var _ := m.Load(Word(Low(tmp + m.y), High(tmp)));
    m.clk := m.clk + CLK_IND_Y_W;
    IncPc(m, 2);
    m.Store(tmp + m.y, m.a);
  }

  /** STX, STY and, with its first cycle argument, SAX. */
  method StoreReg(m: Machine, addr: nat, v: u8, clkInc: nat, pcInc: nat)
    requires m.Valid()
    modifies m, m.mem
    ensures m.View() == old(StoreAt(m.View(), Wrap16(addr), v, pcInc, clkInc))
  {
    hide Wrap16, Low, High, Bit7, Bit6, Target, Bit8;
    m.clk := m.clk + clkInc;
    IncPc(m, pcInc);
    m.Store(addr, v);
  }

  /** STA_ZERO, STX_ZERO, STY_ZERO, SAX_ZERO */
  method StoreRegZero(m: Machine, addr: nat, v: u8, clkInc: nat, pcInc: nat)
    requires m.Valid()
    modifies m, m.mem
    ensures m.View() == old(StoreAt(m.View(), Low(addr), v, pcInc, clkInc))
  {
    hide Wrap16, Low, High, Bit7, Bit6, Target, Bit8;
    m.clk := m.clk + clkInc;
    m.StoreZero(addr, v);
    IncPc(m, pcInc);
  }

  /** SHA_ABS_Y, SHX_ABS_Y, SHY_ABS_X */
  method StoreHighAbs(m: Machine, addr: u16, index: u8, reg: u8)
    requires m.Valid()
    modifies m, m.mem
    ensures m.View() == old(StoreHighAt(m.View(), addr, index, reg, 3, CLK_ABS_I_STORE2))
  {
    hide And, Crosses, Wrap16, Low, High, Bit7, Bit6, Target, Bit8;
    IncPc(m, 3);
    StoreAbsSh(m, addr, index, And(reg, Low(High(addr) + 1)), CLK_ABS_I_STORE2);
  }

  method ShsAbsY(m: Machine, addr: u16)
    requires m.Valid()
    modifies m, m.mem
    ensures var t := old(StoreHighAt(m.View(), addr, m.y, And(m.a, m.x), 3, CLK_ABS_I_STORE2));
            m.View() == t.(r := t.r.(sp := old(And(m.a, m.x))))
  {
    hide And, Crosses, Wrap16, Low, High, Bit7, Bit6, Target, Bit8;
    StoreHighAbs(m, addr, m.y, And(m.a, m.x));
    m.sp := And(m.a, m.x);
  }

  method ShaIndY(m: Machine, zp: u8)
    requires m.Valid()
    modifies m, m.mem
    ensures m.View() == old(StoreHighAt(m.View(), Pointer(m.View().ram, zp), m.y, And(m.a, m.x), 2, 4))
  {
    hide And, Wrap16, Low, High, Bit7, Bit6, Target, Bit8;
    m.clk := m.clk + 2;
    var tmp: nat := m.LoadZeroAddr(zp);
    var _ := m.Load(Word(Low(tmp + m.y), High(tmp)));
    m.clk := m.clk + CLK_IND_Y_W;
    var val := And(And(m.a, m.x), Low(High(tmp) + 1));
    if Low(tmp) + m.y > 0xff {
      tmp := Word(Low(tmp + m.y), val);
    } else {
      tmp := tmp + m.y;
    }
    IncPc(m, 2);
    m.Store(tmp, val);
  }

  // ---------- implied operations ----------

  method ImpliedOp(m: Machine, op: Isa6510.ImpliedOp)
    requires m.Valid()
    modifies m
    ensures m.View() == old(Advance(m.View().(r := ImpliedEffect(op, m.View().r)), 1, 0))
  {
    hide Wrap16, Low, High, Bit7, Bit6, Target, Bit8;
    match op {
      case CLC => m.p := m.p.(c := false);
      case CLD => m.p := m.p.(d := false);
      case CLI => m.p := m.p.(i := false);
      case CLV => m.p := m.p.(v := false);
      case SEC => m.p := m.p.(c := true);
      case SED => m.p := m.p.(d := true);
      case SEI => m.p := m.p.(i := true);
      case DEX => m.x := Low(m.x - 1); m.SetNz(m.x);
      case DEY => m.y := Low(m.y - 1); m.SetNz(m.y);
      case INX => m.x := Low(m.x + 1); m.SetNz(m.x);
      case INY => m.y := Low(m.y + 1); m.SetNz(m.y);
      case TAX => m.x := m.a; m.SetNz(m.x);
      case TAY => m.y := m.a; m.SetNz(m.y);
      case TSX => m.x := m.sp; m.SetNz(m.sp);
      case TXA => m.a := m.x; m.SetNz(m.x);
      case TXS => m.sp := m.x;
      case TYA => m.a := m.y; m.SetNz(m.y);
    }
    IncPc(m, 1);
  }

  method Noop(m: Machine, clkInc: nat, pcInc: nat)
    requires m.Valid()
    modifies m
    ensures m.View() == old(Advance(m.View(), pcInc, clkInc))
  {
    hide Wrap16, Low, High, Bit7, Bit6, Target, Bit8;
    m.clk := m.clk + clkInc;
    IncPc(m, pcInc);
  }

  method NoopAbsX(m: Machine, addr: u16)
    requires m.Valid()
    modifies m
    ensures m.View() == old(Advance(m.View(), 3, 1 + OneIf(Crosses(addr, m.x))))
  {
    hide Wrap16, Low, High, Bit7, Bit6, Target, Bit8;
    var _ := LoadAbsIndexed(m, addr, m.x);
    m.clk := m.clk + 1;
    IncPc(m, 3);
  }

  // ---------- control flow ----------

  /** BRANCH, for the state s before the fetch. */
  method BranchIf(m: Machine, ghost s: Cpu, cond: bool, value: u8)
    requires m.Valid() && m.View() == s.(clk := s.clk + 2)
    modifies m
    ensures m.View() == BranchTo(s, cond, value)
  {
    hide Wrap16, Low, High, Bit7, Bit6, Target, Bit8;
    WrapAdd(m.pc, 2);
    m.pc := m.pc + 2;
    if cond {
      var dest: int := m.pc + Signed(value);
      Bytewise(m.pc);
      Bytewise(dest);
      WrapAdd(m.pc, Signed(value));
      m.clk := m.clk + CLK_BRANCH2;
      if High(m.pc) != High(dest) {
        m.clk := m.clk + CLK_BRANCH2;
      }
      m.pc := Wrap16(dest);
    }
  }

  /** The three pushes of BRK and of DO_INTERRUPT. */
  method PushPcAndStatus(m: Machine, ghost s: Cpu, ghost returnPc: u16, ghost brk: bool)
    requires m.Valid() && m.View() == s.(pc := returnPc, clk := s.clk + 2, r := s.r.(p := s.r.p.(b := brk)))
    modifies m, m.mem
    ensures var p := s.r.p.(b := brk);
            var t := Push(PushWord(s, returnPc), Joined(p, s.r.n, s.r.z));
            m.View() == t.(pc := returnPc, clk := s.clk + 5, r := t.r.(p := p))
  {
    hide Wrap16, Low, High, Joined, Pushed;
    m.PushPc();
    ghost var t1 := PushWord(s, returnPc);
    assert m.View().ram == t1.ram;
    m.clk := m.clk + 2;
    var status := m.LocalStatus();
    m.PushByte(status);
    m.clk := m.clk + 1;
  }

  /** The jump through the vector, with interrupts masked. */
  method TakeVector(m: Machine, vector: nat)
    requires m.Valid() && vector < 0xffff
    modifies m`p, m`pc
    ensures var s := old(m.View());
            m.View() == s.(r := s.r.(p := s.r.p.(i := true)), pc := Word(s.ram[vector], s.ram[vector + 1]))
  {
    hide Wrap16, Word;
    m.p := m.p.(i := true);
    m.pc := m.LoadAddr(vector);
    InRange(m.pc);
  }

  lemma InRange(x: u16)
    ensures Wrap16(x) == x
  {
  }

  /** BRK; nmi tells whether an NMI is pending after the pushes. */
  method BrkTrap(m: Machine, ghost s: Cpu, nmi: bool)
    requires m.Valid() && m.View() == s.(clk := s.clk + 2)
    modifies m, m.mem
    ensures m.View() == Enter(s, Wrap16(s.pc + 2), true, if nmi then 0xfffa else 0xfffe, 7)
  {
    hide Wrap16, Joined, Push, PushWord, Word;
    WrapAdd(m.pc, 2);
    m.pc := m.pc + 2;
    m.p := m.p.(b := true);
    PushPcAndStatus(m, s, Wrap16(s.pc + 2), true);
    TakeVector(m, if nmi then 0xfffa else 0xfffe);
    m.clk := m.clk + (CLK_BRK - 3);
  }

  method JsrAbs(m: Machine, ghost s: Cpu, p1: u8)
    requires m.Valid() && m.View() == s.(clk := s.clk + 2)
    modifies m, m.mem
    ensures m.View() == JsrTo(s, p1)
  {
    hide Wrap16, Low, High, Bit7, Bit6, Target, Bit8;
    WrapAdd(m.pc, 2);
    m.clk := m.clk + 1;
    m.pc := m.pc + 2;
    m.clk := m.clk + 2;
    m.PushPc();
    var hi := m.Load(m.pc);
    m.clk := m.clk + CLK_JSR_INT_CYCLE;
    m.pc := Word(p1, hi);
  }

  /** reg_pc is one past the pulled address and not wrapped. */
  method RtsSub(m: Machine, ghost s: Cpu)
    requires m.Valid() && m.View() == s.(clk := s.clk + 2)
    modifies m
    ensures m.View() == RtsFrom(s)
    ensures m.pc == TopWord(s) + 1
  {
    hide Wrap16, Low, High, Bit7, Bit6, Target, Bit8;
    m.clk := m.clk + CLK_RTS;
    var lo := m.PullByte();
    var hi := m.PullByte();
    m.pc := Word(lo, hi);
    var _ := m.Load(m.pc);
    m.clk := m.clk + CLK_INT_CYCLE;
    m.pc := m.pc + 1;
  }

  method RtiInt(m: Machine, ghost s: Cpu)
    requires m.Valid() && m.View() == s.(clk := s.clk + 2)
    modifies m
    ensures m.View() == RtiFrom(s)
  {
    hide Split, Wrap16, Low, Word;
    m.clk := m.clk + CLK_RTI;
    var tmp := m.PullByte();
    m.SetStatusByte(tmp);
    assert m.View() == Pull(s).(r := SetStatus(Pull(s).r, Top(s)), clk := s.clk + 6);
    var lo := m.PullByte();
    var hi := m.PullByte();
    m.pc := Word(lo, hi);
  }

  method PhaStack(m: Machine)
    requires m.Valid()
    modifies m, m.mem
    ensures m.View() == old(Advance(Push(m.View(), m.a), 1, 1))
  {
    hide Wrap16, Low, High, Bit7, Bit6, Target, Bit8;
    m.clk := m.clk + CLK_STACK_PUSH;
    m.PushByte(m.a);
    IncPc(m, 1);
  }

  method PhpStack(m: Machine)
    requires m.Valid()
    modifies m, m.mem
    ensures m.View() == old(Advance(Push(m.View(), StatusByte(m.View().r.(p := m.p.(b := true)))), 1, 1))
  {
    hide Status.ToByte, Wrap16, Low, High, Bit7, Bit6, Target, Bit8;
    m.clk := m.clk + CLK_STACK_PUSH;
    m.PushByte(m.p.(b := true, n := m.p.n || m.n >= 0x80, u := true, z := m.p.z || m.z == 0).ToByte());
    IncPc(m, 1);
  }

  method PlaStack(m: Machine)
    requires m.Valid()
    modifies m
    ensures m.View() == old(var t := Pull(m.View()); var v := Top(m.View());
                            Advance(t.(r := NZ(t.r.(a := v), v)), 1, 2))
  {
    hide Wrap16, Low, High, Bit7, Bit6, Target, Bit8;
    m.clk := m.clk + CLK_STACK_PULL;
    var tmp := m.PullByte();
    m.a := tmp;
    m.SetNz(tmp);
    IncPc(m, 1);
  }

  method PlpStack(m: Machine)
    requires m.Valid()
    modifies m
    ensures m.View() == old(var t := Pull(m.View()); Advance(t.(r := SetStatus(t.r, Top(m.View()))), 1, 2))
  {
    hide Split, Wrap16, Low, High, Bit7, Bit6, Target, Bit8;
    var s := m.PullByte();
    m.clk := m.clk + CLK_STACK_PULL;
    m.SetStatusByte(s);
    IncPc(m, 1);
  }

  method JmpIndirect(m: Machine, p2: u16)
    requires m.Valid()
    modifies m
    ensures m.View() == old(m.View().(pc := Word(m.View().ram[p2], m.View().ram[Word(Low(p2 + 1), High(p2))]),
                                      clk := m.clk + 2))
  {
    hide Wrap16, Low, High;
    var lo := m.Load(p2);
    m.clk := m.clk + 1;
    var hi := m.Load(Word(Low(p2 + 1), High(p2)));
    m.clk := m.clk + 1;
    m.pc := Word(lo, hi);
  }

  // ---------- the cases of the switch ----------

  /** A value argument: p1 or one of the LOAD_ macros. */
  method LoadValue(m: Machine, mode: Mode, p1: u8, p2: u16) returns (v: u8)
    requires m.Valid() && !mode.Implied?
    modifies m`clk
    ensures m.View() == old(m.View().(clk := m.clk + ValueClk(mode) + OneIf(Penalty(m.View(), mode, p1, p2))))
    ensures v == Operand(m.View(), mode, p1, p2)
  {
    hide Pointer, Crosses, Wrap16, Low;
    match mode {
      case Imm => v := p1;
      case Zp => v := m.LoadZero(p1);
      case ZpX => v := m.LoadZero(p1 + m.x);
      case ZpY => v := m.LoadZero(p1 + m.y);
      case Abs => v := m.Load(p2);
      case AbsX => v := LoadAbsIndexed(m, p2, m.x);
      case AbsY => v := LoadAbsIndexed(m, p2, m.y);
      case IndX => v := LoadIndX(m, p1);
      case IndY => v := LoadIndY(m, p1);
    }
  }

  method ReadMacro(m: Machine, op: ReadOp, v: u8, clkInc: nat, pcInc: nat)
    requires m.Valid() && (FixedOp(op) ==> clkInc == 0)
    modifies m
    ensures m.View() == old(ReadAt(op, m.View(), v, pcInc, clkInc + FixedClk(op)))
  {
    hide ReadAt;
    match op {
      case ORA => Ora(m, v, clkInc, pcInc);
      case AND => AndA(m, v, clkInc, pcInc);
      case EOR => Eor(m, v, clkInc, pcInc);
      case ADC => AdcA(m, v, clkInc, pcInc);
      case SBC => SbcA(m, v, clkInc, pcInc);
      case CMP | CPX | CPY => CompareWith(m, op, v, clkInc, pcInc);
      case BIT => Bit(m, v, pcInc);
      case LDA => Lda(m, v, clkInc, pcInc);
      case LDX => Ldx(m, v, clkInc, pcInc);
      case LDY => Ldy(m, v, clkInc, pcInc);
      case LAX => Lax(m, v, clkInc, pcInc);
      case LAS => Las(m, v, clkInc, pcInc);
      case ANC => Anc(m, v, pcInc);
      case ASR => Asr(m, v, pcInc);
      case ARR => ArrImm(m, v, pcInc);
      case ANE => Ane(m, v, pcInc);
      case LXA => Lxa(m, v, pcInc);
      case SBX => Sbx(m, v, pcInc);
    }
  }

  method ModifyMacro(m: Machine, op: ModifyOp, addr: nat, clkInc1: nat, clkInc2: nat, pcInc: nat, f: Access)
    requires m.Valid() && (f.ZeroPage? ==> addr < 0x100) && (!CombineOp(op) ==> clkInc1 == 0)
    modifies m, m.mem
    ensures Modifies(m, op, f, addr, pcInc, clkInc1 + clkInc2)
  {
    hide Modifies;
    match op {
      case ASL => Asl(m, addr, clkInc2, pcInc, f);
      case LSR => Lsr(m, addr, clkInc2, pcInc, f);
      case ROL => Rol(m, addr, clkInc2, pcInc, f);
      case ROR => Ror(m, addr, clkInc2, pcInc, f);
      case INC => Inc(m, addr, clkInc2, pcInc, f);
      case DEC => Dec(m, addr, clkInc2, pcInc, f);
      case SLO => Slo(m, addr, clkInc1, clkInc2, pcInc, f);
      case SRE => Sre(m, addr, clkInc1, clkInc2, pcInc, f);
      case RLA => Rla(m, addr, clkInc1, clkInc2, pcInc, f);
      case RRA => Rra(m, addr, clkInc1, clkInc2, pcInc, f);
      case ISB => Isb(m, addr, clkInc1, clkInc2, pcInc, f);
      case DCP => Dcp(m, addr, clkInc1, clkInc2, pcInc, f);
    }
  }

  method AddressOf(m: Machine, a: Address, p1: u8, p2: u16) returns (addr: nat)
    requires m.Valid()
    ensures a.AtP1? ==> addr == p1
    ensures a.AtP2? ==> addr == p2
    ensures a.AtP1X? ==> addr == Low(p1 + m.x)
    ensures a.AtP1Y? ==> addr == Low(p1 + m.y)
    ensures a.AtSumX? ==> addr == p1 + m.x
    ensures a.AtSumY? ==> addr == p1 + m.y
    ensures a.AtPointerX? ==> addr == Pointer(m.View().ram, p1 + m.x)
  {
    match a {
      case AtP1 => addr := p1;
      case AtP2 => addr := p2;
      case AtP1X => addr := Low(p1 + m.x);
      case AtP1Y => addr := Low(p1 + m.y);
      case AtSumX => addr := p1 + m.x;
      case AtSumY => addr := p1 + m.y;
      case AtPointerX => addr := m.LoadZeroAddr(p1 + m.x);
    }
  }

  /** Value and Fixed calls. */
  method DoRead(m: Machine, ghost s: Cpu, p0: u8, op: ReadOp, mode: Mode, clkInc: nat, p1: u8, p2: u16, pcInc: nat)
    requires m.Valid() && Fetched(m, s, p0, p1, p2) && !mode.Implied? && (FixedOp(op) ==> clkInc == 0)
    requires pcInc == Length(mode) && (pcInc == 3 ==> LongFetch(p0))
    requires 2 + OneIf(LongFetch(p0)) + ValueClk(mode) + clkInc + FixedClk(op) == ReadBase(mode)
    modifies m
    ensures m.View() == Exec(Read(op, mode), s, p1, P2(s))
  {
    hide LongFetch, ReadEffect, Wrap16, Operand, Penalty, P2;
    var v := FetchOperand(m, s, p0, mode, p1, p2);
    ReadMacro(m, op, v, clkInc, pcInc);
  }

  /** The LOAD_ macro of the operand. */
  method FetchOperand(m: Machine, ghost s: Cpu, ghost p0: u8, mode: Mode, p1: u8, p2: u16) returns (v: u8)
    requires m.Valid() && Fetched(m, s, p0, p1, p2) && !mode.Implied? && (Length(mode) == 3 ==> LongFetch(p0))
    modifies m`clk
    ensures v == Operand(s, mode, p1, P2(s))
    ensures m.View() == s.(clk := s.clk + 2 + OneIf(LongFetch(p0)) + ValueClk(mode)
                                  + OneIf(Penalty(s, mode, p1, P2(s))))
  {
    hide LongFetch, Crosses, Pointer, Wrap16, Low, Word;
    v := LoadValue(m, mode, p1, p2);
  }

  lemma TargetIsEa(s: Cpu, a: Address, f: Access, p1: u8, p2: u16, addr: nat)
    requires Compatible(a, f)
    requires addr == match a { case AtP1 => p1 case AtP2 => p2 case AtP1X => Low(p1 + s.r.x)
                               case AtPointerX => Pointer(s.ram, p1 + s.r.x) case _ => 0 }
    ensures Target(f, addr, s.r.x, s.r.y) == Ea(s, ModifyMode(a, f), p1, p2)
    ensures f.ZeroPage? ==> addr < 0x100
  {
    hide Wrap16, Low, Word;
  }

  /** Shift and Combine calls. */
  method DoModify(m: Machine, ghost s: Cpu, p0: u8, op: ModifyOp, a: Address, clkInc1: nat, clkInc2: nat, p1: u8,
                  p2: u16, pcInc: nat, f: Access)
    requires m.Valid() && Fetched(m, s, p0, p1, p2) && Compatible(a, f) && (!CombineOp(op) ==> clkInc1 == 0)
    requires pcInc == Length(ModifyMode(a, f)) && (pcInc == 3 ==> LongFetch(p0))
    requires 2 + OneIf(LongFetch(p0)) + LoadClk(f) + clkInc1 + clkInc2 == ModifyCycles(ModifyMode(a, f))
    modifies m, m.mem
    ensures m.View() == Exec(Modify(op, ModifyMode(a, f)), s, p1, P2(s))
  {
    hide LongFetch, ModifyEffect, Modified, Pointer, Wrap16, Low, Word, Target, Ea, ModifyCycles;
    var addr := AddressOf(m, a, p1, p2);
    TargetIsEa(s, a, f, p1, P2(s), addr);
    ModifyMacro(m, op, addr, clkInc1, clkInc2, pcInc, f);
  }

  method DoModifyIndY(m: Machine, ghost s: Cpu, p0: u8, op: ModifyOp, p1: u8, p2: u16)
    requires m.Valid() && Fetched(m, s, p0, p1, p2) && CombineOp(op) && !LongFetch(p0)
    modifies m, m.mem
    ensures m.View() == Exec(Modify(op, IndY), s, p1, P2(s))
  {
    hide LongFetch, ModifyEffect, Modified, Pointer, Wrap16, Low, Word;
    var addr := IndYRmw(m, p1);
    ModifyMacro(m, op, addr, 0, CLK_IND_Y_RMW2, 2, Absolute);
  }

  /** StoreTo calls. */
  method DoStore(m: Machine, ghost s: Cpu, p0: u8, src: Register, a: Address, clkInc1: nat, clkInc2: nat, pcInc: nat,
                 p1: u8, p2: u16)
    requires m.Valid() && Fetched(m, s, p0, p1, p2)
    requires Implements(StoreTo(src, a, clkInc1, clkInc2, pcInc), Store(src, StoreMode(a)), LongFetch(p0))
    modifies m, m.mem
    ensures m.View() == Exec(Store(src, StoreMode(a)), s, p1, P2(s))
  {
    hide LongFetch, Pointer, Wrap16, Low, Word, And;
    var addr := AddressOf(m, a, p1, p2);
    assert Wrap16(addr) == Ea(s, StoreMode(a), p1, P2(s));
    if src.A? {
      Sta(m, addr, clkInc1, clkInc2, pcInc);
    } else {
      StoreReg(m, addr, SourceOf(m, src), clkInc1 + clkInc2, pcInc);
    }
  }

  method DoStaIndexed(m: Machine, ghost s: Cpu, p0: u8, x: Register, clkInc1: nat, clkInc2: nat, pcInc: nat,
                      ghost i: Instr, p1: u8, p2: u16)
    requires m.Valid() && Fetched(m, s, p0, p1, p2)
    requires Implements(Call.StaIndexed(x, clkInc1, clkInc2, pcInc), i, LongFetch(p0))
    modifies m, m.mem
    ensures m.View() == Exec(i, s, p1, P2(s))
  {
    hide LongFetch, Pointer, Wrap16, Low, Word, And;
    m.clk := m.clk + clkInc1;
    StaIndexed(m, p2, if x.X? then m.x else m.y, clkInc2, pcInc);
  }

  method DoStoreZero(m: Machine, ghost s: Cpu, p0: u8, src: Register, a: Address, clkInc: nat, pcInc: nat,
                     p1: u8, p2: u16)
    requires m.Valid() && Fetched(m, s, p0, p1, p2)
    requires Implements(StoreZero(src, a, clkInc, pcInc), Store(src, StoreMode(a)), LongFetch(p0))
    modifies m, m.mem
    ensures m.View() == Exec(Store(src, StoreMode(a)), s, p1, P2(s))
  {
    hide LongFetch, Pointer, Wrap16, Low, Word, And;
    var addr := AddressOf(m, a, p1, p2);
    StoreRegZero(m, addr, SourceOf(m, src), clkInc, pcInc);
  }

  predicate OnStack(i: Instr) {
    i.Pha? || i.Php? || i.Pla? || i.Plp? || i.Jsr? || i.Rts? || i.Rti? || i.Brk?
  }

  method DoStack(m: Machine, ghost s: Cpu, ghost p0: u8, i: Instr, p1: u8, ghost p2: u16)
    requires m.Valid() && Fetched(m, s, p0, p1, p2) && OnStack(i) && !LongFetch(p0)
    modifies m, m.mem
    ensures m.View() == Exec(i, s, p1, P2(s))
  {
    hide LongFetch, Wrap16, Low, High, Word, JsrTo, RtsFrom, RtiFrom, Enter, SetStatus, NZ, Pushed;
    match i {
      case Pha => PhaStack(m);
      case Php => PhpStack(m);
      case Pla => PlaStack(m);
      case Plp => PlpStack(m);
      case Jsr => JsrAbs(m, s, p1);
      case Rts => RtsSub(m, s);
      case Rti => RtiInt(m, s);
      case Brk => BrkTrap(m, s, false);
    }
  }

  method DoPlain(m: Machine, ghost s: Cpu, p0: u8, i: Instr, p1: u8, p2: u16)
    requires m.Valid() && Fetched(m, s, p0, p1, p2)
    requires LongFetch(p0) == NeedsWord(i) && PlainMacro(i)
    modifies m, m.mem
    ensures m.View() == Exec(i, s, p1, P2(s))
  {
    hide LongFetch, Pointer, Crosses, Wrap16, Low, High, Word, And, AccumulatorEffect, ImpliedEffect, StoreHighAt;
    hide BranchTo, JsrTo, RtsFrom, RtiFrom, Enter, SetStatus, NZ, Pushed, Push, Pull;
    if OnStack(i) {
      DoStack(m, s, p0, i, p1, p2);
      return;
    }
    match i {
      case Accumulator(op) => ShiftA(m, op);
      case Store(_, _) => StaIndY(m, p1);
      case StoreHigh(src, mode, toSp) => DoStoreHigh(m, s, p0, i, p1, p2);
      case Reg(op) => ImpliedOp(m, op);
      case Noop(mode) => if mode.Abs? { Noop(m, 1, 3); } else { NoopAbsX(m, p2); }
      case Branch(f, want) => BranchIf(m, s, FlagSet(f, m.Registers()) == want, p1);
      case Jmp => m.pc := p2;
      case JmpInd => JmpIndirect(m, p2);
    }
  }

  method DoStoreHigh(m: Machine, ghost s: Cpu, p0: u8, i: Instr, p1: u8, p2: u16)
    requires m.Valid() && Fetched(m, s, p0, p1, p2) && i.StoreHigh?
    requires LongFetch(p0) == NeedsWord(i) && PlainMacro(i)
    modifies m, m.mem
    ensures m.View() == Exec(i, s, p1, P2(s))
  {
    hide LongFetch, Pointer, Crosses, Wrap16, Low, High, Word, And;
    if i.mode.IndY? {
      ShaIndY(m, p1);
    } else if i.toSp {
      ShsAbsY(m, p2);
    } else {
      StoreHighAbs(m, p2, if i.mode.AbsX? then m.x else m.y, SourceOf(m, i.src));
    }
  }

  method Perform(m: Machine, ghost s: Cpu, p0: u8, c: Call, ghost i: Instr, p1: u8, p2: u16)
    requires m.Valid() && Fetched(m, s, p0, p1, p2) && Implements(c, i, LongFetch(p0))
    modifies m, m.mem
    ensures m.View() == Exec(i, s, p1, P2(s))
  {
    hide LongFetch, Exec, ReadBase, ModifyCycles, StoreCycles, Length;
    match c {
      case Value(op, mode, clk, pc) => DoRead(m, s, p0, op, mode, clk, p1, p2, pc);
      case Fixed(op, mode, pc) => DoRead(m, s, p0, op, mode, 0, p1, p2, pc);
      case Shift(op, a, clk, pc, f) => DoModify(m, s, p0, op, a, 0, clk, p1, p2, pc, f);
      case Combine(op, a, clk1, clk2, pc, f) => DoModify(m, s, p0, op, a, clk1, clk2, p1, p2, pc, f);
      case CombineIndY(op) => DoModifyIndY(m, s, p0, op, p1, p2);
      case StoreTo(src, a, clk1, clk2, pc) => DoStore(m, s, p0, src, a, clk1, clk2, pc, p1, p2);
      case StaIndexed(x, clk1, clk2, pc) => DoStaIndexed(m, s, p0, x, clk1, clk2, pc, i, p1, p2);
      case StoreZero(src, a, clk, pc) => DoStoreZero(m, s, p0, src, a, clk, pc, p1, p2);
      case Skip(clk, pc) => DoSkip(m, s, p0, clk, pc, i, p1, p2);
      case Plain(j) => DoPlain(m, s, p0, j, p1, p2);
    }
  }

  method DoSkip(m: Machine, ghost s: Cpu, p0: u8, clkInc: nat, pcInc: nat, ghost i: Instr, p1: u8, p2: u16)
    requires m.Valid() && Fetched(m, s, p0, p1, p2) && Implements(Skip(clkInc, pcInc), i, LongFetch(p0))
    modifies m
    ensures m.View() == Exec(i, s, p1, P2(s))
  {
    hide LongFetch, Wrap16;
    Noop(m, clkInc, pcInc);
  }

  /** One instruction: the fetch and the switch. */
  method Step(m: Machine)
    requires m.Valid() && Decode(Opcode(m.View())) != Jam
    modifies m, m.mem
    ensures m.View() == old(Isa6510.Step(m.View()))
  {
    hide Exec, Decode, Switch, Implements;
    ghost var s := m.View();
    var p0, p1, p2 := FetchOpcode(m, s);
    SwitchImplementsIsa(p0);
    Perform(m, s, p0, Switch(p0), Decode(p0), p1, p2);
  }

  /** DO_INTERRUPT: the vector is chosen after the pushes, so that an NMI can take over an IRQ. */
  method DoInterrupt(m: Machine, nmi: bool)
    requires m.Valid()
    modifies m, m.mem
    ensures m.View() == old(Enter(m.View(), m.View().pc, false, if nmi then 0xfffa else 0xfffe, 7))
  {
    hide Wrap16, Joined, Push, PushWord, Word;
    ghost var s := m.View();
    var _ := m.Load(m.pc);
    m.clk := m.clk + 1;
    var _ := m.Load(m.pc);
    m.clk := m.clk + 1;
    m.p := m.p.(b := false);
    PushPcAndStatus(m, s, s.pc, false);
    TakeVector(m, if nmi then 0xfffa else 0xfffe);
    m.clk := m.clk + 2;
  }

  lemma BrkCase(op: u8)
    requires Decode(op) == Brk
    ensures Switch(op) == Plain(Brk) && !LongFetch(op)
  {
    hide Decode, Switch, LongFetch;
    SwitchImplementsIsa(op);
  }

  /** The case of BRK when an NMI comes up. */
  method TakeOver(m: Machine)
    requires m.Valid() && Decode(Opcode(m.View())) == Brk
    modifies m, m.mem
    ensures m.View() == old(Enter(m.View(), Wrap16(m.View().pc + 2), true, 0xfffa, 7))
  {
    hide Decode, Enter, LongFetch;
    ghost var s := m.View();
    BrkCase(Opcode(s));
    var _, _, _ := FetchOpcode(m, s);
    BrkTrap(m, s, true);
  }

  method React(m: Machine, e: Event)
    requires m.Valid() && Allowed(m.View(), e)
    modifies m, m.mem
    ensures m.View() == old(Happen(m.View(), e))
  {
    hide Isa6510.Step, Enter, Decode;
    match e {
      case Instruction => Step(m);
      case Irq => DoInterrupt(m, false);
      case Nmi => DoInterrupt(m, true);
      case HijackedIrq => DoInterrupt(m, true);
      case HijackedBrk => TakeOver(m);
    }
  }

  /** Any sequence of instructions and accepted interrupts. */
  method RunEvents(m: Machine, events: seq<Event>)
    requires m.Valid() && JamFree(m.View(), events)
    modifies m, m.mem
    ensures m.View() == old(Run(m.View(), events))
  {
    hide Happen, Allowed;
    for k := 0 to |events|
      invariant JamFree(m.View(), events[k..])
      invariant Run(m.View(), events[k..]) == old(Run(m.View(), events))
    {
      assert events[k..][1..] == events[k + 1..];
      React(m, events[k]);
    }
  }
}
