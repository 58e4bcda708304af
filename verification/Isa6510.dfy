/** The 6510 as its programmers know it: operations times addressing modes, with the cycle counts of the data sheet.
    Both interpreter cores are proved to implement this machine. */
module Isa6510 {
  import opened Bytes
  import opened Status6510
  import opened Digits

  datatype Regs = Regs(a: u8, x: u8, y: u8, sp: u8, p: Status, n: u8, z: u8)

  datatype Cpu = Cpu(r: Regs, pc: u16, clk: nat, ram: Ram)

  datatype Mode = Implied | Imm | Zp | ZpX | ZpY | Abs | AbsX | AbsY | IndX | IndY

  datatype ReadOp =
    | ORA | AND | EOR | ADC | SBC | CMP | CPX | CPY | BIT | LDA | LDX | LDY
    | LAX | LAS | ANC | ASR | ARR | ANE | LXA | SBX

  datatype ModifyOp = ASL | LSR | ROL | ROR | INC | DEC | SLO | SRE | RLA | RRA | ISB | DCP

  datatype Register = A | X | Y | AX

  datatype ImpliedOp =
    | CLC | CLD | CLI | CLV | SEC | SED | SEI | DEX | DEY | INX | INY
    | TAX | TAY | TSX | TXA | TXS | TYA

  datatype Flag = Sign | Overflow | Carry | Zero

  datatype Instr =
    | Read(op: ReadOp, mode: Mode)
    | Modify(mop: ModifyOp, mode: Mode)
    | Accumulator(mop: ModifyOp)
    | Store(src: Register, mode: Mode)
    | StoreHigh(src: Register, mode: Mode, toSp: bool)
    | Reg(iop: ImpliedOp)
    | Noop(mode: Mode)
    | Branch(flag: Flag, want: bool)
    | Pha | Php | Pla | Plp | Jsr | Rts | Rti | Brk | Jmp | JmpInd
    | Jam

  // ---------- memory and addressing ----------

  function Byte(s: Cpu, addr: nat): u8 { s.ram[Wrap16(addr)] }

  function ZpByte(ram: Ram, addr: nat): u8 { ram[Low(addr)] }

  /** A pointer in page zero; its high byte wraps inside the page. */
  function Pointer(ram: Ram, zp: nat): u16 { Word(ZpByte(ram, zp), ZpByte(ram, zp + 1)) }

  /** The effective address of an operand, p1 and p2 being the bytes after the opcode. */
  function Ea(s: Cpu, m: Mode, p1: u8, p2: u16): u16 {
    match m
    case Zp => p1
    case ZpX => Low(p1 + s.r.x)
    case ZpY => Low(p1 + s.r.y)
    case Abs => p2
    case AbsX => Wrap16(p2 + s.r.x)
    case AbsY => Wrap16(p2 + s.r.y)
    case IndX => Pointer(s.ram, p1 + s.r.x)
    case IndY => Wrap16(Pointer(s.ram, p1) + s.r.y)
    case _ => 0
  }

  function Operand(s: Cpu, m: Mode, p1: u8, p2: u16): u8 {
    if m.Imm? then p1 else s.ram[Ea(s, m, p1, p2)]
  }

  predicate Crosses(base: u16, index: u8): (r: bool)
    ensures !r ==> base + index < 0x10000
  {
    Low(base) + index > 0xff
  }

  function Length(m: Mode): nat {
    match m
    case Implied => 1
    case Abs | AbsX | AbsY => 3
    case _ => 2
  }

  // ---------- cycles ----------

  /** Without the penalty for crossing a page. */
  function ReadBase(m: Mode): nat {
    match m
    case Implied | Imm => 2
    case Zp => 3
    case ZpX | ZpY | Abs | AbsX | AbsY => 4
    case IndX => 6
    case IndY => 5
  }

  /** Does an indexed read need another cycle to fix the high byte of its address? */
  predicate Penalty(s: Cpu, m: Mode, p1: u8, p2: u16) {
    match m
    case AbsX => Crosses(p2, s.r.x)
    case AbsY => Crosses(p2, s.r.y)
    case IndY => Crosses(Pointer(s.ram, p1), s.r.y)
    case _ => false
  }

  function ReadCycles(s: Cpu, m: Mode, p1: u8, p2: u16): nat { ReadBase(m) + OneIf(Penalty(s, m, p1, p2)) }

  function StoreCycles(m: Mode): nat {
    match m
    case Zp => 3
    case ZpX | ZpY | Abs => 4
    case AbsX | AbsY => 5
    case _ => 6
  }

  function ModifyCycles(m: Mode): nat {
    match m
    case Zp => 5
    case ZpX | ZpY | Abs => 6
    case AbsX | AbsY => 7
    case _ => 8
  }

  function Advance(s: Cpu, len: nat, cycles: nat): Cpu {
    s.(pc := Wrap16(s.pc + len), clk := s.clk + cycles)
  }

  // ---------- what operations do to the registers ----------

  function NZ(r: Regs, v: u8): Regs { r.(n := v, z := v) }

  function Adc(r: Regs, v: u8): (r': Regs)
    ensures r'.x == r.x && r'.y == r.y && r'.sp == r.sp
  {
    if r.p.d then
      var s := DecAdd(r.a, v, r.p.c);
      var sign := UncorrectedSign(r.a, v, r.p.c);
      r.(a := s.value, n := 0x80 * OneIf(sign), z := OneIf(BinAdd(r.a, v, r.p.c).value != 0),
         p := r.p.(v := AddOverflows(r.a, v, sign), c := s.carry))
    else
      var s := BinAdd(r.a, v, r.p.c);
      NZ(r.(a := s.value, p := r.p.(v := AddOverflows(r.a, v, Bit7(s.value)), c := s.carry)), s.value)
  }

  function Sbc(r: Regs, v: u8): (r': Regs)
    ensures r'.x == r.x && r'.y == r.y && r'.sp == r.sp
  {
    var s := BinSub(r.a, v, r.p.c);
    var value := if r.p.d then DecSub(r.a, v, r.p.c).value else s.value;
    NZ(r.(a := value, p := r.p.(v := SubOverflows(r.a, v, Bit7(s.value)), c := s.carry)), s.value)
  }

  function Compare(r: Regs, reg: u8, v: u8): Regs {
    NZ(r.(p := r.p.(c := reg >= v)), Low(reg - v))
  }

  function Arr(r: Regs, v: u8): Regs {
    var t := And(r.a, v);
    var rotated := t / 2 + 0x80 * OneIf(r.p.c);
    if r.p.d then
      var fixLo := Lo4(t) + t % 2 > 5;
      var fixHi := Hi4(t) + Hi4(t) % 2 > 5;
      var lo := if fixLo then Lo4(rotated + 6) else Lo4(rotated);
      var hi := if fixHi then Lo4(Hi4(rotated) + 6) else Hi4(rotated);
      r.(a := 16 * hi + lo, n := 0x80 * OneIf(r.p.c), z := OneIf(rotated != 0),
         p := r.p.(v := Bit6(rotated) != Bit6(t), c := fixHi))
    else
      NZ(r.(a := rotated, p := r.p.(c := Bit6(rotated), v := Bit6(rotated) != (rotated / 0x20 % 2 == 1))),
         rotated)
  }

  function ReadEffect(op: ReadOp, r: Regs, v: u8): Regs {
    match op
    case ORA => NZ(r.(a := Or(r.a, v)), Or(r.a, v))
    case AND => NZ(r.(a := And(r.a, v)), And(r.a, v))
    case EOR => NZ(r.(a := Xor(r.a, v)), Xor(r.a, v))
    case ADC => Adc(r, v)
    case SBC => Sbc(r, v)
    case CMP => Compare(r, r.a, v)
    case CPX => Compare(r, r.x, v)
    case CPY => Compare(r, r.y, v)
    case BIT => r.(n := 0x80 * OneIf(Bit7(v)), z := OneIf(And(v, r.a) != 0), p := r.p.(v := Bit6(v)))
    case LDA => NZ(r.(a := v), v)
    case LDX => NZ(r.(x := v), v)
    case LDY => NZ(r.(y := v), v)
    case LAX => NZ(r.(a := v, x := v), v)
    case LAS => var t := And(r.sp, v); NZ(r.(a := t, x := t, sp := t), t)
    case ANC => var t := And(r.a, v); NZ(r.(a := t, p := r.p.(c := Bit7(t))), t)
    case ASR => var t := And(r.a, v); NZ(r.(a := t / 2, p := r.p.(c := t % 2 == 1)), t / 2)
    case ARR => Arr(r, v)
    case ANE => var t := And(And(Or(r.a, 0xff), r.x), v); NZ(r.(a := t), t)
    case LXA => var t := And(Or(r.a, 0xee), v); NZ(r.(a := t, x := t), t)
    case SBX => var t := And(r.a, r.x); NZ(r.(x := Low(t - v), p := r.p.(c := t >= v)), Low(t - v))
  }

  /** The byte a read-modify-write operation leaves behind. */
  function Modified(op: ModifyOp, c: bool, v: u8): u8 {
    match op
    case ASL | SLO => Low(2 * v)
    case ROL | RLA => Low(2 * v + OneIf(c))
    case LSR | SRE => v / 2
    case ROR | RRA => v / 2 + 0x80 * OneIf(c)
    case INC | ISB => Low(v + 1)
    case DEC | DCP => Low(v - 1)
  }

  /** The bit that a shift moves into the carry. */
  predicate ShiftedOut(op: ModifyOp, v: u8) {
    match op
    case ASL | SLO | ROL | RLA => Bit7(v)
    case _ => v % 2 == 1
  }

  function ModifyEffect(op: ModifyOp, r: Regs, v: u8): Regs {
    var m := Modified(op, r.p.c, v);
    var shifted := r.(p := r.p.(c := ShiftedOut(op, v)));
    match op
    case ASL | LSR | ROL | ROR => NZ(shifted, m)
    case INC | DEC => NZ(r, m)
    case SLO => ReadEffect(ORA, shifted, m)
    case SRE => ReadEffect(EOR, shifted, m)
    case RLA => ReadEffect(AND, shifted, m)
    case RRA => Adc(shifted, m)
    case ISB => Sbc(r, m)
    case DCP => Compare(r, r.a, m)
  }

  function AccumulatorEffect(op: ModifyOp, r: Regs): Regs {
    ModifyEffect(op, r, r.a).(a := Modified(op, r.p.c, r.a))
  }

  function ImpliedEffect(op: ImpliedOp, r: Regs): Regs {
    match op
    case CLC => r.(p := r.p.(c := false))
    case CLD => r.(p := r.p.(d := false))
    case CLI => r.(p := r.p.(i := false))
    case CLV => r.(p := r.p.(v := false))
    case SEC => r.(p := r.p.(c := true))
    case SED => r.(p := r.p.(d := true))
    case SEI => r.(p := r.p.(i := true))
    case DEX => NZ(r.(x := Low(r.x - 1)), Low(r.x - 1))
    case DEY => NZ(r.(y := Low(r.y - 1)), Low(r.y - 1))
    case INX => NZ(r.(x := Low(r.x + 1)), Low(r.x + 1))
    case INY => NZ(r.(y := Low(r.y + 1)), Low(r.y + 1))
    case TAX => NZ(r.(x := r.a), r.a)
    case TAY => NZ(r.(y := r.a), r.a)
    case TSX => NZ(r.(x := r.sp), r.sp)
    case TXA => NZ(r.(a := r.x), r.x)
    case TXS => r.(sp := r.x)
    case TYA => NZ(r.(a := r.y), r.y)
  }

  function Stored(src: Register, r: Regs): u8 {
    match src
    case A => r.a
    case X => r.x
    case Y => r.y
    case AX => And(r.a, r.x)
  }

  predicate FlagSet(f: Flag, r: Regs) {
    match f
    case Sign => r.n >= 0x80
    case Overflow => r.p.v
    case Carry => r.p.c
    case Zero => r.z == 0
  }

  // ---------- stack ----------

  function Pushed(ram: Ram, sp: u8, v: u8): Ram { ram[0x100 + sp := v] }

  function Push(s: Cpu, v: u8): Cpu {
    s.(ram := Pushed(s.ram, s.r.sp, v), r := s.r.(sp := Low(s.r.sp - 1)))
  }

  /** The state after a pull, whose value is Top. */
  function Pull(s: Cpu): Cpu { s.(r := s.r.(sp := Low(s.r.sp + 1))) }

  function Top(s: Cpu): u8 { s.ram[0x100 + Low(s.r.sp + 1)] }

  function PushWord(s: Cpu, w: u16): Cpu { Push(Push(s, High(w)), Low(w)) }

  function PullWord(s: Cpu): Cpu { Pull(Pull(s)) }

  function TopWord(s: Cpu): u16 { Word(Top(s), Top(Pull(s))) }

  function StatusByte(r: Regs): u8 { Joined(r.p, r.n, r.z) }

  function SetStatus(r: Regs, v: u8): Regs {
    var s := Split(v);
    r.(p := s.p, n := s.fn, z := s.fz)
  }

  // ---------- instructions ----------

  function ReadAt(op: ReadOp, s: Cpu, v: u8, len: nat, cycles: nat): Cpu {
    Advance(s.(r := ReadEffect(op, s.r, v)), len, cycles)
  }

  function ModifyAt(op: ModifyOp, s: Cpu, ea: u16, len: nat, cycles: nat): Cpu {
    var v := s.ram[ea];
    Advance(s.(r := ModifyEffect(op, s.r, v), ram := s.ram[ea := Modified(op, s.r.p.c, v)]), len, cycles)
  }

  function StoreAt(s: Cpu, ea: u16, v: u8, len: nat, cycles: nat): Cpu {
    Advance(s.(ram := s.ram[ea := v]), len, cycles)
  }

  /** SHA, SHX, SHY, SHS: the value is ANDed with the high byte of the base plus one; on a page
      crossing it also replaces the high byte of the address. */
  function StoreHighAt(s: Cpu, base: u16, index: u8, reg: u8, len: nat, cycles: nat): Cpu {
    var v := And(reg, Low(High(base) + 1));
    var ea := if Crosses(base, index) then Word(Low(base + index), v) else base + index;
    StoreAt(s, ea, v, len, cycles)
  }

  function BranchTo(s: Cpu, taken: bool, p1: u8): Cpu {
    var next := Wrap16(s.pc + 2);
    var target := Wrap16(next + Signed(p1));
    if !taken then s.(pc := next, clk := s.clk + 2)
    else s.(pc := target, clk := s.clk + 3 + OneIf(High(next) != High(target)))
  }

  function JsrTo(s: Cpu, p1: u8): Cpu {
    var t := PushWord(s, Wrap16(s.pc + 2));
    t.(pc := Word(p1, Byte(t, s.pc + 2)), clk := s.clk + 6)
  }

  function RtsFrom(s: Cpu): Cpu {
    PullWord(s).(pc := Wrap16(TopWord(s) + 1), clk := s.clk + 6)
  }

  function RtiFrom(s: Cpu): Cpu {
    var t := Pull(s);
    var u := t.(r := SetStatus(t.r, Top(s)));
    PullWord(u).(pc := TopWord(u), clk := s.clk + 6)
  }

  /** The pushes shared by BRK and the interrupts, and the jump through the vector. */
  function Enter(s: Cpu, returnPc: u16, brk: bool, vector: u16, cycles: nat): Cpu
    requires vector < 0xffff
  {
    var p := s.r.p.(b := brk);
    var t := Push(PushWord(s, returnPc), Joined(p, s.r.n, s.r.z));
    Cpu(t.r.(p := p.(i := true)), Word(t.ram[vector], t.ram[vector + 1]), s.clk + cycles, t.ram)
  }

  function Exec(i: Instr, s: Cpu, p1: u8, p2: u16): Cpu {
    match i
    case Read(op, m) => ReadAt(op, s, Operand(s, m, p1, p2), Length(m), ReadCycles(s, m, p1, p2))
    case Modify(op, m) => ModifyAt(op, s, Ea(s, m, p1, p2), Length(m), ModifyCycles(m))
    case Accumulator(op) => Advance(s.(r := AccumulatorEffect(op, s.r)), 1, 2)
    case Store(src, m) => StoreAt(s, Ea(s, m, p1, p2), Stored(src, s.r), Length(m), StoreCycles(m))
    case StoreHigh(src, m, toSp) =>
      var base := if m.IndY? then Pointer(s.ram, p1) else p2;
      var index := if m.AbsX? then s.r.x else s.r.y;
      var t := StoreHighAt(s, base, index, Stored(src, s.r), Length(m), StoreCycles(m));
      if toSp then t.(r := t.r.(sp := Stored(src, s.r))) else t
    case Reg(op) => Advance(s.(r := ImpliedEffect(op, s.r)), 1, 2)
    case Noop(m) => Advance(s, Length(m), ReadCycles(s, m, p1, p2))
    case Branch(f, want) => BranchTo(s, FlagSet(f, s.r) == want, p1)
    case Pha => Advance(Push(s, s.r.a), 1, 3)
    case Php => Advance(Push(s, StatusByte(s.r.(p := s.r.p.(b := true)))), 1, 3)
    case Pla => Advance(Pull(s).(r := NZ(Pull(s).r.(a := Top(s)), Top(s))), 1, 4)
    case Plp => Advance(Pull(s).(r := SetStatus(Pull(s).r, Top(s))), 1, 4)
    case Jsr => JsrTo(s, p1)
    case Rts => RtsFrom(s)
    case Rti => RtiFrom(s)
    case Brk => Enter(s, Wrap16(s.pc + 2), true, 0xfffe, 7)
    case Jmp => s.(pc := p2, clk := s.clk + 3)
    case JmpInd => s.(pc := Word(s.ram[p2], s.ram[Word(Low(p2 + 1), High(p2))]), clk := s.clk + 5)
    case Jam => s
  }

  // ---------- opcodes ----------

  function Decode(op: u8): Instr {
    if op < 0x80 then
      (if op < 0x40 then (if op < 0x20 then Decode00(op) else Decode20(op))
       else (if op < 0x60 then Decode40(op) else Decode60(op)))
    else
      (if op < 0xc0 then (if op < 0xa0 then Decode80(op) else DecodeA0(op))
       else (if op < 0xe0 then DecodeC0(op) else DecodeE0(op)))
  }

  function Decode00(op: u8): Instr {
    match op
    case 0x00 => Brk
    case 0x01 => Read(ORA, IndX)
    case 0x03 => Modify(SLO, IndX)
    case 0x04 => Noop(Zp)
    case 0x05 => Read(ORA, Zp)
    case 0x06 => Modify(ASL, Zp)
    case 0x07 => Modify(SLO, Zp)
    case 0x08 => Php
    case 0x09 => Read(ORA, Imm)
    case 0x0a => Accumulator(ASL)
    case 0x0b => Read(ANC, Imm)
    case 0x0c => Noop(Abs)
    case 0x0d => Read(ORA, Abs)
    case 0x0e => Modify(ASL, Abs)
    case 0x0f => Modify(SLO, Abs)
    case 0x10 => Branch(Sign, false)
    case 0x11 => Read(ORA, IndY)
    case 0x13 => Modify(SLO, IndY)
    case 0x14 => Noop(ZpX)
    case 0x15 => Read(ORA, ZpX)
    case 0x16 => Modify(ASL, ZpX)
    case 0x17 => Modify(SLO, ZpX)
    case 0x18 => Reg(CLC)
    case 0x19 => Read(ORA, AbsY)
    case 0x1a => Noop(Implied)
    case 0x1b => Modify(SLO, AbsY)
    case 0x1c => Noop(AbsX)
    case 0x1d => Read(ORA, AbsX)
    case 0x1e => Modify(ASL, AbsX)
    case 0x1f => Modify(SLO, AbsX)
    case _ => Jam
  }

  function Decode20(op: u8): Instr {
    match op
    case 0x20 => Jsr
    case 0x21 => Read(AND, IndX)
    case 0x23 => Modify(RLA, IndX)
    case 0x24 => Read(BIT, Zp)
    case 0x25 => Read(AND, Zp)
    case 0x26 => Modify(ROL, Zp)
    case 0x27 => Modify(RLA, Zp)
    case 0x28 => Plp
    case 0x29 => Read(AND, Imm)
    case 0x2a => Accumulator(ROL)
    case 0x2b => Read(ANC, Imm)
    case 0x2c => Read(BIT, Abs)
    case 0x2d => Read(AND, Abs)
    case 0x2e => Modify(ROL, Abs)
    case 0x2f => Modify(RLA, Abs)
    case 0x30 => Branch(Sign, true)
    case 0x31 => Read(AND, IndY)
    case 0x33 => Modify(RLA, IndY)
    case 0x34 => Noop(ZpX)
    case 0x35 => Read(AND, ZpX)
    case 0x36 => Modify(ROL, ZpX)
    case 0x37 => Modify(RLA, ZpX)
    case 0x38 => Reg(SEC)
    case 0x39 => Read(AND, AbsY)
    case 0x3a => Noop(Implied)
    case 0x3b => Modify(RLA, AbsY)
    case 0x3c => Noop(AbsX)
    case 0x3d => Read(AND, AbsX)
    case 0x3e => Modify(ROL, AbsX)
    case 0x3f => Modify(RLA, AbsX)
    case _ => Jam
  }

  function Decode40(op: u8): Instr {
    match op
    case 0x40 => Rti
    case 0x41 => Read(EOR, IndX)
    case 0x43 => Modify(SRE, IndX)
    case 0x44 => Noop(Zp)
    case 0x45 => Read(EOR, Zp)
    case 0x46 => Modify(LSR, Zp)
    case 0x47 => Modify(SRE, Zp)
    case 0x48 => Pha
    case 0x49 => Read(EOR, Imm)
    case 0x4a => Accumulator(LSR)
    case 0x4b => Read(ASR, Imm)
    case 0x4c => Jmp
    case 0x4d => Read(EOR, Abs)
    case 0x4e => Modify(LSR, Abs)
    case 0x4f => Modify(SRE, Abs)
    case 0x50 => Branch(Overflow, false)
    case 0x51 => Read(EOR, IndY)
    case 0x53 => Modify(SRE, IndY)
    case 0x54 => Noop(ZpX)
    case 0x55 => Read(EOR, ZpX)
    case 0x56 => Modify(LSR, ZpX)
    case 0x57 => Modify(SRE, ZpX)
    case 0x58 => Reg(CLI)
    case 0x59 => Read(EOR, AbsY)
    case 0x5a => Noop(Implied)
    case 0x5b => Modify(SRE, AbsY)
    case 0x5c => Noop(AbsX)
    case 0x5d => Read(EOR, AbsX)
    case 0x5e => Modify(LSR, AbsX)
    case 0x5f => Modify(SRE, AbsX)
    case _ => Jam
  }

  function Decode60(op: u8): Instr {
    match op
    case 0x60 => Rts
    case 0x61 => Read(ADC, IndX)
    case 0x63 => Modify(RRA, IndX)
    case 0x64 => Noop(Zp)
    case 0x65 => Read(ADC, Zp)
    case 0x66 => Modify(ROR, Zp)
    case 0x67 => Modify(RRA, Zp)
    case 0x68 => Pla
    case 0x69 => Read(ADC, Imm)
    case 0x6a => Accumulator(ROR)
    case 0x6b => Read(ARR, Imm)
    case 0x6c => JmpInd
    case 0x6d => Read(ADC, Abs)
    case 0x6e => Modify(ROR, Abs)
    case 0x6f => Modify(RRA, Abs)
    case 0x70 => Branch(Overflow, true)
    case 0x71 => Read(ADC, IndY)
    case 0x73 => Modify(RRA, IndY)
    case 0x74 => Noop(ZpX)
    case 0x75 => Read(ADC, ZpX)
    case 0x76 => Modify(ROR, ZpX)
    case 0x77 => Modify(RRA, ZpX)
    case 0x78 => Reg(SEI)
    case 0x79 => Read(ADC, AbsY)
    case 0x7a => Noop(Implied)
    case 0x7b => Modify(RRA, AbsY)
    case 0x7c => Noop(AbsX)
    case 0x7d => Read(ADC, AbsX)
    case 0x7e => Modify(ROR, AbsX)
    case 0x7f => Modify(RRA, AbsX)
    case _ => Jam
  }

  function Decode80(op: u8): Instr {
    match op
    case 0x80 | 0x82 | 0x89 => Noop(Imm)
    case 0x81 => Store(A, IndX)
    case 0x83 => Store(AX, IndX)
    case 0x84 => Store(Y, Zp)
    case 0x85 => Store(A, Zp)
    case 0x86 => Store(X, Zp)
    case 0x87 => Store(AX, Zp)
    case 0x88 => Reg(DEY)
    case 0x8a => Reg(TXA)
    case 0x8b => Read(ANE, Imm)
    case 0x8c => Store(Y, Abs)
    case 0x8d => Store(A, Abs)
    case 0x8e => Store(X, Abs)
    case 0x8f => Store(AX, Abs)
    case 0x90 => Branch(Carry, false)
    case 0x91 => Store(A, IndY)
    case 0x93 => StoreHigh(AX, IndY, false)
    case 0x94 => Store(Y, ZpX)
    case 0x95 => Store(A, ZpX)
    case 0x96 => Store(X, ZpY)
    case 0x97 => Store(AX, ZpY)
    case 0x98 => Reg(TYA)
    case 0x99 => Store(A, AbsY)
    case 0x9a => Reg(TXS)
    case 0x9b => StoreHigh(AX, AbsY, true)
    case 0x9c => StoreHigh(Y, AbsX, false)
    case 0x9d => Store(A, AbsX)
    case 0x9e => StoreHigh(X, AbsY, false)
    case 0x9f => StoreHigh(AX, AbsY, false)
    case _ => Jam
  }

  function DecodeA0(op: u8): Instr {
    match op
    case 0xa0 => Read(LDY, Imm)
    case 0xa1 => Read(LDA, IndX)
    case 0xa2 => Read(LDX, Imm)
    case 0xa3 => Read(LAX, IndX)
    case 0xa4 => Read(LDY, Zp)
    case 0xa5 => Read(LDA, Zp)
    case 0xa6 => Read(LDX, Zp)
    case 0xa7 => Read(LAX, Zp)
    case 0xa8 => Reg(TAY)
    case 0xa9 => Read(LDA, Imm)
    case 0xaa => Reg(TAX)
    case 0xab => Read(LXA, Imm)
    case 0xac => Read(LDY, Abs)
    case 0xad => Read(LDA, Abs)
    case 0xae => Read(LDX, Abs)
    case 0xaf => Read(LAX, Abs)
    case 0xb0 => Branch(Carry, true)
    case 0xb1 => Read(LDA, IndY)
    case 0xb3 => Read(LAX, IndY)
    case 0xb4 => Read(LDY, ZpX)
    case 0xb5 => Read(LDA, ZpX)
    case 0xb6 => Read(LDX, ZpY)
    case 0xb7 => Read(LAX, ZpY)
    case 0xb8 => Reg(CLV)
    case 0xb9 => Read(LDA, AbsY)
    case 0xba => Reg(TSX)
    case 0xbb => Read(LAS, AbsY)
    case 0xbc => Read(LDY, AbsX)
    case 0xbd => Read(LDA, AbsX)
    case 0xbe => Read(LDX, AbsY)
    case 0xbf => Read(LAX, AbsY)
    case _ => Jam
  }

  function DecodeC0(op: u8): Instr {
    match op
    case 0xc0 => Read(CPY, Imm)
    case 0xc1 => Read(CMP, IndX)
    case 0xc2 => Noop(Imm)
    case 0xc3 => Modify(DCP, IndX)
    case 0xc4 => Read(CPY, Zp)
    case 0xc5 => Read(CMP, Zp)
    case 0xc6 => Modify(DEC, Zp)
    case 0xc7 => Modify(DCP, Zp)
    case 0xc8 => Reg(INY)
    case 0xc9 => Read(CMP, Imm)
    case 0xca => Reg(DEX)
    case 0xcb => Read(SBX, Imm)
    case 0xcc => Read(CPY, Abs)
    case 0xcd => Read(CMP, Abs)
    case 0xce => Modify(DEC, Abs)
    case 0xcf => Modify(DCP, Abs)
    case 0xd0 => Branch(Zero, false)
    case 0xd1 => Read(CMP, IndY)
    case 0xd3 => Modify(DCP, IndY)
    case 0xd4 => Noop(ZpX)
    case 0xd5 => Read(CMP, ZpX)
    case 0xd6 => Modify(DEC, ZpX)
    case 0xd7 => Modify(DCP, ZpX)
    case 0xd8 => Reg(CLD)
    case 0xd9 => Read(CMP, AbsY)
    case 0xda => Noop(Implied)
    case 0xdb => Modify(DCP, AbsY)
    case 0xdc => Noop(AbsX)
    case 0xdd => Read(CMP, AbsX)
    case 0xde => Modify(DEC, AbsX)
    case 0xdf => Modify(DCP, AbsX)
    case _ => Jam
  }

  function DecodeE0(op: u8): Instr {
    match op
    case 0xe0 => Read(CPX, Imm)
    case 0xe1 => Read(SBC, IndX)
    case 0xe2 => Noop(Imm)
    case 0xe3 => Modify(ISB, IndX)
    case 0xe4 => Read(CPX, Zp)
    case 0xe5 => Read(SBC, Zp)
    case 0xe6 => Modify(INC, Zp)
    case 0xe7 => Modify(ISB, Zp)
    case 0xe8 => Reg(INX)
    case 0xe9 => Read(SBC, Imm)
    case 0xea => Noop(Implied)
    case 0xeb => Read(SBC, Imm)
    case 0xec => Read(CPX, Abs)
    case 0xed => Read(SBC, Abs)
    case 0xee => Modify(INC, Abs)
    case 0xef => Modify(ISB, Abs)
    case 0xf0 => Branch(Zero, true)
    case 0xf1 => Read(SBC, IndY)
    case 0xf3 => Modify(ISB, IndY)
    case 0xf4 => Noop(ZpX)
    case 0xf5 => Read(SBC, ZpX)
    case 0xf6 => Modify(INC, ZpX)
    case 0xf7 => Modify(ISB, ZpX)
    case 0xf8 => Reg(SED)
    case 0xf9 => Read(SBC, AbsY)
    case 0xfa => Noop(Implied)
    case 0xfb => Modify(ISB, AbsY)
    case 0xfc => Noop(AbsX)
    case 0xfd => Read(SBC, AbsX)
    case 0xfe => Modify(INC, AbsX)
    case 0xff => Modify(ISB, AbsX)
    case _ => Jam
  }

  /** What FETCH_OPCODE costs: three cycles for the opcodes marked in fetch_tab, two for the others. */
  predicate LongFetch(op: u8) {
    var column := op % 0x20;
    0x0c <= column < 0x10 || column == 0x19 || column >= 0x1b
  }

  function P1(s: Cpu): u8 { Byte(s, s.pc + 1) }

  function P2(s: Cpu): u16 { Word(Byte(s, s.pc + 1), Byte(s, s.pc + 2)) }

  function Opcode(s: Cpu): u8 { Byte(s, s.pc) }

  /** One instruction. */
  function Step(s: Cpu): Cpu { Exec(Decode(Opcode(s)), s, P1(s), P2(s)) }

  /** What the main loop does next: an instruction, or the entry into an interrupt that was accepted. An NMI that comes
      up during the pushes of an IRQ or a BRK takes it over. */
  datatype Event = Instruction | Irq | Nmi | HijackedIrq | HijackedBrk

  function Happen(s: Cpu, e: Event): Cpu {
    match e
    case Instruction => Step(s)
    case Irq => Enter(s, s.pc, false, 0xfffe, 7)
    case Nmi => Enter(s, s.pc, false, 0xfffa, 7)
    case HijackedIrq => Enter(s, s.pc, false, 0xfffa, 7)
    case HijackedBrk => Enter(s, Wrap16(s.pc + 2), true, 0xfffa, 7)
  }

  function Run(s: Cpu, events: seq<Event>): Cpu
    decreases |events|
  {
    if events == [] then s else Run(Happen(s, events[0]), events[1..])
  }

  /** JAM halts the processor; a run is followed only up to there. */
  predicate Allowed(s: Cpu, e: Event) {
    match e
    case Instruction => Decode(Opcode(s)) != Jam
    case HijackedBrk => Decode(Opcode(s)) == Brk
    case _ => true
  }

  predicate JamFree(s: Cpu, events: seq<Event>)
    decreases |events|
  {
    events == [] || (Allowed(s, events[0]) && JamFree(Happen(s, events[0]), events[1..]))
  }

  lemma {:induction false} RunAppend(s: Cpu, before: seq<Event>, e: Event)
    ensures Run(s, before + [e]) == Happen(Run(s, before), e)
    ensures JamFree(s, before + [e]) <==> JamFree(s, before) && Allowed(Run(s, before), e)
    decreases |before|
  {
    hide Happen, Allowed;
    if before == [] {
      assert Run(Happen(s, e), []) == Happen(s, e);
    } else {
      assert (before + [e])[1..] == before[1..] + [e];
      RunAppend(Happen(s, before[0]), before[1..], e);
    }
  }
}
