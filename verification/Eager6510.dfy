/** The 6510 by its mnemonics: what the instructions that the monitor prints do to the registers, to six flags kept as
    booleans, and to memory. All numbers are written out. */
module Eager6510 {
  import opened Bytes
  import opened Digits
  import opened Monitor6510

  datatype Flags = Flags(n: bool, v: bool, d: bool, i: bool, z: bool, c: bool)

  datatype Regs = Regs(a: u8, x: u8, y: u8, sp: u8, f: Flags)

  datatype Cpu = Cpu(r: Regs, pc: u16, clk: nat, ram: Ram)

  // ---------- flags ----------

  function NZ(r: Regs, v: u8): Regs { r.(f := r.f.(n := v >= 0x80, z := v == 0)) }

  function Carry(r: Regs, c: bool): Regs { r.(f := r.f.(c := c)) }

  /** The byte that is pushed; the bit below V always reads as one. */
  function StatusByte(f: Flags, brk: bool): u8 {
    128 * OneIf(f.n) + 64 * OneIf(f.v) + 32 + 16 * OneIf(brk) + 8 * OneIf(f.d) + 4 * OneIf(f.i) + 2 * OneIf(f.z)
    + OneIf(f.c)
  }

  function FlagsOf(x: u8): Flags {
    Flags(x / 128 % 2 == 1, x / 64 % 2 == 1, x / 8 % 2 == 1, x / 4 % 2 == 1, x / 2 % 2 == 1, x % 2 == 1)
  }

  // ---------- arithmetic ----------

  function Add(r: Regs, v: u8): Regs {
    var t := r.a + v + OneIf(r.f.c);
    if r.f.d then
      var s := DecAdd(r.a, v, r.f.c);
      var k := OneIf(r.a % 16 + v % 16 + OneIf(r.f.c) > 9);
      r.(a := s.value, f := r.f.(n := (r.a / 16 + v / 16 + k) % 16 >= 8, z := t % 0x100 == 0, c := s.carry,
                                 v := !(-8 <= SignedDigit(r.a) + SignedDigit(v) + k <= 7)))
    else
      NZ(r.(a := t % 0x100, f := r.f.(c := t > 255, v := OutOfRange(Signed(r.a) + Signed(v) + OneIf(r.f.c)))),
         t % 0x100)
  }

  function Subtract(r: Regs, v: u8): Regs {
    var t := r.a - v - (1 - OneIf(r.f.c));
    NZ(r.(a := if r.f.d then DecSub(r.a, v, r.f.c).value else t % 0x100,
          f := r.f.(c := t >= 0, v := OutOfRange(Signed(r.a) - Signed(v) - (1 - OneIf(r.f.c))))),
       t % 0x100)
  }

  function Compare(r: Regs, reg: u8, v: u8): Regs {
    r.(f := r.f.(n := (reg - v) % 0x100 >= 0x80, z := reg == v, c := reg >= v))
  }

  /** AND, then a rotation to the right whose flags come from the two upper bits before it; digits of five and more are
      corrected in decimal mode. */
  function AndRotate(r: Regs, v: u8): Regs {
    var t := And(r.a, v);
    var w := t / 2 + 128 * OneIf(r.f.c);
    var u := r.(f := r.f.(n := r.f.c, z := w == 0, c := t >= 0x80, v := (t >= 0x80) != (t / 0x40 % 2 == 1)));
    if r.f.d then u.(a := DigitsFixed(t, w), f := u.f.(c := t / 16 + t / 16 % 2 > 5)) else u.(a := w)
  }

  function DigitsFixed(t: u8, w: u8): u8 {
    var low := if t % 16 + t % 2 > 5 then (w % 16 + 6) % 16 else w % 16;
    var high := if t / 16 + t / 16 % 2 > 5 then (w / 16 + 6) % 16 else w / 16;
    16 * high + low
  }

  function Load(name: Mnemonic, r: Regs, v: u8): Regs {
    match name
    case LDA => NZ(r.(a := v), v)
    case LDX => NZ(r.(x := v), v)
    case LDY => NZ(r.(y := v), v)
    case ORA => NZ(r.(a := Or(r.a, v)), Or(r.a, v))
    case AND => NZ(r.(a := And(r.a, v)), And(r.a, v))
    case EOR => NZ(r.(a := Xor(r.a, v)), Xor(r.a, v))
    case _ => NZ(r.(a := v, x := v), v)
  }

  /** The undocumented combinations of AND with a load or a shift. */
  function Combine(name: Mnemonic, r: Regs, v: u8): Regs {
    hide And, Or, NZ;
    match name
    case LAS => var t := And(r.sp, v); NZ(r.(a := t, x := t, sp := t), t)
    case ANE => var t := And(r.x, v); NZ(r.(a := t), t)
    case LXA => var t := And(Or(r.a, 0xee), v); NZ(r.(a := t, x := t), t)
    case ANC => var t := And(r.a, v); NZ(Carry(r.(a := t), t >= 0x80), t)
    case ASR => var t := And(r.a, v); NZ(Carry(r.(a := t / 2), t % 2 == 1), t / 2)
    case _ => var t := And(r.a, r.x); NZ(Carry(r.(x := (t - v) % 0x100), t >= v), (t - v) % 0x100)
  }

  /** What an instruction with an operand does to the registers. */
  function Alu(name: Mnemonic, r: Regs, v: u8): Regs {
    match name
    case LDA | LDX | LDY | ORA | AND | EOR | LAX => Load(name, r, v)
    case LAS | ANE | LXA | ANC | ASR | SBX => Combine(name, r, v)
    case ADC => Add(r, v)
    case SBC | USBC => Subtract(r, v)
    case CMP => Compare(r, r.a, v)
    case CPX => Compare(r, r.x, v)
    case CPY => Compare(r, r.y, v)
    case ARR => AndRotate(r, v)
    case BIT => r.(f := r.f.(n := v >= 0x80, v := v / 0x40 % 2 == 1, z := And(r.a, v) == 0))
    case _ => r
  }

  /** The byte that an instruction writes back. */
  function Changed(name: Mnemonic, c: bool, v: u8): u8 {
    match name
    case ASL | SLO => 2 * v % 0x100
    case ROL | RLA => (2 * v + OneIf(c)) % 0x100
    case LSR | SRE => v / 2
    case ROR | RRA => v / 2 + 128 * OneIf(c)
    case INC | ISB => (v + 1) % 0x100
    case DEC | DCP => (v - 1) % 0x100
    case _ => v
  }

  function ShiftFlags(name: Mnemonic, r: Regs, v: u8): Regs {
    match name
    case ASL | ROL | SLO | RLA => Carry(r, v >= 0x80)
    case LSR | ROR | SRE | RRA => Carry(r, v % 2 == 1)
    case _ => r
  }

  /** The undocumented instructions go on with the byte that they wrote back. */
  function Rmw(name: Mnemonic, r: Regs, v: u8): Regs {
    var w := Changed(name, r.f.c, v);
    var t := ShiftFlags(name, r, v);
    match name
    case SLO => Alu(ORA, t, w)
    case RLA => Alu(AND, t, w)
    case SRE => Alu(EOR, t, w)
    case RRA => Alu(ADC, t, w)
    case DCP => Alu(CMP, t, w)
    case ISB => Alu(SBC, t, w)
    case _ => NZ(t, w)
  }

  function SetFlag(name: Mnemonic, r: Regs): Regs {
    match name
    case CLC => Carry(r, false)
    case SEC => Carry(r, true)
    case CLD => r.(f := r.f.(d := false))
    case SED => r.(f := r.f.(d := true))
    case CLI => r.(f := r.f.(i := false))
    case SEI => r.(f := r.f.(i := true))
    case _ => r.(f := r.f.(v := false))
  }

  /** What an instruction without an operand does to the registers. */
  function Direct(name: Mnemonic, r: Regs): Regs {
    match name
    case CLC | SEC | CLD | SED | CLI | SEI | CLV => SetFlag(name, r)
    case INX => Load(LDX, r, (r.x + 1) % 0x100)
    case INY => Load(LDY, r, (r.y + 1) % 0x100)
    case DEX => Load(LDX, r, (r.x - 1) % 0x100)
    case DEY => Load(LDY, r, (r.y - 1) % 0x100)
    case TAX => Load(LDX, r, r.a)
    case TAY => Load(LDY, r, r.a)
    case TXA => Load(LDA, r, r.x)
    case TYA => Load(LDA, r, r.y)
    case TSX => Load(LDX, r, r.sp)
    case TXS => r.(sp := r.x)
    case _ => r
  }

  predicate Taken(name: Mnemonic, f: Flags) {
    match name
    case BPL => !f.n
    case BMI => f.n
    case BVC => !f.v
    case BVS => f.v
    case BCC => !f.c
    case BCS => f.c
    case BNE => !f.z
    case BEQ => f.z
    case _ => false
  }

  // ---------- addresses ----------

  function At(s: Cpu, addr: nat): u8 { s.ram[addr % 0x1_0000] }

  /** The byte and the word behind the opcode. */
  function Byte1(s: Cpu): u8 { At(s, s.pc + 1) }

  /** Low byte first. */
  function Pair(lo: u8, hi: u8): u16 { 0x100 * hi + lo }

  function Word1(s: Cpu): u16 { Pair(At(s, s.pc + 1), At(s, s.pc + 2)) }

  /** A word in page zero, whose second byte does not leave the page. */
  function ZeroWord(s: Cpu, zp: nat): u16 { Pair(s.ram[zp % 0x100], s.ram[(zp + 1) % 0x100]) }

  /** Before an index is added to 16 bits. */
  function Base(s: Cpu, m: AddrMode): u16 { if m.IndirectY? then ZeroWord(s, Byte1(s)) else Word1(s) }

  function IndexOf(s: Cpu, m: AddrMode): u8 { if m.AbsoluteX? then s.r.x else s.r.y }

  function Address(s: Cpu, m: AddrMode): u16 {
    match m
    case ZeroPage => Byte1(s)
    case ZeroPageX => (Byte1(s) + s.r.x) % 0x100
    case ZeroPageY => (Byte1(s) + s.r.y) % 0x100
    case IndirectX => ZeroWord(s, Byte1(s) + s.r.x)
    case AbsoluteX | AbsoluteY | IndirectY => (Base(s, m) + IndexOf(s, m)) % 0x1_0000
    case _ => Word1(s)
  }

  predicate PageCrossed(s: Cpu, m: AddrMode) {
    (m.AbsoluteX? || m.AbsoluteY? || m.IndirectY?) && (Base(s, m) + IndexOf(s, m)) / 0x100 != Base(s, m) / 0x100
  }

  function OperandOf(s: Cpu, m: AddrMode): u8 { if m.Immediate? then Byte1(s) else s.ram[Address(s, m)] }

  // ---------- instructions ----------

  datatype Kind = Reads | Changes | Writes | WritesHigh | Branches | Moves | Nothing | Others

  function KindOf(name: Mnemonic): Kind {
    match name
    case ORA | AND | EOR | ADC | SBC | USBC | CMP | CPX | CPY | BIT | LDA | LDX | LDY => Reads
    case LAX | LAS | ANC | ASR | ARR | ANE | LXA | SBX => Reads
    case ASL | LSR | ROL | ROR | INC | DEC | SLO | SRE | RLA | RRA | ISB | DCP => Changes
    case STA | STX | STY | SAX => Writes
    case SHA | SHX | SHY | SHS => WritesHigh
    case BPL | BMI | BVC | BVS | BCC | BCS | BNE | BEQ => Branches
    case CLC | CLD | CLI | CLV | SEC | SED | SEI | DEX | DEY | INX | INY => Moves
    case TAX | TAY | TSX | TXA | TXS | TYA => Moves
    case NOP | NOOP => Nothing
    case _ => Others
  }

  function Value(name: Mnemonic, r: Regs): u8 {
    match name
    case STX | SHX => r.x
    case STY | SHY => r.y
    case SAX | SHA | SHS => And(r.a, r.x)
    case _ => r.a
  }

  /** Cycles of an instruction that reads, writes or changes memory. */
  function Cycles(k: Kind, m: AddrMode): nat {
    match m
    case Implied | Accumulator | Immediate => 2
    case ZeroPage => if k.Changes? then 5 else 3
    case ZeroPageX | ZeroPageY | Absolute => if k.Changes? then 6 else 4
    case AbsoluteX | AbsoluteY => if k.Changes? then 7 else if k.Writes? || k.WritesHigh? then 5 else 4
    case IndirectX => if k.Changes? then 8 else 6
    case IndirectY => if k.Changes? then 8 else if k.Writes? || k.WritesHigh? then 6 else 5
    case _ => 0
  }

  function Next(s: Cpu, m: AddrMode, cycles: nat): Cpu {
    s.(pc := (s.pc + Size(m)) % 0x1_0000, clk := s.clk + cycles)
  }

  function Fetched(s: Cpu, k: Kind, m: AddrMode): nat { Cycles(k, m) + OneIf(PageCrossed(s, m)) }

  function ReadIt(name: Mnemonic, m: AddrMode, s: Cpu): Cpu {
    Next(s.(r := Alu(name, s.r, OperandOf(s, m))), m, Fetched(s, Reads, m))
  }

  function ChangeIt(name: Mnemonic, m: AddrMode, s: Cpu): Cpu {
    var v := if m.Accumulator? then s.r.a else s.ram[Address(s, m)];
    var w := Changed(name, s.r.f.c, v);
    var t := s.(r := Rmw(name, s.r, v));
    Next(if m.Accumulator? then t.(r := t.r.(a := w)) else t.(ram := s.ram[Address(s, m) := w]), m, Cycles(Changes, m))
  }

  /** The address of a store that also depends on the high byte of its base. */
  function WriteHighIt(name: Mnemonic, m: AddrMode, s: Cpu): Cpu {
    hide And, Value, Base, Cycles;
    var base, index := Base(s, m), IndexOf(s, m);
    var v := And(Value(name, s.r), (base / 0x100 + 1) % 0x100);
    var low := base % 0x100 + index;
    var t := s.(ram := s.ram[if low > 0xff then 0x100 * v + low % 0x100 else base + index := v]);
    Next(if name.SHS? then t.(r := t.r.(sp := Value(name, s.r))) else t, m, Cycles(WritesHigh, m))
  }

  function BranchIt(name: Mnemonic, s: Cpu): Cpu {
    var next: u16 := (s.pc + 2) % 0x1_0000;
    var d := Byte1(s);
    var target: u16 := (next + (if d < 0x80 then d else d - 0x100)) % 0x1_0000;
    if !Taken(name, s.r.f) then s.(pc := next, clk := s.clk + 2)
    else s.(pc := target, clk := s.clk + (if next / 0x100 == target / 0x100 then 3 else 4))
  }

  // ---------- the stack ----------

  function Pushed(s: Cpu, v: u8): Cpu {
    s.(ram := s.ram[0x100 + s.r.sp := v], r := s.r.(sp := (s.r.sp - 1) % 0x100))
  }

  function PushedWord(s: Cpu, w: u16): Cpu { Pushed(Pushed(s, w / 0x100), w % 0x100) }

  /** The k-th byte from the top, counted from one. */
  function OnStack(s: Cpu, k: nat): u8 { s.ram[0x100 + (s.r.sp + k) % 0x100] }

  function Pulled(s: Cpu, k: nat): Cpu { s.(r := s.r.(sp := (s.r.sp + k) % 0x100)) }

  /** BRK and the interrupts. */
  function Interrupted(s: Cpu, returnPc: u16, brk: bool, nmi: bool): Cpu {
    var t := Pushed(PushedWord(s, returnPc), StatusByte(s.r.f, brk));
    var vector := if nmi then 0xfffa else 0xfffe;
    t.(r := t.r.(f := t.r.f.(i := true)), pc := Pair(t.ram[vector], t.ram[vector + 1]), clk := s.clk + 7)
  }

  function Call(s: Cpu): Cpu {
    var t := PushedWord(s, (s.pc + 2) % 0x1_0000);
    t.(pc := Pair(Byte1(s), At(t, s.pc + 2)), clk := s.clk + 6)
  }

  function Return(s: Cpu): Cpu {
    Pulled(s, 2).(pc := (Pair(OnStack(s, 1), OnStack(s, 2)) + 1) % 0x1_0000, clk := s.clk + 6)
  }

  function ReturnFromInterrupt(s: Cpu): Cpu {
    var t := Pulled(s, 3);
    t.(r := t.r.(f := FlagsOf(OnStack(s, 1))), pc := Pair(OnStack(s, 2), OnStack(s, 3)), clk := s.clk + 6)
  }

  /** The second byte of a pointer stays in the page of the first. */
  function NextInPage(w: u16): u16 { w / 0x100 * 0x100 + (w + 1) % 0x100 }

  function Jump(m: AddrMode, s: Cpu): Cpu {
    var w := Word1(s);
    if m.Absolute? then s.(pc := w, clk := s.clk + 3)
    else s.(pc := Pair(s.ram[w], s.ram[NextInPage(w)]), clk := s.clk + 5)
  }

  function PullA(s: Cpu): Cpu {
    var t := Pulled(s, 1);
    Next(t.(r := NZ(t.r.(a := OnStack(s, 1)), OnStack(s, 1))), Implied, 4)
  }

  function PullP(s: Cpu): Cpu {
    var t := Pulled(s, 1);
    Next(t.(r := t.r.(f := FlagsOf(OnStack(s, 1)))), Implied, 4)
  }

  function Other(l: Line, s: Cpu): Cpu {
    match l.name
    case PHA => Next(Pushed(s, s.r.a), Implied, 3)
    case PHP => Next(Pushed(s, StatusByte(s.r.f, true)), Implied, 3)
    case PLA => PullA(s)
    case PLP => PullP(s)
    case JSR => Call(s)
    case RTS => Return(s)
    case RTI => ReturnFromInterrupt(s)
    case BRK => Interrupted(s, (s.pc + 2) % 0x1_0000, true, false)
    case JMP => Jump(l.mode, s)
    case _ => s
  }

  /** One instruction, as the monitor prints it. */
  function Execute(l: Line, s: Cpu): Cpu {
    match KindOf(l.name)
    case Reads => ReadIt(l.name, l.mode, s)
    case Changes => ChangeIt(l.name, l.mode, s)
    case Writes => Next(s.(ram := s.ram[Address(s, l.mode) := Value(l.name, s.r)]), l.mode, Cycles(Writes, l.mode))
    case WritesHigh => WriteHighIt(l.name, l.mode, s)
    case Branches => BranchIt(l.name, s)
    case Moves => Next(s.(r := Direct(l.name, s.r)), Implied, 2)
    case Nothing => Next(s, l.mode, Fetched(s, Reads, l.mode))
    case Others => Other(l, s)
  }

  function Step(s: Cpu): Cpu { Execute(Listing(s.ram[s.pc]), s) }
}
