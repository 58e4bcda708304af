/** The registers, the stack and the mode switches of the 65816: what each operation does. */
module Cpu65816 {
  import opened Bytes
  import opened Status6510

  /** 16 MB; LOAD_LONG and STORE_LONG are plain accesses modulo 2^24. */
  type Mem = s: seq<u8> | |s| == 0x100_0000 witness seq(0x100_0000, i => 0)

  /** Bit 5 of P is M (unused in emulation mode) and bit 4 is X (break in emulation mode): the fields u and b. */
  datatype State = State(
    emul: bool, p: Status, n: u8, z: u8,
    c: u16, x: u16, y: u16, sp: u16, dpr: u16,
    dbr: u8, pbr: u8, pc: u16,
    mem: Mem)

  function Wrap24(x: int): (r: nat)
    ensures r < 0x100_0000 && (0 <= x < 0x100_0000 ==> r == x)
  {
    x % 0x100_0000
  }

  /** LOCAL_65816_X */
  predicate Index8(s: State) { s.emul || s.p.b }

  /** An index register when its width is eight bits: reg &= 0xff */
  function Narrow(v: u16, narrow: bool): (r: u16)
    ensures narrow ==> r < 0x100
    ensures v < 0x100 || !narrow ==> r == v
  {
    if narrow then Low(v) else v
  }

  /** In every reachable state: narrow index registers are narrow, and the emulation mode stack stays in page one. */
  predicate Widths(s: State) {
    && (Index8(s) ==> s.x < 0x100 && s.y < 0x100)
    && (s.emul ==> 0x100 <= s.sp < 0x200)
  }

  // ---------- stack ----------

  /** INC_PC(SIZE_1) */
  function Next(s: State): State { s.(pc := Wrap16(s.pc + 1)) }

  /** 0x100 | (sp & 0xff) */
  function PageOne(sp: int): (r: u16)
    ensures 0x100 <= r < 0x200
    ensures 0x100 <= sp < 0x200 ==> r == sp
  {
    0x100 + Low(sp)
  }

  function Wrapped(emul: bool, sp: int): (r: u16)
    ensures emul ==> 0x100 <= r < 0x200
  {
    if emul then PageOne(sp) else Wrap16(sp)
  }

  /** PUSH */
  function Push(s: State, v: int): State {
    s.(mem := s.mem[s.sp := Low(v)], sp := Wrapped(s.emul, s.sp - 1))
  }

  /** STORE_LONG(reg_sp, v) and reg_sp--, which does not wrap in page one. */
  function PushRaw(s: State, v: int): State {
    s.(mem := s.mem[s.sp := Low(v)], sp := Wrap16(s.sp - 1))
  }

  /** The state after PULL, whose value is Top. */
  function Pull(s: State): State { s.(sp := Wrapped(s.emul, s.sp + 1)) }

  function Top(s: State): u8 { s.mem[Wrapped(s.emul, s.sp + 1)] }

  function PushWord(s: State, v: u16): State { Push(Push(s, High(v)), v) }

  /** Two bytes of which only the second push wraps in page one. */
  function PushWordRaw(s: State, v: u16): State {
    s.(mem := WordBelow(s.mem, s.sp, v), sp := Wrapped(s.emul, Wrap16(s.sp - 1) - 1))
  }

  function WordBelow(mem: Mem, sp: u16, v: u16): Mem { mem[sp := High(v)][Wrap16(sp - 1) := Low(v)] }

  function PullWord(s: State): State { Pull(Pull(s)) }

  function TopWord(s: State): u16 { Word(Top(s), Top(Pull(s))) }

  // ---------- status ----------

  /** LOCAL_65816_STATUS: unlike LOCAL_STATUS it does not force bit 5. */
  function NativeStatus(p: Status, n: u8, z: u8): u8 { p.(n := p.n || n >= 0x80, z := p.z || z == 0).ToByte() }

  function StatusOf(s: State): u8 { if s.emul then Joined(s.p, s.n, s.z) else NativeStatus(s.p, s.n, s.z) }

  /** LOCAL_SET_STATUS, and the narrowing that PLP and RTI do. */
  function SetStatus(s: State, v: u8): State {
    var t := s.(p := Split(v).p, n := Split(v).fn, z := Split(v).fz);
    t.(x := Narrow(t.x, Index8(t)), y := Narrow(t.y, Index8(t)))
  }

  /** LOCAL_SET_NZ */
  function SetNz(s: State, v: u16, bits8: bool): State {
    if bits8 then s.(n := Low(v), z := Low(v)) else s.(n := High(v), z := Or(Low(v), High(v)))
  }

  /** PLP */
  function Plp(s: State): State { SetStatus(Pull(Next(s)), Top(s)) }

  // ---------- interrupts ----------

  datatype Cause = Brk | Cop | Irq | Nmi

  function Vector(cause: Cause, emul: bool): u16 {
    match cause
    case Brk => if emul then 0xfffe else 0xffe6
    case Cop => if emul then 0xfff4 else 0xffe4
    case Irq => if emul then 0xfffe else 0xffee
    case Nmi => if emul then 0xfffa else 0xffea
  }

  /** The pushes of BRK, COP, IRQ and NMI. */
  function Saved(s: State, cause: Cause, returnPc: u16): State {
    if s.emul then
      var t := s.(p := s.p.(b := cause.Brk? || cause.Cop?));
      Push(PushWord(t, returnPc), StatusOf(t))
    else
      Push(PushWord(Push(s, s.pbr), returnPc), StatusOf(s))
  }

  function Enter(s: State, cause: Cause): State {
    var returnPc := if cause.Brk? || cause.Cop? then Wrap16(s.pc + 2) else s.pc;
    var t := Saved(s, cause, returnPc);
    var v := Vector(cause, s.emul);
    t.(p := t.p.(d := false, i := true), pbr := 0, pc := Word(t.mem[v], t.mem[v + 1]))
  }

  function Rti(s: State): State {
    var t := SetStatus(Pull(s), Top(s));
    var u := PullWord(t).(pc := TopWord(t));
    if s.emul then u else Pull(u).(pbr := Top(u))
  }

  // ---------- calls across banks, and the direct page register ----------

  /** FETCH_PARAM */
  function Code(s: State, pc: int): u8 { s.mem[Wrap24(pc + 0x1_0000 * s.pbr)] }

  function JsrLong(s: State): State {
    var p1 := Code(s, Wrap16(s.pc + 1));
    var p2 := Code(s, Wrap16(s.pc + 2));
    var t := PushRaw(s, s.pbr);
    var bank := Code(t, Wrap16(s.pc + 3));
    PushWordRaw(t, Wrap16(s.pc + 3)).(pbr := bank, pc := Word(p1, p2))
  }

  /** reg_sp++ three times, wrapped into page one only at the end. */
  function Rtl(s: State): State {
    var lo := s.mem[Wrap16(s.sp + 1)];
    var hi := s.mem[Wrap16(s.sp + 2)];
    var bank := s.mem[Wrap16(s.sp + 3)];
    s.(pc := Wrap16(Word(lo, hi) + 1), pbr := bank, sp := Settled(s.emul, Wrap16(s.sp + 3)))
  }

  /** if (reg_emul) reg_sp = (reg_sp & 0xff) | 0x100 */
  function Settled(emul: bool, sp: u16): (r: u16)
    ensures emul ==> 0x100 <= r < 0x200
  {
    if emul then PageOne(sp) else sp
  }

  function Phd(s: State): State { PushWordRaw(s, s.dpr).(pc := Wrap16(s.pc + 1)) }

  function Pld(s: State): State {
    var d := Word(s.mem[Wrap16(s.sp + 1)], s.mem[Wrap16(s.sp + 2)]);
    SetNz(s.(dpr := d, sp := Settled(s.emul, Wrap16(s.sp + 2)), pc := Wrap16(s.pc + 1)), d, false)
  }

  // ---------- mode switches ----------

  function Xce(s: State): State {
    var t := s.(pc := Wrap16(s.pc + 1));
    if s.p.c == s.emul then t
    else if s.p.c then
      t.(emul := true, p := s.p.(c := false, b := false), x := Low(s.x), y := Low(s.y), sp := PageOne(s.sp))
    else
      t.(emul := false, p := s.p.(c := true, u := true, b := true))
  }

  /** The flags of a mask, all set or all cleared; M and X only when mx holds. */
  function MaskedHigh(p: Status, bits: Status, v: bool, mx: bool): (r: Status)
    ensures r.b == if bits.b && mx then v else p.b
  {
    p.(v := if bits.v then v else p.v, u := if bits.u && mx then v else p.u, b := if bits.b && mx then v else p.b)
  }

  function MaskedLow(p: Status, bits: Status, v: bool): (r: Status)
    ensures r.b == p.b
  {
    p.(d := if bits.d then v else p.d, i := if bits.i then v else p.i, c := if bits.c then v else p.c)
  }

  /** REP clears (v false) and SEP sets (v true) the bits of a mask; M and X only in native mode. */
  function RepSep(s: State, mask: u8, v: bool): State {
    var bits := FromByte(mask);
    var narrow := bits.b && !s.emul && v;
    s.(p := MaskedLow(MaskedHigh(s.p, bits, v, !s.emul), bits, v),
       n := if bits.n then 0x80 * OneIf(v) else s.n, z := if bits.z then OneIf(!v) else s.z,
       x := Narrow(s.x, narrow), y := Narrow(s.y, narrow), pc := Wrap16(s.pc + 2))
  }

  /** RES: the mode of the 6502 and three dummy reads of the stack. */
  function Res(s: State): State {
    var sp := PageOne(PageOne(PageOne(PageOne(s.sp) - 1) - 1) - 1);
    s.(emul := true, x := Low(s.x), y := Low(s.y), sp := sp, dpr := 0, dbr := 0, pbr := 0,
       p := s.p.(b := false, d := false, i := true), pc := Word(s.mem[0xfffc], s.mem[0xfffd]))
  }

  // ---------- block moves ----------

  /** MVN (up) and MVP: one byte; the program counter moves on with the last one. The operand bytes are destination
      and source bank. */
  function Move(s: State, up: bool): State {
    var last := s.c == 0;
    var dst := Code(s, if last then Wrap16(s.pc + 1) else s.pc + 1);
    var src := Code(s, if last then Wrap16(s.pc + 2) else s.pc + 2);
    var value := s.mem[0x1_0000 * src + s.x];
    var step := if up then 1 else -1;
    s.(pc := if last then Wrap16(s.pc + 3) else s.pc,
       dbr := dst,
       mem := s.mem[0x1_0000 * dst + s.y := value],
       x := Narrow(Wrap16(s.x + step), Index8(s)),
       y := Narrow(Wrap16(s.y + step), Index8(s)),
       c := Wrap16(s.c - 1))
  }

  // ---------- the index registers and the stack pointer ----------

  datatype Index = X | Y

  function Reg(s: State, r: Index): u16 { if r.X? then s.x else s.y }

  function WithReg(s: State, r: Index, v: u16): State { if r.X? then s.(x := v) else s.(y := v) }

  /** TAX, TAY, TSX: narrowed on the way. */
  function Transfer(s: State, v: u16, r: Index): State {
    SetNz(WithReg(Next(s), r, Narrow(v, Index8(s))), Narrow(v, Index8(s)), Index8(s))
  }

  /** TXY, TYX: not narrowed. */
  function Copy(s: State, r: Index): State {
    var v := if r.X? then s.y else s.x;
    SetNz(WithReg(Next(s), r, v), v, Index8(s))
  }

  /** INX, INY, DEX, DEY */
  function Count(s: State, r: Index, up: bool): State {
    var v := Narrow(Wrap16(Reg(s, r) + (if up then 1 else -1)), Index8(s));
    SetNz(WithReg(Next(s), r, v), v, Index8(s))
  }

  /** LDX, LDY with the bytes that the addressing mode delivers. */
  function LoadIndex(s: State, r: Index, lo: u8, hi: u8): State {
    var v := if Index8(s) then lo else Word(lo, hi);
    SetNz(WithReg(s, r, v), v, Index8(s))
  }

  /** PLX, PLY */
  function PullIndex(s: State, r: Index): State {
    var v := if Index8(s) then Top(s) else TopWord(s);
    SetNz(WithReg(if Index8(s) then Pull(Next(s)) else PullWord(Next(s)), r, v), v, Index8(s))
  }

  /** TCS and TXS: 0x100 | reg_a and 0x100 | reg_x in emulation mode. */
  function Tcs(s: State): State { Next(s).(sp := if s.emul then 0x100 + Low(s.c) else s.c) }

  /** 0x100 | x for any 16-bit x. */
  function Or100(x: u16): u16 { if x / 0x100 % 2 == 1 then x else x + 0x100 }

  function Txs(s: State): State { Next(s).(sp := if s.emul then Or100(s.x) else s.x) }
}
