/** What the operations of the 65816 do to the bytes and words that a program sees, with all numbers written out. */
module Laws65816 {
  import opened Bytes
  import opened Status6510
  import opened Cpu65816
  import opened Runs65816

  // ---------- N and Z are kept outside reg_p ----------

  predicate Lazy(s: State) { !s.p.n && !s.p.z }

  lemma EventLazy(s: State, e: Event)
    requires Lazy(s)
    ensures Lazy(After(s, e))
  {
    hide Wrap16, Low, High, Word, Code, FromByte, Or, Wrapped, Joined, NativeStatus, Narrow;
  }

  lemma {:induction false} RunLazy(s: State, events: seq<Event>)
    requires Lazy(s)
    ensures Lazy(Run(s, events))
    decreases |events|
  {
    hide After, Lazy;
    if events != [] {
      EventLazy(s, events[0]);
      RunLazy(After(s, events[0]), events[1..]);
    }
  }

  // ---------- the bits of the status byte ----------

  /** The flags as a program sees them; in emulation mode the bit of M always reads as one. */
  function Flags(s: State): Status {
    s.p.(n := s.p.n || s.n >= 0x80, z := s.p.z || s.z == 0, u := s.p.u || s.emul)
  }

  lemma StatusIsFlags(s: State)
    ensures StatusOf(s) == Flags(s).ToByte()
  {
    hide Status.ToByte;
  }

  lemma MaskBit(mask: u8, k: nat)
    requires k < 8
    ensures Nth(FromByte(mask), k) <==> BitAt(mask, k)
  {
    hide FromByte, Status.ToByte, BitAt, Nth;
    ByteRoundTrip(mask);
    FlagIsBit(FromByte(mask), k);
  }

  function Opposite(p: Status): Status { Status(!p.n, !p.v, !p.u, !p.b, !p.d, !p.i, !p.z, !p.c) }

  lemma OppositeByte(p: Status)
    ensures Opposite(p).ToByte() == 0xff - p.ToByte()
  {
    hide Status.ToByte;
    BitWeights(p);
    BitWeights(Opposite(p));
  }

  /** The bits of ~mask. */
  lemma OtherBit(mask: u8, k: nat)
    requires k < 8
    ensures BitAt(0xff - mask, k) <==> !BitAt(mask, k)
  {
    hide FromByte, Status.ToByte, BitAt;
    var p := FromByte(mask);
    ByteRoundTrip(mask);
    OppositeByte(p);
    FlagIsBit(p, k);
    FlagIsBit(Opposite(p), k);
  }

  /** M and X, which REP and SEP leave alone in emulation mode. */
  predicate ModeBit(k: nat) { k == 4 || k == 5 }

  lemma SetNth(s: State, mask: u8, v: bool, k: nat)
    requires k < 8 && Lazy(s)
    ensures Nth(Flags(RepSep(s, mask, v)), k)
         == if Nth(FromByte(mask), k) && !(s.emul && ModeBit(k)) then v else Nth(Flags(s), k)
  {
    hide Narrow, Wrap16, FromByte;
  }

  /** SEP sets and REP clears exactly the bits of their mask, but for M and X in emulation mode. */
  lemma MaskedBits(s: State, mask: u8, v: bool, k: nat)
    requires k < 8 && Lazy(s)
    ensures BitAt(StatusOf(RepSep(s, mask, v)), k)
         == if BitAt(mask, k) && !(s.emul && ModeBit(k)) then v else BitAt(StatusOf(s), k)
  {
    hide RepSep, Flags, FromByte, BitAt, StatusOf, Lazy, Status.ToByte, Nth;
    StatusIsFlags(s);
    StatusIsFlags(RepSep(s, mask, v));
    FlagIsBit(Flags(s), k);
    FlagIsBit(Flags(RepSep(s, mask, v)), k);
    MaskBit(mask, k);
    SetNth(s, mask, v, k);
  }

  /** In native mode SEP ORs its mask to the status byte, and REP ANDs its complement. */
  lemma SepOrsRepAnds(s: State, mask: u8)
    requires Lazy(s) && !s.emul
    ensures StatusOf(RepSep(s, mask, true)) == Or(StatusOf(s), mask)
    ensures StatusOf(RepSep(s, mask, false)) == And(StatusOf(s), 0xff - mask)
  {
    hide RepSep, StatusOf, BitAt, Lazy, Or, And;
    var on, off := StatusOf(RepSep(s, mask, true)), StatusOf(RepSep(s, mask, false));
    assert Power2(8) == 0x100;
    forall k | 0 <= k < 8
      ensures BitAt(on, k) <==> BitAt(Or(StatusOf(s), mask), k)
      ensures BitAt(off, k) <==> BitAt(And(StatusOf(s), 0xff - mask), k)
    {
      MaskedBits(s, mask, true, k);
      MaskedBits(s, mask, false, k);
      LogicAt(StatusOf(s), mask, k);
      LogicAt(StatusOf(s), 0xff - mask, k);
      OtherBit(mask, k);
    }
    SameBits(on, Or(StatusOf(s), mask), 8);
    SameBits(off, And(StatusOf(s), 0xff - mask), 8);
  }

  lemma LogicAt(a: u8, b: u8, k: nat)
    requires k < 8
    ensures BitAt(And(a, b), k) <==> BitAt(a, k) && BitAt(b, k)
    ensures BitAt(Or(a, b), k) <==> BitAt(a, k) || BitAt(b, k)
  {
    LogicBits(a, b, k);
  }

  /** In emulation mode the same, outside bits 4 and 5, which stay. */
  lemma EmulatedSepRep(s: State, mask: u8, k: nat)
    requires Lazy(s) && s.emul && k < 8
    ensures BitAt(StatusOf(RepSep(s, mask, true)), k)
       <==> BitAt(if k == 4 || k == 5 then StatusOf(s) else Or(StatusOf(s), mask), k)
    ensures BitAt(StatusOf(RepSep(s, mask, false)), k)
       <==> BitAt(if k == 4 || k == 5 then StatusOf(s) else And(StatusOf(s), 0xff - mask), k)
  {
    hide RepSep, StatusOf, BitAt, Lazy, Or, And;
    MaskedBits(s, mask, true, k);
    MaskedBits(s, mask, false, k);
    LogicAt(StatusOf(s), mask, k);
    LogicAt(StatusOf(s), 0xff - mask, k);
    OtherBit(mask, k);
  }

  /** PLP: in native mode the status byte is then the byte that was pulled, in emulation mode but for bit 5. */
  lemma PlpTakesByte(s: State)
    ensures !s.emul ==> StatusOf(Cpu65816.Plp(s)) == s.mem[StackAt(s, 1)]
    ensures s.emul ==> StatusOf(Cpu65816.Plp(s)) == FromByte(s.mem[StackAt(s, 1)]).(u := true).ToByte()
    ensures Lazy(Cpu65816.Plp(s))
  {
    hide FromByte, Status.ToByte, Narrow;
    var v := s.mem[StackAt(s, 1)];
    ByteRoundTrip(v);
    StatusRoundTrip(FromByte(v));
    StatusIsFlags(Cpu65816.Plp(s));
  }

  // ---------- the stack ----------

  /** The k-th byte above the stack pointer, and the k-th free one below it. */
  function StackAt(s: State, k: int): u16 {
    if s.emul then 0x100 + (s.sp + k) % 0x100 else (s.sp + k) % 0x1_0000
  }

  lemma PushedByte(s: State, v: u8)
    ensures Push(s, v) == s.(mem := s.mem[s.sp := v], sp := StackAt(s, -1))
    ensures Top(s) == s.mem[StackAt(s, 1)] && Pull(s) == s.(sp := StackAt(s, 1))
  {
  }

  lemma CellsBelow(s: State, k: int)
    requires k >= 0
    ensures CellAt(s.emul, s.sp, k) == StackAt(s, -k)
  {
  }

  // ---------- where control goes ----------

  /** The handlers' addresses, the program bank, and the two flags an entry changes. */
  lemma HandlerOf(s: State, cause: Cause)
    ensures var t := Enter(s, cause);
            && t.pbr == 0 && !t.p.d && t.p.i && t.emul == s.emul
            && (s.emul && (cause.Brk? || cause.Irq?) ==> t.pc == Word(t.mem[0xfffe], t.mem[0xffff]))
            && (s.emul && cause.Cop? ==> t.pc == Word(t.mem[0xfff4], t.mem[0xfff5]))
            && (s.emul && cause.Nmi? ==> t.pc == Word(t.mem[0xfffa], t.mem[0xfffb]))
            && (!s.emul && cause.Brk? ==> t.pc == Word(t.mem[0xffe6], t.mem[0xffe7]))
            && (!s.emul && cause.Cop? ==> t.pc == Word(t.mem[0xffe4], t.mem[0xffe5]))
            && (!s.emul && cause.Irq? ==> t.pc == Word(t.mem[0xffee], t.mem[0xffef]))
            && (!s.emul && cause.Nmi? ==> t.pc == Word(t.mem[0xffea], t.mem[0xffeb]))
  {
    hide Wrapped, Joined, NativeStatus, High, Low, Wrap16;
  }

  /** RES goes through 0xfffc in emulation mode, with everything in bank and page zero. */
  lemma ResetState(s: State)
    ensures var t := Res(s);
            && t.pc == Word(s.mem[0xfffc], s.mem[0xfffd]) && t.pbr == 0 && t.dbr == 0 && t.dpr == 0
            && t.emul && t.p.i && !t.p.d && !t.p.b
            && t.sp == 0x100 + (s.sp - 3) % 0x100 && t.x == s.x % 0x100 && t.y == s.y % 0x100 && t.mem == s.mem
  {
    hide PageOne;
    PageThrice(s.sp);
  }

  lemma PageThrice(sp: u16)
    ensures PageOne(PageOne(PageOne(PageOne(sp) - 1) - 1) - 1) == 0x100 + (sp - 3) % 0x100
  {
    LowAfter(sp, -1);
    LowAfter(sp - 1, -1);
    LowAfter(sp - 2, -1);
  }

  /** The k-th byte of the instruction, wrapping in its bank. */
  function CodeByte(s: State, k: nat): u8 { s.mem[0x1_0000 * s.pbr + (s.pc + k) % 0x1_0000] }

  /** JSR long goes where its three operand bytes say; the last of them is fetched after the bank was pushed. */
  lemma LongTarget(s: State)
    ensures var t := JsrLong(s);
            && t.pc == Word(CodeByte(s, 1), CodeByte(s, 2))
            && t.pbr == (if s.pbr == 0 && s.sp == (s.pc + 3) % 0x1_0000 then s.pbr else CodeByte(s, 3))
  {
    hide High, Low, Wrapped;
  }

  /** RTL goes behind the address in the three bytes above the stack pointer, which may lie outside page one. */
  lemma LongReturn(s: State)
    ensures var t := Rtl(s);
            && t.pc == (Word(s.mem[(s.sp + 1) % 0x1_0000], s.mem[(s.sp + 2) % 0x1_0000]) + 1) % 0x1_0000
            && t.pbr == s.mem[(s.sp + 3) % 0x1_0000]
  {
  }

  // ---------- modes ----------

  /** XCE exchanges the mode and the carry, and leaves behind what the new mode needs. */
  lemma XceExchanges(s: State)
    ensures var t := Xce(s);
            && t.emul == s.p.c && t.p.c == s.emul
            && (t.emul && !s.emul ==>
                  t.x == s.x % 0x100 && t.y == s.y % 0x100 && t.sp == 0x100 + s.sp % 0x100 && !t.p.b)
            && (!t.emul && s.emul ==> t.p.u && t.p.b)
            && (t.emul == s.emul || !t.emul ==> t.x == s.x && t.y == s.y && t.sp == s.sp)
            && t.mem == s.mem && t.c == s.c && t.pc == (s.pc + 1) % 0x1_0000
  {
  }

  /** Twice is nothing, where the stack pointer and the index registers are concerned that fit into emulation mode. */
  lemma XceTwice(s: State)
    requires Widths(s)
    ensures var t := Xce(Xce(s));
            && t.emul == s.emul && t.p.c == s.p.c
            && (s.emul || (s.x < 0x100 && s.y < 0x100 && 0x100 <= s.sp < 0x200) || !s.p.c ==>
                  t.x == s.x && t.y == s.y && t.sp == s.sp)
  {
  }

  // ---------- the index registers ----------

  function Modulus(s: State): nat { if Index8(s) then 0x100 else 0x1_0000 }

  lemma OrIsZero(a: u8, b: u8)
    ensures Or(a, b) == 0 <==> a == 0 && b == 0
  {
    hide BitAt, Or;
    assert Power2(8) == 0x100;
    forall k | 0 <= k < 8
      ensures BitAt(Or(a, b), k) <==> BitAt(a, k) || BitAt(b, k)
      ensures !BitAt(0, k)
    {
      LogicAt(a, b, k);
      NoBit(k);
    }
    if Or(a, b) == 0 {
      SameBits(a, 0, 8);
      SameBits(b, 0, 8);
    } else if a == 0 && b == 0 {
      SameBits(Or(a, b), 0, 8);
    }
  }

  lemma NoBit(k: nat)
    requires k < 8
    ensures !BitAt(0, k)
  {
    BitsByWeight(0);
  }

  /** A register was loaded: its value, N from its top bit, Z, the program counter, and nothing else. */
  predicate Loads(s: State, t: State, r: Index, v: int, pc: int) {
    && Reg(t, r) == v && t.pc == pc
    && (t.n >= 0x80 <==> v >= Modulus(s) / 2) && (t.z == 0 <==> v == 0)
    && t == s.(n := t.n, z := t.z, pc := t.pc, x := if r.X? then t.x else s.x, y := if r.Y? then t.y else s.y,
               sp := t.sp)
  }

  lemma LoadedRegister(s: State, u: State, r: Index, v: u16)
    requires v < Modulus(s) && Index8(u) == Index8(s) && u == s.(pc := u.pc, sp := u.sp)
    ensures Loads(s, SetNz(WithReg(u, r, v), v, Index8(s)), r, v, u.pc)
    ensures SetNz(WithReg(u, r, v), v, Index8(s)).sp == u.sp
  {
    hide Or;
    OrIsZero(Low(v), High(v));
  }

  /** TAX, TAY, TSX take the value modulo the width, TXY and TYX as it is. */
  lemma IndexTransfers(s: State, r: Index, v: u16)
    requires Widths(s)
    ensures Loads(s, Transfer(s, v, r), r, v % Modulus(s), (s.pc + 1) % 0x1_0000)
    ensures Loads(s, Copy(s, r), r, if r.X? then s.y else s.x, (s.pc + 1) % 0x1_0000)
  {
    hide SetNz, WithReg, Loads;
    LoadedRegister(s, Next(s), r, v % Modulus(s));
    LoadedRegister(s, Next(s), r, if r.X? then s.y else s.x);
  }

  /** INX, INY, DEX and DEY count modulo the width. */
  lemma IndexCounts(s: State, r: Index, up: bool)
    ensures Loads(s, Count(s, r, up), r, (Reg(s, r) + (if up then 1 else -1)) % Modulus(s), (s.pc + 1) % 0x1_0000)
  {
    hide SetNz, WithReg, Loads;
    var w := Reg(s, r) + (if up then 1 else -1);
    CountedWithin(w, Index8(s));
    LoadedRegister(s, Next(s), r, w % Modulus(s));
  }

  lemma CountedWithin(w: int, narrow: bool)
    ensures Narrow(Wrap16(w), narrow) == w % (if narrow then 0x100 else 0x1_0000)
  {
    LowAfter(w, 0);
  }

  /** LDX and LDY. */
  lemma IndexLoad(s: State, r: Index, lo: u8, hi: u8)
    ensures Loads(s, LoadIndex(s, r, lo, hi), r, if Index8(s) then lo else Word(lo, hi), s.pc)
  {
    hide SetNz, WithReg, Loads;
    LoadedRegister(s, s, r, if Index8(s) then lo else Word(lo, hi));
  }

  /** PLX and PLY pull one byte or two. */
  lemma IndexPull(s: State, r: Index)
    ensures var one, two := s.mem[StackAt(s, 1)], s.mem[StackAt(s, 2)];
            Loads(s, PullIndex(s, r), r, if Index8(s) then one else Word(one, two), (s.pc + 1) % 0x1_0000)
    ensures PullIndex(s, r).sp == StackAt(s, if Index8(s) then 1 else 2)
  {
    hide SetNz, WithReg, Loads, StackAt;
    SecondAbove(s);
    var v: u16 := if Index8(s) then Top(s) else TopWord(s);
    LoadedRegister(s, if Index8(s) then Pull(Next(s)) else PullWord(Next(s)), r, v);
  }

  lemma SecondAbove(s: State)
    ensures Top(Pull(s)) == s.mem[StackAt(s, 2)] && Pull(Pull(s)).sp == StackAt(s, 2)
    ensures Top(s) == s.mem[StackAt(s, 1)] && Pull(s).sp == StackAt(s, 1)
  {
    WrapStep(s.emul, s.sp + 1, 1);
  }

  /** TCS and TXS. */
  lemma StackLoads(s: State)
    requires Widths(s)
    ensures Tcs(s) == s.(sp := if s.emul then 0x100 + s.c % 0x100 else s.c, pc := (s.pc + 1) % 0x1_0000)
    ensures Txs(s) == s.(sp := if s.emul then 0x100 + s.x else s.x, pc := (s.pc + 1) % 0x1_0000)
  {
  }
}
