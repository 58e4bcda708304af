/** Runs of the 65816: the widths of its registers, and what interrupts and calls restore. */
module Runs65816 {
  import opened Bytes
  import opened Status6510
  import opened Cpu65816

  // ---------- every run keeps the widths ----------

  /** The operations that touch emul, M, X, the index registers or the stack pointer. All other instructions, and the
      rest of what these do, are covered by Other, with any outcome. */
  datatype Event =
    | Pushes(byte: u8) | PushesWord(word: u16)    // PHA, PHX, PHY, PHB, PHK, PHP; JSR
    | PushesRaw(word: u16)                    // PEA, PEI, PER, JSR ($nnnn,X)
    | Pulls | PullsWord                       // PLA, PLB, RTS
    | Pulled(r: Index) | Plp
    | Interrupt(cause: Cause) | ReturnFromInterrupt | Reset
    | CallLong | ReturnLong | PushDirect | PullDirect
    | ExchangeModes | SetBits(mask: u8, on: bool)
    | MoveByte(up: bool)
    | FromAccumulator(r: Index) | FromStack | FromIndex(r: Index)  // TAX, TAY; TSX; TXY, TYX
    | Counts(r: Index, up: bool) | Loads(r: Index, lo: u8, hi: u8)
    | AccumulatorToStack | IndexToStack       // TCS, TXS
    | Other(t: State)

  /** Any outcome t, but with the mode, M, X, the index registers and the stack pointer of s; N and Z are kept outside
      reg_p. */
  function Unrelated(s: State, t: State): State {
    t.(emul := s.emul, x := s.x, y := s.y, sp := s.sp, p := t.p.(u := s.p.u, b := s.p.b, n := s.p.n, z := s.p.z))
  }

  function After(s: State, e: Event): State {
    match e
    case Pushes(v) => Push(s, v)
    case PushesWord(v) => PushWord(s, v)
    case PushesRaw(v) => PushWordRaw(s, v)
    case Pulls => Pull(s)
    case PullsWord => PullWord(s)
    case Pulled(r) => PullIndex(s, r)
    case Plp => Cpu65816.Plp(s)
    case Interrupt(cause) => Enter(s, cause)
    case ReturnFromInterrupt => Rti(s)
    case Reset => Res(s)
    case CallLong => JsrLong(s)
    case ReturnLong => Rtl(s)
    case PushDirect => Phd(s)
    case PullDirect => Pld(s)
    case ExchangeModes => Xce(s)
    case SetBits(mask, v) => RepSep(s, mask, v)
    case MoveByte(up) => Move(s, up)
    case FromAccumulator(r) => Transfer(s, s.c, r)
    case FromStack => Transfer(s, s.sp, X)
    case FromIndex(r) => Copy(s, r)
    case Counts(r, up) => Count(s, r, up)
    case Loads(r, lo, hi) => LoadIndex(s, r, lo, hi)
    case AccumulatorToStack => Tcs(s)
    case IndexToStack => Txs(s)
    case Other(t) => Unrelated(s, t)
  }

  function Run(s: State, events: seq<Event>): State
    decreases |events|
  {
    if events == [] then s else Run(After(s, events[0]), events[1..])
  }

  lemma StackWidths(s: State, e: Event)
    requires Widths(s) && (e.Pushes? || e.PushesWord? || e.PushesRaw? || e.Pulls? || e.PullsWord? || e.CallLong?
                           || e.ReturnLong? || e.PushDirect? || e.PullDirect? || e.Pulled?)
    ensures Widths(After(s, e))
  {
    hide Wrap16, Low, High, PageOne, Code, Or, Word;
  }

  lemma InterruptWidths(s: State, e: Event)
    requires Widths(s) && (e.Plp? || e.Interrupt? || e.ReturnFromInterrupt? || e.Reset?)
    ensures Widths(After(s, e))
  {
    hide Wrap16, High, Word, Split, Joined, NativeStatus;
  }

  lemma ModeWidths(s: State, e: Event)
    requires Widths(s) && (e.ExchangeModes? || e.SetBits?)
    ensures Widths(After(s, e))
  {
    hide Wrap16, FromByte;
  }

  lemma IndexWidths(s: State, e: Event)
    requires Widths(s)
    requires e.MoveByte? || e.FromAccumulator? || e.FromStack? || e.FromIndex? || e.Counts? || e.Loads?
             || e.AccumulatorToStack? || e.IndexToStack? || e.Other?
    ensures Widths(After(s, e))
  {
    hide Wrap16, Code, Or, High;
  }

  lemma EventWidths(s: State, e: Event)
    requires Widths(s)
    ensures Widths(After(s, e))
  {
    hide Widths, After;
    match e {
      case Pushes(_) | PushesWord(_) | PushesRaw(_) | Pulls | PullsWord | Pulled(_) => StackWidths(s, e);
      case CallLong | ReturnLong | PushDirect | PullDirect => StackWidths(s, e);
      case Plp | Interrupt(_) | ReturnFromInterrupt | Reset => InterruptWidths(s, e);
      case ExchangeModes | SetBits(_, _) => ModeWidths(s, e);
      case _ => IndexWidths(s, e);
    }
  }

  /** Reset establishes the widths, whatever the registers held. */
  lemma ResetWidths(s: State)
    ensures Widths(Res(s))
  {
  }

  lemma {:induction false} RunWidths(s: State, events: seq<Event>)
    requires Widths(s)
    ensures Widths(Run(s, events))
    decreases |events|
  {
    hide After, Widths;
    if events != [] {
      EventWidths(s, events[0]);
      RunWidths(After(s, events[0]), events[1..]);
    }
  }

  // ---------- the stack below a base ----------

  predicate StackReady(s: State) { s.emul ==> 0x100 <= s.sp < 0x200 }

  /** The i-th cell below a stack pointer. */
  function CellAt(emul: bool, base: u16, i: nat): u16 { Wrapped(emul, base - i) }

  lemma CellsDiffer(emul: bool, base: u16, i: nat, j: nat)
    requires i < j < 0x100
    ensures CellAt(emul, base, i) != CellAt(emul, base, j)
  {
    if emul {
      LowDiffers(base - j, j - i);
    }
  }

  lemma LowDiffers(x: int, k: nat)
    requires 0 < k < 0x100
    ensures Low(x + k) != Low(x)
  {
  }

  lemma WrapStep(emul: bool, x: int, k: int)
    ensures Wrapped(emul, Wrapped(emul, x) + k) == Wrapped(emul, x + k)
  {
    LowAfter(x, k);
    WrapAdd(x, k);
    hide Low, Wrap16;
  }

  /** Everything pushed since the stack pointer was at the base is still there. */
  ghost predicate StackedIn(emul: bool, sp: u16, mem: Mem, base: u16, bytes: seq<u8>) {
    && sp == CellAt(emul, base, |bytes|)
    && forall i :: 0 <= i < |bytes| ==> mem[CellAt(emul, base, i)] == bytes[i]
  }

  ghost predicate Stacked(s: State, base: u16, bytes: seq<u8>) { StackedIn(s.emul, s.sp, s.mem, base, bytes) }

  lemma NothingStacked(s: State)
    requires StackReady(s)
    ensures Stacked(s, s.sp, [])
  {
  }

  lemma BackAtBase(s: State, base: u16)
    requires Stacked(s, base, []) && (s.emul ==> 0x100 <= base < 0x200)
    ensures s.sp == base
  {
  }

  lemma PushStacked(s: State, v: int, base: u16, bytes: seq<u8>)
    requires Stacked(s, base, bytes) && |bytes| < 0x100
    ensures Stacked(Push(s, v), base, bytes + [Low(v)])
    ensures Push(s, v).mem == s.mem[CellAt(s.emul, base, |bytes|) := Low(v)]
  {
    WrapStep(s.emul, base - |bytes|, -1);
    hide Wrapped, Low;
    forall i | 0 <= i < |bytes|
      ensures CellAt(s.emul, base, i) != s.sp
    {
      CellsDiffer(s.emul, base, i, |bytes|);
    }
  }

  lemma PullStacked(s: State, base: u16, bytes: seq<u8>)
    requires Stacked(s, base, bytes) && bytes != []
    ensures Top(s) == bytes[|bytes| - 1] && Stacked(Pull(s), base, bytes[..|bytes| - 1])
  {
    WrapStep(s.emul, base - |bytes|, 1);
    hide Wrapped;
  }

  /** Memory changes only in the first n cells below the base. */
  ghost predicate OnlyCells(before: Mem, after: Mem, emul: bool, base: u16, n: nat) {
    forall a {:trigger after[a]} :: 0 <= a < 0x100_0000 ==>
      after[a] == before[a] || exists k :: 0 <= k < n && a == CellAt(emul, base, k)
  }

  lemma OneMoreCell(before: Mem, after: Mem, emul: bool, base: u16, n: nat, v: u8)
    requires OnlyCells(before, after, emul, base, n)
    ensures OnlyCells(before, after[CellAt(emul, base, n) := v], emul, base, n + 1)
  {
    hide CellAt;
  }

  // ---------- interrupts return ----------

  function ReturnPc(s: State, cause: Cause): u16 {
    if cause.Brk? || cause.Cop? then Wrap16(s.pc + 2) else s.pc
  }

  /** The bytes an interrupt pushes. */
  function Frame(s: State, cause: Cause): seq<u8> {
    var pc := ReturnPc(s, cause);
    if s.emul then [High(pc), Low(pc), Joined(s.p.(b := cause.Brk? || cause.Cop?), s.n, s.z)]
    else [s.pbr, High(pc), Low(pc), NativeStatus(s.p, s.n, s.z)]
  }

  lemma SavedFrame(s: State, cause: Cause)
    requires StackReady(s)
    ensures var t := Saved(s, cause, ReturnPc(s, cause));
            && Stacked(t, s.sp, Frame(s, cause))
            && OnlyCells(s.mem, t.mem, s.emul, s.sp, |Frame(s, cause)|)
            && t == s.(p := t.p, sp := t.sp, mem := t.mem)
  {
    hide Joined, NativeStatus, High, Wrapped, StackedIn, CellAt, OnlyCells;
    var pc := ReturnPc(s, cause);
    var f := Frame(s, cause);
    NothingStacked(s);
    assert OnlyCells(s.mem, s.mem, s.emul, s.sp, 0) by { NoCells(s.mem, s.emul, s.sp); }
    if s.emul {
      var t0 := s.(p := s.p.(b := cause.Brk? || cause.Cop?));
      PushFramed(s, t0, High(pc), s.sp, []);
      assert [] + [Low(High(pc))] == [High(pc)];
      var t1 := Push(t0, High(pc));
      PushFramed(s, t1, pc, s.sp, [High(pc)]);
      assert [High(pc)] + [Low(pc)] == [High(pc), Low(pc)];
      var t2 := Push(t1, pc);
      PushFramed(s, t2, StatusOf(t0), s.sp, [High(pc), Low(pc)]);
      assert [High(pc), Low(pc)] + [Low(StatusOf(t0))] == f;
    } else {
      PushFramed(s, s, s.pbr, s.sp, []);
      assert [] + [Low(s.pbr)] == [s.pbr];
      var t1 := Push(s, s.pbr);
      PushFramed(s, t1, High(pc), s.sp, [s.pbr]);
      assert [s.pbr] + [Low(High(pc))] == [s.pbr, High(pc)];
      var t2 := Push(t1, High(pc));
      PushFramed(s, t2, pc, s.sp, [s.pbr, High(pc)]);
      assert [s.pbr, High(pc)] + [Low(pc)] == [s.pbr, High(pc), Low(pc)];
      var t3 := Push(t2, pc);
      PushFramed(s, t3, StatusOf(s), s.sp, [s.pbr, High(pc), Low(pc)]);
      assert [s.pbr, High(pc), Low(pc)] + [Low(StatusOf(s))] == f;
    }
  }

  lemma NoCells(mem: Mem, emul: bool, base: u16)
    ensures OnlyCells(mem, mem, emul, base, 0)
  {
  }

  lemma PushFramed(s: State, t: State, v: int, base: u16, bytes: seq<u8>)
    requires t.emul == s.emul && |bytes| < 0x100
    requires Stacked(t, base, bytes) && OnlyCells(s.mem, t.mem, s.emul, base, |bytes|)
    ensures Stacked(Push(t, v), base, bytes + [Low(v)])
    ensures OnlyCells(s.mem, Push(t, v).mem, s.emul, base, |bytes| + 1)
  {
    hide StackedIn, CellAt, OnlyCells, Wrapped;
    PushStacked(t, v, base, bytes);
    OneMoreCell(s.mem, t.mem, s.emul, base, |bytes|, Low(v));
  }

  lemma NativeStatusPullsBack(p: Status, n: u8, z: u8)
    ensures var v := Split(NativeStatus(p, n, z));
            && v.p == p.(n := false, z := false)
            && (v.fn >= 0x80 <==> p.n || n >= 0x80)
            && (v.fz == 0 <==> p.z || z == 0)
  {
    hide FromByte, Status.ToByte;
    StatusRoundTrip(p.(n := p.n || n >= 0x80, z := p.z || z == 0));
  }

  /** The flags a program can observe; in emulation mode bits 4 and 5 are not flags. */
  predicate SameFlags(s: State, t: State) {
    && t.p.v == s.p.v && t.p.d == s.p.d && t.p.i == s.p.i && t.p.c == s.p.c
    && (s.emul || (t.p.u == s.p.u && t.p.b == s.p.b))
    && (t.p.n || t.n >= 0x80 <==> s.p.n || s.n >= 0x80)
    && (t.p.z || t.z == 0 <==> s.p.z || s.z == 0)
  }

  /** All registers, and the flags as far as they can be observed. */
  predicate SameRegisters(s: State, t: State) {
    && t.emul == s.emul && SameFlags(s, t)
    && t.c == s.c && t.x == s.x && t.y == s.y && t.sp == s.sp && t.dpr == s.dpr && t.dbr == s.dbr
  }

  lemma NarrowChanges(v: u16, narrow: bool)
    ensures Narrow(v, narrow) == v <==> !narrow || v < 0x100
  {
  }

  lemma StatusReturns(s: State, t: State, flagsByte: u8)
    requires t.emul == s.emul && t.x == s.x && t.y == s.y
    requires (s.emul && exists b :: flagsByte == Joined(s.p.(b := b), s.n, s.z))
             || (!s.emul && flagsByte == NativeStatus(s.p, s.n, s.z))
    ensures var u := SetStatus(t, flagsByte);
            && SameFlags(s, u) && u == t.(p := u.p, n := u.n, z := u.z, x := u.x, y := u.y)
            && u.x == Narrow(s.x, Index8(s)) && u.y == Narrow(s.y, Index8(s))
  {
    hide Joined, Split, NativeStatus, Narrow;
    if s.emul {
      var b :| flagsByte == Joined(s.p.(b := b), s.n, s.z);
      PushedStatusPullsBack(s.p.(b := b), s.n, s.z);
    } else {
      NativeStatusPullsBack(s.p, s.n, s.z);
    }
  }

  /** RTI takes back what an interrupt, BRK or COP saved, for every stack pointer and in both modes, exactly when the
      index registers are within their widths. The program bank comes back in native mode only. */
  lemma RtiUndoesEnter(s: State, cause: Cause)
    requires StackReady(s)
    ensures var t := Rti(Enter(s, cause));
            && (SameRegisters(s, t) <==> Widths(s))
            && SameFlags(s, t) && t.sp == s.sp
            && t.pc == ReturnPc(s, cause)
            && t.pbr == (if s.emul then 0 else s.pbr)
            && OnlyCells(s.mem, t.mem, s.emul, s.sp, |Frame(s, cause)|)
  {
    hide Wrapped, StackedIn, OnlyCells, High, Joined, NativeStatus, CellAt, Saved, SetStatus, Wrap16, Narrow;
    NarrowChanges(s.x, Index8(s));
    NarrowChanges(s.y, Index8(s));
    hide Low;
    SavedFrame(s, cause);
    var e := Enter(s, cause);
    var f := Frame(s, cause);
    PullStacked(e, s.sp, f);
    var t0 := Pull(e);
    StatusReturns(s, t0, Top(e));
    var t1 := SetStatus(t0, Top(e));
    PullStacked(t1, s.sp, f[..|f| - 1]);
    var t2 := Pull(t1);
    assert f[..|f| - 1][..|f| - 2] == f[..|f| - 2];
    PullStacked(t2, s.sp, f[..|f| - 2]);
    assert f[..|f| - 2][..|f| - 3] == f[..|f| - 3];
    Bytewise(ReturnPc(s, cause));
    var t3 := Pull(t2);
    if s.emul {
      BackAtBase(t3, s.sp);
    } else {
      PullStacked(t3, s.sp, f[..1]);
      BackAtBase(Pull(t3), s.sp);
    }
  }
}
