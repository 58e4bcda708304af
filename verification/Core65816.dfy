/** The 65816 interpreter, vice/src/65816core.c: its macros as methods on the registers and the 16 MB memory. */
module Core65816 {
  import opened Bytes
  import opened Status6510
  import opened Cpu65816
  import R = Runs65816
  import L = Laws65816

  class Machine {
    var emul: bool
    var p: Status
    var n: u8
    var z: u8
    var c: u16
    var x: u16
    var y: u16
    var sp: u16
    var dpr: u16
    var dbr: u8
    var pbr: u8
    var pc: u16
    const mem: array<u8>

    ghost predicate Valid() { mem.Length == 0x100_0000 }

    ghost function View(): State
      requires Valid()
      reads this, mem
    {
      State(emul, p, n, z, c, x, y, sp, dpr, dbr, pbr, pc, mem[..])
    }

    constructor (image: Mem)
      ensures Valid() && fresh(mem) && View().mem == image
    {
      mem := new u8[0x100_0000](i requires 0 <= i < 0x100_0000 => image[i]);
      emul, n, z, c, x, y, sp, dpr, dbr, pbr, pc := true, 0, 0, 0, 0, 0, 0x100, 0, 0, 0, 0;
      p := Status(false, false, false, false, false, false, false, false);
    }

    predicate Index8()
      reads this
    {
      emul || p.b
    }

    // ---------- memory ----------

    method LoadLong(addr: int) returns (v: u8)
      requires Valid()
      ensures v == View().mem[Wrap24(addr)]
    {
      v := mem[Wrap24(addr)];
    }

    /** The value is truncated to a byte. */
    method StoreLong(addr: int, v: int)
      requires Valid()
      modifies mem
      ensures View() == old(View().(mem := View().mem[Wrap24(addr) := Low(v)]))
    {
      mem[Wrap24(addr)] := Low(v);
    }

    /** FETCH_PARAM: LOAD_PBR */
    method FetchParam(addr: int) returns (v: u8)
      requires Valid()
      ensures v == Code(View(), addr)
    {
      v := LoadLong(addr + 0x1_0000 * pbr);
    }

    method IncPc(value: nat)
      requires Valid()
      modifies this`pc
      ensures View() == old(View().(pc := Wrap16(pc + value)))
    {
      pc := Wrap16(pc + value);
    }

    // ---------- stack ----------

    /** PUSH */
    method PushByte(v: int)
      requires Valid()
      modifies this`sp, mem
      ensures View() == old(Push(View(), v))
    {
      hide Low, PageOne, Wrap16;
      StoreLong(sp, v);
      if emul {
        sp := PageOne(sp - 1);
      } else {
        sp := Wrap16(sp - 1);
      }
    }

    /** STORE_LONG(reg_sp, v); reg_sp-- */
    method StoreAndDecrement(v: int)
      requires Valid()
      modifies this`sp, mem
      ensures View() == old(PushRaw(View(), v))
    {
      hide Low, Wrap16;
      StoreLong(sp, v);
      sp := Wrap16(sp - 1);
    }

    /** PULL */
    method PullByte() returns (v: u8)
      requires Valid()
      modifies this`sp
      ensures View() == old(Cpu65816.Pull(View())) && v == old(Top(View()))
    {
      hide PageOne, Wrap16;
      sp := if emul then PageOne(sp + 1) else Wrap16(sp + 1);
      v := LoadLong(sp);
    }

    method IncrementAndLoad() returns (v: u8)
      requires Valid()
      modifies this`sp
      ensures View() == old(View().(sp := Wrap16(sp + 1))) && v == old(View().mem[Wrap16(sp + 1)])
    {
      hide Wrap16;
      sp := Wrap16(sp + 1);
      v := LoadLong(sp);
    }

    // ---------- flags ----------

    /** LOCAL_SET_NZ */
    method SetNz(v: u16, bits8: bool)
      requires Valid()
      modifies this`n, this`z
      ensures View() == old(Cpu65816.SetNz(View(), v, bits8))
    {
      hide Low, High, Or;
      if !bits8 {
        n := High(v);
        z := Or(Low(v), n);
      } else {
        n := Low(v);
        z := n;
      }
    }

    /** LOCAL_SET_STATUS */
    method SetStatusByte(v: u8)
      requires Valid()
      modifies this`p, this`n, this`z
      ensures var s := Split(v); View() == old(View()).(p := s.p, n := s.fn, z := s.fz)
    {
      hide FromByte;
      p := FromByte(v).(n := false, z := false);
      z := OneIf(!FromByte(v).z);
      n := v;
    }

    /** if (LOCAL_65816_X()) { reg_x &= 0xff; reg_y &= 0xff; } */
    method NarrowIndexes()
      requires Valid()
      modifies this`x, this`y
      ensures View() == old(View().(x := Narrow(x, Index8()), y := Narrow(y, Index8())))
    {
      hide Low;
      if Index8() {
        x := Low(x);
        y := Low(y);
      }
    }

    /** PLP */
    method PullStatus()
      requires Valid()
      modifies this
      ensures View() == old(Plp(View()))
    {
      hide Split, Narrow, Wrapped, Wrap16;
      IncPc(1);
      PullFlags();
    }

    /** Common to PLP and RTI. */
    method PullFlags()
      requires Valid()
      modifies this`sp, this`p, this`n, this`z, this`x, this`y
      ensures View() == old(SetStatus(Cpu65816.Pull(View()), Top(View())))
    {
      hide Split, Narrow, Wrapped;
      var s := PullByte();
      SetStatusByte(s);
      NarrowIndexes();
    }

    /** LOCAL_STATUS and LOCAL_65816_STATUS */
    function StatusByte(): (r: u8)
      requires Valid()
      reads this, mem
      ensures r == StatusOf(View())
    {
      hide Status.ToByte;
      if emul then p.(n := p.n || n >= 0x80, u := true, z := p.z || z == 0).ToByte()
      else p.(n := p.n || n >= 0x80, z := p.z || z == 0).ToByte()
    }

    // ---------- interrupts ----------

    method PushBytes(v: u16)
      requires Valid()
      modifies this`sp, mem
      ensures View() == old(PushWord(View(), v))
    {
      hide Wrapped, High, Low;
      PushByte(High(v));
      PushByte(v);
    }

    /** The pushes of BRK, COP, IRQ and NMI. */
    method Save(cause: Cause)
      requires Valid()
      modifies this, mem
      ensures View() == old(Saved(View(), cause, pc))
    {
      hide Push, PushWord, Joined, NativeStatus;
      if emul {
        p := p.(b := cause.Brk? || cause.Cop?);
        var status := StatusByte();
        PushBytes(pc);
        PushByte(status);
      } else {
        var status := StatusByte();
        PushByte(pbr);
        PushBytes(pc);
        PushByte(status);
      }
    }

    /** BRK and COP step over their signature byte first. */
    method Interrupt(cause: Cause)
      requires Valid()
      modifies this, mem
      ensures View() == old(Enter(View(), cause))
    {
      hide Saved, Wrap16, Word;
      ghost var s := View();
      if cause.Brk? || cause.Cop? {
        WrapAdd(pc + 1, 1);
        IncPc(1);
        var _ := FetchParam(pc);
        IncPc(1);
      }
      assert View() == s.(pc := if cause.Brk? || cause.Cop? then Wrap16(s.pc + 2) else s.pc);
      SavedAnyPc(s, cause, pc);
      Save(cause);
      LoadVector(cause);
    }

    method LoadVector(cause: Cause)
      requires Valid()
      modifies this`p, this`pc, this`pbr
      ensures var s := old(View()); var v := Vector(cause, s.emul);
              View() == s.(p := s.p.(d := false, i := true), pbr := 0, pc := Word(s.mem[v], s.mem[v + 1]))
    {
      hide Word;
      p := p.(d := false);
      p := p.(i := true);
      var v := Vector(cause, emul);
      var lo := LoadLong(v);
      var hi := LoadLong(v + 1);
      pc := Word(lo, hi);
      pbr := 0;
    }

    /** RTI */
    method ReturnFromInterrupt()
      requires Valid()
      modifies this
      ensures View() == old(Rti(View()))
    {
      hide Wrapped, Word, SetStatus;
      PullFlags();
      ghost var t := View();
      assert t == old(SetStatus(Cpu65816.Pull(View()), Top(View())));
      var lo := PullByte();
      var hi := PullByte();
      pc := Word(lo, hi);
      assert View() == PullWord(t).(pc := TopWord(t));
      if !emul {
        pbr := PullByte();
      }
    }

    // ---------- calls across banks, and the direct page register ----------

    /** PEA, PEI, PER, PHD, JSR_IND_X: only the second byte wraps in page one. */
    method PushWordUnwrapped(v: u16)
      requires Valid()
      modifies this`sp, mem
      ensures View() == old(PushWordRaw(View(), v))
    {
      hide Wrapped, High, Wrap16;
      HighIsByte(v);
      StoreAndDecrement(High(v));
      PushByte(v);
    }

    /** JSR_LONG */
    method CallLong()
      requires Valid()
      modifies this, mem
      ensures View() == old(JsrLong(View()))
    {
      hide Wrap16, Word, Wrap24, Wrapped, Low, WordBelow;
      var target := FetchTarget();
      PushBankAndPc();
      pc := target;
    }

    /** p1 and p2; the program counter is left at the third operand byte. */
    method FetchTarget() returns (target: u16)
      requires Valid()
      modifies this`pc
      ensures var s := old(View());
              && target == Word(Code(s, Wrap16(s.pc + 1)), Code(s, Wrap16(s.pc + 2)))
              && View() == s.(pc := Wrap16(s.pc + 3))
    {
      hide Wrap16, Word, Wrap24;
      WrapAdd(pc + 1, 1);
      WrapAdd(pc + 2, 1);
      IncPc(1);
      var p1 := FetchParam(pc);
      IncPc(1);
      var p2 := FetchParam(pc);
      IncPc(1);
      target := Word(p1, p2);
    }

    /** The third operand byte is fetched between the pushes. */
    method PushBankAndPc()
      requires Valid()
      modifies this, mem
      ensures var s := old(View()); var t := PushRaw(s, s.pbr);
              View() == PushWordRaw(t, s.pc).(pbr := Code(t, s.pc))
    {
      hide Wrap16, Wrap24, Wrapped, Low, WordBelow;
      StoreAndDecrement(pbr);
      pbr := FetchParam(pc);
      PushWordUnwrapped(pc);
    }

    /** RTL */
    method ReturnLong()
      requires Valid()
      modifies this
      ensures View() == old(Rtl(View()))
    {
      hide Wrap16, Word, PageOne;
      LoadReturn();
      if emul {
        sp := PageOne(sp);
      }
      IncPc(1);
    }

    /** The three pulls of RTL, none of which wraps in page one. */
    method LoadReturn()
      requires Valid()
      modifies this`sp, this`pc, this`pbr
      ensures var s := old(View());
              View() == s.(pc := Word(s.mem[Wrap16(s.sp + 1)], s.mem[Wrap16(s.sp + 2)]),
                           pbr := s.mem[Wrap16(s.sp + 3)], sp := Wrap16(s.sp + 3))
    {
      hide Wrap16, Word;
      WrapAdd(sp + 1, 1);
      WrapAdd(sp + 2, 1);
      var lo := IncrementAndLoad();
      var hi := IncrementAndLoad();
      pc := Word(lo, hi);
      pbr := IncrementAndLoad();
    }

    /** PHD */
    method PushDirect()
      requires Valid()
      modifies this, mem
      ensures View() == old(Phd(View()))
    {
      hide Wrap16, PageOne, Low, High;
      IncPc(1);
      PushWordUnwrapped(dpr);
    }

    /** PLD */
    method PullDirect()
      requires Valid()
      modifies this
      ensures View() == old(Pld(View()))
    {
      hide Wrap16, Word, PageOne, Or, Low, High;
      WrapAdd(sp + 1, 1);
      IncPc(1);
      var lo := IncrementAndLoad();
      var hi := IncrementAndLoad();
      dpr := Word(lo, hi);
      if emul {
        sp := PageOne(sp);
      }
      SetNz(dpr, false);
    }

    // ---------- mode switches ----------

    /** XCE */
    method ExchangeModes()
      requires Valid()
      modifies this
      ensures View() == old(Xce(View()))
    {
      hide Wrap16, PageOne, Low;
      IncPc(1);
      if p.c != emul {
        if p.c {
          p := p.(c := false);
          EmulationMode();
        } else {
          emul := false;
          p := p.(c := true);
          p := p.(u := true);
          p := p.(b := true);
        }
      }
    }

    /** REPSEP */
    method SetBits(mask: u8, v: bool)
      requires Valid()
      modifies this
      ensures View() == old(RepSep(View(), mask, v))
      ensures old(L.Lazy(View()) && !emul) ==>
                StatusOf(View()) == old(if v then Or(StatusOf(View()), mask) else And(StatusOf(View()), 0xff - mask))
    {
      if L.Lazy(View()) && !emul {
        L.SepOrsRepAnds(View(), mask);
      }
      hide Wrap16, FromByte, Narrow, MaskedHigh, MaskedLow;
      ghost var s := View();
      var bits := FromByte(mask);
      WrapAdd(pc + 1, 1);
      IncPc(1);
      IncPc(1);
      assert View() == s.(pc := Wrap16(s.pc + 2));
      SetFlagBytes(bits, v);
      SetModes(bits, v);
      SetFlags(bits, v);
      if bits.b && !emul && v {
        NarrowIndexes();
      }
    }

    method SetFlagBytes(bits: Status, v: bool)
      requires Valid()
      modifies this`n, this`z
      ensures var s := old(View());
              View() == s.(n := if bits.n then 0x80 * OneIf(v) else s.n, z := if bits.z then OneIf(!v) else s.z)
    {
      if bits.n { n := if v then 0x80 else 0; }
      if bits.z { z := OneIf(!v); }
    }

    method SetModes(bits: Status, v: bool)
      requires Valid()
      modifies this`p
      ensures View() == old(View()).(p := MaskedHigh(old(p), bits, v, !emul))
    {
      if bits.v { p := p.(v := v); }
      if bits.u && !emul { p := p.(u := v); }
      if bits.b && !emul { p := p.(b := v); }
    }

    method SetFlags(bits: Status, v: bool)
      requires Valid()
      modifies this`p
      ensures View() == old(View()).(p := MaskedLow(old(p), bits, v))
    {
      if bits.d { p := p.(d := v); }
      if bits.i { p := p.(i := v); }
      if bits.c { p := p.(c := v); }
    }

    /** RES */
    method Reset()
      requires Valid()
      modifies this
      ensures View() == old(Res(View()))
    {
      hide PageOne, Low, Word;
      EmulationMode();
      dpr, dbr, pbr := 0, 0, 0;
      DummyPushes();
      p := p.(i := true);
      p := p.(d := false);
      var lo := LoadLong(0xfffc);
      var hi := LoadLong(0xfffd);
      pc := Word(lo, hi);
    }

    method EmulationMode()
      requires Valid()
      modifies this`p, this`emul, this`x, this`y, this`sp
      ensures var s := old(View());
              View() == s.(emul := true, p := s.p.(b := false), x := Low(s.x), y := Low(s.y), sp := PageOne(s.sp))
    {
      hide PageOne, Low;
      p := p.(b := false);
      emul := true;
      x := Low(x);
      y := Low(y);
      sp := PageOne(sp);
    }

    method DummyPushes()
      requires Valid()
      modifies this`sp
      ensures var s := old(View()); View() == s.(sp := PageOne(PageOne(PageOne(s.sp - 1) - 1) - 1))
    {
      hide PageOne;
      sp := PageOne(sp - 1);
      sp := PageOne(sp - 1);
      sp := PageOne(sp - 1);
    }

    // ---------- block moves ----------

    /** The operands of MOVE: destination and source bank. */
    method MoveBanks() returns (p1: u8, bank: u8)
      requires Valid()
      modifies this`pc
      ensures var s := old(View());
              && p1 == Code(s, if s.c == 0 then Wrap16(s.pc + 1) else s.pc + 1)
              && bank == Code(s, if s.c == 0 then Wrap16(s.pc + 2) else s.pc + 2)
              && View() == s.(pc := if s.c == 0 then Wrap16(s.pc + 3) else s.pc)
    {
      hide Wrap16, Wrap24;
      WrapAdd(pc + 1, 1);
      WrapAdd(pc + 2, 1);
      if c == 0 {
        IncPc(1);
        p1 := FetchParam(pc);
        IncPc(1);
        bank := FetchParam(pc);
        IncPc(1);
      } else {
        p1 := FetchParam(pc + 1);
        bank := FetchParam(pc + 2);
      }
    }

    /** MVN (up) and MVP */
    method MoveByte(up: bool)
      requires Valid()
      modifies this, mem
      ensures View() == old(Move(View(), up))
    {
      hide Wrap16, Code, Narrow;
      ghost var s := View();
      var p1, bank := MoveBanks();
      ghost var t := View();
      dbr := bank;
      var tmp := LoadLong(x + 0x1_0000 * dbr);
      dbr := p1;
      StoreLong(y + 0x1_0000 * dbr, tmp);
      assert View() == t.(dbr := p1, mem := s.mem[0x1_0000 * p1 + s.y := tmp]);
      StepIndexes(up);
      c := Wrap16(c - 1);
    }

    method StepIndexes(up: bool)
      requires Valid()
      modifies this`x, this`y
      ensures var s := old(View()); var step := if up then 1 else -1;
              View() == s.(x := Narrow(Wrap16(s.x + step), Cpu65816.Index8(s)),
                           y := Narrow(Wrap16(s.y + step), Cpu65816.Index8(s)))
    {
      hide Wrap16, Narrow;
      x := Wrap16(x + (if up then 1 else -1));
      y := Wrap16(y + (if up then 1 else -1));
      NarrowIndexes();
    }

    // ---------- the index registers and the stack pointer ----------

    /** TAX, TAY and TSX */
    method TransferTo(v: u16, r: Index)
      requires Valid()
      modifies this`x, this`y, this`n, this`z, this`pc
      ensures View() == old(Transfer(View(), v, r))
    {
      hide Low, High, Or, Wrap16;
      IncPc(1);
      var w := if Index8() then Low(v) else v;
      if r.X? { x := w; } else { y := w; }
      SetNz(w, Index8());
    }

    /** TXY and TYX */
    method CopyTo(r: Index)
      requires Valid()
      modifies this`x, this`y, this`n, this`z, this`pc
      ensures View() == old(Cpu65816.Copy(View(), r))
    {
      hide Low, High, Or, Wrap16;
      IncPc(1);
      if r.X? { x := y; SetNz(x, Index8()); } else { y := x; SetNz(y, Index8()); }
    }

    /** INX, INY, DEX, DEY */
    method CountIndex(r: Index, up: bool)
      requires Valid()
      modifies this`x, this`y, this`n, this`z, this`pc
      ensures View() == old(Count(View(), r, up))
    {
      hide Low, High, Or, Wrap16;
      IncPc(1);
      var w := Wrap16((if r.X? then x else y) + (if up then 1 else -1));
      if Index8() { w := Low(w); }
      if r.X? { x := w; } else { y := w; }
      SetNz(w, Index8());
    }

    /** LDX and LDY */
    method LoadIndexRegister(r: Index, lo: u8, hi: u8)
      requires Valid()
      modifies this`x, this`y, this`n, this`z
      ensures View() == old(LoadIndex(View(), r, lo, hi))
    {
      hide Low, High, Or, Word;
      var w: u16 := if Index8() then lo else Word(lo, hi);
      if r.X? { x := w; } else { y := w; }
      SetNz(w, Index8());
    }

    /** LOAD_STACK */
    method LoadStack(bits8: bool) returns (v: u16)
      requires Valid()
      modifies this`sp, this`pc
      ensures var s := old(View());
              && View() == (if bits8 then Cpu65816.Pull(Next(s)) else PullWord(Next(s)))
              && v == if bits8 then Top(s) else TopWord(s)
    {
      hide Word, Wrapped, Wrap16;
      IncPc(1);
      v := PullByte();
      if !bits8 {
        var hi := PullByte();
        v := Word(v, hi);
      }
    }

    /** PLX and PLY */
    method PullIndexRegister(r: Index)
      requires Valid()
      modifies this`x, this`y, this`n, this`z, this`sp, this`pc
      ensures View() == old(PullIndex(View(), r))
    {
      hide Low, High, Or, Word, Wrapped, Wrap16, Cpu65816.Pull, PullWord, Top, TopWord, Cpu65816.SetNz;
      PulledKeeps(View());
      var w := LoadStack(Index8());
      if r.X? { x := w; } else { y := w; }
      SetNz(w, Index8());
    }

    /** TCS */
    method AccumulatorToStack()
      requires Valid()
      modifies this`sp, this`pc
      ensures View() == old(Tcs(View()))
    {
      hide Low, Wrap16;
      IncPc(1);
      sp := if emul then 0x100 + Low(c) else c;
    }

    /** TXS */
    method IndexToStack()
      requires Valid()
      modifies this`sp, this`pc
      ensures View() == old(Txs(View()))
    {
      hide Or100, Wrap16;
      IncPc(1);
      sp := if emul then Or100(x) else x;
    }

    // ---------- runs ----------

    /** Any instruction that leaves the mode, the widths, the index registers and the stack pointer alone. */
    method Compute(t: State)
      requires Valid()
      modifies this, mem
      ensures View() == R.Unrelated(old(View()), t)
    {
      p := t.p.(u := p.u, b := p.b, n := p.n, z := p.z);
      n, z, c := t.n, t.z, t.c;
      dpr, dbr, pbr, pc := t.dpr, t.dbr, t.pbr, t.pc;
      CopyMemory(t.mem);
    }

    method CopyMemory(image: Mem)
      requires Valid()
      modifies mem
      ensures mem[..] == image
    {
      forall i | 0 <= i < mem.Length {
        mem[i] := image[i];
      }
    }

    method PullBytes() returns (v: u16)
      requires Valid()
      modifies this`sp
      ensures View() == old(PullWord(View())) && v == old(TopWord(View()))
    {
      hide Wrapped, Word;
      var lo := PullByte();
      var hi := PullByte();
      v := Word(lo, hi);
    }

    predicate OnIndexes(e: R.Event) {
      e.FromAccumulator? || e.FromStack? || e.FromIndex? || e.Counts? || e.Loads? || e.AccumulatorToStack?
      || e.IndexToStack?
    }

    method PerformOnIndexes(e: R.Event)
      requires Valid() && OnIndexes(e)
      modifies this
      ensures View() == R.After(old(View()), e)
    {
      hide Transfer, Cpu65816.Copy, Count, LoadIndex, Tcs, Txs;
      match e {
        case FromAccumulator(r) => TransferTo(c, r);
        case FromStack => TransferTo(sp, X);
        case FromIndex(r) => CopyTo(r);
        case Counts(r, up) => CountIndex(r, up);
        case Loads(r, lo, hi) => LoadIndexRegister(r, lo, hi);
        case AccumulatorToStack => AccumulatorToStack();
        case IndexToStack => IndexToStack();
      }
    }

    method Perform(e: R.Event)
      requires Valid()
      modifies this, mem
      ensures View() == R.After(old(View()), e)
    {
      hide Push, Cpu65816.Pull, PushWord, PushWordRaw, PullWord, PullIndex, SetStatus, Enter, Rti, Res, JsrLong, Rtl;
      hide Phd, Pld, Xce, RepSep, Move, R.Unrelated;
      if OnIndexes(e) {
        PerformOnIndexes(e);
        return;
      }
      match e {
        case Pushes(byte) => PushByte(byte);
        case PushesWord(word) => PushBytes(word);
        case PushesRaw(word) => PushWordUnwrapped(word);
        case Pulls => var _ := PullByte();
        case PullsWord => var _ := PullBytes();
        case Pulled(r) => PullIndexRegister(r);
        case Plp => PullStatus();
        case Interrupt(cause) => Interrupt(cause);
        case ReturnFromInterrupt => ReturnFromInterrupt();
        case Reset => Reset();
        case CallLong => CallLong();
        case ReturnLong => ReturnLong();
        case PushDirect => PushDirect();
        case PullDirect => PullDirect();
        case ExchangeModes => ExchangeModes();
        case SetBits(mask, on) => SetBits(mask, on);
        case MoveByte(up) => MoveByte(up);
        case Other(t) => Compute(t);
      }
    }

    /** Every run from a reset keeps the registers within their widths. */
    method RunFromReset(events: seq<R.Event>)
      requires Valid()
      modifies this, mem
      ensures View() == R.Run(Res(old(View())), events)
      ensures Widths(View())
    {
      hide R.After, Res, Widths;
      ghost var s := View();
      Reset();
      R.ResetWidths(s);
      R.RunWidths(Res(s), events);
      for k := 0 to |events|
        invariant R.Run(View(), events[k..]) == R.Run(Res(s), events)
      {
        assert events[k..][1..] == events[k + 1..];
        Perform(events[k]);
      }
    }
  }

  /** The pushes do not look at the program counter. */
  lemma SavedAnyPc(s: State, cause: Cause, r: u16)
    ensures Saved(s.(pc := r), cause, r) == Saved(s, cause, r).(pc := r)
    ensures Saved(s, cause, r).emul == s.emul
  {
    hide Wrapped, High, Low, Joined, NativeStatus;
  }

  lemma HighIsByte(v: u16)
    ensures Low(High(v)) == High(v)
  {
  }

  lemma PulledKeeps(s: State)
    ensures Cpu65816.Pull(Next(s)) == s.(sp := Cpu65816.Pull(s).sp, pc := Wrap16(s.pc + 1))
    ensures PullWord(Next(s)) == s.(sp := PullWord(s).sp, pc := Wrap16(s.pc + 1))
  {
    hide Wrapped, Wrap16;
  }
}
