/** Pairs of 65816 instructions that push without wrapping in page one: JSR long and RTL, PHD and PLD. */
module Calls65816 {
  import opened Bytes
  import opened Status6510
  import opened Cpu65816

  /** Where the stack pointer ends up after n pushes of which only the last wraps in page one. */
  function Down(emul: bool, sp: u16, n: nat): u16 { Wrapped(emul, sp - n) }

  /** In emulation mode the bytes pushed stay in page one only when the stack pointer is high enough. */
  predicate Fits(s: State, n: nat) { !s.emul || s.sp >= 0x100 + n }

  lemma RawPushes(s: State)
    ensures Wrapped(s.emul, Wrap16(s.sp - 1) - 1) == Down(s.emul, s.sp, 2)
    ensures Wrapped(s.emul, Wrap16(Wrap16(s.sp - 1) - 1) - 1) == Down(s.emul, s.sp, 3)
    ensures Wrap16(Wrap16(s.sp - 1) - 1) == Wrap16(s.sp - 2)
  {
    WrapAdd(s.sp - 1, -1);
    if s.emul {
      LowAfter(s.sp - 2, -1);
      LowAfter(s.sp - 1, -1);
    } else {
      WrapAdd(s.sp - 2, -1);
    }
  }

  /** k cells up again from there: through the bytes pushed when they fit. */
  lemma UpFrom(s: State, n: nat, k: nat)
    requires Widths(s) && 0 < k <= n <= 3
    ensures Fits(s, n) ==> Wrap16(Down(s.emul, s.sp, n) + k) == Wrap16(s.sp - n + k)
    ensures !Fits(s, n) ==> Down(s.emul, s.sp, n) == s.sp - n + 0x100
  {
    if s.emul {
      if s.sp - n < 0x100 {
        LowTurns(s.sp - n, -1);
      }
    } else {
      WrapAdd(s.sp - n, k);
    }
  }

  /** And all the way back. */
  lemma BackUp(s: State, n: nat)
    requires Widths(s) && 0 < n <= 3
    ensures Settled(s.emul, Wrap16(Down(s.emul, s.sp, n) + n)) == s.sp
  {
    hide Down;
    UpFrom(s, n, n);
    if !Fits(s, n) {
      LowTurns(s.sp + 0x100, 1);
    }
  }

  lemma JsrLongPushes(s: State)
    requires Widths(s)
    ensures var t := JsrLong(s);
            && t.sp == Down(s.emul, s.sp, 3) && t.emul == s.emul
            && t.mem == s.mem[s.sp := s.pbr][Wrap16(s.sp - 1) := High(Wrap16(s.pc + 3))]
                             [Wrap16(s.sp - 2) := Low(Wrap16(s.pc + 3))]
  {
    hide Code, High, Low, Wrapped;
    RawPushes(s);
  }

  lemma StackCells(sp: u16)
    ensures Wrap16(sp - 1) != sp && Wrap16(sp - 2) != sp && Wrap16(sp - 2) != Wrap16(sp - 1)
    ensures Wrap16(sp - 3 + 1) == Wrap16(sp - 2) && Wrap16(sp - 3 + 2) == Wrap16(sp - 1) && Wrap16(sp - 3 + 3) == sp
  {
  }

  /** RTL after JSR long always restores the stack pointer. It returns behind the call, into its bank, in native mode
      for every stack pointer, and in emulation mode from 0x103 up; below that it reads three bytes that the call did
      not write, and returns only if these happen to be right. */
  lemma RtlUndoesJsrLong(s: State)
    requires Widths(s)
    ensures var t := Rtl(JsrLong(s));
            && t.sp == s.sp
            && (t.pc == Wrap16(s.pc + 4) && t.pbr == s.pbr
                <==> (Fits(s, 3)
                      || (Word(s.mem[s.sp + 0xfe], s.mem[s.sp + 0xff]) == Wrap16(s.pc + 3)
                          && s.mem[s.sp + 0x100] == s.pbr)))
  {
    hide Code, Low, High, Word, Wrapped;
    JsrLongPushes(s);
    hide Down, Settled;
    BackUp(s, 3);
    UpFrom(s, 3, 1);
    UpFrom(s, 3, 2);
    UpFrom(s, 3, 3);
    StackCells(s.sp);
    Bytewise(s.pc + 3);
    Bytewise(Wrap16(s.pc + 3));
    WrapAdd(s.pc + 3, 1);
    var d: int := Down(s.emul, s.sp, 3);
    if Fits(s, 3) {
      assert Wrap16(d + 1) == Wrap16(s.sp - 2) && Wrap16(d + 2) == Wrap16(s.sp - 1) && Wrap16(d + 3) == s.sp;
    } else {
      assert d + 1 == s.sp + 0xfe;
      NextDiffers(Word(s.mem[s.sp + 0xfe], s.mem[s.sp + 0xff]), Wrap16(s.pc + 3));
    }
  }

  lemma NextDiffers(a: u16, b: u16)
    ensures Wrap16(a + 1) == Wrap16(b + 1) <==> a == b
  {
  }

  lemma PhdPushes(s: State)
    requires Widths(s)
    ensures var t := Phd(s);
            && t.sp == Down(s.emul, s.sp, 2) && t.emul == s.emul
            && t.mem == s.mem[s.sp := High(s.dpr)][Wrap16(s.sp - 1) := Low(s.dpr)]
  {
    hide High, Low, Wrapped;
    RawPushes(s);
  }

  /** PLD after PHD always restores the stack pointer, and the direct page register in the same way from 0x102 up. */
  lemma PldUndoesPhd(s: State)
    requires Widths(s)
    ensures var t := Pld(Phd(s));
            && t.sp == s.sp
            && (t.dpr == s.dpr
                <==> (Fits(s, 2) || Word(s.mem[s.sp + 0xff], s.mem[s.sp + 0x100]) == s.dpr))
  {
    hide Low, High, Word, Wrapped, Or;
    PhdPushes(s);
    hide Down, Settled;
    BackUp(s, 2);
    UpFrom(s, 2, 1);
    UpFrom(s, 2, 2);
    StackCells(s.sp);
    Bytewise(s.dpr);
    var d: int := Down(s.emul, s.sp, 2);
    if Fits(s, 2) {
      assert Wrap16(d + 1) == Wrap16(s.sp - 1) && Wrap16(d + 2) == s.sp;
    } else {
      assert d + 1 == s.sp + 0xff;
    }
  }

  /** Emulation mode, zeroed memory, the program at 0x1000. */
  function Example(sp: u16, dpr: u16): State {
    State(true, Status(false, false, false, false, false, false, false, false), 0, 0, 0, 0, 0, sp, dpr, 0, 0, 0x1000,
          seq(0x100_0000, i => 0))
  }

  /** With SP = 0x102 the return misses... */
  lemma ShallowReturnFails()
    ensures var t := Rtl(JsrLong(Example(0x102, 0))); !(t.pc == 0x1004 && t.pbr == 0)
  {
    hide JsrLong, Rtl;
    var s := Example(0x102, 0);
    RtlUndoesJsrLong(s);
    assert s.mem[0x200] == s.mem[0x201] == 0;
    assert Wrap16(s.pc + 4) == 0x1004 && Wrap16(s.pc + 3) == 0x1003;
  }

  /** ... and with SP = 0x101 D is lost. */
  lemma ShallowPullFails()
    ensures Pld(Phd(Example(0x101, 0x1234))).dpr != 0x1234
  {
    hide Phd, Pld;
    var s := Example(0x101, 0x1234);
    PldUndoesPhd(s);
    assert s.mem[0x200] == s.mem[0x201] == 0;
  }
}
