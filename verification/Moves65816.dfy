/** MVN and MVP: resumable block moves, one byte an instruction, run to their end. */
module Moves65816 {
  import opened Bytes
  import opened Status6510
  import opened Cpu65816
  import opened Runs65816

  /** What is being moved: direction, width of the index registers, n + 1 bytes, and where the index registers start.
      The operands of the last byte are fetched from other addresses than those of the n bytes before it. */
  datatype Block = Block(up: bool, narrow: bool, n: u16, dst: u8, src: u8, lastDst: u8, lastSrc: u8, x: u16, y: u16)

  /** An index register after i steps. */
  function IndexAt(v: u16, i: nat, up: bool, narrow: bool): u16 {
    var w := if up then v + i else v - i;
    if narrow then Low(w) else Wrap16(w)
  }

  function SourceBank(b: Block, i: nat): u8 { if i < b.n then b.src else b.lastSrc }

  function TargetBank(b: Block, i: nat): u8 { if i < b.n then b.dst else b.lastDst }

  function Source(b: Block, i: nat): (a: nat)
    ensures a < 0x100_0000
  {
    0x1_0000 * SourceBank(b, i) + IndexAt(b.x, i, b.up, b.narrow)
  }

  function Target(b: Block, i: nat): (a: nat)
    ensures a < 0x100_0000
  {
    0x1_0000 * TargetBank(b, i) + IndexAt(b.y, i, b.up, b.narrow)
  }

  /** The first k bytes copied one after the other. */
  function Copied(mem: Mem, b: Block, k: nat): Mem {
    if k == 0 then mem
    else
      var m := Copied(mem, b, k - 1);
      m[Target(b, k - 1) := m[Source(b, k - 1)]]
  }

  lemma IndexStep(v: u16, i: nat, up: bool, narrow: bool)
    ensures var step := if up then 1 else -1;
            IndexAt(v, i + 1, up, narrow) == Narrow(Wrap16(IndexAt(v, i, up, narrow) + step), narrow)
  {
    var w := if up then v + i else v - i;
    var step := if up then 1 else -1;
    WrapAdd(w, step);
    if narrow {
      LowAfter(w, step);
      LowAfter(Low(w) + step, 0);
    }
  }

  /** The block that the instruction at the program counter moves. */
  function BlockAt(s: State): Block {
    Block(Code(s, s.pc) == 0x54, Index8(s), s.c, Code(s, s.pc + 1), Code(s, s.pc + 2),
          Code(s, Wrap16(s.pc + 1)), Code(s, Wrap16(s.pc + 2)), s.x, s.y)
  }

  predicate Starting(s: State, b: Block) { Code(s, s.pc) in {0x54, 0x44} && b == BlockAt(s) && Widths(s) }

  /** The addresses the instruction is fetched from: only the last byte lets them wrap around within the bank. */
  function CodeCells(s: State): set<nat> {
    var bank := 0x1_0000 * s.pbr;
    {bank + s.pc, bank + Wrap16(s.pc + 1), bank + Wrap16(s.pc + 2)}
    + if s.c == 0 then {} else {Wrap24(bank + s.pc + 1), Wrap24(bank + s.pc + 2)}
  }

  /** The move does not overwrite its own instruction before its last byte. */
  ghost predicate SparesCode(s: State, b: Block) {
    forall i: nat | i < s.c :: Target(b, i) !in CodeCells(s)
  }

  lemma {:induction false} CopiedElsewhere(mem: Mem, b: Block, k: nat, a: int)
    requires 0 <= a < 0x100_0000 && forall i | 0 <= i < k :: Target(b, i) != a
    ensures Copied(mem, b, k)[a] == mem[a]
  {
    hide Target, Source;
    if k > 0 {
      CopiedElsewhere(mem, b, k - 1, a);
    }
  }

  // ---------- interrupted moves ----------

  /** Between two bytes an interrupt can be taken whose handler returns at once. */
  datatype Event = OneByte | Interrupted(nmi: bool)

  function React(s: State, e: Event): State {
    match e
    case OneByte => Move(s, Code(s, s.pc) == 0x54)
    case Interrupted(nmi) => Rti(Enter(s, if nmi then Nmi else Irq))
  }

  function Go(s: State, events: seq<Event>): State
    decreases |events|
  {
    if events == [] then s else React(Go(s, events[..|events| - 1]), events[|events| - 1])
  }

  function Moves(events: seq<Event>): nat {
    if events == [] then 0 else Moves(events[..|events| - 1]) + OneIf(events[|events| - 1].OneByte?)
  }

  /** The number of bytes an interrupt pushes. */
  function FrameSize(emul: bool): nat { if emul then 3 else 4 }

  /** The number of stack cells that interrupts may have changed. */
  function Cells(s: State, events: seq<Event>): nat {
    if events == [] then 0
    else if events[|events| - 1].Interrupted? then FrameSize(s.emul)
    else Cells(s, events[..|events| - 1])
  }

  /** Interrupts push neither into the source block nor into the instruction. */
  ghost predicate StackApart(s: State, b: Block) {
    forall j: nat | j < FrameSize(s.emul) ::
      && CellAt(s.emul, s.sp, j) !in CodeCells(s)
      && forall i: nat | i <= s.c :: CellAt(s.emul, s.sp, j) != Source(b, i)
  }

  /** The state after k bytes of the move that started in s, cells changed on the stack aside. */
  ghost predicate Moved(s: State, b: Block, t: State, k: nat, cells: nat)
    requires k <= s.c + 1
  {
    && t.emul == s.emul && SameFlags(s, t)
    && t.c == Wrap16(s.c - k)
    && t.x == IndexAt(b.x, k, b.up, b.narrow) && t.y == IndexAt(b.y, k, b.up, b.narrow)
    && t.sp == s.sp && t.dpr == s.dpr
    && t.dbr == (if k == 0 then s.dbr else TargetBank(b, k - 1))
    && t.pbr == s.pbr && t.pc == (if k <= s.c then s.pc else Wrap16(s.pc + 3))
    && OnlyCells(Copied(s.mem, b, k), t.mem, s.emul, s.sp, cells)
  }

  lemma Unchanged(s: State, b: Block, t: State, k: nat, cells: nat, a: int)
    requires k <= s.c + 1 && cells <= 4 && OnlyCells(Copied(s.mem, b, k), t.mem, s.emul, s.sp, cells)
    requires 0 <= a < 0x100_0000 && forall j | 0 <= j < cells :: CellAt(s.emul, s.sp, j) != a
    ensures t.mem[a] == Copied(s.mem, b, k)[a]
  {
  }

  /** The address that the instruction at the program counter reads its byte from, and the one it writes it to. */
  function ReadsFrom(s: State): (a: nat)
    ensures a < 0x100_0000
  {
    0x1_0000 * Code(s, if s.c == 0 then Wrap16(s.pc + 2) else s.pc + 2) + s.x
  }

  function WritesTo(s: State): (a: nat)
    ensures a < 0x100_0000
  {
    0x1_0000 * Code(s, if s.c == 0 then Wrap16(s.pc + 1) else s.pc + 1) + s.y
  }

  lemma MoveOf(s: State, up: bool)
    ensures var t := Move(s, up);
            && t.mem == s.mem[WritesTo(s) := s.mem[ReadsFrom(s)]]
            && 0x1_0000 * t.dbr + s.y == WritesTo(s)
  {
    hide Code, Narrow, Wrap16;
  }

  /** The instruction is still there, with the operands of the k-th byte. */
  lemma StillAt(s: State, b: Block, t: State, k: nat, cells: nat)
    requires Starting(s, b) && SparesCode(s, b) && (cells > 0 ==> StackApart(s, b)) && cells <= FrameSize(s.emul)
    requires k <= s.c && Moved(s, b, t, k, cells)
    ensures Code(t, t.pc) == Code(s, s.pc) && t.c == s.c - k
    ensures ReadsFrom(t) == Source(b, k) && WritesTo(t) == Target(b, k)
    ensures t.mem[Source(b, k)] == Copied(s.mem, b, k)[Source(b, k)]
  {
    hide Target, Source, CellAt, OnlyCells, IndexAt, Copied, Widths, CodeCells, SameFlags, Code, ReadsFrom, WritesTo;
    CodeInMemory(s);
    forall a | a in CodeCells(s)
      ensures t.mem[a] == s.mem[a]
    {
      CopiedElsewhere(s.mem, b, k, a);
      Unchanged(s, b, t, k, cells, a);
    }
    Unchanged(s, b, t, k, cells, Source(b, k));
    FetchesBanks(s, b, t, k);
  }

  lemma CodeInMemory(s: State)
    ensures forall a | a in CodeCells(s) :: 0 <= a < 0x100_0000
  {
    hide Wrap16;
  }

  lemma FetchesBanks(s: State, b: Block, t: State, k: nat)
    requires Starting(s, b) && k <= s.c && t.pc == s.pc && t.pbr == s.pbr && t.c == s.c - k
    requires t.x == IndexAt(b.x, k, b.up, b.narrow) && t.y == IndexAt(b.y, k, b.up, b.narrow)
    requires forall a | a in CodeCells(s) :: 0 <= a < 0x100_0000
    requires forall a | a in CodeCells(s) :: t.mem[a] == s.mem[a]
    ensures Code(t, t.pc) == Code(s, s.pc)
    ensures ReadsFrom(t) == Source(b, k) && WritesTo(t) == Target(b, k)
  {
    hide IndexAt, Wrap16, Widths;
    var bank := 0x1_0000 * s.pbr;
    assert bank + s.pc in CodeCells(s) && bank + Wrap16(s.pc + 1) in CodeCells(s);
    assert bank + Wrap16(s.pc + 2) in CodeCells(s);
    if k < s.c {
      assert Wrap24(bank + s.pc + 1) in CodeCells(s) && Wrap24(bank + s.pc + 2) in CodeCells(s);
    }
  }

  lemma SameStore(before: Mem, after: Mem, emul: bool, base: u16, n: nat, a: nat, v: u8)
    requires OnlyCells(before, after, emul, base, n) && a < 0x100_0000
    ensures OnlyCells(before[a := v], after[a := v], emul, base, n)
  {
    hide CellAt;
  }

  lemma MoveOnce(s: State, b: Block, t: State, k: nat, cells: nat)
    requires Starting(s, b) && SparesCode(s, b) && (cells > 0 ==> StackApart(s, b)) && cells <= FrameSize(s.emul)
    requires k <= s.c && Moved(s, b, t, k, cells)
    ensures Moved(s, b, React(t, OneByte), k + 1, cells)
  {
    hide OnlyCells, CellAt, SparesCode, StackApart, Code, Widths, Narrow, IndexAt, Wrap16, ReadsFrom, WritesTo;
    StillAt(s, b, t, k, cells);
    MoveOf(t, b.up);
    IndexStep(b.x, k, b.up, b.narrow);
    IndexStep(b.y, k, b.up, b.narrow);
    SameStore(Copied(s.mem, b, k), t.mem, s.emul, s.sp, cells, Target(b, k), t.mem[Source(b, k)]);
    WrapAdd(s.c - k, -1);
    assert Copied(s.mem, b, k + 1) == Copied(s.mem, b, k)[Target(b, k) := Copied(s.mem, b, k)[Source(b, k)]];
  }

  /** An interrupt between two bytes changes nothing but stack cells, and in emulation mode the program bank, which RTI
      does not restore: the move goes on if and only if it is bank zero there. */
  lemma InterruptOnce(s: State, b: Block, t: State, k: nat, cells: nat, nmi: bool)
    requires Starting(s, b) && k <= s.c && Moved(s, b, t, k, cells) && cells <= FrameSize(s.emul)
    ensures var u := React(t, Interrupted(nmi));
            && u.pbr == (if s.emul then 0 else s.pbr)
            && Moved(s, b, u.(pbr := s.pbr), k, FrameSize(s.emul))
            && (Moved(s, b, u, k, FrameSize(s.emul)) <==> BankReturns(s))
  {
    hide OnlyCells, CellAt, Code, Narrow, IndexAt, Wrap16, Copied, Enter, Rti;
    var cause := if nmi then Nmi else Irq;
    StillWide(s, b, t, k, cells);
    RtiUndoesEnter(t, cause);
    CellsCompose(Copied(s.mem, b, k), t.mem, React(t, Interrupted(nmi)).mem, s.emul, s.sp, cells, FrameSize(s.emul));
  }

  /** RTI comes back to the program bank. */
  predicate BankReturns(s: State) { s.emul ==> s.pbr == 0 }

  lemma StillWide(s: State, b: Block, t: State, k: nat, cells: nat)
    requires Starting(s, b) && k <= s.c + 1 && Moved(s, b, t, k, cells)
    ensures Widths(t)
  {
    hide OnlyCells, CellAt, Copied, Wrap16, Low;
  }

  lemma CellsCompose(m0: Mem, m1: Mem, m2: Mem, emul: bool, base: u16, n: nat, n': nat)
    requires OnlyCells(m0, m1, emul, base, n) && OnlyCells(m1, m2, emul, base, n') && n <= n'
    ensures OnlyCells(m0, m2, emul, base, n')
  {
    hide CellAt;
  }

  /** At most n + 1 bytes are asked for when C starts as n, and interrupts are taken between them only. */
  ghost predicate WellPlaced(s: State, b: Block, events: seq<Event>) {
    && Starting(s, b) && SparesCode(s, b)
    && Moves(events) <= s.c + 1
    && (forall k :: 0 <= k < |events| && events[k].Interrupted? ==> StackApart(s, b) && Moves(events[..k]) <= s.c)
  }

  predicate Undisturbed(s: State, events: seq<Event>) {
    BankReturns(s) || forall k :: 0 <= k < |events| ==> events[k].OneByte?
  }

  lemma {:induction false} MovesGrow(events: seq<Event>, k: nat)
    requires k <= |events|
    ensures Moves(events[..k]) <= Moves(events)
    decreases |events|
  {
    if k < |events| {
      var before := events[..|events| - 1];
      assert before[..k] == events[..k];
      MovesGrow(before, k);
    } else {
      assert events[..k] == events;
    }
  }

  lemma {:induction false} GoMoves(s: State, b: Block, events: seq<Event>)
    requires WellPlaced(s, b, events) && Undisturbed(s, events)
    ensures Moved(s, b, Go(s, events), Moves(events), Cells(s, events))
    ensures Cells(s, events) <= FrameSize(s.emul)
    ensures Cells(s, events) > 0 ==> StackApart(s, b)
    decreases |events|
  {
    hide Moved, React, SparesCode, StackApart, Starting, BankReturns, FrameSize;
    if events == [] {
      NotMoved(s, b);
    } else {
      var n := |events| - 1;
      PlacedBefore(s, b, events, n);
      var before := events[..n];
      GoMoves(s, b, before);
      if events[n].OneByte? {
        MoveOnce(s, b, Go(s, before), Moves(before), Cells(s, before));
      } else {
        InterruptOnce(s, b, Go(s, before), Moves(before), Cells(s, before), events[n].nmi);
      }
    }
  }

  lemma PlacedBefore(s: State, b: Block, events: seq<Event>, n: nat)
    requires WellPlaced(s, b, events) && n <= |events|
    ensures WellPlaced(s, b, events[..n]) && (Undisturbed(s, events) ==> Undisturbed(s, events[..n]))
    ensures n < |events| && events[n].Interrupted? ==> Moves(events[..n]) <= s.c
  {
    hide SparesCode, StackApart, Starting, BankReturns;
    MovesGrow(events, n);
    assert forall k :: 0 <= k < n ==> events[..n][..k] == events[..k];
  }

  lemma NotMoved(s: State, b: Block)
    requires Starting(s, b)
    ensures Moved(s, b, s, 0, 0)
  {
    NoCells(s.mem, s.emul, s.sp);
    hide Wrap16, OnlyCells;
  }

  /** After each event the move is where it should be. */
  ghost predicate InStep(s: State, b: Block, events: seq<Event>)
    requires Moves(events) <= s.c + 1
  {
    forall k {:trigger events[..k]} | 0 <= k <= |events| ::
      && Moves(events[..k]) <= s.c + 1
      && Moved(s, b, Go(s, events[..k]), Moves(events[..k]), Cells(s, events[..k]))
  }

  /** A move keeps in step through all its interrupts if and only if there are none or RTI restores the bank. */
  lemma StepsKept(s: State, b: Block, events: seq<Event>)
    requires WellPlaced(s, b, events)
    ensures InStep(s, b, events) <==> Undisturbed(s, events)
  {
    hide Moved, React, WellPlaced, BankReturns, FrameSize, Go, Moves, Cells;
    PlacedMoves(s, b, events);
    if Undisturbed(s, events) {
      forall k | 0 <= k <= |events|
        ensures Moves(events[..k]) <= s.c + 1
        ensures Moved(s, b, Go(s, events[..k]), Moves(events[..k]), Cells(s, events[..k]))
      {
        PlacedBefore(s, b, events, k);
        PlacedMoves(s, b, events[..k]);
        GoMoves(s, b, events[..k]);
      }
    } else {
      var k :| 0 <= k < |events| && events[k].Interrupted?;
      if InStep(s, b, events) {
        LosesStep(s, b, events, k);
      }
    }
  }

  lemma LosesStep(s: State, b: Block, events: seq<Event>, k: nat)
    requires WellPlaced(s, b, events) && InStep(s, b, events) && k < |events| && events[k].Interrupted?
    ensures BankReturns(s)
  {
    hide Moved, React, BankReturns, SparesCode, StackApart, Starting;
    PlacedBefore(s, b, events, k);
    var before, after := events[..k], events[..k + 1];
    assert after[..k] == before;
    CellsBounded(s, before);
    InterruptOnce(s, b, Go(s, before), Moves(before), Cells(s, before), events[k].nmi);
  }

  lemma {:induction false} CellsBounded(s: State, events: seq<Event>)
    ensures Cells(s, events) <= FrameSize(s.emul)
    decreases |events|
  {
    if events != [] {
      CellsBounded(s, events[..|events| - 1]);
    }
  }

  /** The whole move: it ends after exactly n + 1 bytes, not before, and leaves the sequential copy behind; interrupts
      in between show only in the stack cells they used. */
  lemma BlockMoved(s: State, b: Block, events: seq<Event>)
    requires WellPlaced(s, b, events) && Undisturbed(s, events)
    ensures var t := Go(s, events);
            && (t.pc == s.pc <==> Moves(events) <= s.c)
            && (Moves(events) == s.c + 1 ==>
                  && t.c == 0xffff && t.pc == Wrap16(s.pc + 3) && t.dbr == b.lastDst
                  && t.x == IndexAt(b.x, s.c + 1, b.up, b.narrow) && t.y == IndexAt(b.y, s.c + 1, b.up, b.narrow)
                  && t.sp == s.sp && SameFlags(s, t)
                  && OnlyCells(Copied(s.mem, b, s.c + 1), t.mem, s.emul, s.sp, Cells(s, events)))
  {
    hide OnlyCells, Copied, IndexAt, WellPlaced, Undisturbed, Cells, Moves, Go, Target, Source, Wrap16, SameFlags;
    GoMoves(s, b, events);
    PlacedMoves(s, b, events);
    LeavesInstruction(s.pc);
  }

  lemma LeavesInstruction(pc: u16)
    ensures Wrap16(pc + 3) != pc && Wrap16(-1) == 0xffff
  {
  }

  lemma PlacedMoves(s: State, b: Block, events: seq<Event>)
    requires WellPlaced(s, b, events)
    ensures Moves(events) <= s.c + 1 && b.n == s.c
  {
  }

  // ---------- one block ----------

  /** Each byte of the run comes from and goes to the place that a block between these two banks gives it. */
  ghost predicate MovesBetween(s: State, b: Block, events: seq<Event>, dst: u8, src: u8) {
    forall k | 0 <= k < |events| && events[k].OneByte? ::
      var t := Go(s, events[..k]);
      var i := Moves(events[..k]);
      && ReadsFrom(t) == 0x1_0000 * src + IndexAt(b.x, i, b.up, b.narrow)
      && WritesTo(t) == 0x1_0000 * dst + IndexAt(b.y, i, b.up, b.narrow)
  }

  /** What a program can check before the move: its operands, those of all but the last byte if there are such. */
  predicate Operands(s: State, dst: u8, src: u8) {
    && Code(s, Wrap16(s.pc + 1)) == dst && Code(s, Wrap16(s.pc + 2)) == src
    && (s.c > 0 ==> Code(s, s.pc + 1) == dst && Code(s, s.pc + 2) == src)
  }

  /** A complete move is that of one block if and only if the operands read the same with and without wrap-around at the
      end of the bank; for a single byte only those with wrap-around matter. */
  lemma OneBlock(s: State, b: Block, events: seq<Event>, dst: u8, src: u8)
    requires WellPlaced(s, b, events) && Undisturbed(s, events) && Moves(events) == s.c + 1
    ensures MovesBetween(s, b, events, dst, src) <==> Operands(s, dst, src)
  {
    hide WellPlaced, Undisturbed, Moves, Go, ReadsFrom, WritesTo, IndexAt, Code;
    forall k | 0 <= k < |events| && events[k].OneByte?
      ensures var t := Go(s, events[..k]); var i := Moves(events[..k]);
              ReadsFrom(t) == Source(b, i) && WritesTo(t) == Target(b, i) && i <= s.c
    {
      ByteInRun(s, b, events, k);
    }
    var last := ByteNumber(events, s.c);
    var first := ByteNumber(events, 0);
    OperandBanks(s, b, events, dst, src);
  }

  lemma OperandBanks(s: State, b: Block, events: seq<Event>, dst: u8, src: u8)
    requires WellPlaced(s, b, events)
    ensures b.n == s.c
    ensures Operands(s, dst, src) <==>
            && TargetBank(b, s.c) == dst && SourceBank(b, s.c) == src
            && TargetBank(b, 0) == dst && SourceBank(b, 0) == src
  {
    hide Code, Wrap16, SparesCode, StackApart;
  }

  lemma ByteInRun(s: State, b: Block, events: seq<Event>, k: nat)
    requires WellPlaced(s, b, events) && Undisturbed(s, events) && k < |events| && events[k].OneByte?
    ensures var t := Go(s, events[..k]); var i := Moves(events[..k]);
            ReadsFrom(t) == Source(b, i) && WritesTo(t) == Target(b, i) && i <= s.c
  {
    hide Starting, SparesCode, StackApart, Undisturbed, Moved, Go, ReadsFrom, WritesTo, Source, Target;
    PlacedBefore(s, b, events, k);
    GoMoves(s, b, events[..k]);
    PlacedBefore(s, b, events, k + 1);
    assert events[..k + 1][..k] == events[..k];
    StillAt(s, b, Go(s, events[..k]), Moves(events[..k]), Cells(s, events[..k]));
  }

  lemma {:induction false} ByteNumber(events: seq<Event>, i: nat) returns (k: nat)
    requires i < Moves(events)
    ensures k < |events| && events[k].OneByte? && Moves(events[..k]) == i
    decreases |events|
  {
    var before := events[..|events| - 1];
    if i < Moves(before) {
      k := ByteNumber(before, i);
      assert before[..k] == events[..k];
    } else {
      k := |events| - 1;
    }
  }

  // ---------- the block arrives ----------

  /** No byte is overwritten before it is read, nor after it was written. */
  ghost predicate Apart(b: Block, k: nat) {
    && (forall i: nat, j: nat | j < i < k :: Target(b, j) != Source(b, i))
    && (forall i: nat, j: nat | j < i < k :: Target(b, j) != Target(b, i))
  }

  lemma {:induction false} CopiedBlock(mem: Mem, b: Block, k: nat, i: nat)
    requires Apart(b, k) && i < k
    ensures Copied(mem, b, k)[Target(b, i)] == mem[Source(b, i)]
    decreases k
  {
    hide Target, Source;
    if i == k - 1 {
      CopiedElsewhere(mem, b, k - 1, Source(b, i));
    } else {
      CopiedBlock(mem, b, k - 1, i);
    }
  }

  /** The directions are made for this: MVN may move a block down and MVP up, even onto itself. */
  lemma SafeDirection(b: Block, n: nat)
    requires var limit := if b.narrow then 0x100 else 0x1_0000;
             && b.x < limit && b.y < limit
             && (if b.up then b.x + n < limit && b.y + n < limit else b.x >= n && b.y >= n)
             && (b.dst !in {b.src, b.lastSrc} || (if b.up then b.y <= b.x else b.y >= b.x))
             && n <= b.n
    ensures Apart(b, n + 1)
  {
    hide IndexAt;
    forall i: nat, j: nat | j < i < n + 1
      ensures Target(b, j) != Source(b, i) && Target(b, j) != Target(b, i)
    {
      StraightIndex(b.x, i, b.up, b.narrow, n);
      StraightIndex(b.y, i, b.up, b.narrow, n);
      StraightIndex(b.y, j, b.up, b.narrow, n);
    }
  }

  lemma StraightIndex(v: u16, i: nat, up: bool, narrow: bool, n: nat)
    requires i <= n && (if up then v + n < (if narrow then 0x100 else 0x1_0000) else v >= n)
    requires narrow ==> v < 0x100
    ensures IndexAt(v, i, up, narrow) == if up then v + i else v - i
  {
  }

  /** The stack cells of interrupts lie outside the target, if there are any. */
  ghost predicate SparesTarget(s: State, b: Block, events: seq<Event>) {
    forall i: nat, j: nat | i <= s.c && j < Cells(s, events) :: CellAt(s.emul, s.sp, j) != Target(b, i)
  }

  /** A safe move brings the original source block to its target, interrupts or not. */
  lemma BlockArrives(s: State, b: Block, events: seq<Event>, i: nat)
    requires WellPlaced(s, b, events) && Undisturbed(s, events) && Moves(events) == s.c + 1
    requires Apart(b, s.c + 1) && SparesTarget(s, b, events) && i <= s.c
    ensures Go(s, events).mem[Target(b, i)] == s.mem[Source(b, i)]
  {
    hide Target, Source, OnlyCells, Copied, Moves, Go, Cells, Apart, CellAt, Wrap16, Undisturbed;
    GoMoves(s, b, events);
    CellsBounded(s, events);
    CopiedBlock(s.mem, b, s.c + 1, i);
    Unchanged(s, b, Go(s, events), s.c + 1, Cells(s, events), Target(b, i));
  }

  // ---------- two moves that go astray ----------

  /** MVN at the end of bank 0, two bytes. The first byte is taken from bank 2, the second from bank 3. */
  function Straddling(): State {
    State(false, Status(false, false, false, false, false, false, false, false), 0, 0, 1, 0x4000, 0x5000, 0x1ff, 0,
          0, 0, 0xfffe,
          Zeroes()[0xfffe := 0x54][0xffff := 1][0x1_0000 := 2][0 := 3][0x2_4000 := 7][0x3_4001 := 8])
  }

  function Zeroes(): Mem { seq(0x100_0000, i => 0) }

  lemma StraddlingMove()
    ensures var s := Straddling(); var t := Go(s, [OneByte, OneByte]);
            && t.c == 0xffff && t.pc == 1
            && t.mem[0x1_5000] == s.mem[0x2_4000] == 7 && s.mem[0x2_4001] == 0
            && t.mem[0x1_5001] == s.mem[0x3_4001] == 8 && s.mem[0x3_4000] == 0
  {
  }

  /** MVN in bank 1 in emulation mode, with zeroes in bank 0. */
  function InBankOne(): State {
    State(true, Status(false, false, false, false, false, false, false, false), 0, 0, 1, 0x40, 0x50, 0x1ff, 0,
          0, 1, 0x1000, Zeroes()[0x1_1000 := 0x54])
  }

  /** After an interrupt the next opcode is not that of the move but the BRK at the same address of bank 0. */
  lemma BankLost(nmi: bool)
    ensures var s := InBankOne(); var t := Go(s, [Interrupted(nmi)]);
            Code(s, s.pc) == 0x54 && t.pbr == 0 && t.pc == s.pc && Code(t, t.pc) == 0
  {
    hide Enter, Rti, SameRegisters, SameFlags;
    var s := InBankOne();
    var cause := if nmi then Nmi else Irq;
    RtiUndoesEnter(s, cause);
    var t := Rti(Enter(s, cause));
    assert [Interrupted(nmi)][..0] == [];
    assert Go(s, [Interrupted(nmi)]) == t;
    assert t.mem[0x1000] == s.mem[0x1000];
  }
}
