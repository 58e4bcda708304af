/** The stack in page one of the 6510: a LIFO of up to 256 bytes, and what that means for well-nested programs. */
module Stack6510 {
  import opened Bytes
  import opened Status6510
  import opened Isa6510

  /** The i-th cell from a base downwards, wrapping inside page one. */
  function Cell(base: u8, i: int): (a: u16)
    ensures 0x100 <= a < 0x200
  {
    0x100 + Low(base - i)
  }

  lemma CellsDiffer(base: u8, i: nat, j: nat)
    requires i < j < 0x100
    ensures Cell(base, i) != Cell(base, j)
  {
  }

  /** The bytes pushed since the stack pointer was at the base. */
  ghost predicate Holds(ram: Ram, sp: u8, base: u8, bytes: seq<u8>) {
    && sp == Low(base - |bytes|)
    && forall i :: 0 <= i < |bytes| ==> ram[Cell(base, i)] == bytes[i]
  }

  ghost predicate Stacked(s: Cpu, base: u8, bytes: seq<u8>) { Holds(s.ram, s.r.sp, base, bytes) }

  lemma PushStacks(s: Cpu, v: u8, base: u8, bytes: seq<u8>)
    requires Stacked(s, base, bytes) && |bytes| < 0x100
    ensures Stacked(Push(s, v), base, bytes + [v])
  {
    LowAfter(base - |bytes|, -1);
    assert 0x100 + s.r.sp == Cell(base, |bytes|);
    hide Low, Cell;
    forall i | 0 <= i < |bytes|
      ensures Cell(base, i) != Cell(base, |bytes|)
    {
      CellsDiffer(base, i, |bytes|);
    }
  }

  lemma PullUnstacks(s: Cpu, base: u8, bytes: seq<u8>)
    requires Stacked(s, base, bytes) && bytes != []
    ensures Top(s) == bytes[|bytes| - 1] && Stacked(Pull(s), base, bytes[..|bytes| - 1])
  {
    LowAfter(base - |bytes|, 1);
    assert Low(s.r.sp + 1) == Low(base - (|bytes| - 1));
    hide Low;
  }

  lemma PushWordStacks(s: Cpu, w: u16, base: u8, bytes: seq<u8>)
    requires Stacked(s, base, bytes) && |bytes| < 0xff
    ensures Stacked(PushWord(s, w), base, bytes + [High(w), Low(w)])
  {
    hide Holds, Low, High, Pushed;
    PushStacks(s, High(w), base, bytes);
    PushStacks(Push(s, High(w)), Low(w), base, bytes + [High(w)]);
    assert bytes + [High(w)] + [Low(w)] == bytes + [High(w), Low(w)];
  }

  lemma PullWordUnstacks(s: Cpu, base: u8, bytes: seq<u8>, w: u16)
    requires Stacked(s, base, bytes + [High(w), Low(w)])
    ensures TopWord(s) == w && Stacked(PullWord(s), base, bytes)
  {
    hide Holds, Low, High;
    var all := bytes + [High(w), Low(w)];
    PullUnstacks(s, base, all);
    assert all[..|all| - 1] == bytes + [High(w)];
    PullUnstacks(Pull(s), base, bytes + [High(w)]);
    assert (bytes + [High(w)])[..|bytes|] == bytes;
    Bytewise(w);
  }

  // ---------- well-nested runs ----------

  /** JSR and RTS, PHA and PLA, PHP and PLP, BRK and RTI, an interrupt and RTI; the last two of these are a BRK and an
      IRQ that an NMI took over. */
  datatype Bracket = Call | SaveA | SaveP | Trap | IrqTaken | NmiTaken | TrapLost | IrqLost

  /** The shape of a run: brackets around steps that leave the stack alone. */
  datatype Nest =
    | Empty
    | Plain                               // one instruction that keeps SP and the outstanding bytes
    | Then(first: Nest, second: Nest)
    | Around(kind: Bracket, body: Nest)

  function Opening(k: Bracket): Event {
    match k
    case IrqTaken => Irq
    case NmiTaken => Event.Nmi
    case TrapLost => HijackedBrk
    case IrqLost => HijackedIrq
    case _ => Instruction
  }

  predicate Opens(k: Bracket, s: Cpu) {
    match k
    case Call => Decode(Opcode(s)) == Jsr
    case SaveA => Decode(Opcode(s)) == Pha
    case SaveP => Decode(Opcode(s)) == Php
    case Trap | TrapLost => Decode(Opcode(s)) == Brk
    case _ => true
  }

  predicate Closes(k: Bracket, s: Cpu) {
    match k
    case Call => Decode(Opcode(s)) == Rts
    case SaveA => Decode(Opcode(s)) == Pla
    case SaveP => Decode(Opcode(s)) == Plp
    case _ => Decode(Opcode(s)) == Rti
  }

  function Pushes(k: Bracket): nat {
    match k
    case Call => 2
    case SaveA | SaveP => 1
    case _ => 3
  }

  /** The events of a run of this shape, and where they lead. */
  function Events(c: Nest): seq<Event> {
    match c
    case Empty => []
    case Plain => [Instruction]
    case Then(a, b) => Events(a) + Events(b)
    case Around(k, body) => [Opening(k)] + (Events(body) + [Instruction])
  }

  function After(c: Nest, s: Cpu): Cpu
    decreases c
  {
    match c
    case Empty => s
    case Plain => Step(s)
    case Then(a, b) => After(b, After(a, s))
    case Around(k, body) => Step(After(body, Happen(s, Opening(k))))
  }

  /** The i-th byte from the top of the stack. */
  function FromTop(ram: Ram, sp: u8, i: int): u8 { ram[Cell(sp, -1 - i)] }

  predicate Leaves(ram: Ram, ram': Ram, sp: u8, depth: nat) {
    forall i :: 0 <= i < depth ==> FromTop(ram', sp, i) == FromTop(ram, sp, i)
  }

  /** The run from s has the shape, and never more than 256 bytes are outstanding. */
  predicate Nested(c: Nest, s: Cpu, depth: nat)
    decreases c
  {
    match c
    case Empty => true
    case Plain => Step(s).r.sp == s.r.sp && Leaves(s.ram, Step(s).ram, s.r.sp, depth)
    case Then(a, b) => Nested(a, s, depth) && Nested(b, After(a, s), depth)
    case Around(k, body) =>
      var t := Happen(s, Opening(k));
      && depth + Pushes(k) <= 0x100
      && Opens(k, s)
      && Nested(body, t, depth + Pushes(k))
      && Closes(k, After(body, t))
  }

  /** The flags a program can observe. */
  predicate SameFlags(s: Cpu, t: Cpu) {
    && t.r.p.v == s.r.p.v && t.r.p.d == s.r.p.d && t.r.p.i == s.r.p.i && t.r.p.c == s.r.p.c
    && (t.r.p.n || t.r.n >= 0x80 <==> s.r.p.n || s.r.n >= 0x80)
    && (t.r.p.z || t.r.z == 0 <==> s.r.p.z || s.r.z == 0)
  }

  /** What the brackets promise, whatever happened between them. */
  predicate Restored(k: Bracket, s: Cpu, t: Cpu) {
    match k
    case Call => t.pc == Wrap16(s.pc + 3)
    case SaveA => t.r.a == s.r.a
    case SaveP => SameFlags(s, t)
    case Trap | TrapLost => t.pc == Wrap16(s.pc + 2) && SameFlags(s, t)
    case _ => t.pc == s.pc && SameFlags(s, t)
  }

  lemma PlainKeeps(s: Cpu, t: Cpu, base: u8, bytes: seq<u8>)
    requires Stacked(s, base, bytes) && |bytes| <= 0x100
    requires t.r.sp == s.r.sp && Leaves(s.ram, t.ram, s.r.sp, |bytes|)
    ensures Stacked(t, base, bytes)
  {
    forall i | 0 <= i < |bytes|
      ensures Cell(base, i) == Cell(s.r.sp, -1 - (|bytes| - 1 - i))
    {
      LowAfter(base - |bytes|, |bytes| - i);
    }
    hide Cell;
    forall i | 0 <= i < |bytes|
      ensures t.ram[Cell(base, i)] == bytes[i]
    {
      var k := |bytes| - 1 - i;
      assert FromTop(t.ram, s.r.sp, k) == FromTop(s.ram, s.r.sp, k);
    }
  }

  /** The bytes a bracket saves. */
  function Saved(k: Bracket, s: Cpu): seq<u8> {
    match k
    case Call => [High(Wrap16(s.pc + 2)), Low(Wrap16(s.pc + 2))]
    case SaveA => [s.r.a]
    case SaveP => [Joined(s.r.p.(b := true), s.r.n, s.r.z)]
    case Trap | TrapLost => [High(Wrap16(s.pc + 2)), Low(Wrap16(s.pc + 2)), Joined(s.r.p.(b := true), s.r.n, s.r.z)]
    case _ => [High(s.pc), Low(s.pc), Joined(s.r.p.(b := false), s.r.n, s.r.z)]
  }

  lemma EnterStacks(s: Cpu, pc: u16, brk: bool, vector: u16, base: u8, bytes: seq<u8>)
    requires Stacked(s, base, bytes) && |bytes| + 3 <= 0x100 && vector < 0xffff
    ensures Stacked(Enter(s, pc, brk, vector, 7), base,
                    bytes + [High(pc), Low(pc), Joined(s.r.p.(b := brk), s.r.n, s.r.z)])
  {
    hide Holds, Low, High, Pushed, Joined, PushWord;
    var status := Joined(s.r.p.(b := brk), s.r.n, s.r.z);
    PushWordStacks(s, pc, base, bytes);
    PushStacks(PushWord(s, pc), status, base, bytes + [High(pc), Low(pc)]);
    assert bytes + [High(pc), Low(pc)] + [status] == bytes + [High(pc), Low(pc), status];
    PushWordKeepsFlags(s, pc);
  }

  lemma PushWordKeepsFlags(s: Cpu, w: u16)
    ensures PushWord(s, w).r == s.r.(sp := PushWord(s, w).r.sp)
  {
  }

  lemma OpenSaves(k: Bracket, s: Cpu, base: u8, bytes: seq<u8>)
    requires Opens(k, s) && Stacked(s, base, bytes) && |bytes| + Pushes(k) <= 0x100
    ensures Stacked(Happen(s, Opening(k)), base, bytes + Saved(k, s)) && |Saved(k, s)| == Pushes(k)
  {
    hide Holds, Low, High, Pushed, Joined, Decode, Wrap16, Enter, Word, PushWord;
    match k {
      case Call => PushWordStacks(s, Wrap16(s.pc + 2), base, bytes);
      case SaveA => PushStacks(s, s.r.a, base, bytes);
      case SaveP => PushStacks(s, Joined(s.r.p.(b := true), s.r.n, s.r.z), base, bytes);
      case Trap => EnterStacks(s, Wrap16(s.pc + 2), true, 0xfffe, base, bytes);
      case IrqTaken => EnterStacks(s, s.pc, false, 0xfffe, base, bytes);
      case NmiTaken | IrqLost => EnterStacks(s, s.pc, false, 0xfffa, base, bytes);
      case TrapLost => EnterStacks(s, Wrap16(s.pc + 2), true, 0xfffa, base, bytes);
    }
  }

  lemma FlagsReturn(s: Cpu, r: Regs, brk: bool, t: Cpu)
    requires var u := SetStatus(r, Joined(s.r.p.(b := brk), s.r.n, s.r.z)); t.r.p == u.p && t.r.n == u.n && t.r.z == u.z
    ensures SameFlags(s, t)
  {
    hide Joined, Split;
    PushedStatusPullsBack(s.r.p.(b := brk), s.r.n, s.r.z);
  }

  lemma RtiReturns(s: Cpu, t: Cpu, pc: u16, brk: bool, base: u8, bytes: seq<u8>)
    requires Stacked(t, base, bytes + [High(pc), Low(pc), Joined(s.r.p.(b := brk), s.r.n, s.r.z)])
    ensures Stacked(RtiFrom(t), base, bytes) && RtiFrom(t).pc == pc && SameFlags(s, RtiFrom(t))
  {
    hide Holds, Low, High, Joined, Split, PullWord, TopWord;
    var status := Joined(s.r.p.(b := brk), s.r.n, s.r.z);
    var all := bytes + [High(pc), Low(pc), status];
    PullUnstacks(t, base, all);
    assert all[..|all| - 1] == bytes + [High(pc), Low(pc)];
    var u := Pull(t).(r := SetStatus(Pull(t).r, Top(t)));
    PullWordUnstacks(u, base, bytes, pc);
    PullWordKeeps(u);
    FlagsReturn(s, Pull(t).r, brk, RtiFrom(t));
  }

  lemma PullWordKeeps(s: Cpu)
    ensures PullWord(s).r == s.r.(sp := PullWord(s).r.sp) && PullWord(s).ram == s.ram
  {
  }

  lemma SetStatusKeepsSp(r: Regs, v: u8)
    ensures SetStatus(r, v).sp == r.sp
  {
    hide Split;
  }

  lemma CloseRestores(k: Bracket, s: Cpu, t: Cpu, base: u8, bytes: seq<u8>)
    requires Closes(k, t) && Stacked(t, base, bytes + Saved(k, s))
    ensures Stacked(Step(t), base, bytes) && Restored(k, s, Step(t))
  {
    hide Holds, Low, High, Joined, Decode, Wrap16, Word, PullWord, TopWord, RtiFrom, SetStatus;
    var all := bytes + Saved(k, s);
    assert all[..|bytes|] == bytes;
    match k {
      case Call =>
        PullWordUnstacks(t, base, bytes, Wrap16(s.pc + 2));
        PullWordKeeps(t);
        WrapAdd(s.pc + 2, 1);
        assert Stacked(Step(t), base, bytes);
      case SaveA =>
        PullUnstacks(t, base, all);
        assert Stacked(Step(t), base, bytes);
      case SaveP =>
        PullUnstacks(t, base, all);
        SetStatusKeepsSp(Pull(t).r, Top(t));
        assert Stacked(Step(t), base, bytes);
        FlagsReturn(s, Pull(t).r, true, Step(t));
      case Trap | TrapLost => RtiReturns(s, t, Wrap16(s.pc + 2), true, base, bytes);
      case _ => RtiReturns(s, t, s.pc, false, base, bytes);
    }
  }

  /** Each bracket of the run, however deep, restores what it saved and the stack pointer. */
  predicate AllRestored(c: Nest, s: Cpu)
    decreases c
  {
    match c
    case Empty => true
    case Plain => true
    case Then(a, b) => AllRestored(a, s) && AllRestored(b, After(a, s))
    case Around(k, body) =>
      && Restored(k, s, After(c, s)) && After(c, s).r.sp == s.r.sp
      && AllRestored(body, Happen(s, Opening(k)))
  }

  lemma SameTop(s: Cpu, t: Cpu, base: u8, bytes: seq<u8>)
    requires Stacked(s, base, bytes) && Stacked(t, base, bytes)
    ensures t.r.sp == s.r.sp
  {
  }

  /** A well-nested run leaves the stack as it found it, and every bracket in it restores what it saved. */
  lemma {:induction false} NestingRestores(c: Nest, s: Cpu, base: u8, bytes: seq<u8>)
    requires Stacked(s, base, bytes) && Nested(c, s, |bytes|) && |bytes| <= 0x100
    ensures Stacked(After(c, s), base, bytes)
    ensures AllRestored(c, s)
    decreases c
  {
    hide Stacked, Restored, Step, Happen, Opens, Closes, Leaves;
    match c {
      case Empty =>
      case Plain => PlainKeeps(s, Step(s), base, bytes);
      case Then(a, b) =>
        NestingRestores(a, s, base, bytes);
        NestingRestores(b, After(a, s), base, bytes);
      case Around(k, body) =>
        OpenSaves(k, s, base, bytes);
        var t := Happen(s, Opening(k));
        NestingRestores(body, t, base, bytes + Saved(k, s));
        CloseRestores(k, s, After(body, t), base, bytes);
        SameTop(s, After(c, s), base, bytes);
    }
  }

  lemma {:induction false} RunSplits(s: Cpu, a: seq<Event>, b: seq<Event>)
    ensures Run(s, a + b) == Run(Run(s, a), b)
    decreases |a|
  {
    hide Happen;
    if a == [] {
      assert a + b == b;
    } else {
      assert (a + b)[1..] == a[1..] + b;
      RunSplits(Happen(s, a[0]), a[1..], b);
    }
  }

  /** Shapes describe runs of the machine. */
  lemma {:induction false} ShapesAreRuns(c: Nest, s: Cpu)
    ensures Run(s, Events(c)) == After(c, s)
    decreases c
  {
    hide Happen, Step;
    match c {
      case Empty =>
      case Plain => OneEvent(s, Instruction);
      case Then(a, b) =>
        RunSplits(s, Events(a), Events(b));
        ShapesAreRuns(a, s);
        ShapesAreRuns(b, After(a, s));
      case Around(k, body) =>
        var t := Happen(s, Opening(k));
        OneEvent(s, Opening(k));
        RunSplits(s, [Opening(k)], Events(body) + [Instruction]);
        RunSplits(t, Events(body), [Instruction]);
        ShapesAreRuns(body, t);
        OneEvent(After(body, t), Instruction);
    }
  }

  lemma OneEvent(s: Cpu, e: Event)
    ensures Run(s, [e]) == Happen(s, e) && Happen(s, Instruction) == Step(s)
  {
    hide Step, Enter;
    assert [e][1..] == [];
    assert Run(Happen(s, e), []) == Happen(s, e);
  }
}
