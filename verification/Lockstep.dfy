/** The two 6510 interpreters side by side. */
module Lockstep {
  import opened Bytes
  import opened Isa6510
  import opened Machine6510
  import InsnCore
  import CycleCore
  import R = Refinement6510

  /** From equal states, any run of instructions and interrupts leads both interpreters through
      equal states: registers, lazy flags, memory, program counter and clock. What a program sees of them is what the
      instructions that the monitor prints do. */
  method RunBoth(fast: Machine, exact: Machine, events: seq<Event>)
    requires fast.Valid() && exact.Valid() && fast != exact && fast.mem != exact.mem
    requires fast.View() == exact.View() && JamFree(fast.View(), events)
    modifies fast, fast.mem, exact, exact.mem
    ensures fast.View() == exact.View() == old(Run(fast.View(), events))
    ensures old(R.Lazy(fast.View().r)) ==>
              R.Lazy(fast.View().r) && R.Shown(fast.View()) == old(R.Run(R.Shown(fast.View()), events))
  {
    hide Happen, Allowed, R.Lazy, R.Run, R.Shown;
    if R.Lazy(fast.View().r) {
      R.RunSeen(fast.View(), events);
    }
    for k := 0 to |events|
      invariant fast.View() == exact.View()
      invariant JamFree(fast.View(), events[k..])
      invariant Run(fast.View(), events[k..]) == old(Run(fast.View(), events))
    {
      assert events[k..][1..] == events[k + 1..];
      InsnCore.React(fast, events[k]);
      CycleCore.React(exact, events[k]);
    }
  }

  // ---------- how long a step can take ----------

  lemma StepCycles(i: Instr, s: Cpu, p1: u8, p2: u16)
    requires !i.Jam?
    ensures s.clk + 2 <= Exec(i, s, p1, p2).clk <= s.clk + 8
  {
    hide ReadEffect, ModifyEffect, Modified, AccumulatorEffect, ImpliedEffect, SetStatus, NZ, Pushed, Stored;
    hide Wrap16, Low, High, Word, Pointer, Crosses, And, Ea, Penalty, Operand;
  }

  lemma EventCycles(s: Cpu, e: Event)
    requires Allowed(s, e)
    ensures s.clk + 2 <= Happen(s, e).clk <= s.clk + 8
  {
    hide Exec, Decode, Wrap16, Word, Push, PushWord;
    if e.Instruction? {
      StepCycles(Decode(Opcode(s)), s, P1(s), P2(s));
    }
  }

  /** The clock of a run grows by two to eight cycles an event. */
  lemma {:induction false} RunCycles(s: Cpu, events: seq<Event>)
    requires JamFree(s, events)
    ensures s.clk + 2 * |events| <= Run(s, events).clk <= s.clk + 8 * |events|
    decreases |events|
  {
    hide Happen, Allowed;
    if events != [] {
      EventCycles(s, events[0]);
      RunCycles(Happen(s, events[0]), events[1..]);
    }
  }
}
