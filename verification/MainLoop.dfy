/** The processor and the alarm scheduler together: how late an alarm can be dispatched. */
module MainLoop {
  import opened AlarmContexts
  import opened Bytes
  import opened Dispatching
  import opened Isa6510
  import opened Machine6510
  import InsnCore
  import Lockstep

  /** What the I/O accesses of an instruction may do to the alarms of the context. */
  datatype Request = Arm(alarm: Alarm, at: Clock) | Disarm(alarm: Alarm)

  /** Alarms are armed for the future. */
  ghost predicate Future(requests: seq<Request>, clk: nat) {
    forall j :: 0 <= j < |requests| ==> requests[j].Arm? ==> requests[j].at > clk
  }

  ghost predicate Known(requests: seq<Request>, live: seq<Alarm>) {
    forall j :: 0 <= j < |requests| ==> requests[j].alarm in live
  }

  /** On a full context an alarm that is not pending cannot be armed. */
  ghost function Served(due: map<Alarm, Clock>, requests: seq<Request>): map<Alarm, Clock>
    decreases |requests|
  {
    if requests == [] then due
    else
      var before := Served(due, requests[..|requests| - 1]);
      match requests[|requests| - 1]
      case Arm(a, at) => if a in before || |before| < MAX_PENDING_ALARMS then before[a := at] else before
      case Disarm(a) => before - {a}
  }

  method Serve(context: AlarmContext, requests: seq<Request>, ghost clk: nat)
    requires context.Valid() && Known(requests, context.live)
    requires Future(requests, clk) && AllFrom(context.due, clk + 1)
    modifies context`due, context`numPending, context`nextClk, context`nextIdx
    modifies context.pending, context.live`pendingIdx
    ensures context.Valid() && AllFrom(context.due, clk + 1)
    ensures context.due == Served(old(context.due), requests)
  {
    hide AlarmContext.Valid;
    assert requests[..0] == [] && requests[..|requests|] == requests;
    for j := 0 to |requests|
      invariant context.Valid() && AllFrom(context.due, clk + 1)
      invariant context.due == Served(old(context.due), requests[..j])
    {
      assert requests[..j + 1][..j] == requests[..j];
      match requests[j] {
        case Arm(alarm, at) => context.Set(alarm, at);
        case Disarm(alarm) => context.Unset(alarm);
      }
    }
  }

  /** BRK and interrupt entries process alarms also between their pushes and their vector, five cycles after their
      start. */
  predicate Enters(s: Cpu, e: Event) { !e.Instruction? || Decode(Opcode(s)) == Brk }

  /** The dispatches of a round: those in the middle of an entry, and those at its end. */
  datatype Dispatches = Dispatches(early: seq<Dispatch>, late: seq<Dispatch>)

  ghost predicate Punctual(d: Dispatches) {
    && (forall i :: 0 <= i < |d.early| ==> d.early[i].offset <= 4)
    && (forall i :: 0 <= i < |d.late| ==> d.late[i].offset <= 7)
  }

  /** Alarms are drained at the end and, if there is an entry, also in its middle. */
  ghost predicate DrainsTwice(due: map<Alarm, Clock>, enters: bool, d: Dispatches, start: int, end: int,
                              callbacks: Callbacks, after: map<Alarm, Clock>) {
    var between := Drained(due, 0, d.early, callbacks);
    && (if enters then Drains(due, 0, d.early, start + 5, callbacks, between) else d.early == [])
    && Drains(between, |d.early|, d.late, end, callbacks, after)
  }

  /** The alarms of a round whose requests have been served. */
  method DrainRound(context: AlarmContext, enters: bool, start: Clock, end: Clock, callbacks: Callbacks)
    returns (d: Dispatches)
    requires context.Valid() && MoveForward(callbacks) && AllFrom(context.due, start + 1)
    requires start + 2 <= end <= start + 8 && end < NEVER && (enters ==> end == start + 7)
    modifies context`due, context`numPending, context`nextClk, context`nextIdx
    modifies context.pending, context.live`pendingIdx
    ensures context.Valid() && AllFrom(context.due, end + 1)
    ensures DrainsTwice(old(context.due), enters, d, start, end, callbacks, context.due)
    ensures Punctual(d)
  {
    hide AlarmContext.Valid, AllFrom, Drains;
    var early: seq<Dispatch> := [];
    ghost var due := context.due;
    if enters {
      early := ProcessAlarms(context, start + 5, 0, callbacks);
      InOrder(due, 0, early, start + 5, callbacks, context.due, start + 1);
      DrainsTo(due, 0, early, start + 5, callbacks, context.due);
    }
    ghost var between := context.due;
    var late := ProcessAlarms(context, end, |early|, callbacks);
    InOrder(between, |early|, late, end, callbacks, context.due, start + 1);
    d := Dispatches(early, late);
  }

  /** One round: an instruction or an interrupt entry, the alarms it arms, and PROCESS_ALARMS.
      A step takes at most eight cycles and alarms are due strictly after its start, so none is more than seven late. */
  method Round(m: Machine, context: AlarmContext, e: Event, requests: seq<Request>, callbacks: Callbacks)
    returns (d: Dispatches)
    requires m.Valid() && Allowed(m.View(), e) && m.clk + 8 < NEVER
    requires context.Valid() && Known(requests, context.live) && MoveForward(callbacks)
    requires AllFrom(context.due, m.clk + 1) && Future(requests, m.clk)
    modifies m, m.mem
    modifies context`due, context`numPending, context`nextClk, context`nextIdx
    modifies context.pending, context.live`pendingIdx
    ensures m.View() == old(Happen(m.View(), e))
    ensures context.Valid() && AllFrom(context.due, m.clk + 1)
    ensures DrainsTwice(Served(old(context.due), requests), old(Enters(m.View(), e)), d, old(m.clk), m.clk, callbacks,
                        context.due)
    ensures Punctual(d)
  {
    hide AlarmContext.Valid, Happen, AllFrom, Allowed, Served, Enters, DrainsTwice, Punctual;
    var clk := m.clk;
    ghost var s := m.View();
    var enters := EntersNext(m, e);
    Lockstep.EventCycles(s, e);
    EntryCycles(s, e);
    InsnCore.React(m, e);
    Serve(context, requests, clk);
    d := DrainRound(context, enters, clk, m.clk, callbacks);
  }

  method EntersNext(m: Machine, e: Event) returns (enters: bool)
    requires m.Valid()
    ensures enters == Enters(m.View(), e)
  {
    hide Decode;
    enters := !e.Instruction? || Decode(m.mem[m.pc % 0x1_0000]) == Brk;
  }

  lemma EntryCycles(s: Cpu, e: Event)
    ensures Enters(s, e) ==> Happen(s, e).clk == s.clk + 7
  {
    hide Decode, Wrap16, Word, Push, PushWord;
  }

  /** The interpreter's main loop, from a state in which nothing is due: the k-th round turns the deadlines dues[k]
      into dues[k + 1], and its dispatches are at most seven cycles late. */
  method Run(m: Machine, context: AlarmContext, events: seq<Event>, requests: seq<seq<Request>>,
             callbacks: seq<Callbacks>)
    returns (logs: seq<Dispatches>, ghost dues: seq<map<Alarm, Clock>>)
    requires m.Valid() && JamFree(m.View(), events) && m.clk + 8 * |events| < NEVER
    requires context.Valid() && AllFrom(context.due, m.clk + 1)
    requires |requests| == |callbacks| == |events|
    requires forall k :: 0 <= k < |events| ==> Known(requests[k], context.live) && MoveForward(callbacks[k])
    requires forall k :: 0 <= k < |events| ==> Future(requests[k], Isa6510.Run(m.View(), events[..k]).clk)
    modifies m, m.mem
    modifies context`due, context`numPending, context`nextClk, context`nextIdx
    modifies context.pending, context.live`pendingIdx
    ensures m.View() == old(Isa6510.Run(m.View(), events))
    ensures context.Valid() && AllFrom(context.due, m.clk + 1)
    ensures |logs| == |events| == |dues| - 1 && dues[0] == old(context.due) && dues[|events|] == context.due
    ensures forall k :: 0 <= k < |events| ==> Punctual(logs[k])
    ensures forall k :: 0 <= k < |events| ==>
              var t := old(Isa6510.Run(m.View(), events[..k]));
              DrainsTwice(Served(dues[k], requests[k]), Enters(t, events[k]), logs[k], t.clk, Happen(t, events[k]).clk,
                          callbacks[k], dues[k + 1])
  {
    hide AlarmContext.Valid, Happen, Allowed, AllFrom, Future, Known, DrainsTwice, Served, MoveForward, Punctual;
    hide Enters;
    logs, dues := [], [context.due];
    ghost var s := m.View();
    for k := 0 to |events|
      invariant m.View() == Isa6510.Run(s, events[..k])
      invariant context.Valid() && AllFrom(context.due, m.clk + 1)
      invariant |logs| == k == |dues| - 1 && dues[0] == old(context.due) && dues[k] == context.due
      invariant forall i :: 0 <= i < k ==> Punctual(logs[i])
      invariant forall i :: 0 <= i < k ==>
                  var t := Isa6510.Run(s, events[..i]);
                  DrainsTwice(Served(dues[i], requests[i]), Enters(t, events[i]), logs[i], t.clk,
                              Happen(t, events[i]).clk, callbacks[i], dues[i + 1])
    {
      JamFreePrefix(s, events, k);
      RunAppend(s, events[..k], events[k]);
      assert events[..k + 1] == events[..k] + [events[k]];
      Lockstep.RunCycles(s, events[..k]);
      var d := Round(m, context, events[k], requests[k], callbacks[k]);
      logs := logs + [d];
      dues := dues + [context.due];
    }
    assert events[..|events|] == events;
  }

  lemma {:induction false} JamFreePrefix(s: Cpu, events: seq<Event>, k: nat)
    requires JamFree(s, events) && k < |events|
    ensures JamFree(s, events[..k]) && Allowed(Isa6510.Run(s, events[..k]), events[k])
    decreases k
  {
    hide Happen, Allowed;
    if k > 0 {
      JamFreePrefix(Happen(s, events[0]), events[1..], k - 1);
      assert events[..k][1..] == events[1..][..k - 1];
    }
  }
}
