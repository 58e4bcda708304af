/** PROCESS_ALARMS and alarm_context_dispatch: draining the due alarms, and how late they can be. */
module Dispatching {
  import opened AlarmContexts

  /** What a callback does with its own alarm. */
  datatype Reaction = Unset | Rearm(at: Clock)

  /** The n-th dispatch, of an alarm that was due at the given clock. Callbacks have state, hence the n. */
  type Callbacks = (nat, Clock) -> Reaction

  /** Callbacks that re-arm their alarm do so strictly later than it was due. */
  ghost predicate MoveForward(callbacks: Callbacks) {
    forall n, d :: callbacks(n, d).Rearm? ==> callbacks(n, d).at > d
  }

  datatype Dispatch = Dispatch(alarm: Alarm, deadline: Clock, offset: Clock)

  ghost predicate Earliest(due: map<Alarm, Clock>, a: Alarm) {
    a in due && forall b :: b in due ==> due[a] <= due[b]
  }

  ghost function Settled(due: map<Alarm, Clock>, a: Alarm, r: Reaction): map<Alarm, Clock> {
    match r
    case Unset => due - {a}
    case Rearm(at) => due[a := at]
  }

  // ---------- the abstract scheduler ----------

  /** The dispatches in the log lead from one table of deadlines to another, and each is of an earliest alarm that is
      due. */
  ghost predicate Drains(due: map<Alarm, Clock>, n: nat, log: seq<Dispatch>, clk: int, callbacks: Callbacks,
                         after: map<Alarm, Clock>)
    decreases |log|
  {
    if log == [] then after == due
    else
      var d := log[0];
      && Earliest(due, d.alarm)
      && d.deadline == due[d.alarm] <= clk
      && d.offset == clk - d.deadline
      && Drains(Settled(due, d.alarm, callbacks(n, d.deadline)), n + 1, log[1..], clk, callbacks, after)
  }

  /** The table of deadlines that a log leads to. */
  ghost function Drained(due: map<Alarm, Clock>, n: nat, log: seq<Dispatch>, callbacks: Callbacks): map<Alarm, Clock>
    decreases |log|
  {
    if log == [] then due
    else Drained(Settled(due, log[0].alarm, callbacks(n, log[0].deadline)), n + 1, log[1..], callbacks)
  }

  lemma {:induction false} DrainsTo(due: map<Alarm, Clock>, n: nat, log: seq<Dispatch>, clk: int,
                                    callbacks: Callbacks, after: map<Alarm, Clock>)
    requires Drains(due, n, log, clk, callbacks, after)
    ensures after == Drained(due, n, log, callbacks)
    decreases |log|
  {
    hide Earliest, Settled;
    if log != [] {
      DrainsTo(Settled(due, log[0].alarm, callbacks(n, log[0].deadline)), n + 1, log[1..], clk, callbacks, after);
    }
  }

  lemma {:induction false} DrainsOne(due: map<Alarm, Clock>, n: nat, log: seq<Dispatch>, clk: int,
                                     callbacks: Callbacks, middle: map<Alarm, Clock>, d: Dispatch)
    requires Drains(due, n, log, clk, callbacks, middle)
    requires Earliest(middle, d.alarm) && d.deadline == middle[d.alarm] <= clk && d.offset == clk - d.deadline
    ensures Drains(due, n, log + [d], clk, callbacks,
                   Settled(middle, d.alarm, callbacks(n + |log|, d.deadline)))
    decreases |log|
  {
    hide Earliest, Settled;
    if log == [] {
      assert (log + [d])[1..] == [];
    } else {
      assert (log + [d])[1..] == log[1..] + [d];
      DrainsOne(Settled(due, log[0].alarm, callbacks(n, log[0].deadline)), n + 1, log[1..], clk, callbacks, middle, d);
    }
  }

  ghost predicate AllFrom(due: map<Alarm, Clock>, c: int) { forall a :: a in due ==> c <= due[a] }

  lemma SettledFrom(due: map<Alarm, Clock>, a: Alarm, r: Reaction, c: int)
    requires Earliest(due, a) && (r.Rearm? ==> r.at > due[a]) && AllFrom(due, c)
    ensures AllFrom(Settled(due, a, r), due[a]) && c <= due[a]
  {
  }

  /** Dispatches happen in the order of their deadlines. */
  lemma {:induction false} InOrder(due: map<Alarm, Clock>, n: nat, log: seq<Dispatch>, clk: int,
                                   callbacks: Callbacks, after: map<Alarm, Clock>, c: int)
    requires MoveForward(callbacks) && Drains(due, n, log, clk, callbacks, after) && AllFrom(due, c)
    ensures forall i :: 0 <= i < |log| ==> c <= log[i].deadline <= clk && log[i].offset == clk - log[i].deadline
    ensures forall i, j :: 0 <= i < j < |log| ==> log[i].deadline <= log[j].deadline
    ensures AllFrom(after, c)
    decreases |log|
  {
    hide Settled, AllFrom, Earliest;
    if log != [] {
      var d := log[0];
      SettledFrom(due, d.alarm, callbacks(n, d.deadline), c);
      var rest := Settled(due, d.alarm, callbacks(n, d.deadline));
      InOrder(rest, n + 1, log[1..], clk, callbacks, after, d.deadline);
      AllFromWeakens(after, d.deadline, c);
    }
  }

  lemma AllFromWeakens(due: map<Alarm, Clock>, c: int, b: int)
    requires AllFrom(due, c) && b <= c
    ensures AllFrom(due, b)
  {
  }

  /** Nothing that was due is forgotten and nothing that was not due is touched. */
  lemma {:induction false} ExactlyTheDue(due: map<Alarm, Clock>, n: nat, log: seq<Dispatch>, clk: int,
                                         callbacks: Callbacks, after: map<Alarm, Clock>, a: Alarm)
    requires Drains(due, n, log, clk, callbacks, after) && AllFrom(after, clk + 1) && a in due
    ensures due[a] <= clk ==> exists i :: 0 <= i < |log| && log[i].alarm == a && log[i].deadline == due[a]
    ensures due[a] > clk ==> a in after && after[a] == due[a] && forall i :: 0 <= i < |log| ==> log[i].alarm != a
    decreases |log|
  {
    if log != [] {
      var d := log[0];
      if d.alarm == a {
        assert log[0].alarm == a;
      } else {
        ExactlyTheDue(Settled(due, d.alarm, callbacks(n, d.deadline)), n + 1, log[1..], clk, callbacks, after, a);
        assert forall i :: 0 < i < |log| ==> log[i] == log[1..][i - 1];
        if due[a] <= clk {
          var i :| 0 <= i < |log[1..]| && log[1..][i].alarm == a && log[1..][i].deadline == due[a];
          assert log[i + 1].alarm == a;
        }
      }
    }
  }

  // ---------- why draining ends: the total lateness goes down ----------

  function Late(d: Clock, clk: Clock): nat { if d <= clk then clk - d + 1 else 0 }

  ghost function Lateness(due: map<Alarm, Clock>, clk: Clock): nat
    decreases |due|
  {
    if due == map[] then 0
    else
      var a :| a in due;
      Late(due[a], clk) + Lateness(due - {a}, clk)
  }

  lemma {:induction false} LatenessAt(due: map<Alarm, Clock>, a: Alarm, clk: Clock)
    requires a in due
    ensures Lateness(due, clk) == Late(due[a], clk) + Lateness(due - {a}, clk)
    decreases |due|
  {
    hide Late;
    var b :| b in due && Lateness(due, clk) == Late(due[b], clk) + Lateness(due - {b}, clk);
    if a != b {
      LatenessAt(due - {b}, a, clk);
      LatenessAt(due - {a}, b, clk);
      assert due - {b} - {a} == due - {a} - {b};
    }
  }

  lemma Progress(due: map<Alarm, Clock>, a: Alarm, r: Reaction, clk: Clock)
    requires a in due && due[a] <= clk && (r.Rearm? ==> r.at > due[a])
    ensures Lateness(Settled(due, a, r), clk) < Lateness(due, clk)
  {
    LatenessAt(due, a, clk);
    if r.Rearm? {
      LatenessAt(due[a := r.at], a, clk);
      assert due[a := r.at] - {a} == due - {a};
    }
  }

  // ---------- the loop ----------

  /** alarm_context_dispatch: offset and alarm come from the cached entry; then its callback runs. */
  method DispatchNext(context: AlarmContext, clk: Clock, n: nat, callbacks: Callbacks) returns (d: Dispatch)
    requires context.Valid() && context.nextClk <= clk < NEVER
    modifies context`due, context`numPending, context`nextClk, context`nextIdx
    modifies context.pending, context.live`pendingIdx
    ensures context.Valid()
    ensures Earliest(old(context.due), d.alarm)
    ensures d.deadline == old(context.due)[d.alarm] <= clk && d.offset == clk - d.deadline
    ensures context.due == Settled(old(context.due), d.alarm, callbacks(n, d.deadline))
  {
    context.NextIsEarliest();
    context.DueAreLive();
    var offset := clk - context.nextClk;
    var alarm := context.pending[context.nextIdx].alarm;
    d := Dispatch(alarm, context.nextClk, offset);
    hide AlarmContext.Valid;
    match callbacks(n, context.nextClk) {
      case Unset => context.Unset(alarm);
      case Rearm(at) => context.Set(alarm, at);
    }
  }

  /** PROCESS_ALARMS. It ends, and nothing that is due remains pending. */
  method ProcessAlarms(context: AlarmContext, clk: Clock, n: nat, callbacks: Callbacks) returns (log: seq<Dispatch>)
    requires context.Valid() && clk < NEVER && MoveForward(callbacks)
    modifies context`due, context`numPending, context`nextClk, context`nextIdx
    modifies context.pending, context.live`pendingIdx
    ensures context.Valid()
    ensures Drains(old(context.due), n, log, clk, callbacks, context.due)
    ensures AllFrom(context.due, clk + 1)
  {
    hide AlarmContext.Valid, Settled, Lateness;
    log := [];
    while clk >= context.nextClk
      invariant context.Valid()
      invariant Drains(old(context.due), n, log, clk, callbacks, context.due)
      decreases Lateness(context.due, clk)
    {
      ghost var due := context.due;
      var d := DispatchNext(context, clk, n + |log|, callbacks);
      Progress(due, d.alarm, callbacks(n + |log|, d.deadline), clk);
      DrainsOne(old(context.due), n, log, clk, callbacks, due, d);
      log := log + [d];
    }
    context.NextIsEarliest();
  }
}
