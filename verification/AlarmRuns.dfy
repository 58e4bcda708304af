/** An alarm context over its whole life: any sequence of operations, as a fold on numbered alarms. */
module AlarmRuns {
  import opened AlarmContexts

  /** Alarms are numbered in the order of their creation. */
  datatype Operation = Create | Arm(id: nat, clk: Clock) | Disarm(id: nat) | Dispose(id: nat)

  /** How many alarms there ever were, those that exist in list order, and when each pending one is due. */
  datatype Schedule = Schedule(created: nat, live: seq<nat>, due: map<nat, Clock>)

  const NOTHING: Schedule := Schedule(0, [], map[])

  function Position(ids: seq<nat>, id: nat): (at: nat)
    requires id in ids
    ensures at < |ids| && ids[at] == id
  {
    if ids[0] == id then 0 else 1 + Position(ids[1..], id)
  }

  function Remove(ids: seq<nat>, id: nat): seq<nat> {
    if id in ids then ids[..Position(ids, id)] + ids[Position(ids, id) + 1..] else ids
  }

  function Do(s: Schedule, op: Operation): Schedule {
    match op
    case Create => s.(created := s.created + 1, live := [s.created] + s.live)
    case Arm(id, clk) => if id in s.due || |s.due| < MAX_PENDING_ALARMS then s.(due := s.due[id := clk]) else s
    case Disarm(id) => s.(due := s.due - {id})
    case Dispose(id) => s.(live := Remove(s.live, id), due := s.due - {id})
  }

  /** An operation names an alarm that exists. */
  predicate Possible(s: Schedule, op: Operation) { op.Create? || op.id in s.live }

  function DoAll(s: Schedule, ops: seq<Operation>): Schedule
    decreases |ops|
  {
    if ops == [] then s else Do(DoAll(s, ops[..|ops| - 1]), ops[|ops| - 1])
  }

  predicate AllPossible(s: Schedule, ops: seq<Operation>) {
    forall k :: 0 <= k < |ops| ==> Possible(DoAll(s, ops[..k]), ops[k])
  }

  // ---------- what a context has to do with it ----------

  /** The list of alarms is that of their numbers. */
  ghost predicate Listed(live: seq<Alarm>, names: seq<Alarm>, ids: seq<nat>) {
    && |live| == |ids|
    && forall i :: 0 <= i < |ids| ==> ids[i] < |names| && live[i] == names[ids[i]]
  }

  /** So are the deadlines. */
  ghost predicate Timed(due: map<Alarm, Clock>, names: seq<Alarm>, clocks: map<nat, Clock>) {
    && |due| == |clocks|
    && (forall id :: id in clocks ==> id < |names|)
    && (forall id :: 0 <= id < |names| ==> (names[id] in due <==> id in clocks))
    && (forall id :: id in clocks ==> due[names[id]] == clocks[id])
  }

  ghost predicate Follows(live: seq<Alarm>, due: map<Alarm, Clock>, names: seq<Alarm>, s: Schedule) {
    && |names| == s.created && Distinct(names) && Listed(live, names, s.live) && Timed(due, names, s.due)
  }

  lemma NamesDiffer(names: seq<Alarm>, i: nat, j: nat)
    requires Distinct(names) && i < |names| && j < |names| && i != j
    ensures names[i] != names[j]
  {
  }

  lemma TimedArm(due: map<Alarm, Clock>, names: seq<Alarm>, clocks: map<nat, Clock>, id: nat, clk: Clock)
    requires Distinct(names) && Timed(due, names, clocks) && id < |names|
    ensures Timed(due[names[id] := clk], names, clocks[id := clk])
    ensures |due| == |clocks| && (names[id] in due <==> id in clocks)
  {
    forall i: nat | i < |names| && i != id
      ensures names[i] != names[id]
    {
      NamesDiffer(names, i, id);
    }
  }

  lemma TimedDisarm(due: map<Alarm, Clock>, names: seq<Alarm>, clocks: map<nat, Clock>, id: nat)
    requires Distinct(names) && Timed(due, names, clocks) && id < |names|
    ensures Timed(due - {names[id]}, names, clocks - {id})
  {
    assert (due - {names[id]}).Keys == due.Keys - {names[id]};
    assert (clocks - {id}).Keys == clocks.Keys - {id};
    forall i: nat | i < |names| && i != id
      ensures names[i] != names[id]
    {
      NamesDiffer(names, i, id);
    }
  }

  lemma TimedCreate(due: map<Alarm, Clock>, names: seq<Alarm>, clocks: map<nat, Clock>, alarm: Alarm)
    requires Timed(due, names, clocks) && alarm !in due
    ensures Timed(due, names + [alarm], clocks)
  {
  }

  lemma RemoveAt(ids: seq<nat>, id: nat, at: nat)
    requires id in ids && at == Position(ids, id)
    ensures |Remove(ids, id)| == |ids| - 1
    ensures forall i :: 0 <= i < |ids| - 1 ==> Remove(ids, id)[i] == ids[if i < at then i else i + 1]
  {
    hide Position;
  }

  lemma ListedRemove(live: seq<Alarm>, names: seq<Alarm>, ids: seq<nat>, id: nat)
    requires Listed(live, names, ids) && id in ids
    ensures Listed(Without(live, Position(ids, id)), names, Remove(ids, id))
  {
    hide Position, Remove;
    RemoveAt(ids, id, Position(ids, id));
  }

  lemma ListedMember(live: seq<Alarm>, names: seq<Alarm>, ids: seq<nat>, id: nat)
    requires Listed(live, names, ids) && id in ids
    ensures id < |names| && Position(ids, id) < |live| && live[Position(ids, id)] == names[id] && names[id] in live
  {
    var at := Position(ids, id);
    assert live[at] == names[ids[at]];
  }

  lemma ListedCreate(live: seq<Alarm>, names: seq<Alarm>, ids: seq<nat>, alarm: Alarm)
    requires Listed(live, names, ids) && Distinct(names) && alarm !in names
    ensures Listed([alarm] + live, names + [alarm], [|names|] + ids) && Distinct(names + [alarm])
  {
  }

  lemma WithoutSome(live: seq<Alarm>, at: nat)
    requires at < |live|
    ensures forall i :: 0 <= i < |Without(live, at)| ==> Without(live, at)[i] in live
  {
  }

  lemma NothingFollows()
    ensures Follows([], map[], [], NOTHING)
  {
  }

  /** One operation on the context. */
  method Perform(context: AlarmContext, names: seq<Alarm>, op: Operation, ghost s: Schedule)
    returns (names': seq<Alarm>)
    requires context.Valid() && Follows(context.live, context.due, names, s) && Possible(s, op)
    modifies context, context.pending, context.live
    ensures context.Valid() && Follows(context.live, context.due, names', Do(s, op))
    ensures forall i :: 0 <= i < |context.live| ==> context.live[i] in old(context.live) || fresh(context.live[i])
  {
    hide AlarmContext.Valid, Listed, Timed, Distinct, Without;
    names' := names;
    if !op.Create? {
      ListedMember(context.live, names, s.live, op.id);
    }
    match op {
      case Create =>
        var alarm := context.New();
        names' := names + [alarm];
        ListedCreate(old(context.live), names, s.live, alarm);
        TimedCreate(context.due, names, s.due, alarm);
      case Arm(id, clk) =>
        context.Set(names[id], clk);
        TimedArm(old(context.due), names, s.due, id, clk);
      case Disarm(id) =>
        context.Unset(names[id]);
        TimedDisarm(old(context.due), names, s.due, id);
      case Dispose(id) =>
        context.Destroy(names[id], Position(s.live, id));
        WithoutSome(old(context.live), Position(s.live, id));
        TimedDisarm(old(context.due), names, s.due, id);
        ListedRemove(old(context.live), names, s.live, id);
    }
  }

  /** From alarm_context_init on, whatever is created, armed, unset and destroyed, in whatever order, the list and the
      deadlines are those of the fold, and the context keeps its invariant. */
  method RunAll(ops: seq<Operation>) returns (context: AlarmContext, names: seq<Alarm>)
    requires AllPossible(NOTHING, ops)
    ensures context.Valid() && Follows(context.live, context.due, names, DoAll(NOTHING, ops))
  {
    hide AlarmContext.Valid, Follows, Do, Possible;
    context := new AlarmContext(0);
    names := [];
    NothingFollows();
    for k := 0 to |ops|
      invariant context.Valid() && Follows(context.live, context.due, names, DoAll(NOTHING, ops[..k]))
      invariant fresh(context) && fresh(context.pending)
      invariant forall i :: 0 <= i < |context.live| ==> fresh(context.live[i])
    {
      assert ops[..k + 1][..k] == ops[..k];
      names := Perform(context, names, ops[k], DoAll(NOTHING, ops[..k]));
    }
    assert ops[..|ops|] == ops;
  }
}
