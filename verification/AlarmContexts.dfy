/** The alarm scheduler, vice/src/alarm.h and vice/src/alarm.c. */
module AlarmContexts {
  /** CLOCK is a 32-bit unsigned integer. */
  type Clock = x: int | 0 <= x < 0x1_0000_0000

  /** (CLOCK)~0L: nothing is pending. */
  const NEVER: Clock := 0xffff_ffff

  const MAX_PENDING_ALARMS := 0x100

  class Alarm {
    const context: AlarmContext
    /** Index into the pending alarm list; negative when the alarm is not pending. */
    var pendingIdx: int
    var next: Alarm?
    var prev: Alarm?

    constructor (context: AlarmContext)
      ensures this.context == context && pendingIdx == -1 && next == prev == null
    {
      this.context := context;
      pendingIdx, next, prev := -1, null, null;
    }
  }

  datatype Pending = Pending(alarm: Alarm?, clk: Clock)

  /** The i-th alarm of a list, or null beyond its ends. */
  ghost function At(s: seq<Alarm>, i: int): Alarm? { if 0 <= i < |s| then s[i] else null }

  ghost predicate Distinct(s: seq<Alarm>) { forall i, j :: 0 <= i < j < |s| ==> s[i] != s[j] }

  ghost function Without(s: seq<Alarm>, at: nat): (r: seq<Alarm>)
    requires at < |s|
    ensures |r| == |s| - 1
    ensures forall i :: 0 <= i < |r| ==> r[i] == s[if i < at then i else i + 1]
    ensures Distinct(s) ==> Distinct(r) && s[at] !in r
  {
    s[..at] + s[at + 1..]
  }

  lemma NeighboursWithout(s: seq<Alarm>, at: nat, i: nat)
    requires at < |s| && i < |s| - 1
    ensures var k := if i < at then i else i + 1;
            && Without(s, at)[i] == s[k]
            && At(Without(s, at), i + 1) == At(s, if k == at - 1 then at + 1 else k + 1)
            && At(Without(s, at), i - 1) == At(s, if k == at + 1 then at - 1 else k - 1)
  {
  }

  lemma WithoutMembers(s: seq<Alarm>, at: nat)
    requires at < |s| && Distinct(s)
    ensures forall a :: a in Without(s, at) <==> a in s && a != s[at]
  {
    forall a | a in s && a != s[at]
      ensures a in Without(s, at)
    {
      var i :| 0 <= i < |s| && s[i] == a;
      assert Without(s, at)[if i < at then i else i - 1] == a;
    }
  }

  lemma HeadWithout(s: seq<Alarm>, at: nat)
    requires at < |s|
    ensures At(Without(s, at), 0) == if at == 0 then At(s, 1) else At(s, 0)
  {
  }

  /** A clock moved by a time warp. */
  function Warped(c: Clock, amount: Clock, direction: int): Clock {
    if direction == 0 then c
    else if direction > 0 then (c + amount) % 0x1_0000_0000 else (c - amount) % 0x1_0000_0000
  }

  predicate Wraps(c: Clock, amount: Clock, direction: int) {
    if direction > 0 then c + amount >= 0x1_0000_0000 else direction < 0 && c < amount
  }

  /** A warp keeps the order of two clocks exactly when both wrap around or neither does. */
  lemma WarpOrder(c: Clock, d: Clock, amount: Clock, direction: int)
    requires c <= d
    ensures Warped(c, amount, direction) <= Warped(d, amount, direction)
       <==> Wraps(c, amount, direction) == Wraps(d, amount, direction)
    ensures Warped(c, amount, direction) == Warped(d, amount, direction) <==> c == d
    ensures direction != 0 && amount != 0 ==> Warped(c, amount, direction) != c
    ensures direction == 0 || amount == 0 ==> Warped(c, amount, direction) == c
  {
    WarpedAs(c, amount, direction);
    WarpedAs(d, amount, direction);
  }

  lemma WarpedAs(c: Clock, amount: Clock, direction: int)
    ensures direction > 0 ==> Warped(c, amount, direction) == Turned(c + amount, Wraps(c, amount, direction))
    ensures direction < 0 ==>
              Warped(c, amount, direction) == Turned(c - amount + 0x1_0000_0000, !Wraps(c, amount, direction))
  {
  }

  /** A warp forward adds the amount and a warp backward takes it away again, in 32 bits. */
  lemma WarpThereAndBack(c: Clock, amount: Clock)
    ensures Warped(c, amount, 1) == if c + amount >= 0x1_0000_0000 then c + amount - 0x1_0000_0000 else c + amount
    ensures Warped(c, amount, -1) == if c < amount then c - amount + 0x1_0000_0000 else c - amount
    ensures Warped(Warped(c, amount, 1), amount, -1) == c && Warped(c, amount, 0) == c
  {
  }

  function Turned(x: int, turn: bool): int { if turn then x - 0x1_0000_0000 else x }

  /** Cached() on the plain sequence of pending clocks. */
  ghost predicate Minimum(clks: seq<Clock>, next: Clock, idx: int) {
    && (forall i :: 0 <= i < |clks| ==> next <= clks[i])
    && (next < NEVER ==> 0 <= idx < |clks| && clks[idx] == next)
  }

  /** When a time warp leaves the cached minimum right: either it does nothing, or something is pending, the cached
      index is in use, and either all deadlines wrap around or none does. */
  ghost predicate WarpKeepsMinimum(clks: seq<Clock>, next: Clock, idx: int, amount: Clock, direction: int) {
    amount == 0
    || (&& 0 <= idx < |clks|
        && clks[idx] == next
        && forall i :: 0 <= i < |clks| ==> Wraps(clks[i], amount, direction) == Wraps(next, amount, direction))
  }

  lemma WarpedMinimum(was: seq<Clock>, now: seq<Clock>, next: Clock, idx: int, amount: Clock, direction: int)
    requires Minimum(was, next, idx) && direction != 0
    requires |now| == |was| && forall i :: 0 <= i < |now| ==> now[i] == Warped(was[i], amount, direction)
    ensures Minimum(now, Warped(next, amount, direction), idx) <==> WarpKeepsMinimum(was, next, idx, amount, direction)
  {
    hide Warped, Wraps;
    WarpOrder(next, NEVER, amount, direction);
    forall i | 0 <= i < |was|
      ensures now[i] >= Warped(next, amount, direction)
         <==> Wraps(was[i], amount, direction) == Wraps(next, amount, direction)
      ensures now[i] == Warped(next, amount, direction) <==> was[i] == next
      ensures amount == 0 ==> now[i] == was[i]
    {
      WarpOrder(next, was[i], amount, direction);
      WarpOrder(was[i], NEVER, amount, direction);
    }
  }

  /** A warp by one breaks the cache of an empty context, and of one whose later deadline alone wraps around. */
  lemma WarpCanFail()
    ensures Minimum([], NEVER, -1) && !Minimum([], Warped(NEVER, 1, 1), -1)
    ensures var clks: seq<Clock> := [5, NEVER];
            Minimum(clks, 5, 0) && !Minimum([Warped(5, 1, 1), Warped(NEVER, 1, 1)], Warped(5, 1, 1), 0)
  {
    var now: seq<Clock> := [Warped(5, 1, 1), Warped(NEVER, 1, 1)];
    assert now[1] == 0 && Warped(5, 1, 1) == 6;
  }

  class AlarmContext {
    var alarms: Alarm?
    const pending: array<Pending>
    var numPending: nat
    var nextClk: Clock
    var nextIdx: int

    /** The alarms that exist, in list order. */
    ghost var live: seq<Alarm>
    /** What the scheduler stands for: when each pending alarm is due. */
    ghost var due: map<Alarm, Clock>

    ghost predicate Linked()
      reads this`alarms, this`live, live`next, live`prev
    {
      && alarms == At(live, 0)
      && Distinct(live)
      && (forall i {:trigger live[i].context} :: 0 <= i < |live| ==> live[i].context == this)
      && (forall i {:trigger live[i].next} :: 0 <= i < |live| ==> live[i].next == At(live, i + 1))
      && (forall i {:trigger live[i].prev} :: 0 <= i < |live| ==> live[i].prev == At(live, i - 1))
    }

    /** pendingIdx is the exact inverse of the pending array. */
    ghost predicate Indexed()
      reads this`live, this`due, this`numPending, pending, live`pendingIdx
    {
      && numPending <= pending.Length == MAX_PENDING_ALARMS
      && (forall i :: 0 <= i < numPending ==>
            pending[i].alarm != null && pending[i].alarm in live && pending[i].alarm.pendingIdx == i)
      && (forall a :: a in live ==> (a.pendingIdx >= 0 <==> a in due))
      && (forall a :: a in due ==>
            && a in live
            && a.pendingIdx < numPending
            && pending[a.pendingIdx] == Pending(a, due[a]))
    }

    /** The cached minimum: its clock is right for all deadlines, its index whenever it is not NEVER. */
    ghost predicate Cached()
      reads this`numPending, this`nextClk, this`nextIdx, pending
    {
      && numPending <= pending.Length
      && (forall i :: 0 <= i < numPending ==> nextClk <= pending[i].clk)
      && (nextClk < NEVER ==> 0 <= nextIdx < numPending && pending[nextIdx].clk == nextClk)
    }

    ghost predicate Valid()
      reads this, pending, live
    {
      Linked() && Indexed() && Cached()
    }

    /** alarm_context_init; nextIdx starts with whatever the allocated memory held. */
    constructor (garbage: int)
      ensures Valid() && live == [] && due == map[] && fresh(pending)
    {
      pending := new Pending[MAX_PENDING_ALARMS](_ => Pending(null, 0));
      alarms, numPending, nextClk, nextIdx := null, 0, NEVER, garbage;
      live, due := [], map[];
    }

    /** alarm_context_update_next_pending */
    method UpdateNextPending()
      requires Indexed()
      modifies this`nextClk, this`nextIdx
      ensures Cached()
    {
      var clk: Clock, idx := NEVER, nextIdx;
      for i := 0 to numPending
        invariant forall k :: 0 <= k < i ==> clk <= pending[k].clk
        invariant clk < NEVER ==> 0 <= idx < i && pending[idx].clk == clk
      {
        if pending[i].clk <= clk {
          clk := pending[i].clk;
          idx := i;
        }
      }
      nextClk := clk;
      nextIdx := idx;
    }

    /** alarm_set: on a full context an alarm that is not pending stays so. */
    method Set(alarm: Alarm, clk: Clock)
      requires Valid() && alarm in live
      modifies this`due, this`numPending, this`nextClk, this`nextIdx, pending, alarm`pendingIdx
      ensures Valid()
      ensures due == if old(alarm in due || |due| < MAX_PENDING_ALARMS) then old(due)[alarm := clk] else old(due)
      ensures old(alarm !in due && |due| >= MAX_PENDING_ALARMS) ==>
                unchanged(this) && unchanged(pending) && unchanged(alarm)
    {
      hide Linked, Cached;
      CountPending();
      if alarm.pendingIdx < 0 {
        if numPending >= MAX_PENDING_ALARMS {
          return;
        }
        Add(alarm, clk);
      } else {
        Modify(alarm, clk);
      }
    }

    /** Not pending yet. */
    method Add(alarm: Alarm, clk: Clock)
      requires Indexed() && Cached() && alarm in live && alarm.pendingIdx < 0 && numPending < MAX_PENDING_ALARMS
      modifies this`due, this`numPending, this`nextClk, this`nextIdx, pending, alarm`pendingIdx
      ensures Indexed() && Cached()
      ensures due == old(due)[alarm := clk]
    {
      hide Indexed;
      var newIdx := numPending;
      AddSlot(alarm, clk);
      if clk < nextClk {
        nextClk := clk;
        nextIdx := newIdx;
      }
    }

    method AddSlot(alarm: Alarm, clk: Clock)
      requires Indexed() && alarm in live && alarm.pendingIdx < 0 && numPending < MAX_PENDING_ALARMS
      modifies this`due, this`numPending, pending, alarm`pendingIdx
      ensures Indexed()
      ensures due == old(due)[alarm := clk]
      ensures numPending == old(numPending) + 1 <= pending.Length
      ensures pending[old(numPending)].clk == clk
      ensures forall i :: 0 <= i < old(numPending) ==> pending[i] == old(pending[i])
    {
      pending[numPending] := Pending(alarm, clk);
      alarm.pendingIdx := numPending;
      numPending := numPending + 1;
      due := due[alarm := clk];
    }

    /** Already pending. */
    method Modify(alarm: Alarm, clk: Clock)
      requires Indexed() && Cached() && alarm in due
      modifies this`due, this`nextClk, this`nextIdx, pending
      ensures Indexed() && Cached()
      ensures due == old(due)[alarm := clk]
    {
      hide Indexed;
      var idx := SetSlot(alarm, clk);
      if nextClk > clk || idx == nextIdx {
        UpdateNextPending();
      }
    }

    method SetSlot(alarm: Alarm, clk: Clock) returns (idx: nat)
      requires Indexed() && alarm in due
      modifies this`due, pending
      ensures Indexed()
      ensures due == old(due)[alarm := clk]
      ensures numPending <= pending.Length && idx < numPending && pending[idx].clk == clk
      ensures forall i :: 0 <= i < numPending && i != idx ==> pending[i] == old(pending[i])
    {
      idx := alarm.pendingIdx;
      pending[idx] := pending[idx].(clk := clk);
      due := due[alarm := clk];
    }

    /** alarm_unset */
    method Unset(alarm: Alarm)
      requires Valid() && alarm in live
      modifies this`due, this`numPending, this`nextClk, this`nextIdx, pending, live`pendingIdx
      ensures Valid()
      ensures due == old(due) - {alarm}
      ensures alarm.pendingIdx < 0
    {
      hide Linked;
      var idx := alarm.pendingIdx;
      if idx < 0 {
        return;
      }
      if numPending > 1 {
        var last := SwapInLast(alarm);
        AfterSwap(idx, last);
      } else {
        RemoveOnly(alarm);
      }
    }

    /** The cached minimum after the entry at last has moved to idx. */
    method AfterSwap(idx: nat, last: nat)
      requires Indexed() && last == numPending && idx <= last
      requires forall i :: 0 <= i < numPending ==> nextClk <= pending[i].clk
      requires nextClk < NEVER && nextIdx == last != idx ==> pending[idx].clk == nextClk
      requires nextClk < NEVER && nextIdx != last && nextIdx != idx ==>
                 0 <= nextIdx < last && pending[nextIdx].clk == nextClk
      modifies this`nextClk, this`nextIdx
      ensures Cached()
    {
      if nextIdx == idx {
        UpdateNextPending();
      } else if nextIdx == last {
        nextIdx := idx;
      }
    }

    /** The last entry of the array takes the place of the removed one. */
    method SwapInLast(alarm: Alarm) returns (last: nat)
      requires Indexed() && alarm in due && numPending > 1
      modifies this`due, this`numPending, pending, live`pendingIdx
      ensures Indexed()
      ensures due == old(due) - {alarm} && alarm.pendingIdx < 0
      ensures last == numPending == old(numPending) - 1
      ensures old(alarm.pendingIdx) < last ==> pending[old(alarm.pendingIdx)] == old(pending[last])
      ensures forall i :: 0 <= i < last && i != old(alarm.pendingIdx) ==> pending[i] == old(pending[i])
    {
      var idx := alarm.pendingIdx;
      last := numPending - 1;
      ghost var moved := pending[last].alarm;
      assert forall a :: a in due && a != alarm ==> a.pendingIdx != idx;
      assert forall a :: a in due && a != moved ==> a.pendingIdx < last;
      numPending := last;
      if last != idx {
        pending[idx] := pending[last];
        pending[idx].alarm.pendingIdx := idx;
      }
      alarm.pendingIdx := -1;
      due := due - {alarm};
    }

    method RemoveOnly(alarm: Alarm)
      requires Indexed() && alarm in due && numPending <= 1
      modifies this`due, this`numPending, this`nextClk, this`nextIdx, alarm`pendingIdx
      ensures Indexed() && Cached()
      ensures due == old(due) - {alarm} && alarm.pendingIdx < 0
    {
      numPending := 0;
      nextClk := NEVER;
      nextIdx := -1;
      alarm.pendingIdx := -1;
      due := due - {alarm};
    }

    // ---------- the list of alarms ----------

    /** alarm_new and alarm_init: the new alarm becomes the head of the list. */
    method New() returns (alarm: Alarm)
      requires Valid()
      modifies this`alarms, this`live, live`prev
      ensures Valid() && fresh(alarm)
      ensures live == [alarm] + old(live) && due == old(due)
    {
      hide Cached;
      hide At, Distinct;
      alarm := new Alarm(this);
      LinkFirst(alarm);
      hide Linked;
    }

    /** alarm_init puts the alarm at the head. */
    method LinkFirst(alarm: Alarm)
      requires Linked() && alarm !in live && alarm.context == this
      modifies this`alarms, this`live, live`prev, alarm`next, alarm`prev
      ensures Linked() && live == [alarm] + old(live)
    {
      if alarms == null {
        alarms := alarm;
        alarm.next := null;
      } else {
        alarm.next := alarms;
        alarms.prev := alarm;
        alarms := alarm;
      }
      alarm.prev := null;
      live := [alarm] + live;
    }

    /** alarm_destroy; at is the position of the alarm in the list. */
    method Destroy(alarm: Alarm, ghost at: nat)
      requires Valid() && at < |live| && live[at] == alarm
      modifies this, pending, live
      ensures Valid()
      ensures live == old(Without(live, at)) && due == old(due) - {alarm}
    {
      hide Cached, Distinct, At;
      Unset(alarm);
      WithoutMembers(live, at);
      hide Linked;
      Unlink(alarm, at);
    }

    method Unlink(alarm: Alarm, ghost at: nat)
      requires Linked() && at < |live| && live[at] == alarm
      modifies this`alarms, this`live, live`next, live`prev
      ensures Linked()
      ensures live == old(Without(live, at))
    {
      ghost var was := live;
      Bypass(alarm, at);
      live := Without(live, at);
      hide Distinct, Without, At;
      forall i | 0 <= i < |live|
        ensures live[i].next == At(live, i + 1) && live[i].prev == At(live, i - 1)
      {
        NeighboursWithout(was, at, i);
      }
      HeadWithout(was, at);
    }

    /** The neighbours of the alarm are linked to each other. */
    method Bypass(alarm: Alarm, ghost at: nat)
      requires Linked() && at < |live| && live[at] == alarm
      modifies this`alarms, live`next, live`prev
      ensures alarms == if at == 0 then At(live, 1) else At(live, 0)
      ensures forall i {:trigger live[i].next} :: 0 <= i < |live| ==>
                live[i].next == At(live, if i == at - 1 then at + 1 else i + 1)
      ensures forall i {:trigger live[i].prev} :: 0 <= i < |live| ==>
                live[i].prev == At(live, if i == at + 1 then at - 1 else i - 1)
    {
      hide Distinct;
      DistinctAt(live);
      if alarm == alarms {
        alarms := alarm.next;
      }
      if alarm.next != null {
        alarm.next.prev := alarm.prev;
      }
      if alarm.prev != null {
        alarm.prev.next := alarm.next;
      }
    }

    lemma DistinctAt(s: seq<Alarm>)
      requires Distinct(s)
      ensures forall i, j :: 0 <= i < |s| && 0 <= j < |s| && i != j ==> s[i] != s[j]
    {
    }

    /** alarm_context_destroy */
    method DestroyAll()
      requires Valid()
      modifies this, pending, live
      ensures Valid() && live == [] && due == map[]
    {
      hide Cached, Indexed, Distinct;
      var ap := alarms;
      while ap != null
        invariant Valid() && ap == At(live, 0)
        invariant live == old(live)[|old(live)| - |live|..]
        decreases |live|
      {
        var apNext := ap.next;
        Destroy(ap, 0);
        ap := apNext;
      }
      DueAreLive();
    }

    // ---------- moving the clock ----------

    /** alarm_context_time_warp, in CLOCK arithmetic, the cached clock included. */
    method TimeWarp(amount: Clock, direction: int)
      requires Valid()
      modifies this`due, this`nextClk, pending
      ensures Linked() && Indexed()
      ensures due == map a | a in old(due) :: Warped(old(due[a]), amount, direction)
      ensures Valid() <==> direction == 0 || old(WarpKeepsMinimum(Clks(), nextClk, nextIdx, amount, direction))
    {
      hide Linked, Warped, Wraps, Minimum, WarpKeepsMinimum, Cached;
      CachedIsMinimum();
      if direction == 0 {
        WarpNothing(amount);
        return;
      }
      ghost var was := Clks();
      WarpAll(amount, direction);
      hide Indexed;
      assert forall i :: 0 <= i < numPending ==> Clks()[i] == Warped(was[i], amount, direction);
      WarpedMinimum(was, Clks(), nextClk, nextIdx, amount, direction);
      nextClk := Warped(nextClk, amount, direction);
      CachedIsMinimum();
    }

    lemma CachedIsMinimum()
      requires numPending <= pending.Length
      ensures Cached() <==> Minimum(Clks(), nextClk, nextIdx)
    {
    }

    ghost function Clks(): (s: seq<Clock>)
      requires numPending <= pending.Length
      reads this`numPending, pending
      ensures |s| == numPending && forall i :: 0 <= i < numPending ==> s[i] == pending[i].clk
    {
      seq(numPending, i requires 0 <= i < pending.Length reads pending => pending[i].clk)
    }

    method WarpAll(amount: Clock, direction: int)
      requires Indexed()
      modifies this`due, pending
      ensures Indexed()
      ensures due == map a | a in old(due) :: Warped(old(due[a]), amount, direction)
      ensures forall i :: 0 <= i < numPending ==> pending[i].clk == Warped(old(pending[i].clk), amount, direction)
    {
      hide Warped;
      WarpArray(amount, direction);
      due := map a | a in due :: Warped(due[a], amount, direction);
    }

    method WarpArray(amount: Clock, direction: int)
      requires numPending <= pending.Length
      modifies pending
      ensures forall i :: 0 <= i < numPending ==>
                pending[i] == Pending(old(pending[i].alarm), Warped(old(pending[i].clk), amount, direction))
    {
      hide Warped;
      for i := 0 to numPending
        invariant forall k :: 0 <= k < i ==>
                    pending[k] == Pending(old(pending[k].alarm), Warped(old(pending[k].clk), amount, direction))
        invariant forall k :: i <= k < numPending ==> pending[k] == old(pending[k])
      {
        pending[i] := pending[i].(clk := Warped(pending[i].clk, amount, direction));
      }
    }

    lemma WarpNothing(amount: Clock)
      ensures due == map a | a in due :: Warped(due[a], amount, 0)
    {
    }

    lemma DueAreLive()
      requires Indexed()
      ensures forall a :: a in due ==> a in live
    {
    }

    /** What the cached clock means: a lower bound of all deadlines that one of them attains. */
    lemma NextIsEarliest()
      requires Valid()
      ensures forall a :: a in due ==> nextClk <= due[a]
      ensures due == map[] ==> nextClk == NEVER
      ensures due != map[] ==> exists a :: a in due && due[a] == nextClk
      ensures nextClk < NEVER ==> pending[nextIdx].alarm in due && due[pending[nextIdx].alarm] == nextClk
    {
      hide Linked;
      if nextClk == NEVER && due != map[] {
        var a :| a in due;
        assert due[a] == NEVER;
      }
    }

    ghost function Heads(k: nat): set<Alarm?>
      requires k <= pending.Length
      reads pending
    {
      if k == 0 then {} else Heads(k - 1) + {pending[k - 1].alarm}
    }

    lemma {:induction false} CountHeads(k: nat)
      requires k <= pending.Length
      requires forall i :: 0 <= i < k ==> pending[i].alarm != null && pending[i].alarm.pendingIdx == i
      ensures |Heads(k)| == k
      ensures forall a :: a in Heads(k) ==> a != null && 0 <= a.pendingIdx < k && pending[a.pendingIdx].alarm == a
      ensures forall i :: 0 <= i < k ==> pending[i].alarm in Heads(k)
    {
      if k > 0 {
        CountHeads(k - 1);
        assert pending[k - 1].alarm !in Heads(k - 1);
      }
    }

    /** The array holds each pending alarm once. */
    lemma CountPending()
      requires Indexed()
      ensures |due| == numPending
    {
      CountHeads(numPending);
      assert Heads(numPending) == due.Keys;
    }
  }
}
