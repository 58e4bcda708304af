/** What holds over whole runs of the ACIA: it does not transmit too fast, and it loses no byte. */
module AciaRuns {
  import opened Bytes
  import opened Acia6551

  // ---------- time ----------

  /** Events happen in order, alarms fire when they are due or later, and CLOCK does not wrap around.
      A read-modify-write instruction writes twice, in successive cycles. */
  ghost predicate Feasible(s: State, now: int, e: Timed) {
    && 0 <= now <= e.clk < 0xffff_ffff
    && (e.event.WriteRmw? ==> now < e.clk)
    && (e.event.TxFires? ==> s.tx.due.Some? && s.tx.due.value <= e.clk && e.clk + s.ticks < 0x1_0000_0000)
  }

  ghost function Now(start: int, events: seq<Timed>): int {
    if events == [] then start else events[|events| - 1].clk
  }

  ghost predicate Timely(w: Wiring, s: State, start: int, events: seq<Timed>)
    decreases |events|
  {
    events == []
    || var before := events[..|events| - 1];
       Timely(w, s, start, before) && Feasible(Run(w, s, before), Now(start, before), events[|events| - 1])
  }

  // ---------- pacing ----------

  /** Neither a reset nor a store that drops DTR. */
  ghost predicate KeepsLine(w: Wiring, s: State, e: Event) {
    match e
    case Reset => false
    case Write(addr, byte, _) => RegisterAt(w, addr) != 1 && (RegisterAt(w, addr) == 2 ==> Dtr(byte))
    case WriteRmw(addr, byte, _, _) =>
      RegisterAt(w, addr) != 1 && (RegisterAt(w, addr) == 2 ==> Dtr(byte) && Dtr(s.lastRead))
    case _ => true
  }

  ghost predicate Spaced(out: seq<Put>, from: nat) {
    forall i :: from <= i < |out| - 1 ==> out[i].clk + out[i].ticks <= out[i + 1].clk
  }

  /** The transmitter rests until the last byte has left. */
  ghost predicate Rests(out: seq<Put>, from: nat, tx: Timer, now: int) {
    |out| > from ==>
      var last := out[|out| - 1];
      last.clk + last.ticks <= if tx.active then tx.clk else now
  }

  ghost predicate Paced(s: State, from: nat, now: int) {
    Spaced(s.serial.out, from) && Rests(s.serial.out, from, s.tx, now)
  }

  lemma HandshakeKeeps(w: Wiring, s: State, clk: int)
    ensures var t := Handshake(w, s, clk);
            && t.tx == s.tx && t.serial.out == s.serial.out && t.serial.got == s.serial.got
            && t.serial.fd == s.serial.fd && t.inTx == s.inTx && t.status == s.status
            && t.txdata == s.txdata && t.rxdata == s.rxdata && t.cmd == s.cmd
  {
    hide Clk, TransmitterOf, Dtr;
  }

  lemma StorePaced(w: Wiring, s: State, addr: u16, byte: u8, clk: int, answer: int, from: nat, now: int)
    requires Paced(s, from, now) && now <= clk && 0 <= clk < 0xffff_ffff
    requires RegisterAt(w, addr) != 1 && (RegisterAt(w, addr) == 2 ==> Dtr(byte))
    ensures Paced(Store(w, s, addr, byte, clk, answer), from, clk)
  {
    hide Clk, RegisterAt, Dtr, ExternalClock, Handshake, Spaced;
    HandshakeKeeps(w, s.(cmd := byte), clk);
  }

  lemma TxPaced(w: Wiring, s: State, clk: int, from: nat, now: int)
    requires Paced(s, from, now) && s.tx.active && s.tx.clk <= clk && 0 <= clk && clk + s.ticks < 0x1_0000_0000
    ensures Paced(TxAlarm(w, s, clk), from, clk)
  {
    hide Clk, TransmitterOf;
  }

  lemma StepPaced(w: Wiring, s: State, e: Timed, from: nat, now: int)
    requires Consistent(w, s) && Paced(s, from, now) && Feasible(s, now, e) && KeepsLine(w, s, e.event)
    ensures Paced(Step(w, s, e), from, e.clk)
  {
    hide Clk, RegisterAt, Dtr, Store, Value, TxAlarm, Spaced;
    match e.event {
      case Write(addr, byte, answer) => StorePaced(w, s, addr, byte, e.clk, answer, from, now);
      case WriteRmw(addr, byte, answer, answer') =>
        StorePaced(w, s, addr, s.lastRead, e.clk - 1, answer, from, now);
        StorePaced(w, Store(w, s, addr, s.lastRead, e.clk - 1, answer), addr, byte, e.clk, answer', from, e.clk - 1);
      case TxFires => TxPaced(w, s, e.clk, from, now);
      case ReadAt(_, _) =>
      case RxFires(_) =>
      case Reset =>
    }
  }

  /** However accesses and alarms interleave, without a reset or a DTR drop two successive bytes leave at least as far
      apart as a character lasted when the first one left. */
  lemma {:induction false} TransmissionIsPaced(w: Wiring, s: State, start: int, events: seq<Timed>)
    requires Consistent(w, s) && Timely(w, s, start, events)
    requires forall k :: 0 <= k < |events| ==> KeepsLine(w, Run(w, s, events[..k]), events[k].event)
    ensures Consistent(w, Run(w, s, events))
    ensures Paced(Run(w, s, events), |s.serial.out|, Now(start, events))
    decreases |events|
  {
    hide Step, Consistent, Feasible, KeepsLine, Spaced, Rests;
    if events == [] {
      NothingSent(s, start);
    } else {
      var n := |events| - 1;
      var before := events[..n];
      assert forall k :: 0 <= k < n ==> before[..k] == events[..k];
      TransmissionIsPaced(w, s, start, before);
      StepConsistent(w, Run(w, s, before), events[n]);
      StepPaced(w, Run(w, s, before), events[n], |s.serial.out|, Now(start, before));
    }
  }

  lemma NothingSent(s: State, now: int)
    ensures Paced(s, |s.serial.out|, now)
  {
  }

  /** Both callbacks unset their alarm or re-arm it for later, as the dispatcher needs to terminate, and neither touches
      the other's alarm. */
  lemma AlarmsMoveForward(w: Wiring, s: State, clk: int, input: Option<u8>)
    requires s.ticks > 0 && s.ticksRx > 0 && 0 <= clk && clk + s.ticks + s.ticksRx < 0x1_0000_0000
    ensures var t := TxAlarm(w, s, clk); (t.tx.due.Some? ==> t.tx.due.value > clk) && t.rx == s.rx
    ensures var t := RxAlarm(w, s, clk, input); t.rx.due.Some? && t.rx.due.value > clk && t.tx == s.tx
  {
    hide TransmitterOf, IrqDisabled, Clk;
  }

  // ---------- conservation ----------

  /** Since the last reset: what the software wrote and read, and what the line carried. */
  datatype Trace = Trace(written: seq<u8>, sent: seq<u8>, received: seq<u8>, taken: seq<u8>)

  function Held(s: State): seq<u8> { if s.status.full then [s.rxdata] else [] }

  function Waiting(s: State): seq<u8> { if s.inTx.DrWritten? then [s.txdata] else [] }

  /** After a reset only a byte that is still in the receive register counts as received. */
  function Fresh(s: State): Trace { Trace([], [], Held(s), []) }

  function BytesOf(out: seq<Put>): seq<u8> { seq(|out|, i requires 0 <= i < |out| => out[i].byte) }

  ghost function After(w: Wiring, t: Trace, s: State, e: Timed): Trace {
    var s' := Step(w, s, e);
    match e.event
    case Reset => Fresh(s')
    case Write(addr, byte, _) =>
      if RegisterAt(w, addr) == 0 then t.(written := t.written + [byte])
      else if RegisterAt(w, addr) == 1 then Fresh(s') else t
    case WriteRmw(addr, byte, _, _) =>
      if RegisterAt(w, addr) == 0 then t.(written := t.written + [s.lastRead, byte])
      else if RegisterAt(w, addr) == 1 then Fresh(s') else t
    case ReadAt(addr, dsr) =>
      if RegisterAt(w, addr) == 0 && s.status.full then t.(taken := t.taken + [Value(w, s, addr, dsr)]) else t
    case TxFires =>
      if |s.serial.out| <= |s'.serial.out| then t.(sent := t.sent + BytesOf(s'.serial.out[|s.serial.out|..])) else t
    case RxFires(_) =>
      if |s.serial.got| <= |s'.serial.got| then t.(received := t.received + s'.serial.got[|s.serial.got|..]) else t
  }

  ghost function Traced(w: Wiring, s: State, events: seq<Timed>): Trace
    decreases |events|
  {
    if events == [] then Fresh(s)
    else
      var before := events[..|events| - 1];
      After(w, Traced(w, s, before), Run(w, s, before), events[|events| - 1])
  }

  /** The data register takes a byte that will be sent: none is waiting, DTR is on and the port is open. */
  predicate Ready(s: State) { !s.inTx.DrWritten? && Dtr(s.cmd) && s.serial.fd >= 0 }

  /** Software that stores to the data register only when it is ready; the alarm fires only when it is set. */
  ghost predicate Polite(w: Wiring, s: State, e: Event) {
    match e
    case Write(addr, _, _) => RegisterAt(w, addr) == 0 ==> Ready(s)
    case WriteRmw(addr, _, _, _) => RegisterAt(w, addr) != 0
    case TxFires => s.tx.due.Some?
    case _ => true
  }

  /** A byte that its alarm will pick up finds the port open. */
  predicate PortOpen(s: State) { s.tx.active && s.inTx.DrWritten? ==> s.serial.fd >= 0 }

  /** Every byte written was sent or is still waiting, in order. */
  ghost predicate Balanced(s: State, t: Trace) { t.written == t.sent + Waiting(s) }

  /** The number of bytes written that were neither sent nor are waiting. */
  ghost function Missing(s: State, t: Trace): int { |t.written| - |t.sent| - |Waiting(s)| }

  /** Every byte received was read or is in the receive register, unless an overrun was flagged. */
  ghost predicate NothingLostIn(s: State, t: Trace) {
    !s.status.overrun ==> t.received == t.taken + Held(s)
  }

  // ---------- where bytes are lost ----------

  /** A reset by the hardware or the software. */
  predicate Restarts(w: Wiring, e: Event) {
    match e
    case Reset => true
    case Write(addr, _, _) => RegisterAt(w, addr) == 1
    case WriteRmw(addr, _, _, _) => RegisterAt(w, addr) == 1
    case _ => false
  }

  predicate Ignored(s: State) { !Dtr(s.cmd) || s.inTx.DrWritten? }

  /** A store loses a byte with DTR off, and when it overwrites a waiting one, as each read-modify-write does; the alarm
      loses the waiting byte when the port is closed. */
  function LossAt(w: Wiring, s: State, e: Event): nat {
    match e
    case Write(addr, _, _) => OneIf(RegisterAt(w, addr) == 0 && Ignored(s))
    case WriteRmw(addr, _, _, _) => if RegisterAt(w, addr) == 0 then OneIf(Ignored(s)) + 1 else 0
    case TxFires => OneIf(s.inTx.DrWritten? && s.serial.fd < 0)
    case _ => 0
  }

  /** All losses since the last reset. */
  function Losses(w: Wiring, s: State, events: seq<Timed>): nat
    decreases |events|
  {
    if events == [] then 0
    else
      var before := events[..|events| - 1];
      var e := events[|events| - 1].event;
      if Restarts(w, e) then 0 else Losses(w, s, before) + LossAt(w, Run(w, s, before), e)
  }

  lemma StoreCounts(w: Wiring, s: State, t: Trace, e: Timed)
    requires e.event.Write? || e.event.WriteRmw?
    ensures Counted(w, s, t, e)
  {
    hide Clk, RegisterAt, Dtr, Store, Held, BytesOf;
    match e.event {
      case Write(addr, byte, answer) =>
        DataStore(w, s, addr, byte, e.clk, answer);
        StoreLosesNothing(w, s, addr, byte, e.clk, answer);
      case WriteRmw(addr, byte, answer, answer') =>
        var u := Store(w, s, addr, s.lastRead, e.clk - 1, answer);
        DataStore(w, s, addr, s.lastRead, e.clk - 1, answer);
        DataStore(w, u, addr, byte, e.clk, answer');
        StoreLosesNothing(w, s, addr, s.lastRead, e.clk - 1, answer);
        StoreLosesNothing(w, u, addr, byte, e.clk, answer');
    }
  }

  lemma DataStore(w: Wiring, s: State, addr: u16, byte: u8, clk: int, answer: int)
    ensures var s' := Store(w, s, addr, byte, clk, answer);
            RegisterAt(w, addr) == 0 ==>
              && s'.cmd == s.cmd && s'.serial == s.serial
              && (if Dtr(s.cmd) then s'.inTx.DrWritten? && s'.txdata == byte else s'.inTx == s.inTx)
  {
    hide Clk, RegisterAt, Dtr;
  }

  ghost predicate Counted(w: Wiring, s: State, t: Trace, e: Timed) {
    var s' := Step(w, s, e);
    var t' := After(w, t, s, e);
    && Missing(s', t') == (if Restarts(w, e.event) then 0 else Missing(s, t) + LossAt(w, s, e.event))
    && (Restarts(w, e.event) || (Balanced(s, t) && LossAt(w, s, e.event) == 0) ==> Balanced(s', t'))
  }

  lemma StepCounts(w: Wiring, s: State, t: Trace, e: Timed)
    ensures Counted(w, s, t, e)
  {
    hide Clk, RegisterAt, Dtr, Store, Value, TransmitterOf, SetTicks, Held;
    match e.event {
      case Write(_, _, _) => StoreCounts(w, s, t, e);
      case WriteRmw(_, _, _, _) => StoreCounts(w, s, t, e);
      case TxFires =>
        var sent := Step(w, s, e).serial.out[|s.serial.out|..];
        assert BytesOf(sent) == if s.inTx.DrWritten? && s.serial.fd >= 0 then [s.txdata] else [];
      case ReadAt(_, _) => assert Waiting(Step(w, s, e)) == Waiting(s);
      case RxFires(_) => assert Waiting(Step(w, s, e)) == Waiting(s);
      case Reset => assert Waiting(Step(w, s, e)) == [];
    }
  }

  /** Conservation in every run: the bytes missing are those the events are charged with, and what the line carried is
      what was written, in order, if and only if there are none. */
  lemma {:induction false} LossesCounted(w: Wiring, s: State, events: seq<Timed>)
    requires s.inTx.NoTransmit?
    ensures Missing(Run(w, s, events), Traced(w, s, events)) == Losses(w, s, events)
    ensures Balanced(Run(w, s, events), Traced(w, s, events)) <==> Losses(w, s, events) == 0
    decreases |events|
  {
    hide Step, After, LossAt, Restarts, Missing, Balanced;
    if events == [] {
      NothingWritten(s);
    } else {
      var before := events[..|events| - 1];
      LossesCounted(w, s, before);
      StepCounts(w, Run(w, s, before), Traced(w, s, before), events[|events| - 1]);
      BalanceMissesNothing(Run(w, s, events), Traced(w, s, events));
    }
  }

  lemma BalanceMissesNothing(s: State, t: Trace)
    ensures Balanced(s, t) ==> Missing(s, t) == 0
  {
  }

  lemma NothingWritten(s: State)
    requires s.inTx.NoTransmit?
    ensures Missing(s, Fresh(s)) == 0 && Balanced(s, Fresh(s))
  {
  }

  /** Waiting for TRANSMIT_DR_EMPTY is enough to be polite. */
  lemma EmptyMeansReady(w: Wiring, s: State)
    requires Consistent(w, s) && s.status.empty && Dtr(s.cmd) && s.serial.fd >= 0
    ensures Ready(s)
  {
  }

  /** Being ready is also necessary: after any other store to the data register a byte is gone when the alarm fires
      next. */
  lemma LostUnlessReady(w: Wiring, s: State, t: Trace, addr: u16, byte: u8, answer: int, clk: int, clk': int)
    requires Balanced(s, t) && RegisterAt(w, addr) == 0
    ensures var e := Timed(clk, Write(addr, byte, answer)); var f := Timed(clk', TxFires);
            var s', t' := Step(w, s, e), After(w, t, s, e);
            && (Balanced(s', t') <==> Dtr(s.cmd) && !s.inTx.DrWritten?)
            && (Balanced(Step(w, s', f), After(w, t', s', f)) <==> Ready(s))
  {
    hide RegisterAt, Dtr, Store, TxAlarm, After;
    var e := Timed(clk, Write(addr, byte, answer));
    StepCounts(w, s, t, e);
    StepCounts(w, Step(w, s, e), After(w, t, s, e), Timed(clk', TxFires));
    DataStore(w, s, addr, byte, clk, answer);
  }

  /** Unless the port is opened in between. */
  lemma OpenedInTime(w: Wiring, s: State, t: Trace, byte: u8, cmd: u8, answer: int, clk: int, clk': int, clk'': int)
    requires Balanced(s, t) && Dtr(s.cmd) && !s.inTx.DrWritten? && s.serial.fd < 0 && Dtr(cmd) && answer >= 0
    ensures var e := Timed(clk, Write(0, byte, 0)); var f := Timed(clk', Write(2, cmd, answer));
            var g := Timed(clk'', TxFires);
            var s1, t1 := Step(w, s, e), After(w, t, s, e);
            var s2, t2 := Step(w, s1, f), After(w, t1, s1, f);
            var s3, t3 := Step(w, s2, g), After(w, t2, s2, g);
            Balanced(s3, t3) && t3.sent == t.sent + [byte]
  {
    assert RegisterAt(w, 0) == 0 && RegisterAt(w, 2) == 2;
    hide RegisterAt, Dtr, StoreCmd, StoreDr, SetTicks, ProgrammedReset, Transmit, BytesOf;
    var e := Timed(clk, Write(0, byte, 0));
    var s1, t1 := Step(w, s, e), After(w, t, s, e);
    var f := Timed(clk', Write(2, cmd, answer));
    var s2, t2 := Step(w, s1, f), After(w, t1, s1, f);
    StepCounts(w, s, t, e);
    StepCounts(w, s1, t1, f);
    StepCounts(w, s2, t2, Timed(clk'', TxFires));
    DataStore(w, s, 0, byte, clk, 0);
    CmdOpens(w, s1, cmd, clk', answer);
    assert t1.written == t.written + [byte] && t1.sent == t.sent && t2 == t1;
  }

  /** The port after a store to the command register. */
  function OpenedBy(s: State, byte: u8, answer: int): int {
    if Dtr(byte) then (if s.serial.fd < 0 then answer else s.serial.fd)
    else if s.serial.fd < 0 then s.serial.fd else -1
  }

  lemma CmdOpens(w: Wiring, s: State, byte: u8, clk: int, answer: int)
    ensures var s' := StoreCmd(w, s, byte, clk, answer);
            s'.inTx == s.inTx && s'.txdata == s.txdata && s'.status == s.status && s'.cmd == byte
    ensures StoreCmd(w, s, byte, clk, answer).serial.fd == OpenedBy(s, byte, answer)
    ensures StoreCmd(w, s, byte, clk, answer).tx == if !Dtr(byte) && s.serial.fd >= 0 then Stopped(s.tx) else s.tx
  {
    hide Clk, Dtr, Handshake;
    HandshakeKeeps(w, s.(cmd := byte), clk);
  }

  lemma ResetKeepsHeld(w: Wiring, s: State, clk: int)
    ensures var s' := ProgrammedReset(w, s, clk);
            && Waiting(s') == [] && !s'.status.overrun && Held(s') == Held(s) && !s'.tx.active
            && s'.serial.out == s.serial.out && s'.serial.got == s.serial.got
  {
    hide Handshake, ParityBits;
    var t := s.(serial := s.serial.(fd := -1), status := s.status.(overrun := false), cmd := ParityBits(s.cmd),
                inTx := NoTransmit, tx := Stopped(s.tx));
    HandshakeKeeps(w, SetInt(w, t, false), clk);
    HandshakeTimer(w, SetInt(w, t, false), clk);
  }

  lemma HandshakeTimer(w: Wiring, s: State, clk: int)
    ensures Handshake(w, s, clk).tx == s.tx
  {
    HandshakeKeeps(w, s, clk);
  }

  lemma CmdLosesNothing(w: Wiring, s: State, byte: u8, clk: int, answer: int)
    ensures var s' := StoreCmd(w, s, byte, clk, answer);
            && (PortOpen(s) ==> PortOpen(s')) && s'.inTx == s.inTx && s'.txdata == s.txdata && s'.status == s.status
            && s'.rxdata == s.rxdata && s'.serial.out == s.serial.out && s'.serial.got == s.serial.got
  {
    hide Clk, Dtr, Handshake;
    HandshakeKeeps(w, s.(cmd := byte), clk);
  }

  lemma StoreLosesNothing(w: Wiring, s: State, addr: u16, byte: u8, clk: int, answer: int)
    ensures var s' := Store(w, s, addr, byte, clk, answer);
            && Held(s') == Held(s) && s'.serial.out == s.serial.out && s'.serial.got == s.serial.got
            && (RegisterAt(w, addr) == 1 ==> Waiting(s') == [])
            && (RegisterAt(w, addr) != 1 ==> s'.status.overrun == s.status.overrun)
            && (RegisterAt(w, addr) >= 2 ==> Waiting(s') == Waiting(s))
            && (RegisterAt(w, addr) >= 1 && PortOpen(s) ==> PortOpen(s'))
  {
    hide Clk, RegisterAt, ExternalClock, StoreCmd, ProgrammedReset;
    CmdLosesNothing(w, s, byte, clk, answer);
    ResetKeepsHeld(w, s, clk);
  }

  lemma StepKeepsPort(w: Wiring, s: State, e: Timed)
    requires Consistent(w, s) && PortOpen(s) && Polite(w, s, e.event)
    ensures PortOpen(Step(w, s, e)) && LossAt(w, s, e.event) == 0
  {
    hide Clk, RegisterAt, Dtr, Store, Value, TransmitterOf, SetTicks, Held, BytesOf;
    match e.event {
      case Write(addr, byte, answer) =>
        StoreLosesNothing(w, s, addr, byte, e.clk, answer);
        DataStore(w, s, addr, byte, e.clk, answer);
      case WriteRmw(addr, byte, answer, answer') =>
        StoreLosesNothing(w, s, addr, s.lastRead, e.clk - 1, answer);
        StoreLosesNothing(w, Store(w, s, addr, s.lastRead, e.clk - 1, answer), addr, byte, e.clk, answer');
      case TxFires =>
      case ReadAt(_, _) =>
      case RxFires(_) =>
      case Reset =>
    }
  }

  lemma StepLosesNothingIn(w: Wiring, s: State, t: Trace, e: Timed)
    requires NothingLostIn(s, t)
    ensures NothingLostIn(Step(w, s, e), After(w, t, s, e))
  {
    hide RegisterAt, Store, TxAlarm, RxAlarm, Load, HardReset, BytesOf, Waiting, Held, Value;
    match e.event {
      case Write(addr, byte, answer) => StoreLosesNothing(w, s, addr, byte, e.clk, answer);
      case WriteRmw(addr, byte, answer, answer') =>
        StoreLosesNothing(w, s, addr, s.lastRead, e.clk - 1, answer);
        StoreLosesNothing(w, Store(w, s, addr, s.lastRead, e.clk - 1, answer), addr, byte, e.clk, answer');
      case TxFires => TxKeepsHeld(w, s, e.clk);
      case ReadAt(addr, dsr) => LoadTakes(w, s, addr, dsr);
      case RxFires(input) => RxKeepsBytes(w, s, e.clk, input);
      case Reset =>
    }
  }

  lemma LoadTakes(w: Wiring, s: State, addr: u16, dsr: bool)
    ensures var s' := Load(w, s, addr, dsr);
            && s'.status.overrun == s.status.overrun
            && if RegisterAt(w, addr) == 0 && s.status.full then Held(s) == [Value(w, s, addr, dsr)] && Held(s') == []
               else Held(s') == Held(s)
  {
    hide RegisterAt, ExternalClock, Sr.ToByte;
  }

  lemma TxKeepsHeld(w: Wiring, s: State, clk: int)
    ensures var s' := TxAlarm(w, s, clk);
            Held(s') == Held(s) && s'.status.overrun == s.status.overrun
  {
    hide Clk, TransmitterOf;
  }

  lemma RxKeepsBytes(w: Wiring, s: State, clk: int, input: Option<u8>)
    ensures var s' := RxAlarm(w, s, clk, input);
            && s.serial.got <= s'.serial.got
            && (!s'.status.overrun ==> !s.status.overrun && Held(s') == Held(s) + s'.serial.got[|s.serial.got|..])
  {
    hide Clk, IrqDisabled;
    if s.serial.fd >= 0 && input.Some? {
      assert Receive(w, s, input).serial.got[|s.serial.got|..] == [input.value];
    }
  }

  /** Bytes since the last reset, hardware or programmed: written is sent plus waiting if the software is polite;
      received is taken plus held, whatever the software does, while no overrun is flagged. */
  lemma {:induction false} NoByteLost(w: Wiring, s: State, events: seq<Timed>)
    requires Initial(s)
    ensures NothingLostIn(Run(w, s, events), Traced(w, s, events))
    ensures (forall k :: 0 <= k < |events| ==> Polite(w, Run(w, s, events[..k]), events[k].event)) ==>
              && Balanced(Run(w, s, events), Traced(w, s, events))
              && PortOpen(Run(w, s, events)) && Losses(w, s, events) == 0
    decreases |events|
  {
    hide Step, After, Polite, Balanced, PortOpen, NothingLostIn, LossAt, Restarts;
    LossesCounted(w, s, events);
    if events == [] {
      InitiallyNothingLost(s);
    } else {
      var n := |events| - 1;
      var before := events[..n];
      assert forall k :: 0 <= k < n ==> before[..k] == events[..k];
      NoByteLost(w, s, before);
      AlwaysConsistent(w, s, before);
      StepLosesNothingIn(w, Run(w, s, before), Traced(w, s, before), events[n]);
      if forall k :: 0 <= k < |events| ==> Polite(w, Run(w, s, events[..k]), events[k].event) {
        StepKeepsPort(w, Run(w, s, before), events[n]);
      }
    }
  }

  lemma InitiallyNothingLost(s: State)
    requires Initial(s)
    ensures NothingLostIn(s, Fresh(s)) && PortOpen(s)
  {
  }

  /** Two stores in a row lose the first byte, even with everything open and the transmitter idle. */
  lemma OverwrittenByteIsLost(w: Wiring, s: State, t: Trace, first: u8, second: u8, clk: int)
    requires Balanced(s, t) && Ready(s)
    ensures var e := Timed(clk, Write(0, first, -1)); var f := Timed(clk, Write(0, second, -1));
            !Balanced(Step(w, Step(w, s, e), f), After(w, After(w, t, s, e), Step(w, s, e), f))
  {
    hide Clk, Dtr;
    var e := Timed(clk, Write(0, first, -1));
    assert RegisterAt(w, 0) == 0;
    hide RegisterAt;
    LostUnlessReady(w, s, t, 0, first, -1, clk, clk);
    LostUnlessReady(w, Step(w, s, e), After(w, t, s, e), 0, second, -1, clk, clk);
  }

  // ---------- a byte that waits for nothing ----------

  /** A waiting byte has its alarm. */
  predicate HasAlarm(s: State) { s.inTx.DrWritten? ==> s.tx.active }

  /** Whoever waits for TRANSMIT_DR_EMPTY waits for the alarm. */
  predicate EmptyWillReturn(s: State) { !s.status.empty ==> s.inTx.DrWritten? && s.tx.active }

  /** A store to the command register closes the port over a waiting byte. */
  predicate ClosesOver(s: State, byte: u8) { s.inTx.DrWritten? && s.serial.fd >= 0 && !Dtr(byte) }

  /** The same for the events; a read-modify-write may close the port with either of its stores, even one that the first
      of them opened. */
  predicate Strands(w: Wiring, s: State, e: Event) {
    match e
    case Write(addr, byte, _) => RegisterAt(w, addr) == 2 && ClosesOver(s, byte)
    case WriteRmw(addr, byte, answer, _) =>
      && RegisterAt(w, addr) == 2
      && (ClosesOver(s, s.lastRead) || ClosesOver(s, byte)
          || (ClosesOver(s.(serial := s.serial.(fd := answer)), byte) && s.serial.fd < 0 && Dtr(s.lastRead)))
    case _ => false
  }

  lemma StoreStrands(w: Wiring, s: State, addr: u16, byte: u8, clk: int, answer: int)
    requires HasAlarm(s)
    ensures HasAlarm(Store(w, s, addr, byte, clk, answer)) <==> !(RegisterAt(w, addr) == 2 && ClosesOver(s, byte))
  {
    hide Clk, RegisterAt, ExternalClock, Dtr, StoreCmd, ProgrammedReset;
    CmdOpens(w, s, byte, clk, answer);
    ResetStays(w, s, clk);
  }

  lemma CmdStrandsForGood(w: Wiring, s: State, byte: u8, clk: int, answer: int)
    ensures !HasAlarm(s) ==> !HasAlarm(StoreCmd(w, s, byte, clk, answer))
  {
    hide Clk, Dtr, StoreCmd;
    CmdOpens(w, s, byte, clk, answer);
  }

  /** Exactly these events take the alarm from a waiting byte... */
  lemma StepStrands(w: Wiring, s: State, e: Timed)
    requires HasAlarm(s)
    ensures HasAlarm(Step(w, s, e)) <==> !Strands(w, s, e.event)
  {
    hide Clk, RegisterAt, Dtr, StoreCmd, ExternalClock, ProgrammedReset, Value, TransmitterOf, SetTicks;
    match e.event {
      case Write(addr, byte, answer) => StoreStrands(w, s, addr, byte, e.clk, answer);
      case WriteRmw(addr, byte, answer, answer') =>
        var u := Store(w, s, addr, s.lastRead, e.clk - 1, answer);
        StoreStrands(w, s, addr, s.lastRead, e.clk - 1, answer);
        CmdOpens(w, s, s.lastRead, e.clk - 1, answer);
        CmdStrandsForGood(w, u, byte, e.clk, answer');
        if HasAlarm(u) {
          StoreStrands(w, u, addr, byte, e.clk, answer');
        }
      case TxFires =>
      case ReadAt(_, _) =>
      case RxFires(_) =>
      case Reset =>
    }
  }

  /** ... so that in a run without them every waiting byte has its alarm. */
  lemma {:induction false} AlarmsStay(w: Wiring, s: State, events: seq<Timed>)
    requires HasAlarm(s)
    requires forall k :: 0 <= k < |events| ==> !Strands(w, Run(w, s, events[..k]), events[k].event)
    ensures HasAlarm(Run(w, s, events))
    decreases |events|
  {
    hide Step, Strands, HasAlarm;
    if events != [] {
      var n := |events| - 1;
      var before := events[..n];
      assert forall k :: 0 <= k < n ==> before[..k] == events[..k];
      AlarmsStay(w, s, before);
      StepStrands(w, Run(w, s, before), events[n]);
    }
  }

  /** Polite software that strands no byte: each byte it wrote was sent, or its alarm is set and the port open. */
  lemma SentOrDue(w: Wiring, s: State, events: seq<Timed>)
    requires Initial(s)
    requires forall k :: 0 <= k < |events| ==>
               var t := Run(w, s, events[..k]); Polite(w, t, events[k].event) && !Strands(w, t, events[k].event)
    ensures var t := Run(w, s, events);
            && Traced(w, s, events).written == Traced(w, s, events).sent + Waiting(t)
            && (Waiting(t) != [] ==> t.tx.due == Some(t.tx.clk) && t.serial.fd >= 0)
  {
    hide Run, Traced, Polite, Strands;
    AlwaysConsistent(w, s, events);
    NoByteLost(w, s, events);
    AlarmsStay(w, s, events);
  }

  /** DTR off and on again: the byte stays where it is, nothing is armed, and TRANSMIT_DR_EMPTY does not come back. */
  lemma StrandedByte(w: Wiring, s: State, byte: u8, clk: int, clk': int, clk'': int, answer: int)
    requires Ready(s) && !s.tx.active && Consistent(w, s)
    ensures var t := Step(w, s, Timed(clk, Write(0, byte, -1)));
            var u := Step(w, t, Timed(clk', Write(2, 0x0a, -1)));
            var v := Step(w, u, Timed(clk'', Write(2, 0x0b, answer)));
            && HasAlarm(t) && Dtr(v.cmd) && v.serial.fd == answer
            && Waiting(v) == [byte] && v.tx.due.None? && !v.status.empty
  {
    assert RegisterAt(w, 0) == 0 && RegisterAt(w, 2) == 2 && !Dtr(0x0a) && Dtr(0x0b);
    hide Clk, RegisterAt, Dtr, StoreCmd;
    var t := Step(w, s, Timed(clk, Write(0, byte, -1)));
    CmdOpens(w, t, 0x0a, clk', -1);
    CmdOpens(w, StoreCmd(w, t, 0x0a, clk', -1), 0x0b, clk'', answer);
  }

  /** Software that waits for TRANSMIT_DR_EMPTY hangs after these, after a programmed reset while it is clear, and after
      an alarm that found the port closed. */
  predicate Hangs(w: Wiring, s: State, e: Event) {
    || Strands(w, s, e)
    || (!e.Reset? && Restarts(w, e) && !s.status.empty)
    || (e.TxFires? && s.inTx.DrWritten? && s.serial.fd < 0)
  }

  lemma StoreReturns(w: Wiring, s: State, addr: u16, byte: u8, clk: int, answer: int)
    requires EmptyWillReturn(s) && TxConsistent(s)
    ensures EmptyWillReturn(Store(w, s, addr, byte, clk, answer)) <==>
            !(RegisterAt(w, addr) == 2 && ClosesOver(s, byte)) && !(RegisterAt(w, addr) == 1 && !s.status.empty)
  {
    hide Clk, RegisterAt, ExternalClock, Dtr, StoreCmd, Handshake, ParityBits;
    CmdOpens(w, s, byte, clk, answer);
    ResetStays(w, s, clk);
  }

  lemma ResetStays(w: Wiring, s: State, clk: int)
    ensures var t := ProgrammedReset(w, s, clk); t.inTx.NoTransmit? && t.status.empty == s.status.empty && !t.tx.active
  {
    hide Handshake, ParityBits;
    var t := s.(serial := s.serial.(fd := -1), status := s.status.(overrun := false), cmd := ParityBits(s.cmd),
                inTx := NoTransmit, tx := Stopped(s.tx));
    HandshakeKeeps(w, SetInt(w, t, false), clk);
  }

  lemma RmwReturns(w: Wiring, s: State, e: Timed)
    requires EmptyWillReturn(s) && Consistent(w, s) && e.event.WriteRmw?
    ensures EmptyWillReturn(Step(w, s, e)) <==> !Hangs(w, s, e.event)
  {
    hide Clk, RegisterAt, Dtr, Store;
    var addr, byte, answer, answer' := e.event.addr, e.event.byte, e.event.answer, e.event.answer';
    var u := Store(w, s, addr, s.lastRead, e.clk - 1, answer);
    StoreReturns(w, s, addr, s.lastRead, e.clk - 1, answer);
    StoreConsistent(w, s, addr, s.lastRead, e.clk - 1, answer);
    if RegisterAt(w, addr) in {1, 2} {
      StoreKeepsHanging(w, s, addr, s.lastRead, e.clk - 1, answer);
    }
    if EmptyWillReturn(u) {
      StoreReturns(w, u, addr, byte, e.clk, answer');
    } else {
      StoreKeepsHanging(w, u, addr, byte, e.clk, answer');
    }
  }

  lemma StoreKeepsHanging(w: Wiring, s: State, addr: u16, byte: u8, clk: int, answer: int)
    requires RegisterAt(w, addr) in {1, 2}
    ensures var t := Store(w, s, addr, byte, clk, answer);
            && (!EmptyWillReturn(s) ==> !EmptyWillReturn(t))
            && t.status.empty == s.status.empty
            && (RegisterAt(w, addr) == 2 ==> t.inTx == s.inTx && t.serial.fd == OpenedBy(s, byte, answer))
  {
    hide Clk, RegisterAt, Dtr, StoreCmd, ProgrammedReset;
    CmdOpens(w, s, byte, clk, answer);
    ResetStays(w, s, clk);
  }

  lemma StepReturns(w: Wiring, s: State, e: Timed)
    requires EmptyWillReturn(s) && Consistent(w, s)
    ensures EmptyWillReturn(Step(w, s, e)) <==> !Hangs(w, s, e.event)
  {
    hide Clk, RegisterAt, Dtr, StoreCmd, ExternalClock, ProgrammedReset, Value, TransmitterOf, SetTicks, Store;
    match e.event {
      case Write(addr, byte, answer) => StoreReturns(w, s, addr, byte, e.clk, answer);
      case WriteRmw(addr, byte, answer, answer') => RmwReturns(w, s, e);
      case TxFires =>
      case ReadAt(_, _) =>
      case RxFires(_) =>
      case Reset =>
    }
  }

  /** Without these TRANSMIT_DR_EMPTY is only ever clear while a byte waits for its alarm. */
  lemma {:induction false} EmptyReturns(w: Wiring, s: State, events: seq<Timed>)
    requires Consistent(w, s) && EmptyWillReturn(s)
    requires forall k :: 0 <= k < |events| ==> !Hangs(w, Run(w, s, events[..k]), events[k].event)
    ensures Consistent(w, Run(w, s, events)) && EmptyWillReturn(Run(w, s, events))
    decreases |events|
  {
    hide Step, Hangs, EmptyWillReturn, Consistent;
    if events != [] {
      var n := |events| - 1;
      var before := events[..n];
      assert forall k :: 0 <= k < n ==> before[..k] == events[..k];
      EmptyReturns(w, s, before);
      StepReturns(w, Run(w, s, before), events[n]);
      StepConsistent(w, Run(w, s, before), events[n]);
    }
  }
}
