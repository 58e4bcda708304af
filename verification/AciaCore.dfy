/** The device itself, vice/src/aciacore.c: a record updated in place, with two alarms in a shared alarm context. */
module AciaCore {
  import opened Bytes
  import opened AlarmContexts
  import opened Acia6551
  import L = AciaLaws

  ghost function DueOf(due: map<Alarm, Clock>, a: Alarm): Option<Clock> { if a in due then Some(due[a]) else None }

  class Acia {
    const w: Wiring
    const context: AlarmContext
    const alarmTx: Alarm
    const alarmRx: Alarm
    var cmd: u8
    var ctrl: u8
    var ectrl: u8
    var status: Sr
    var txdata: u8
    var rxdata: u8
    var lastRead: u8
    var inTx: TxState
    var activeTx: bool
    var clkTx: Clock
    var activeRx: bool
    var clkRx: Clock
    var ticks: nat
    var ticksRx: nat
    var irq: bool
    var line: bool
    var fd: int
    var rts: bool
    var dtr: bool
    ghost var out: seq<Put>
    ghost var got: seq<u8>

    /** The context has room for all of its alarms at once. */
    ghost predicate Valid()
      reads this, context, context.pending, context.live
    {
      && context.Valid()
      && alarmTx in context.live && alarmRx in context.live && alarmTx != alarmRx
      && |context.live| <= MAX_PENDING_ALARMS
    }

    ghost function View(): State
      reads this, context
    {
      State(cmd, ctrl, ectrl, status, txdata, rxdata, lastRead, inTx,
            Timer(activeTx, clkTx, DueOf(context.due, alarmTx)), Timer(activeRx, clkRx, DueOf(context.due, alarmRx)),
            ticks, ticksRx, irq, line, Serial(fd, rts, dtr, out, got))
    }

    /** The alarms of other devices. */
    ghost function Others(): map<Alarm, Clock>
      reads this, context
    {
      context.due - {alarmTx, alarmRx}
    }

    /** acia_preinit and myacia_init */
    constructor (w: Wiring, context: AlarmContext, alarmTx: Alarm, alarmRx: Alarm)
      requires context.Valid() && alarmTx in context.live && alarmRx in context.live && alarmTx != alarmRx
      requires |context.live| <= MAX_PENDING_ALARMS && alarmTx !in context.due && alarmRx !in context.due
      ensures Valid() && Initial(View()) && this.context == context && this.w == w
    {
      this.w, this.context, this.alarmTx, this.alarmRx := w, context, alarmTx, alarmRx;
      cmd, ctrl, ectrl, txdata, rxdata, lastRead := 0, 0, 0, 0, 0, 0;
      status, inTx := Sr(false, false, false, false), NoTransmit;
      activeTx, clkTx, activeRx, clkRx := false, 0, false, 0;
      ticks, ticksRx, irq, line, fd, rts, dtr := 21111, 21111, false, false, -1, false, false;
      out, got := [], [];
    }

    // ---------- the two alarms ----------

    lemma RoomFor(a: Alarm)
      requires Valid() && a in context.live && a !in context.due
      ensures |context.due| < MAX_PENDING_ALARMS
    {
      var s := set b | b in context.live;
      SetOfSeq(context.live);
      context.DueAreLive();
      assert context.due.Keys <= s - {a};
      Smaller(context.due.Keys, s - {a});
    }

    method SetAlarm(a: Alarm, clk: Clock)
      requires Valid() && a in context.live
      modifies context`due, context`numPending, context`nextClk, context`nextIdx
      modifies context.pending, context.live`pendingIdx
      ensures Valid() && context.due == old(context.due)[a := clk]
    {
      hide AlarmContext.Valid;
      if a !in context.due { RoomFor(a); }
      context.Set(a, clk);
    }

    method ArmTx(clk: Clock)
      requires Valid()
      modifies this`activeTx, this`clkTx
      modifies context`due, context`numPending, context`nextClk, context`nextIdx
      modifies context.pending, context.live`pendingIdx
      ensures Valid() && Others() == old(Others())
      ensures View() == old(View()).(tx := Timer(true, clk, Some(clk)))
    {
      hide AlarmContext.Valid;
      clkTx := clk;
      SetAlarm(alarmTx, clkTx);
      activeTx := true;
    }

    method ArmRx(clk: Clock)
      requires Valid()
      modifies this`activeRx, this`clkRx
      modifies context`due, context`numPending, context`nextClk, context`nextIdx
      modifies context.pending, context.live`pendingIdx
      ensures Valid() && Others() == old(Others())
      ensures View() == old(View()).(rx := Timer(true, clk, Some(clk)))
    {
      hide AlarmContext.Valid;
      clkRx := clk;
      SetAlarm(alarmRx, clkRx);
      activeRx := true;
    }

    method StopTx()
      requires Valid()
      modifies this`activeTx
      modifies context`due, context`numPending, context`nextClk, context`nextIdx
      modifies context.pending, context.live`pendingIdx
      ensures Valid() && Others() == old(Others())
      ensures View() == old(View()).(tx := Stopped(old(View()).tx))
    {
      hide AlarmContext.Valid;
      context.Unset(alarmTx);
      activeTx := false;
    }

    method StopRx()
      requires Valid()
      modifies this`activeRx
      modifies context`due, context`numPending, context`nextClk, context`nextIdx
      modifies context.pending, context.live`pendingIdx
      ensures Valid() && Others() == old(Others())
      ensures View() == old(View()).(rx := Stopped(old(View()).rx))
    {
      hide AlarmContext.Valid;
      context.Unset(alarmRx);
      activeRx := false;
    }

    // ---------- helpers of the register accesses ----------

    /** set_acia_ticks */
    method SetTicks(myclk: Clock)
      requires Valid()
      modifies this`ticks, this`ticksRx, this`activeRx, this`clkRx
      modifies context`due, context`numPending, context`nextClk, context`nextIdx
      modifies context.pending, context.live`pendingIdx
      ensures Valid() && Others() == old(Others())
      ensures View() == Acia6551.SetTicks(w, old(View()), myclk)
    {
      hide AlarmContext.Valid, Clk;
      ticks := w.rate(ctrl, cmd, ectrl);
      ticksRx := ticks * 5 / 4;
      if activeRx {
        ArmRx(Clk(myclk + ticksRx));
      }
    }

    /** acia_set_int and acia.irq */
    method SetInt(on: bool)
      modifies this`irq, this`line
      ensures View() == Acia6551.SetInt(w, old(View()), on)
    {
      if !w.irqType.NoInterrupt? {
        line := on;
      }
      irq := on;
    }

    method SetRts(myclk: Clock)
      requires Valid()
      modifies this`ticks, this`ticksRx, this`activeRx, this`clkRx, this`rts
      modifies context`due, context`numPending, context`nextClk, context`nextIdx
      modifies context.pending, context.live`pendingIdx
      ensures Valid() && Others() == old(Others())
      ensures View() == Acia6551.SetRts(w, old(View()), myclk)
    {
      hide AlarmContext.Valid, Clk, TransmitterOf, Acia6551.SetTicks, DueOf;
      ghost var s := View();
      match TransmitterOf(cmd) {
        case NoRts =>
          rts := false;
          if activeRx {
            StopRx();
          }
        case _ =>
          rts := true;
          assert View() == s.(serial := s.serial.(rts := true));
          if !activeRx {
            EnableRx(myclk);
          }
      }
    }

    method EnableRx(myclk: Clock)
      requires Valid()
      modifies this`ticks, this`ticksRx, this`activeRx, this`clkRx
      modifies context`due, context`numPending, context`nextClk, context`nextIdx
      modifies context.pending, context.live`pendingIdx
      ensures Valid() && Others() == old(Others())
      ensures View() == Acia6551.SetTicks(w, old(View()).(rx := old(View()).rx.(active := true)), myclk)
    {
      hide AlarmContext.Valid, Clk, Acia6551.SetTicks, DueOf;
      ghost var s := View();
      activeRx := true;
      assert View() == s.(rx := s.rx.(active := true));
      SetTicks(myclk);
    }

    /** acia_set_handshake_lines */
    method SetHandshakeLines(myclk: Clock)
      requires Valid()
      modifies this`ticks, this`ticksRx, this`activeRx, this`clkRx, this`rts, this`dtr
      modifies context`due, context`numPending, context`nextClk, context`nextIdx
      modifies context.pending, context.live`pendingIdx
      ensures Valid() && Others() == old(Others())
      ensures View() == Handshake(w, old(View()), myclk)
    {
      hide AlarmContext.Valid, Clk, Dtr, Acia6551.SetRts;
      SetRts(myclk);
      dtr := Dtr(cmd);
    }

    // ---------- register accesses ----------

    method StoreDr(byte: u8, myclk: Clock)
      requires Valid()
      modifies this
      modifies context`due, context`numPending, context`nextClk, context`nextIdx
      modifies context.pending, context.live`pendingIdx
      ensures Valid() && Others() == old(Others())
      ensures View() == Acia6551.StoreDr(old(View()), byte, myclk)
    {
      hide AlarmContext.Valid, Clk, Dtr, DueOf;
      ghost var s := View();
      txdata := byte;
      if Dtr(cmd) {
        inTx := DrWritten;
        assert View() == s.(txdata := byte, inTx := DrWritten);
        if !activeTx {
          ArmTx(Clk(myclk + 1));
        }
        status := status.(empty := false);
      }
    }

    /** A store to the status register. */
    method ProgrammedReset(myclk: Clock)
      requires Valid()
      modifies this
      modifies context`due, context`numPending, context`nextClk, context`nextIdx
      modifies context.pending, context.live`pendingIdx
      ensures Valid() && Others() == old(Others())
      ensures View() == Acia6551.ProgrammedReset(w, old(View()), myclk)
    {
      hide AlarmContext.Valid, ParityBits, DueOf, Handshake;
      SetPort(-1);
      ClearForReset();
      SetInt(false);
      StopTx();
      SetHandshakeLines(myclk);
    }

    method ClearForReset()
      modifies this`status, this`cmd, this`inTx
      ensures var s := old(View());
              View() == s.(status := s.status.(overrun := false), cmd := ParityBits(s.cmd), inTx := NoTransmit)
    {
      hide ParityBits, DueOf;
      status := status.(overrun := false);
      cmd := ParityBits(cmd);
      inTx := NoTransmit;
    }

    /** answer is what rs232drv_open returns if it is called. */
    method StoreCmd(byte: u8, myclk: Clock, answer: int)
      requires Valid()
      modifies this
      modifies context`due, context`numPending, context`nextClk, context`nextIdx
      modifies context.pending, context.live`pendingIdx
      ensures Valid() && Others() == old(Others())
      ensures View() == Acia6551.StoreCmd(w, old(View()), byte, myclk, answer)
    {
      hide AlarmContext.Valid, Dtr, DueOf, Handshake, Acia6551.SetTicks, Clk;
      ghost var s := View();
      cmd := byte;
      assert View() == s.(cmd := byte);
      SetHandshakeLines(myclk);
      ghost var t := View();
      assert cmd == t.cmd && fd == t.serial.fd;
      HandshakeKeepsCmd(w, s.(cmd := byte), myclk);
      if Dtr(cmd) && fd < 0 {
        SetPort(answer);
        EnableRx(myclk);
      } else if fd >= 0 && !Dtr(cmd) {
        StopTx();
        SetPort(-1);
      }
    }

    method SetPort(answer: int)
      modifies this`fd
      ensures var s := old(View()); View() == s.(serial := s.serial.(fd := answer))
    {
      hide DueOf;
      fd := answer;
    }

    /** myacia_store. When mycpu_rmw_flag is set, the value read last is stored first, one cycle earlier. */
    method Store(addr: u16, byte: u8, myclk: Clock, rmw: bool, answer: int, answer': int)
      requires Valid() && (rmw ==> myclk > 0)
      modifies this
      modifies context`due, context`numPending, context`nextClk, context`nextIdx
      modifies context.pending, context.live`pendingIdx
      ensures Valid() && Others() == old(Others())
      ensures View() == if rmw then StoreRmw(w, old(View()), addr, byte, myclk, answer, answer')
                        else Acia6551.Store(w, old(View()), addr, byte, myclk, answer')
      decreases rmw
    {
      hide AlarmContext.Valid, DueOf, Acia6551.SetTicks, Acia6551.StoreDr, Acia6551.StoreCmd;
      hide Acia6551.ProgrammedReset, Clk, ExternalClock, RegisterAt;
      if rmw {
        Store(addr, lastRead, myclk - 1, false, answer, answer);
      }
      ghost var s := View();
      match RegisterAt(w, addr) {
        case 0 => StoreDr(byte, myclk);
        case 1 => ProgrammedReset(myclk);
        case 2 => StoreCmd(byte, myclk, answer');
        case 3 =>
          ctrl := byte;
          assert View() == s.(ctrl := byte);
          SetTicks(myclk);
        case 7 =>
          if ExternalClock(ctrl) {
            ectrl := byte;
            assert View() == s.(ectrl := byte);
            SetTicks(myclk);
          }
        case _ =>
      }
    }

    /** myacia_read; dsr is what rs232drv_get_status answers. */
    method Read(addr: u16, dsr: bool) returns (value: u8)
      requires Valid()
      modifies this`status, this`lastRead, this`irq, this`line
      ensures Valid() && View() == Load(w, old(View()), addr, dsr) && value == Value(w, old(View()), addr, dsr)
    {
      hide AlarmContext.Valid, DueOf, ExternalClock, RegisterAt, Sr.ToByte, Low;
      match RegisterAt(w, addr) {
        case 0 =>
          status := status.(full := false);
          lastRead := rxdata;
          value := rxdata;
        case 1 =>
          status := status.(dsr := dsr);
          value := status.ToByte(irq);
          SetInt(false);
          lastRead := value;
        case 2 =>
          lastRead := cmd;
          value := cmd;
        case 3 =>
          lastRead := ctrl;
          value := ctrl;
        case 7 =>
          value := Low(ectrl + (if ExternalClock(ctrl) then 4 else 0));
        case _ =>
          value := 0xff;
      }
    }

    // ---------- alarm callbacks ----------

    method Transmit(myclk: Clock)
      requires Valid()
      modifies this`out, this`status, this`irq, this`line
      ensures Valid() && View() == Acia6551.Transmit(w, old(View()), myclk)
    {
      hide AlarmContext.Valid, DueOf, TransmitterOf;
      if inTx.DrWritten? && fd >= 0 {
        out := out + [Put(txdata, myclk, ticks)];
        status := status.(empty := true);
        if TransmitterOf(cmd).TxWithIrq? {
          SetInt(true);
        }
      }
    }

    /** int_acia_tx */
    method TxAlarm(myclk: Clock)
      requires Valid()
      modifies this
      modifies context`due, context`numPending, context`nextClk, context`nextIdx
      modifies context.pending, context.live`pendingIdx
      ensures Valid() && Others() == old(Others())
      ensures View() == Acia6551.TxAlarm(w, old(View()), myclk)
      ensures irq == old(irq || (inTx.DrWritten? && fd >= 0 && cmd / 4 % 4 == 1))
    {
      L.TransmitterInterrupts(w, View(), myclk);
      hide AlarmContext.Valid, DueOf, Acia6551.Transmit, Clk;
      TransmitKeeps(w, View(), myclk);
      Transmit(myclk);
      ghost var t := View();
      if !inTx.NoTransmit? {
        inTx := if inTx.DrWritten? then TxStarted else NoTransmit;
      }
      assert View() == t.(inTx := inTx);
      if !inTx.NoTransmit? {
        ArmTx(Clk(myclk + ticks));
      } else {
        StopTx();
      }
    }

    method Receive(input: Option<u8>)
      requires Valid()
      modifies this`rxdata, this`got, this`status, this`irq, this`line
      ensures Valid() && View() == Acia6551.Receive(w, old(View()), input)
    {
      hide AlarmContext.Valid, DueOf, IrqDisabled;
      if fd < 0 || input.None? {
        return;
      }
      rxdata := input.value;
      got := got + [input.value];
      if !IrqDisabled(cmd) {
        SetInt(true);
      }
      if status.full {
        status := status.(overrun := true);
        return;
      }
      status := status.(full := true);
    }

    /** int_acia_rx; input is what rs232drv_getc would deliver. */
    method RxAlarm(myclk: Clock, input: Option<u8>)
      requires Valid()
      modifies this
      modifies context`due, context`numPending, context`nextClk, context`nextIdx
      modifies context.pending, context.live`pendingIdx
      ensures Valid() && Others() == old(Others())
      ensures View() == Acia6551.RxAlarm(w, old(View()), myclk, input)
      ensures irq == old(irq || (input.Some? && fd >= 0 && cmd / 2 % 2 == 0))
    {
      L.ReceiverInterrupts(w, View(), myclk, input);
      hide AlarmContext.Valid, DueOf, Acia6551.Receive, Clk;
      ReceiveKeeps(w, View(), input);
      Receive(input);
      ArmRx(Clk(myclk + ticksRx));
    }

    /** myacia_reset */
    method Reset(myclk: Clock)
      requires Valid()
      modifies this
      modifies context`due, context`numPending, context`nextClk, context`nextIdx
      modifies context.pending, context.live`pendingIdx
      ensures Valid() && Others() == old(Others())
      ensures View() == HardReset(w, old(View()), myclk)
    {
      hide AlarmContext.Valid, DueOf, Acia6551.SetTicks, Clk;
      DropLines();
      DefaultRegisters();
      SetTicks(myclk);
      DefaultStatus();
      SetPort(-1);
      StopTx();
      StopRx();
      SetInt(false);
    }

    method DropLines()
      modifies this`rts, this`dtr
      ensures var s := old(View()); View() == s.(serial := s.serial.(rts := false, dtr := false))
    {
      hide DueOf;
      rts, dtr := false, false;
    }

    method DefaultRegisters()
      modifies this`cmd, this`ctrl, this`ectrl
      ensures View() == old(View()).(cmd := 0, ctrl := 0, ectrl := 0)
    {
      hide DueOf;
      cmd, ctrl, ectrl := 0, 0, 0;
    }

    method DefaultStatus()
      modifies this`status, this`inTx
      ensures View() == old(View()).(status := Sr(false, false, true, false), inTx := NoTransmit)
    {
      hide DueOf;
      status := Sr(false, false, true, false);
      inTx := NoTransmit;
    }

    /** One event of a run. */
    method React(e: Timed)
      requires Valid() && 0 <= e.clk < NEVER && (e.event.WriteRmw? ==> e.clk > 0)
      modifies this
      modifies context`due, context`numPending, context`nextClk, context`nextIdx
      modifies context.pending, context.live`pendingIdx
      ensures Valid() && Others() == old(Others())
      ensures View() == Step(w, old(View()), e)
    {
      hide AlarmContext.Valid, DueOf, Load, HardReset, Acia6551.TxAlarm, Acia6551.RxAlarm, Acia6551.Store, StoreRmw;
      match e.event {
        case Reset => Reset(e.clk);
        case Write(addr, byte, answer) => Store(addr, byte, e.clk, false, answer, answer);
        case WriteRmw(addr, byte, answer, answer') => Store(addr, byte, e.clk, true, answer, answer');
        case ReadAt(addr, dsr) => var _ := Read(addr, dsr);
        case TxFires => TxAlarm(e.clk);
        case RxFires(input) => RxAlarm(e.clk, input);
      }
    }

    /** A whole run: the object follows the state machine, and leaves the alarms of other devices alone. */
    method RunEvents(events: seq<Timed>)
      requires Valid()
      requires forall k :: 0 <= k < |events| ==> 0 < events[k].clk < NEVER
      modifies this
      modifies context`due, context`numPending, context`nextClk, context`nextIdx
      modifies context.pending, context.live`pendingIdx
      ensures Valid() && Others() == old(Others())
      ensures View() == Run(w, old(View()), events)
    {
      hide AlarmContext.Valid, DueOf, Step;
      ghost var s := View();
      assert events[..0] == [] && events[..|events|] == events;
      for k := 0 to |events|
        invariant Valid() && Others() == old(Others())
        invariant View() == Run(w, s, events[..k])
      {
        assert events[..k + 1][..k] == events[..k];
        React(events[k]);
      }
    }
  }

  lemma HandshakeKeepsCmd(w: Wiring, s: State, clk: int)
    ensures Handshake(w, s, clk).cmd == s.cmd
  {
    hide TransmitterOf, Dtr, Clk;
  }

  lemma TransmitKeeps(w: Wiring, s: State, clk: int)
    ensures var t := Acia6551.Transmit(w, s, clk); t.inTx == s.inTx && t.ticks == s.ticks && t.tx == s.tx
  {
    hide TransmitterOf;
  }

  lemma ReceiveKeeps(w: Wiring, s: State, input: Option<u8>)
    ensures Acia6551.Receive(w, s, input).ticksRx == s.ticksRx
  {
    hide IrqDisabled;
  }

  lemma {:induction false} SetOfSeq(s: seq<Alarm>)
    ensures |set b | b in s| <= |s|
  {
    if s != [] {
      SetOfSeq(s[1..]);
      assert (set b | b in s) == {s[0]} + set b | b in s[1..];
    }
  }

  lemma {:induction false} Smaller(a: set<Alarm>, b: set<Alarm>)
    requires a <= b
    ensures |a| <= |b|
  {
    if a != {} {
      var x :| x in a;
      Smaller(a - {x}, b - {x});
    }
  }
}
