/** What software sees of the ACIA: interrupts, the bits of the status register, the handshake lines, and where the
    registers are. All bits are written out. */
module AciaLaws {
  import opened Bytes
  import B = Status6510
  import opened Acia6551

  // ---------- interrupts ----------

  /** A byte is received or sent while its interrupt is enabled: bit 1 of CMD clear, or bits 2 and 3 of CMD 01. */
  predicate Raises(s: State, e: Event) {
    || (e.RxFires? && e.input.Some? && s.serial.fd >= 0 && s.cmd / 2 % 2 == 0)
    || (e.TxFires? && s.inTx.DrWritten? && s.serial.fd >= 0 && s.cmd / 4 % 4 == 1)
  }

  /** A reset, or an access to the status register. */
  predicate Acknowledges(w: Wiring, e: Event) {
    match e
    case Reset => true
    case Write(addr, _, _) => addr % (if w.turbo then 8 else 4) == 1
    case WriteRmw(addr, _, _, _) => addr % (if w.turbo then 8 else 4) == 1
    case ReadAt(addr, _) => addr % (if w.turbo then 8 else 4) == 1
    case _ => false
  }

  lemma ReceiverInterrupts(w: Wiring, s: State, clk: int, input: Option<u8>)
    ensures var t := RxAlarm(w, s, clk, input);
            t.irq <==> s.irq || (input.Some? && s.serial.fd >= 0 && s.cmd / 2 % 2 == 0)
  {
    hide Clk;
  }

  lemma TransmitterInterrupts(w: Wiring, s: State, clk: int)
    ensures var t := TxAlarm(w, s, clk);
            t.irq <==> s.irq || (s.inTx.DrWritten? && s.serial.fd >= 0 && s.cmd / 4 % 4 == 1)
  {
    hide Clk;
  }

  lemma HandshakeIrq(w: Wiring, s: State, clk: int)
    ensures Handshake(w, s, clk).irq == s.irq
  {
    hide Clk, Dtr, TransmitterOf;
  }

  lemma CmdIrq(w: Wiring, s: State, byte: u8, clk: int, answer: int)
    ensures StoreCmd(w, s, byte, clk, answer).irq == s.irq
  {
    hide Clk, Dtr, Handshake;
    HandshakeIrq(w, s.(cmd := byte), clk);
  }

  lemma ResetIrq(w: Wiring, s: State, clk: int)
    ensures !ProgrammedReset(w, s, clk).irq
  {
    hide Handshake, ParityBits;
    var t := s.(serial := s.serial.(fd := -1), status := s.status.(overrun := false), cmd := ParityBits(s.cmd),
                inTx := NoTransmit, tx := Stopped(s.tx));
    HandshakeIrq(w, SetInt(w, t, false), clk);
  }

  lemma StoreIrq(w: Wiring, s: State, addr: u16, byte: u8, clk: int, answer: int)
    ensures Store(w, s, addr, byte, clk, answer).irq == (s.irq && RegisterAt(w, addr) != 1)
  {
    hide Clk, Dtr, ExternalClock, RegisterAt, StoreCmd, ProgrammedReset;
    CmdIrq(w, s, byte, clk, answer);
    ResetIrq(w, s, clk);
  }

  lemma StepIrq(w: Wiring, s: State, e: Timed)
    ensures Step(w, s, e).irq == (!Acknowledges(w, e.event) && (s.irq || Raises(s, e.event)))
  {
    hide Clk, Store, TxAlarm, RxAlarm, Value, SetTicks;
    match e.event {
      case Reset =>
      case Write(addr, byte, answer) => StoreIrq(w, s, addr, byte, e.clk, answer);
      case WriteRmw(addr, byte, answer, answer') =>
        StoreIrq(w, s, addr, s.lastRead, e.clk - 1, answer);
        StoreIrq(w, Store(w, s, addr, s.lastRead, e.clk - 1, answer), addr, byte, e.clk, answer');
      case ReadAt(_, _) =>
      case TxFires => TransmitterInterrupts(w, s, e.clk);
      case RxFires(input) => ReceiverInterrupts(w, s, e.clk, input);
    }
  }

  /** The k-th event raised the interrupt and nothing has acknowledged it since. */
  ghost predicate Pending(w: Wiring, s: State, events: seq<Timed>, k: nat)
    requires k < |events|
  {
    && Raises(Run(w, s, events[..k]), events[k].event)
    && forall j :: k <= j < |events| ==> !Acknowledges(w, events[j].event)
  }

  /** In every run the device interrupts if and only if a byte was received or sent with its interrupt enabled since the
      last access to the status register and the last reset; and so the processor's line is set unless it has none. */
  lemma {:induction false} IrqWhenPending(w: Wiring, s: State, events: seq<Timed>)
    requires Initial(s)
    ensures Run(w, s, events).irq <==> exists k :: 0 <= k < |events| && Pending(w, s, events, k)
    ensures Run(w, s, events).line == (Run(w, s, events).irq && !w.irqType.NoInterrupt?)
    decreases |events|
  {
    hide Step, Raises, Acknowledges, Consistent;
    LineFollows(w, s, events);
    if events != [] {
      var n := |events| - 1;
      var before := events[..n];
      IrqWhenPending(w, s, before);
      StepIrq(w, Run(w, s, before), events[n]);
      forall k | 0 <= k < n
        ensures Pending(w, s, events, k) <==> Pending(w, s, before, k) && !Acknowledges(w, events[n].event)
      {
        PendingLonger(w, s, events, k);
      }
      assert Pending(w, s, events, n)
        <==> Raises(Run(w, s, before), events[n].event) && !Acknowledges(w, events[n].event);
    }
  }

  lemma PendingLonger(w: Wiring, s: State, events: seq<Timed>, k: nat)
    requires k < |events| - 1
    ensures Pending(w, s, events, k)
       <==> Pending(w, s, events[..|events| - 1], k) && !Acknowledges(w, events[|events| - 1].event)
  {
    hide Raises, Acknowledges, Run;
    var n := |events| - 1;
    assert events[..n][..k] == events[..k];
    assert forall j :: 0 <= j < n ==> events[..n][j] == events[j];
  }

  lemma LineFollows(w: Wiring, s: State, events: seq<Timed>)
    requires Initial(s)
    ensures LineConsistent(w, Run(w, s, events))
  {
    hide Run;
    AlwaysConsistent(w, s, events);
  }

  // ---------- the registers ----------

  /** A read of the status register: transmitter empty 0x10, receiver full 0x08, overrun 0x04, DSR 0x20, interrupt
      0x80. */
  lemma StatusBits(w: Wiring, s: State, addr: u16, dsr: bool)
    requires addr % (if w.turbo then 8 else 4) == 1
    ensures var v := Value(w, s, addr, dsr);
            && (v / 0x10 % 2 == 1 <==> s.status.empty) && (v / 0x08 % 2 == 1 <==> s.status.full)
            && (v / 0x04 % 2 == 1 <==> s.status.overrun) && (v / 0x20 % 2 == 1 <==> dsr)
            && (v / 0x80 % 2 == 1 <==> s.irq)
  {
    var bits := B.Status(s.irq, false, dsr, s.status.empty, s.status.full, s.status.overrun, false, false);
    hide B.Status.ToByte, B.FromByte;
    B.BitWeights(bits);
    assert Value(w, s, addr, dsr) == bits.ToByte();
    B.StatusRoundTrip(bits);
    B.BitsOfByte(bits.ToByte());
  }

  /** The other registers read back what was written or received, and the line sees no access to them. */
  lemma RegistersRead(w: Wiring, s: State, addr: u16, dsr: bool)
    ensures var k := addr % (if w.turbo then 8 else 4);
            && (k == 0 ==> Value(w, s, addr, dsr) == s.rxdata)
            && (k == 2 ==> Value(w, s, addr, dsr) == s.cmd)
            && (k == 3 ==> Value(w, s, addr, dsr) == s.ctrl)
  {
  }

  /** After a store to CMD, RTS is on unless bits 2 and 3 are both clear, and DTR follows bit 0. */
  lemma HandshakeLines(w: Wiring, s: State, byte: u8, clk: int, answer: int)
    ensures var t := StoreCmd(w, s, byte, clk, answer);
            && t.cmd == byte && (t.serial.rts <==> byte / 4 % 4 != 0) && (t.serial.dtr <==> byte % 2 == 1)
  {
    hide Clk, SetTicks;
    TicksKeepSerial(w, s.(cmd := byte, rx := s.rx.(active := true)), clk);
    HandshakeSerial(w, s.(cmd := byte), clk);
    var t := Handshake(w, s.(cmd := byte), clk);
    hide Handshake;
    TicksKeepSerial(w, t.(serial := t.serial.(fd := answer), rx := t.rx.(active := true)), clk);
  }

  lemma TicksKeepSerial(w: Wiring, s: State, clk: int)
    ensures SetTicks(w, s, clk).serial == s.serial && SetTicks(w, s, clk).cmd == s.cmd
  {
    hide Clk;
  }

  lemma HandshakeSerial(w: Wiring, s: State, clk: int)
    ensures var t := Handshake(w, s, clk);
            t.cmd == s.cmd && (t.serial.rts <==> s.cmd / 4 % 4 != 0) && (t.serial.dtr <==> s.cmd % 2 == 1)
  {
    hide Clk;
  }

  /** A programmed reset leaves the three parity bits of CMD, turns both lines off and closes the port. */
  lemma ProgrammedResetState(w: Wiring, s: State, clk: int)
    ensures var t := ProgrammedReset(w, s, clk);
            && t.cmd == And(s.cmd, 0xe0) && !t.serial.rts && !t.serial.dtr && t.serial.fd == -1
            && !t.status.overrun && t.inTx.NoTransmit? && t.tx.due == None && !t.irq
  {
    hide Handshake, And, Clk, TransmitterOf, Dtr;
    ParityMask(s.cmd);
    var t := SetInt(w, s.(serial := s.serial.(fd := -1), status := s.status.(overrun := false),
                          cmd := ParityBits(s.cmd), inTx := NoTransmit, tx := Stopped(s.tx)), false);
    HandshakeSerial(w, t, clk);
    HandshakeElse(w, t, clk);
  }

  lemma HandshakeElse(w: Wiring, s: State, clk: int)
    ensures var t := Handshake(w, s, clk);
            t.serial.fd == s.serial.fd && t.status == s.status && t.inTx == s.inTx && t.tx == s.tx && t.irq == s.irq
  {
    hide Clk, Dtr, TransmitterOf;
  }

  lemma ParityMask(cmd: u8)
    ensures ParityBits(cmd) == And(cmd, 0xe0) && ParityBits(cmd) / 4 % 4 == 0 && ParityBits(cmd) % 2 == 0
  {
    hide And;
    assert Power2(8) == 0x100;
    forall k | 0 <= k < 8
      ensures BitAt(ParityBits(cmd), k) <==> BitAt(And(cmd, 0xe0), k)
    {
      LogicBits(cmd, 0xe0, k);
      UpperBits(cmd, k);
    }
    SameBits(ParityBits(cmd), And(cmd, 0xe0), 8);
  }

  lemma UpperBits(cmd: u8, k: nat)
    requires k < 8
    ensures BitAt(ParityBits(cmd), k) <==> BitAt(cmd, k) && BitAt(0xe0, k)
  {
    hide B.Status.ToByte, B.FromByte, BitAt;
    var p := B.FromByte(cmd);
    var upper := B.Status(p.n, p.v, p.u, false, false, false, false, false);
    B.ByteRoundTrip(cmd);
    B.BitWeights(p);
    B.BitWeights(upper);
    UpperPart(cmd, upper.ToByte());
    var mask := B.Status(true, true, true, false, false, false, false, false);
    B.BitWeights(mask);
    B.FlagIsBit(p, k);
    B.FlagIsBit(upper, k);
    B.FlagIsBit(mask, k);
  }

  lemma UpperPart(cmd: u8, upper: u8)
    requires upper <= cmd < upper + 0x20 && (upper == 0 || upper == 0x20 || upper == 0x40 || upper == 0x60
                                              || upper == 0x80 || upper == 0xa0 || upper == 0xc0 || upper == 0xe0)
    ensures ParityBits(cmd) == upper
  {
  }

  // ---------- the two alarms ----------

  /** A byte that arrives is latched and flagged, as an overrun if there was one already. */
  lemma ByteReceived(w: Wiring, s: State, clk: int, b: u8)
    requires s.serial.fd >= 0
    ensures var t := RxAlarm(w, s, clk, Some(b));
            && t.rxdata == b && t.serial.got == s.serial.got + [b] && t.status.full
            && (t.status.overrun <==> s.status.overrun || s.status.full)
            && t.status.empty == s.status.empty
  {
    hide Clk, IrqDisabled;
  }

  /** When they fire next: the transmitter one cycle after a store to an idle device and then once a character, the
      receiver once in five quarters of one. */
  lemma WhenAlarmsFire(w: Wiring, s: State, clk: nat, byte: u8, input: Option<u8>)
    requires clk + s.ticks < 0x1_0000_0000 && clk + s.ticksRx < 0x1_0000_0000 && clk < 0xffff_ffff
    ensures s.cmd % 2 == 1 && !s.tx.active ==> StoreDr(s, byte, clk).tx == Timer(true, clk + 1, Some(clk + 1))
    ensures s.cmd % 2 == 1 && s.tx.active ==> StoreDr(s, byte, clk).tx == s.tx
    ensures s.inTx.DrWritten? ==> TxAlarm(w, s, clk).tx == Timer(true, clk + s.ticks, Some(clk + s.ticks))
    ensures !s.inTx.DrWritten? ==> TxAlarm(w, s, clk).tx.due == None
    ensures RxAlarm(w, s, clk, input).rx == Timer(true, clk + s.ticksRx, Some(clk + s.ticksRx))
  {
    hide TransmitterOf, IrqDisabled;
  }
}
