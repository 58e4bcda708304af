/** The ACIA 6551 of vice/src/aciacore.c as a state machine on values: what each access and each alarm does. */
module Acia6551 {
  import opened Bytes
  import opened AlarmContexts

  datatype Option<T> = None | Some(value: T)

  datatype TxState = NoTransmit | TxStarted | DrWritten

  datatype IrqType = NoInterrupt | IrqLine | NmiLine

  datatype Transmitter = NoRts | TxWithIrq | TxWithoutIrq | Break

  /** The bits of the status register that are ever set. */
  datatype Sr = Sr(overrun: bool, full: bool, empty: bool, dsr: bool) {
    function ToByte(irq: bool): u8 {
      4 * OneIf(overrun) + 8 * OneIf(full) + 0x10 * OneIf(empty) + 0x20 * OneIf(dsr) + 0x80 * OneIf(irq)
    }
  }

  /** What does not change: the duration of a character for given CTRL, CMD and ECTRL, the register file, and the kind
      of interrupt. */
  datatype Wiring = Wiring(rate: (u8, u8, u8) -> nat, turbo: bool, irqType: IrqType)

  /** A call of rs232drv_putc, when it happened, and the duration of a character then. */
  datatype Put = Put(byte: u8, clk: int, ticks: nat)

  /** alarm_active_tx and alarm_clk_tx (or the same for rx), and the alarm as the scheduler sees it. */
  datatype Timer = Timer(active: bool, clk: Clock, due: Option<Clock>)

  /** The serial line of the host: everything handed to rs232drv_putc and everything taken from rs232drv_getc. */
  datatype Serial = Serial(fd: int, rts: bool, dtr: bool, out: seq<Put>, got: seq<u8>)

  datatype State = State(
    cmd: u8, ctrl: u8, ectrl: u8, status: Sr, txdata: u8, rxdata: u8, lastRead: u8,
    inTx: TxState, tx: Timer, rx: Timer, ticks: nat, ticksRx: nat,
    irq: bool,
    line: bool,  // the interrupt line as the processor sees it
    serial: Serial)

  // ---------- register bits ----------

  predicate Dtr(cmd: u8) { cmd % 2 == 1 }

  predicate IrqDisabled(cmd: u8) { cmd / 2 % 2 == 1 }

  function TransmitterOf(cmd: u8): Transmitter {
    match cmd / 4 % 4
    case 0 => NoRts
    case 1 => TxWithIrq
    case 2 => TxWithoutIrq
    case _ => Break
  }

  /** cmd & (ACIA_CMD_BITS_PARITY_TYPE_MASK | ACIA_CMD_BITS_PARITY_ENABLED) */
  function ParityBits(cmd: u8): (r: u8)
    ensures !Dtr(r) && TransmitterOf(r) == NoRts
  {
    cmd / 0x20 * 0x20
  }

  predicate ExternalClock(ctrl: u8) { ctrl % 16 == 0 }

  /** CLOCK arithmetic. */
  function Clk(x: int): (c: Clock)
    ensures 0 <= x < 0x1_0000_0000 ==> c == x
  {
    x % 0x1_0000_0000
  }

  function RegisterAt(w: Wiring, addr: u16): nat { addr % (if w.turbo then 8 else 4) }

  // ---------- the operations ----------

  /** Record the clock and set the alarm. */
  function Armed(clk: int): Timer { Timer(true, Clk(clk), Some(Clk(clk))) }

  /** Unset the alarm. */
  function Stopped(t: Timer): Timer { t.(active := false, due := None) }

  /** set_acia_ticks */
  function SetTicks(w: Wiring, s: State, clk: int): State {
    var ticks := w.rate(s.ctrl, s.cmd, s.ectrl);
    s.(ticks := ticks, ticksRx := ticks * 5 / 4, rx := if s.rx.active then Armed(clk + ticks * 5 / 4) else s.rx)
  }

  /** acia_set_int, and the latch that goes with it. */
  function SetInt(w: Wiring, s: State, on: bool): State {
    s.(irq := on, line := if w.irqType.NoInterrupt? then s.line else on)
  }

  /** RTS follows the transmitter bits, and so does the receiver alarm. */
  function SetRts(w: Wiring, s: State, clk: int): State {
    if TransmitterOf(s.cmd).NoRts? then
      s.(serial := s.serial.(rts := false), rx := if s.rx.active then Stopped(s.rx) else s.rx)
    else
      var t := s.(serial := s.serial.(rts := true));
      if s.rx.active then t else SetTicks(w, t.(rx := t.rx.(active := true)), clk)
  }

  /** acia_set_handshake_lines */
  function Handshake(w: Wiring, s: State, clk: int): State {
    var t := SetRts(w, s, clk);
    t.(serial := t.serial.(dtr := Dtr(s.cmd)))
  }

  function StoreDr(s: State, byte: u8, clk: int): State {
    if !Dtr(s.cmd) then s.(txdata := byte)
    else
      s.(txdata := byte, inTx := DrWritten, status := s.status.(empty := false),
         tx := if s.tx.active then s.tx else Armed(clk + 1))
  }

  function ProgrammedReset(w: Wiring, s: State, clk: int): State {
    var t := s.(serial := s.serial.(fd := -1), status := s.status.(overrun := false), cmd := ParityBits(s.cmd),
                inTx := NoTransmit, tx := Stopped(s.tx));
    Handshake(w, SetInt(w, t, false), clk)
  }

  /** answer is what rs232drv_open returns if it is called. */
  function StoreCmd(w: Wiring, s: State, byte: u8, clk: int, answer: int): State {
    var t := Handshake(w, s.(cmd := byte), clk);
    if Dtr(byte) && t.serial.fd < 0 then
      SetTicks(w, t.(serial := t.serial.(fd := answer), rx := t.rx.(active := true)), clk)
    else if t.serial.fd >= 0 && !Dtr(byte) then
      t.(serial := t.serial.(fd := -1), tx := Stopped(t.tx))
    else t
  }

  function Store(w: Wiring, s: State, addr: u16, byte: u8, clk: int, answer: int): State {
    match RegisterAt(w, addr)
    case 0 => StoreDr(s, byte, clk)
    case 1 => ProgrammedReset(w, s, clk)
    case 2 => StoreCmd(w, s, byte, clk, answer)
    case 3 => SetTicks(w, s.(ctrl := byte), clk)
    case 7 => if ExternalClock(s.ctrl) then SetTicks(w, s.(ectrl := byte), clk) else s
    case _ => s
  }

  /** The second write of a read-modify-write instruction, preceded by the write of the value read. */
  function StoreRmw(w: Wiring, s: State, addr: u16, byte: u8, clk: int, answer: int, answer': int): State {
    Store(w, Store(w, s, addr, s.lastRead, clk - 1, answer), addr, byte, clk, answer')
  }

  function Value(w: Wiring, s: State, addr: u16, dsr: bool): u8 {
    match RegisterAt(w, addr)
    case 0 => s.rxdata
    case 1 => s.status.(dsr := dsr).ToByte(s.irq)
    case 2 => s.cmd
    case 3 => s.ctrl
    case 7 => Low(s.ectrl + (if ExternalClock(s.ctrl) then 4 else 0))
    case _ => 0xff
  }

  /** What myacia_read leaves behind. */
  function Load(w: Wiring, s: State, addr: u16, dsr: bool): State {
    var value := Value(w, s, addr, dsr);
    match RegisterAt(w, addr)
    case 0 => s.(status := s.status.(full := false), lastRead := value)
    case 1 => SetInt(w, s.(status := s.status.(dsr := dsr), lastRead := value), false)
    case 2 | 3 => s.(lastRead := value)
    case _ => s
  }

  /** The first half of int_acia_tx: a waiting byte goes out if the port is open. */
  function Transmit(w: Wiring, s: State, clk: int): State {
    if s.inTx.DrWritten? && s.serial.fd >= 0 then
      var t := s.(serial := s.serial.(out := s.serial.out + [Put(s.txdata, clk, s.ticks)]),
                  status := s.status.(empty := true));
      if TransmitterOf(s.cmd).TxWithIrq? then SetInt(w, t, true) else t
    else s
  }

  /** int_acia_tx */
  function TxAlarm(w: Wiring, s: State, clk: int): State {
    var t := Transmit(w, s, clk);
    if s.inTx.DrWritten? then t.(inTx := TxStarted, tx := Armed(clk + s.ticks))
    else t.(inTx := NoTransmit, tx := Stopped(t.tx))
  }

  /** The loop of int_acia_rx; input is what rs232drv_getc would deliver. */
  function Receive(w: Wiring, s: State, input: Option<u8>): State {
    if s.serial.fd < 0 || input.None? then s
    else
      var t := s.(rxdata := input.value, serial := s.serial.(got := s.serial.got + [input.value]));
      var u := if IrqDisabled(s.cmd) then t else SetInt(w, t, true);
      u.(status := if s.status.full then s.status.(overrun := true) else s.status.(full := true))
  }

  /** int_acia_rx */
  function RxAlarm(w: Wiring, s: State, clk: int, input: Option<u8>): State {
    Receive(w, s, input).(rx := Armed(clk + s.ticksRx))
  }

  /** myacia_reset */
  function HardReset(w: Wiring, s: State, clk: int): State {
    var t := SetTicks(w, s.(serial := s.serial.(rts := false, dtr := false), cmd := 0, ctrl := 0, ectrl := 0), clk);
    SetInt(w, t.(status := Sr(false, false, true, false), inTx := NoTransmit, serial := t.serial.(fd := -1),
                 tx := Stopped(t.tx), rx := Stopped(t.rx)), false)
  }

  // ---------- runs ----------

  datatype Event =
    | Reset
    | Write(addr: u16, byte: u8, answer: int)
    | WriteRmw(addr: u16, byte: u8, answer: int, answer': int)
    | ReadAt(addr: u16, dsr: bool)
    | TxFires
    | RxFires(input: Option<u8>)

  datatype Timed = Timed(clk: int, event: Event)

  function Step(w: Wiring, s: State, e: Timed): State {
    match e.event
    case Reset => HardReset(w, s, e.clk)
    case Write(addr, byte, answer) => Store(w, s, addr, byte, e.clk, answer)
    case WriteRmw(addr, byte, answer, answer') => StoreRmw(w, s, addr, byte, e.clk, answer, answer')
    case ReadAt(addr, dsr) => Load(w, s, addr, dsr)
    case TxFires => TxAlarm(w, s, e.clk)
    case RxFires(input) => RxAlarm(w, s, e.clk, input)
  }

  function Run(w: Wiring, s: State, events: seq<Timed>): State
    decreases |events|
  {
    if events == [] then s else Step(w, Run(w, s, events[..|events| - 1]), events[|events| - 1])
  }

  // ---------- in every reachable state ----------

  ghost predicate TimerConsistent(t: Timer) { t.due == if t.active then Some(t.clk) else None }

  ghost predicate TxConsistent(s: State) {
    && TimerConsistent(s.tx)
    && (s.tx.active ==> !s.inTx.NoTransmit?)
    && (s.inTx.DrWritten? ==> !s.status.empty)
  }

  ghost predicate LineConsistent(w: Wiring, s: State) { s.line == (s.irq && !w.irqType.NoInterrupt?) }

  /** The flags and the recorded clocks of the device tell what the scheduler will do; an armed transmitter is busy;
      a byte waiting to be sent keeps the data register full; and irq matches the interrupt line. */
  ghost predicate Consistent(w: Wiring, s: State) {
    TxConsistent(s) && TimerConsistent(s.rx) && LineConsistent(w, s)
  }

  lemma TicksConsistent(w: Wiring, s: State, clk: int)
    requires TxConsistent(s) && LineConsistent(w, s) && (s.rx.active || TimerConsistent(s.rx))
    ensures Consistent(w, SetTicks(w, s, clk))
  {
    hide Clk;
  }

  lemma HandshakeConsistent(w: Wiring, s: State, clk: int)
    requires Consistent(w, s)
    ensures Consistent(w, Handshake(w, s, clk))
  {
    hide Dtr, TransmitterOf, Clk;
  }

  lemma ResetConsistent(w: Wiring, s: State, clk: int)
    requires Consistent(w, s)
    ensures Consistent(w, ProgrammedReset(w, s, clk))
  {
    hide Dtr, TransmitterOf, ParityBits, Handshake;
    var t := s.(serial := s.serial.(fd := -1), status := s.status.(overrun := false), cmd := ParityBits(s.cmd),
                inTx := NoTransmit, tx := Stopped(s.tx));
    HandshakeConsistent(w, SetInt(w, t, false), clk);
  }

  lemma CmdConsistent(w: Wiring, s: State, byte: u8, clk: int, answer: int)
    requires Consistent(w, s)
    ensures Consistent(w, StoreCmd(w, s, byte, clk, answer))
  {
    hide Dtr, TransmitterOf, Handshake, SetTicks;
    HandshakeConsistent(w, s.(cmd := byte), clk);
    var t := Handshake(w, s.(cmd := byte), clk);
    TicksConsistent(w, t.(serial := t.serial.(fd := answer), rx := t.rx.(active := true)), clk);
  }

  lemma StoreConsistent(w: Wiring, s: State, addr: u16, byte: u8, clk: int, answer: int)
    requires Consistent(w, s)
    ensures Consistent(w, Store(w, s, addr, byte, clk, answer))
  {
    hide Clk, RegisterAt, Dtr, ExternalClock, SetTicks, ProgrammedReset, StoreCmd;
    ResetConsistent(w, s, clk);
    CmdConsistent(w, s, byte, clk, answer);
    TicksConsistent(w, s.(ctrl := byte), clk);
    TicksConsistent(w, s.(ectrl := byte), clk);
  }

  lemma TxAlarmConsistent(w: Wiring, s: State, clk: int)
    requires Consistent(w, s)
    ensures Consistent(w, TxAlarm(w, s, clk))
  {
    hide Clk, TransmitterOf;
  }

  lemma RxAlarmConsistent(w: Wiring, s: State, clk: int, input: Option<u8>)
    requires Consistent(w, s)
    ensures Consistent(w, RxAlarm(w, s, clk, input))
  {
    hide Clk, IrqDisabled;
  }

  lemma StepConsistent(w: Wiring, s: State, e: Timed)
    requires Consistent(w, s)
    ensures Consistent(w, Step(w, s, e))
  {
    hide RegisterAt, Store, Value, TxAlarm, RxAlarm, Clk;
    match e.event {
      case Write(addr, byte, answer) => StoreConsistent(w, s, addr, byte, e.clk, answer);
      case WriteRmw(addr, byte, answer, answer') =>
        StoreConsistent(w, s, addr, s.lastRead, e.clk - 1, answer);
        StoreConsistent(w, Store(w, s, addr, s.lastRead, e.clk - 1, answer), addr, byte, e.clk, answer');
      case TxFires => TxAlarmConsistent(w, s, e.clk);
      case RxFires(input) => RxAlarmConsistent(w, s, e.clk, input);
      case _ =>
    }
  }

  /** acia_preinit and myacia_init: before the first reset. */
  predicate Initial(s: State) {
    && !s.tx.active && s.tx.due.None? && !s.rx.active && s.rx.due.None?
    && s.inTx.NoTransmit? && !s.irq && !s.line
  }

  /** Whatever the software, the line and the alarms do, in whatever order. */
  lemma {:induction false} AlwaysConsistent(w: Wiring, s: State, events: seq<Timed>)
    requires Initial(s)
    ensures Consistent(w, Run(w, s, events))
    decreases |events|
  {
    hide Step;
    if events != [] {
      AlwaysConsistent(w, s, events[..|events| - 1]);
      StepConsistent(w, Run(w, s, events[..|events| - 1]), events[|events| - 1]);
    }
  }
}
