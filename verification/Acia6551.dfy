/** The ACIA 6551 as a machine on values: what each register access, alarm and reset makes of its
    state, and what that comes to over runs. */
module Acia6551 {
  import opened Bytes
  import Alarms

  /** The status register without the interrupt bit, which is kept apart. */
  datatype SR = SR(parity: bool, framing: bool, overrun: bool, rdrf: bool, tdre: bool, dsr: bool, dcd: bool)

  datatype Mode = Normal | Swiftlink | Turbo232

  datatype Option<T> = None | Some(value: T)

  const NO_TRANSMIT := 0
  const TX_STARTED := 1
  const DR_WRITTEN := 2

  /** The status after a hardware reset: only "transmit data register empty". */
  const RESET_STATUS := SR(false, false, false, false, true, false, false)

  /** The variant of the chip and the cycles per second of its machine. */
  datatype Line = Line(mode: Mode, cyclesPerSecond: nat)

  /** No machine is faster than this. */
  const MAX_CYCLES := 0x0800_0000

  /** A character takes no longer than this. */
  const MAX_TICKS := 0x0fff_ffff

  /** The chip; `tx` and `rx` are the deadlines of the alarms that are set. */
  datatype State = State(
    ticks: nat, ticksRx: nat, fd: int, inTx: int, irq: bool, cmd: byte, ctrl: byte, ectrl: byte,
    rxdata: byte, txdata: byte, status: SR, tx: Option<nat>, rx: Option<nat>, lastRead: byte, rts: bool, dtr: bool)

  /** The transmitter's state, its alarm and TDRE fit together: an alarm is on only while there is something to
      finish, and a byte that waits in the data register keeps TDRE clear. */
  predicate Consistent(s: State) {
    && NO_TRANSMIT <= s.inTx <= DR_WRITTEN
    && (s.tx.Some? ==> s.inTx != NO_TRANSMIT)
    && (s.inTx == DR_WRITTEN ==> !s.status.tdre)
  }

  // ----- The status register as a byte -----

  /** The value of bits, the lowest first. */
  function FromBits(bits: seq<bool>): nat {
    if bits == [] then 0 else (if bits[0] then 1 else 0) + 2 * FromBits(bits[1..])
  }

  /** `v >> k`. */
  function Drop(v: nat, k: nat): nat {
    if k == 0 then v else Drop(v / 2, k - 1)
  }

  predicate BitOf(v: nat, k: nat) {
    Drop(v, k) % 2 == 1
  }

  lemma LowBit(bit: bool, rest: nat)
    ensures var v := (if bit then 1 else 0) + 2 * rest; v / 2 == rest && (v % 2 == 1 <==> bit)
  {
  }

  /** Each bit is where it was put. */
  lemma {:induction false} FromBitsAt(bits: seq<bool>, k: nat)
    requires k < |bits|
    ensures BitOf(FromBits(bits), k) == bits[k]
  {
    var rest := FromBits(bits[1..]);
    LowBit(bits[0], rest);
    if k > 0 {
      FromBitsAt(bits[1..], k - 1);
    }
  }

  lemma {:induction false} FromBitsBound(bits: seq<bool>)
    ensures FromBits(bits) < Power(|bits|)
  {
    if bits != [] {
      FromBitsBound(bits[1..]);
    }
  }

  function Power(n: nat): nat {
    if n == 0 then 1 else 2 * Power(n - 1)
  }

  function StatusBits(s: SR, irq: bool): seq<bool> {
    [s.parity, s.framing, s.overrun, s.rdrf, s.tdre, s.dsr, s.dcd, irq]
  }

  /** The status register as the program reads it. */
  function StatusByte(s: SR, irq: bool): byte {
    FromBitsBound(StatusBits(s, irq));
    assert Power(8) == 2 * 2 * 2 * 2 * Power(4);
    FromBits(StatusBits(s, irq))
  }

  function StatusOf(v: byte): SR {
    SR(BitOf(v, 0), BitOf(v, 1), BitOf(v, 2), BitOf(v, 3), BitOf(v, 4), BitOf(v, 5), BitOf(v, 6))
  }

  predicate IrqOf(v: byte) {
    BitOf(v, 7)
  }

  lemma StatusByteRoundTrip(s: SR, irq: bool)
    ensures StatusOf(StatusByte(s, irq)) == s && IrqOf(StatusByte(s, irq)) == irq
  {
    var bits := StatusBits(s, irq);
    hide FromBits, BitOf;
    FromBitsAt(bits, 0);
    FromBitsAt(bits, 1);
    FromBitsAt(bits, 2);
    FromBitsAt(bits, 3);
    FromBitsAt(bits, 4);
    FromBitsAt(bits, 5);
    FromBitsAt(bits, 6);
    FromBitsAt(bits, 7);
  }

  // ----- Rates -----

  /** The rates of the control register, in hundredths of bits per second. */
  const BPS: seq<nat> :=
    [1000, 5000, 7500, 10992, 13458, 15000, 30000, 60000, 120000, 180000, 240000, 360000, 480000, 720000, 960000, 1920000]

  /** The extra rates of the Turbo232. */
  const T232_BPS: seq<nat> := [23040000, 11520000, 5760000, 2880000]

  function Bps(mode: Mode, ctrl: byte, ectrl: byte): (r: nat)
    ensures r >= 1000
  {
    match mode
    case Normal => BPS[ctrl % 0x10]
    case Swiftlink => BPS[ctrl % 0x10] * 2
    case Turbo232 => if ctrl % 0x10 == 0 then T232_BPS[ectrl % 4] else BPS[ctrl % 0x10] * 2
  }

  /** Data, start, parity and stop bits of a character. */
  function CharBits(cmd: byte, ctrl: byte): (n: nat)
    ensures 7 <= n <= 12
  {
    (8 - ctrl / 0x20 % 4) + 1 + (if cmd / 0x20 % 2 == 1 then 1 else 0) + (if ctrl >= 0x80 then 2 else 1)
  }

  function Scaled(a: nat, b: nat, c: nat): nat
    requires c > 0
  {
    Product(0, 0, a, b);
    a * b / c
  }

  /** The cycles of a character, rounded down. */
  function CharTicks(line: Line, cmd: byte, ctrl: byte, ectrl: byte): nat {
    hide Bps, CharBits, Scaled;
    Scaled(line.cyclesPerSecond, 100 * CharBits(cmd, ctrl), Bps(line.mode, ctrl, ectrl))
  }

  lemma CharTicksBound(line: Line, cmd: byte, ctrl: byte, ectrl: byte)
    requires line.cyclesPerSecond <= MAX_CYCLES
    ensures CharTicks(line, cmd, ctrl, ectrl) <= MAX_TICKS
  {
    hide Bps, CharBits, Scaled;
    ScaledBound(line.cyclesPerSecond, 100 * CharBits(cmd, ctrl), Bps(line.mode, ctrl, ectrl));
  }

  lemma ScaledBound(a: nat, b: nat, c: nat)
    requires a <= MAX_CYCLES && b <= 1200 && c >= 1000
    ensures Scaled(a, b, c) <= MAX_TICKS
  {
    Product(a, b, MAX_CYCLES, 1200);
    Quotient(a * b, c, MAX_TICKS);
  }

  lemma Product(a: nat, b: nat, a': nat, b': nat)
    requires a <= a' && b <= b'
    ensures 0 <= a * b <= a' * b'
  {
    assert a' * b' == a * b + a * (b' - b) + (a' - a) * b';
  }

  lemma Quotient(n: nat, b: nat, bound: nat)
    requires b >= 1000 && n <= 1000 * bound
    ensures n / b <= bound
  {
    var q := n / b;
    assert n == q * b + n % b;
    Product(q, 1000, q, b);
  }

  // ----- Registers -----

  /** ACIA_CMD_BITS_DTR_ENABLE_RECV_AND_IRQ. */
  predicate Dtr(cmd: byte) {
    cmd % 2 == 1
  }

  /** The transmitter bits of the command register. */
  function Transmitter(cmd: byte): nat {
    cmd / 4 % 4
  }

  /** The register a bus address selects. */
  function Register(mode: Mode, addr: nat): nat {
    if mode.Turbo232? then addr % 8 else addr % 4
  }

  /** The rate of the registers from now on; a receiver that is on starts its character anew. */
  function AtRate(line: Line, s: State, clk: nat): State {
    var t := CharTicks(line, s.cmd, s.ctrl, s.ectrl);
    s.(ticks := t, ticksRx := t * 5 / 4, rx := if s.rx.Some? then Some(clk + t * 5 / 4) else None)
  }

  /** The receiver on, at the rate of the registers. */
  function Listening(line: Line, s: State, clk: nat): State {
    AtRate(line, s.(rx := Some(clk)), clk)
  }

  /** RTS and DTR as the command register has them, and the receiver with RTS. */
  function Handshaken(line: Line, s: State, clk: nat): State {
    var on := Transmitter(s.cmd) != 0;
    var t := if !on then s.(rx := None) else if s.rx.None? then Listening(line, s, clk) else s;
    t.(rts := on, dtr := Dtr(s.cmd))
  }

  function DataStored(s: State, value: byte, clk: nat): State {
    if Dtr(s.cmd) then
      s.(txdata := value, inTx := DR_WRITTEN, status := s.status.(tdre := false),
         tx := if s.tx.Some? then s.tx else Some(clk + 1))
    else
      s.(txdata := value)
  }

  /** A programmed reset: line closed, transmitter and receiver stopped, overrun and interrupt cleared; only the
      parity bits of the command register stay. */
  function ProgrammedReset(s: State): State {
    s.(fd := -1, status := s.status.(overrun := false), cmd := s.cmd / 0x20 * 0x20, inTx := NO_TRANSMIT, irq := false,
       tx := None, rx := None, rts := false, dtr := false)
  }

  /** A store to the command register; `opens` is what rs232drv_open would return. */
  function Commanded(line: Line, s: State, value: byte, clk: nat, opens: int): State {
    var t := Handshaken(line, s.(cmd := value), clk);
    if Dtr(value) && s.fd < 0 then Listening(line, t.(fd := opens), clk)
    else if s.fd >= 0 && !Dtr(value) then t.(fd := -1, tx := None)
    else t
  }

  function RegisterStored(line: Line, s: State, reg: nat, value: byte, clk: nat, opens: int): State {
    match reg
    case 0 => DataStored(s, value, clk)
    case 1 => ProgrammedReset(s)
    case 2 => Commanded(line, s, value, clk, opens)
    case 3 => AtRate(line, s.(ctrl := value), clk)
    case 7 => if s.ctrl % 0x10 == 0 then AtRate(line, s.(ectrl := value), clk) else s
    case _ => s
  }

  /** What a register read returns; `dsr` is the modem line. */
  function ValueRead(s: State, reg: nat, dsr: bool): byte {
    match reg
    case 0 => s.rxdata
    case 1 => StatusByte(s.status.(dsr := dsr, dcd := false), s.irq)
    case 2 => s.cmd
    case 3 => s.ctrl
    case 7 => (s.ectrl + if s.ctrl % 0x10 == 0 then 4 else 0) % 0x100
    case _ => 0xff
  }

  function RegisterRead(s: State, reg: nat, dsr: bool): State {
    match reg
    case 0 => s.(status := s.status.(rdrf := false), lastRead := s.rxdata)
    case 1 => s.(status := s.status.(dsr := dsr, dcd := false), lastRead := ValueRead(s, 1, dsr), irq := false)
    case 2 => s.(lastRead := s.cmd)
    case 3 => s.(lastRead := s.ctrl)
    case _ => s
  }

  // ----- Alarms and reset -----

  /** The transmitter alarm has a byte to send, and somewhere to send it. */
  predicate Sending(s: State) {
    s.inTx == DR_WRITTEN && s.fd >= 0
  }

  function TxFired(s: State, clk: nat): State {
    var left := if s.inTx == NO_TRANSMIT then NO_TRANSMIT else s.inTx - 1;
    var t := s.(inTx := left, tx := if left == NO_TRANSMIT then None else Some(clk + s.ticks));
    if Sending(s) then t.(status := s.status.(tdre := true), irq := s.irq || Transmitter(s.cmd) == 1) else t
  }

  function RxFired(s: State, input: Option<byte>, clk: nat): State {
    var t := s.(rx := Some(clk + s.ticksRx));
    if s.fd >= 0 && input.Some? then
      t.(rxdata := input.value, irq := s.irq || s.cmd / 2 % 2 == 0,
         status := s.status.(rdrf := true, overrun := s.status.overrun || s.status.rdrf))
    else t
  }

  /** A hardware reset keeps the data registers and the byte read last. */
  function HardwareReset(line: Line, s: State): State {
    var t := CharTicks(line, 0, 0, 0);
    State(t, t * 5 / 4, -1, NO_TRANSMIT, false, 0, 0, 0, s.rxdata, s.txdata, RESET_STATUS, None, None, s.lastRead, false, false)
  }

  // ----- Runs -----

  /** What happens to the chip.  A read-modify-write opcode stores the byte read last a cycle before
      the new one; `opensFirst` and `opens` are what opening the line would return at the two stores. */
  datatype Event =
    | StoreReg(addr: nat, value: byte, rmw: bool, opensFirst: int, opens: int)
    | ReadReg(addr: nat, dsr: bool)
    | TxAlarm
    | RxAlarm(input: Option<byte>)
    | HardReset

  datatype Timed = Timed(clk: nat, event: Event)

  predicate IsDue(deadline: Option<nat>, clk: nat) {
    deadline.Some? && deadline.value <= clk
  }

  /** The first store of a read-modify-write opcode. */
  function Between(line: Line, s: State, e: Timed): State
    requires e.event.StoreReg? && e.clk >= 1
  {
    if e.event.rmw then RegisterStored(line, s, Register(line.mode, e.event.addr), s.lastRead, e.clk - 1, e.event.opensFirst) else s
  }

  /** An alarm does nothing unless it is set and due. */
  function React(line: Line, s: State, e: Timed): State
    requires e.clk >= 1
  {
    match e.event
    case StoreReg(addr, value, _, _, opens) =>
      RegisterStored(line, Between(line, s, e), Register(line.mode, addr), value, e.clk, opens)
    case ReadReg(addr, dsr) => RegisterRead(s, Register(line.mode, addr), dsr)
    case TxAlarm => if IsDue(s.tx, e.clk) then TxFired(s, e.clk) else s
    case RxAlarm(input) => if IsDue(s.rx, e.clk) then RxFired(s, input, e.clk) else s
    case HardReset => HardwareReset(line, s)
  }

  /** Time does not run backwards, and the first store of a read-modify-write comes after what was before. */
  predicate InOrder(es: seq<Timed>) {
    (forall i :: 0 <= i < |es| ==> es[i].clk >= 1) &&
    (forall i, j :: 0 <= i < j < |es| ==> es[i].clk <= Start(es[j]))
  }

  function Start(e: Timed): int {
    if e.event.StoreReg? && e.event.rmw then e.clk - 1 else e.clk
  }

  /** The state before event `k`; at `|es|`, the state in the end. */
  function StateAt(line: Line, s: State, es: seq<Timed>, k: nat): State
    requires k <= |es| && InOrder(es)
  {
    if k == 0 then s else React(line, StateAt(line, s, es, k - 1), es[k - 1])
  }

  // ----- What events do -----

  predicate StoresTo(line: Line, e: Timed, reg: nat) {
    e.event.StoreReg? && Register(line.mode, e.event.addr) == reg
  }

  predicate ReadsData(line: Line, e: Timed) {
    e.event.ReadReg? && Register(line.mode, e.event.addr) == 0
  }

  /** The byte in the data register goes out. */
  predicate Sends(s: State, e: Timed) {
    e.event.TxAlarm? && IsDue(s.tx, e.clk) && Sending(s)
  }

  /** A byte comes in. */
  predicate Arrives(s: State, e: Timed) {
    e.event.RxAlarm? && IsDue(s.rx, e.clk) && s.fd >= 0 && e.event.input.Some?
  }

  /** A command store that takes DTR from an open line, in either of its stores. */
  predicate HangsUp(line: Line, s: State, e: Timed) {
    && e.clk >= 1 && StoresTo(line, e, 2)
    && ((e.event.rmw && s.fd >= 0 && !Dtr(s.lastRead)) || (Between(line, s, e).fd >= 0 && !Dtr(e.event.value)))
  }

  /** The transmitter alarm is cancelled. */
  predicate Cancels(line: Line, s: State, e: Timed) {
    e.event.HardReset? || StoresTo(line, e, 1) || HangsUp(line, s, e)
  }

  // ----- Transmission -----

  /** After a send at `from` its successor has to wait for `due`. */
  predicate Waiting(s: State, now: nat, due: nat) {
    if s.tx.Some? then s.tx.value >= due else now >= due
  }

  lemma WaitsOn(line: Line, s: State, e: Timed, now: nat, due: nat)
    requires e.clk >= 1 && now <= Start(e) && Waiting(s, now, due) && !Cancels(line, s, e)
    ensures Waiting(React(line, s, e), e.clk, due)
  {
    hide CharTicks, StatusByte, RegisterStored;
    match e.event
    case StoreReg(addr, value, rmw, opensFirst, opens) =>
      hide TxFired, RxFired, RegisterRead, HardwareReset;
      var reg := Register(line.mode, addr);
      if rmw {
        StoreWaits(line, s, reg, s.lastRead, e.clk - 1, opensFirst, due);
      }
      StoreWaits(line, Between(line, s, e), reg, value, e.clk, opens, due);
    case ReadReg(_, _) => hide TxFired, RxFired, HardwareReset;
    case TxAlarm => hide RxFired, RegisterRead, HardwareReset;
    case RxAlarm(_) => hide TxFired, RegisterRead, HardwareReset;
    case HardReset => hide TxFired, RxFired, RegisterRead;
  }

  lemma StoreWaits(line: Line, s: State, reg: nat, value: byte, clk: nat, opens: int, due: nat)
    requires Waiting(s, clk, due) && reg != 1 && !(reg == 2 && s.fd >= 0 && !Dtr(value))
    ensures Waiting(RegisterStored(line, s, reg, value, clk, opens), clk, due)
  {
    hide CharTicks;
  }

  lemma {:induction false} WaitsFrom(line: Line, s: State, es: seq<Timed>, i: nat, n: nat)
    requires i < n <= |es| && InOrder(es) && Sends(StateAt(line, s, es, i), es[i])
    requires forall k :: i < k < n ==> !Cancels(line, StateAt(line, s, es, k), es[k])
    ensures Waiting(StateAt(line, s, es, n), es[n - 1].clk, es[i].clk + StateAt(line, s, es, i).ticks)
  {
    hide React, Cancels, InOrder, Sends;
    if n == i + 1 {
      EventTime(es, i);
      AfterSend(line, StateAt(line, s, es, i), es[i]);
    } else {
      WaitsFrom(line, s, es, i, n - 1);
      EventTime(es, n - 1);
      EventOrder(es, n - 2, n - 1);
      WaitsOn(line, StateAt(line, s, es, n - 1), es[n - 1], es[n - 2].clk, es[i].clk + StateAt(line, s, es, i).ticks);
    }
  }

  lemma EventTime(es: seq<Timed>, k: nat)
    requires InOrder(es) && k < |es|
    ensures es[k].clk >= 1
  {
  }

  lemma EventOrder(es: seq<Timed>, i: nat, j: nat)
    requires InOrder(es) && i < j < |es|
    ensures es[i].clk <= Start(es[j])
  {
  }

  lemma AfterSend(line: Line, s: State, e: Timed)
    requires e.clk >= 1 && Sends(s, e)
    ensures var t := React(line, s, e); t.tx == Some(e.clk + s.ticks) && t.inTx == TX_STARTED && t.status.tdre
  {
  }

  /** Two bytes sent, the transmitter not cancelled in between, go out at least a character apart. */
  lemma SendsArePaced(line: Line, s: State, es: seq<Timed>, i: nat, j: nat)
    requires i < j < |es| && InOrder(es)
    requires Sends(StateAt(line, s, es, i), es[i]) && Sends(StateAt(line, s, es, j), es[j])
    requires forall k :: i < k < j ==> !Cancels(line, StateAt(line, s, es, k), es[k])
    ensures es[j].clk >= es[i].clk + StateAt(line, s, es, i).ticks
  {
    hide React, Cancels;
    WaitsFrom(line, s, es, i, j);
  }

  /** Two bytes stored as fast as the transmitter takes them. */
  function TwoBytes(c: nat, ticks: nat, v: byte, w: byte): (es: seq<Timed>)
    requires c >= 1
    ensures |es| == 4 && InOrder(es)
  {
    [Timed(c, StoreReg(0, v, false, 0, 0)), Timed(c + 1, TxAlarm),
     Timed(c + 1, StoreReg(0, w, false, 0, 0)), Timed(c + 1 + ticks, TxAlarm)]
  }

  /** The distance is attained: with the line open and the transmitter idle, two bytes stored in turn go out exactly
      a character apart. */
  lemma SendsAttained(line: Line, s: State, c: nat, v: byte, w: byte)
    requires c >= 1 && Dtr(s.cmd) && s.fd >= 0 && s.tx.None?
    ensures var es := TwoBytes(c, s.ticks, v, w);
            && Sends(StateAt(line, s, es, 1), es[1]) && Sends(StateAt(line, s, es, 3), es[3])
            && StateAt(line, s, es, 1).txdata == v && StateAt(line, s, es, 3).txdata == w
            && !Cancels(line, StateAt(line, s, es, 2), es[2])
            && es[3].clk == es[1].clk + StateAt(line, s, es, 1).ticks
  {
    var es := TwoBytes(c, s.ticks, v, w);
    var q1 := DataStored(s, v, c);
    var q2 := TxFired(q1, c + 1);
    assert Register(line.mode, 0) == 0;
    assert StateAt(line, s, es, 0) == s;
    assert StateAt(line, s, es, 1) == React(line, s, es[0]) == q1;
    assert StateAt(line, s, es, 2) == React(line, q1, es[1]) == q2;
    assert StateAt(line, s, es, 3) == React(line, q2, es[2]) == DataStored(q2, w, c + 1);
  }

  /** Without a store to the data register there is nothing more to send. */
  lemma {:induction false} NothingToSend(line: Line, s: State, es: seq<Timed>, i: nat, n: nat)
    requires i < n <= |es| && InOrder(es) && Sends(StateAt(line, s, es, i), es[i])
    requires forall k :: i < k < n ==> !StoresTo(line, es[k], 0)
    ensures StateAt(line, s, es, n).inTx <= TX_STARTED
  {
    hide React;
    if n == i + 1 {
      AfterSend(line, StateAt(line, s, es, i), es[i]);
    } else {
      NothingToSend(line, s, es, i, n - 1);
      StaysIdle(line, StateAt(line, s, es, n - 1), es[n - 1]);
    }
  }

  lemma StaysIdle(line: Line, s: State, e: Timed)
    requires e.clk >= 1 && s.inTx <= TX_STARTED && !StoresTo(line, e, 0)
    ensures React(line, s, e).inTx <= TX_STARTED
  {
    hide CharTicks, StatusByte, RegisterStored;
    match e.event
    case StoreReg(addr, value, rmw, opensFirst, opens) =>
      hide TxFired, RxFired, RegisterRead, HardwareReset;
      var reg := Register(line.mode, addr);
      StoreIdle(line, s, reg, s.lastRead, e.clk - 1, opensFirst);
      StoreIdle(line, Between(line, s, e), reg, value, e.clk, opens);
    case ReadReg(_, _) => hide TxFired, RxFired, HardwareReset;
    case TxAlarm => hide RxFired, RegisterRead, HardwareReset;
    case RxAlarm(_) => hide TxFired, RegisterRead, HardwareReset;
    case HardReset => hide TxFired, RxFired, RegisterRead;
  }

  lemma StoreIdle(line: Line, s: State, reg: nat, value: byte, clk: nat, opens: int)
    requires s.inTx <= TX_STARTED && reg != 0
    ensures RegisterStored(line, s, reg, value, clk, opens).inTx <= TX_STARTED
  {
    hide AtRate, Commanded;
    CommandedFrame(line, s, value, clk, opens);
    AtRateFrame(line, s.(ctrl := value), clk);
    AtRateFrame(line, s.(ectrl := value), clk);
  }

  /** No byte goes out twice: between two sends the data register is stored to. */
  lemma SendsAreStored(line: Line, s: State, es: seq<Timed>, i: nat, j: nat)
    requires i < j < |es| && InOrder(es)
    requires Sends(StateAt(line, s, es, i), es[i]) && Sends(StateAt(line, s, es, j), es[j])
    ensures exists k :: i < k < j && StoresTo(line, es[k], 0)
  {
    hide React;
    if forall k :: i < k < j ==> !StoresTo(line, es[k], 0) {
      NothingToSend(line, s, es, i, j);
    }
  }

  /** What goes out is the byte stored last. */
  lemma {:induction false} LastStored(line: Line, s: State, es: seq<Timed>, k: nat, n: nat)
    requires k < n <= |es| && InOrder(es) && StoresTo(line, es[k], 0)
    requires forall m :: k < m < n ==> !StoresTo(line, es[m], 0)
    ensures StateAt(line, s, es, n).txdata == es[k].event.value
  {
    hide React;
    if n == k + 1 {
      TakesData(line, StateAt(line, s, es, k), es[k]);
    } else {
      LastStored(line, s, es, k, n - 1);
      KeepsData(line, StateAt(line, s, es, n - 1), es[n - 1]);
    }
  }

  lemma TakesData(line: Line, s: State, e: Timed)
    requires e.clk >= 1 && StoresTo(line, e, 0)
    ensures var t := React(line, s, e);
            && t.txdata == e.event.value && t.cmd == s.cmd && t.fd == s.fd
            && (Dtr(s.cmd) ==> t.inTx == DR_WRITTEN && !t.status.tdre)
            && (Dtr(s.cmd) ==> t.tx == Some(if s.tx.Some? then s.tx.value else Start(e) + 1))
  {
  }

  lemma KeepsData(line: Line, s: State, e: Timed)
    requires e.clk >= 1 && !StoresTo(line, e, 0)
    ensures React(line, s, e).txdata == s.txdata
  {
    hide CharTicks, StatusByte, RegisterStored;
    match e.event
    case StoreReg(addr, value, rmw, opensFirst, opens) =>
      hide TxFired, RxFired, RegisterRead, HardwareReset;
      var reg := Register(line.mode, addr);
      StoreKeepsData(line, s, reg, s.lastRead, e.clk - 1, opensFirst);
      StoreKeepsData(line, Between(line, s, e), reg, value, e.clk, opens);
    case ReadReg(_, _) => hide TxFired, RxFired, HardwareReset;
    case TxAlarm => hide RxFired, RegisterRead, HardwareReset;
    case RxAlarm(_) => hide TxFired, RegisterRead, HardwareReset;
    case HardReset => hide TxFired, RxFired, RegisterRead;
  }

  lemma StoreKeepsData(line: Line, s: State, reg: nat, value: byte, clk: nat, opens: int)
    requires reg != 0
    ensures RegisterStored(line, s, reg, value, clk, opens).txdata == s.txdata
  {
    hide AtRate, Commanded;
    CommandedFrame(line, s, value, clk, opens);
    AtRateFrame(line, s.(ctrl := value), clk);
    AtRateFrame(line, s.(ectrl := value), clk);
  }

  /** Nothing happens to the byte waiting in the data register. */
  predicate Undisturbed(line: Line, s: State, e: Timed) {
    !StoresTo(line, e, 0) && !Cancels(line, s, e) && !(e.event.TxAlarm? && IsDue(s.tx, e.clk))
  }

  lemma WaitsInDr(line: Line, s: State, e: Timed)
    requires e.clk >= 1 && s.inTx == DR_WRITTEN && s.tx.Some? && Undisturbed(line, s, e)
    ensures var t := React(line, s, e); t.inTx == DR_WRITTEN && t.tx == s.tx
  {
    hide CharTicks, StatusByte, RegisterStored;
    match e.event
    case StoreReg(addr, value, rmw, opensFirst, opens) =>
      hide TxFired, RxFired, RegisterRead, HardwareReset;
      var reg := Register(line.mode, addr);
      if rmw {
        StoreLeavesTx(line, s, reg, s.lastRead, e.clk - 1, opensFirst);
      }
      StoreLeavesTx(line, Between(line, s, e), reg, value, e.clk, opens);
    case ReadReg(_, _) => hide TxFired, RxFired, HardwareReset;
    case TxAlarm => hide RxFired, RegisterRead, HardwareReset;
    case RxAlarm(_) => hide TxFired, RegisterRead, HardwareReset;
    case HardReset => hide TxFired, RxFired, RegisterRead;
  }

  lemma StoreLeavesTx(line: Line, s: State, reg: nat, value: byte, clk: nat, opens: int)
    requires reg > 1 && !(reg == 2 && s.fd >= 0 && !Dtr(value))
    ensures var t := RegisterStored(line, s, reg, value, clk, opens); t.inTx == s.inTx && t.tx == s.tx
  {
    hide CharTicks;
  }

  lemma {:induction false} StillInDr(line: Line, s: State, es: seq<Timed>, k: nat, n: nat)
    requires k < n <= |es| && InOrder(es) && StoresTo(line, es[k], 0) && Dtr(StateAt(line, s, es, k).cmd)
    requires forall m :: k < m < n ==> Undisturbed(line, StateAt(line, s, es, m), es[m])
    ensures var q, t := StateAt(line, s, es, k), StateAt(line, s, es, n);
            t.inTx == DR_WRITTEN && t.tx == Some(if q.tx.Some? then q.tx.value else Start(es[k]) + 1)
  {
    hide React, Cancels;
    if n == k + 1 {
      TakesData(line, StateAt(line, s, es, k), es[k]);
    } else {
      StillInDr(line, s, es, k, n - 1);
      WaitsInDr(line, StateAt(line, s, es, n - 1), es[n - 1]);
    }
  }

  /** Nothing is lost: a byte stored while DTR is set, neither replaced nor cancelled before the transmitter
      alarm that it waits for, goes out at that alarm exactly if the line is open. */
  lemma StoredIsSent(line: Line, s: State, es: seq<Timed>, k: nat, j: nat)
    requires k < j < |es| && InOrder(es) && StoresTo(line, es[k], 0) && Dtr(StateAt(line, s, es, k).cmd)
    requires forall m :: k < m < j ==> Undisturbed(line, StateAt(line, s, es, m), es[m])
    requires es[j].event.TxAlarm?
    ensures var q, t := StateAt(line, s, es, k), StateAt(line, s, es, j);
            && t.tx == Some(if q.tx.Some? then q.tx.value else Start(es[k]) + 1)
            && (Sends(t, es[j]) <==> es[j].clk >= t.tx.value && t.fd >= 0)
            && t.txdata == es[k].event.value
  {
    hide React, Cancels;
    StillInDr(line, s, es, k, j);
    LastStored(line, s, es, k, j);
  }

  // ----- Reception -----

  /** What a change of the rate leaves alone. */
  lemma AtRateFrame(line: Line, s: State, clk: nat)
    ensures var t := AtRate(line, s, clk);
            t == s.(ticks := t.ticks, ticksRx := t.ticksRx, rx := t.rx) && (t.rx.Some? ==> t.rx.value == clk + t.ticksRx)
  {
    hide CharTicks;
  }

  lemma HandshakenFrame(line: Line, s: State, clk: nat)
    ensures var t := Handshaken(line, s, clk);
            && t == s.(ticks := t.ticks, ticksRx := t.ticksRx, rx := t.rx, rts := t.rts, dtr := t.dtr)
            && (t.rx.None? || (t.rx == s.rx && t.ticksRx == s.ticksRx) || t.rx.value == clk + t.ticksRx)
  {
    hide AtRate;
    AtRateFrame(line, s.(rx := Some(clk)), clk);
  }

  lemma CommandedFrame(line: Line, s: State, value: byte, clk: nat, opens: int)
    ensures var t := Commanded(line, s, value, clk, opens);
            && t == s.(cmd := value, fd := t.fd, tx := t.tx, ticks := t.ticks, ticksRx := t.ticksRx, rx := t.rx,
                       rts := t.rts, dtr := t.dtr)
            && (t.rx.None? || (t.rx == s.rx && t.ticksRx == s.ticksRx) || t.rx.value == clk + t.ticksRx)
  {
    hide AtRate, Handshaken;
    HandshakenFrame(line, s.(cmd := value), clk);
    AtRateFrame(line, Handshaken(line, s.(cmd := value), clk).(fd := opens, rx := Some(clk)), clk);
  }

  /** Stores leave the receiver's bits alone, but for the programmed reset. */
  lemma StoreStatus(line: Line, s: State, reg: nat, value: byte, clk: nat, opens: int)
    ensures var t := RegisterStored(line, s, reg, value, clk, opens).status;
            t.rdrf == s.status.rdrf && t.overrun == (s.status.overrun && reg != 1)
  {
    hide AtRate, Commanded;
    CommandedFrame(line, s, value, clk, opens);
    AtRateFrame(line, s.(ctrl := value), clk);
    AtRateFrame(line, s.(ectrl := value), clk);
  }

  lemma StoresStatus(line: Line, s: State, e: Timed)
    requires e.clk >= 1 && e.event.StoreReg?
    ensures var t := React(line, s, e).status;
            t.rdrf == s.status.rdrf && t.overrun == (s.status.overrun && !StoresTo(line, e, 1))
  {
    hide RegisterStored;
    var reg := Register(line.mode, e.event.addr);
    StoreStatus(line, s, reg, s.lastRead, e.clk - 1, e.event.opensFirst);
    StoreStatus(line, Between(line, s, e), reg, e.event.value, e.clk, e.event.opens);
  }

  /** RDRF may be cleared. */
  predicate Clears(line: Line, e: Timed) {
    ReadsData(line, e) || e.event.HardReset?
  }

  lemma RdrfStep(line: Line, s: State, e: Timed)
    requires e.clk >= 1
    ensures React(line, s, e).status.rdrf <==> Arrives(s, e) || (s.status.rdrf && !Clears(line, e))
  {
    hide CharTicks, StatusByte, RegisterStored, Between;
    match e.event
    case StoreReg(_, _, _, _, _) => StoresStatus(line, s, e);
    case ReadReg(_, _) => hide TxFired, RxFired, HardwareReset;
    case TxAlarm => hide RxFired, RegisterRead, HardwareReset;
    case RxAlarm(_) => hide TxFired, RegisterRead, HardwareReset;
    case HardReset => hide TxFired, RxFired, RegisterRead;
  }

  predicate NoClear(line: Line, es: seq<Timed>, from: nat, to: nat)
    requires to <= |es|
  {
    forall m :: from <= m < to ==> !Clears(line, es[m])
  }

  /** The byte of event `k` has not been read by event `n`. */
  predicate UnreadSince(line: Line, s: State, es: seq<Timed>, k: nat, n: nat)
    requires k < n <= |es| && InOrder(es)
  {
    Arrives(StateAt(line, s, es, k), es[k]) && NoClear(line, es, k + 1, n)
  }

  /** RDRF is set exactly if a byte has come in since the data register was last read or the chip reset. */
  lemma {:induction false} RdrfExactly(line: Line, s: State, es: seq<Timed>, n: nat)
    requires n <= |es| && InOrder(es)
    ensures StateAt(line, s, es, n).status.rdrf <==>
            (s.status.rdrf && NoClear(line, es, 0, n)) || exists k :: 0 <= k < n && UnreadSince(line, s, es, k, n)
  {
    hide React, Arrives, Clears;
    if n > 0 {
      var last := n - 1;
      var q, e := StateAt(line, s, es, last), es[last];
      RdrfExactly(line, s, es, n - 1);
      RdrfStep(line, q, e);
      assert NoClear(line, es, 0, n) <==> NoClear(line, es, 0, n - 1) && !Clears(line, e);
      forall k | 0 <= k < n
        ensures UnreadSince(line, s, es, k, n)
           <==> if k == n - 1 then Arrives(q, e) else UnreadSince(line, s, es, k, n - 1) && !Clears(line, e)
      {
        UnreadMore(line, s, es, k, n);
      }
      hide NoClear, UnreadSince;
      if Arrives(q, e) {
        assert UnreadSince(line, s, es, n - 1, n);
      } else if k :| 0 <= k < last && UnreadSince(line, s, es, k, last) {
        assert !Clears(line, e) ==> UnreadSince(line, s, es, k, n);
      }
    }
  }

  lemma UnreadMore(line: Line, s: State, es: seq<Timed>, k: nat, n: nat)
    requires k < n <= |es| && InOrder(es)
    ensures UnreadSince(line, s, es, k, n) <==>
            if k == n - 1 then Arrives(StateAt(line, s, es, n - 1), es[n - 1])
            else UnreadSince(line, s, es, k, n - 1) && !Clears(line, es[n - 1])
  {
    hide StateAt, Arrives, Clears;
  }

  /** A byte comes in while the last one has not been read. */
  predicate Overruns(s: State, e: Timed) {
    Arrives(s, e) && s.status.rdrf
  }

  /** A reset of either kind. */
  predicate Resets(line: Line, e: Timed) {
    e.event.HardReset? || StoresTo(line, e, 1)
  }

  lemma OverrunStep(line: Line, s: State, e: Timed)
    requires e.clk >= 1
    ensures React(line, s, e).status.overrun <==> Overruns(s, e) || (s.status.overrun && !Resets(line, e))
  {
    hide CharTicks, StatusByte, RegisterStored, Between;
    match e.event
    case StoreReg(_, _, _, _, _) => StoresStatus(line, s, e);
    case ReadReg(_, _) => hide TxFired, RxFired, HardwareReset;
    case TxAlarm => hide RxFired, RegisterRead, HardwareReset;
    case RxAlarm(_) => hide TxFired, RegisterRead, HardwareReset;
    case HardReset => hide TxFired, RxFired, RegisterRead;
  }

  predicate NoReset(line: Line, es: seq<Timed>, from: nat, to: nat)
    requires to <= |es|
  {
    forall m :: from <= m < to ==> !Resets(line, es[m])
  }

  /** At event `k` a byte was overrun, and since then there was no reset. */
  predicate OverrunSince(line: Line, s: State, es: seq<Timed>, k: nat, n: nat)
    requires k < n <= |es| && InOrder(es)
  {
    Overruns(StateAt(line, s, es, k), es[k]) && NoReset(line, es, k + 1, n)
  }

  /** Overrun is set exactly if a byte was overrun since the last reset of either kind, whatever was read. */
  lemma {:induction false} OverrunExactly(line: Line, s: State, es: seq<Timed>, n: nat)
    requires n <= |es| && InOrder(es)
    ensures StateAt(line, s, es, n).status.overrun <==>
            (s.status.overrun && NoReset(line, es, 0, n)) || exists k :: 0 <= k < n && OverrunSince(line, s, es, k, n)
  {
    hide React, Overruns, Resets;
    if n > 0 {
      var last := n - 1;
      var q, e := StateAt(line, s, es, last), es[last];
      OverrunExactly(line, s, es, n - 1);
      OverrunStep(line, q, e);
      assert NoReset(line, es, 0, n) <==> NoReset(line, es, 0, n - 1) && !Resets(line, e);
      forall k | 0 <= k < n
        ensures OverrunSince(line, s, es, k, n)
           <==> if k == n - 1 then Overruns(q, e) else OverrunSince(line, s, es, k, n - 1) && !Resets(line, e)
      {
        OverrunMore(line, s, es, k, n);
      }
      hide NoReset, OverrunSince;
      if Overruns(q, e) {
        assert OverrunSince(line, s, es, n - 1, n);
      } else if k :| 0 <= k < last && OverrunSince(line, s, es, k, last) {
        assert !Resets(line, e) ==> OverrunSince(line, s, es, k, n);
      }
    }
  }

  lemma OverrunMore(line: Line, s: State, es: seq<Timed>, k: nat, n: nat)
    requires k < n <= |es| && InOrder(es)
    ensures OverrunSince(line, s, es, k, n) <==>
            if k == n - 1 then Overruns(StateAt(line, s, es, n - 1), es[n - 1])
            else OverrunSince(line, s, es, k, n - 1) && !Resets(line, es[n - 1])
  {
    hide StateAt, Overruns, Resets;
  }

  /** A byte is put into the data register to be sent. */
  predicate Fills(line: Line, s: State, e: Timed) {
    StoresTo(line, e, 0) && Dtr(s.cmd)
  }

  /** The transmitter says that it is free. */
  predicate Frees(s: State, e: Timed) {
    Sends(s, e) || e.event.HardReset?
  }

  lemma TdreStep(line: Line, s: State, e: Timed)
    requires e.clk >= 1
    ensures React(line, s, e).status.tdre <==> Frees(s, e) || (s.status.tdre && !Fills(line, s, e))
  {
    hide CharTicks, StatusByte, RegisterStored;
    match e.event
    case StoreReg(addr, value, rmw, opensFirst, opens) =>
      hide TxFired, RxFired, RegisterRead, HardwareReset;
      var reg := Register(line.mode, addr);
      StoreTdre(line, s, reg, s.lastRead, e.clk - 1, opensFirst);
      StoreTdre(line, Between(line, s, e), reg, value, e.clk, opens);
    case ReadReg(_, _) => hide TxFired, RxFired, HardwareReset;
    case TxAlarm => hide RxFired, RegisterRead, HardwareReset;
    case RxAlarm(_) => hide TxFired, RegisterRead, HardwareReset;
    case HardReset => hide TxFired, RxFired, RegisterRead;
  }

  lemma StoreTdre(line: Line, s: State, reg: nat, value: byte, clk: nat, opens: int)
    ensures var t := RegisterStored(line, s, reg, value, clk, opens);
            t.status.tdre == (s.status.tdre && !(reg == 0 && Dtr(s.cmd))) && (reg == 0 ==> t.cmd == s.cmd)
  {
    hide AtRate, Commanded, CharTicks;
    CommandedFrame(line, s, value, clk, opens);
    AtRateFrame(line, s.(ctrl := value), clk);
    AtRateFrame(line, s.(ectrl := value), clk);
  }

  /** The last event that frees or fills the transmitter's register frees it. */
  predicate FreeSince(line: Line, s: State, es: seq<Timed>, k: nat, n: nat)
    requires k < n <= |es| && InOrder(es)
  {
    Frees(StateAt(line, s, es, k), es[k]) && NoFill(line, s, es, k + 1, n)
  }

  predicate NoFill(line: Line, s: State, es: seq<Timed>, from: nat, to: nat)
    requires to <= |es| && InOrder(es)
  {
    forall m :: from <= m < to ==> !Fills(line, StateAt(line, s, es, m), es[m])
  }

  /** TDRE is set exactly if no byte was stored to be sent since the last one went out or the chip was reset.  A byte
      given up by a programmed reset or without DTR therefore leaves it clear, with nothing to send. */
  lemma {:induction false} TdreExactly(line: Line, s: State, es: seq<Timed>, n: nat)
    requires n <= |es| && InOrder(es)
    ensures StateAt(line, s, es, n).status.tdre <==>
            (s.status.tdre && NoFill(line, s, es, 0, n)) || exists k :: 0 <= k < n && FreeSince(line, s, es, k, n)
  {
    hide React, Frees, Fills, NoFill, FreeSince;
    if n == 0 {
      NothingYet(line, s, es);
    } else {
      var last := n - 1;
      var q, e := StateAt(line, s, es, last), es[last];
      TdreExactly(line, s, es, n - 1);
      TdreStep(line, q, e);
      NoFillMore(line, s, es, n);
      forall k | 0 <= k < n
        ensures FreeSince(line, s, es, k, n)
           <==> if k == n - 1 then Frees(q, e) else FreeSince(line, s, es, k, n - 1) && !Fills(line, q, e)
      {
        FreeMore(line, s, es, k, n);
      }
      if Frees(q, e) {
        assert FreeSince(line, s, es, n - 1, n);
      } else if k :| 0 <= k < last && FreeSince(line, s, es, k, last) {
        assert !Fills(line, q, e) ==> FreeSince(line, s, es, k, n);
      }
    }
  }

  lemma NothingYet(line: Line, s: State, es: seq<Timed>)
    requires InOrder(es)
    ensures NoFill(line, s, es, 0, 0)
  {
  }

  lemma NoFillMore(line: Line, s: State, es: seq<Timed>, n: nat)
    requires 0 < n <= |es| && InOrder(es)
    ensures NoFill(line, s, es, 0, n)
       <==> NoFill(line, s, es, 0, n - 1) && !Fills(line, StateAt(line, s, es, n - 1), es[n - 1])
  {
    hide StateAt, Fills;
  }

  lemma FreeMore(line: Line, s: State, es: seq<Timed>, k: nat, n: nat)
    requires k < n <= |es| && InOrder(es)
    ensures FreeSince(line, s, es, k, n) <==>
            if k == n - 1 then Frees(StateAt(line, s, es, n - 1), es[n - 1])
            else FreeSince(line, s, es, k, n - 1) && !Fills(line, StateAt(line, s, es, n - 1), es[n - 1])
  {
    hide StateAt, Frees, Fills;
  }

  /** A receiver that is on was last armed at `from` or later, for at least `t` cycles. */
  predicate Armed(s: State, from: nat, t: nat) {
    s.rx.Some? ==> s.rx.value >= from + t
  }

  lemma ArmedStep(line: Line, s: State, e: Timed, from: nat, t: nat)
    requires e.clk >= 1 && from <= Start(e) && Armed(s, from, t) && s.ticksRx >= t && React(line, s, e).ticksRx >= t
    ensures Armed(React(line, s, e), from, t)
  {
    hide CharTicks, StatusByte, RegisterStored;
    if e.event.StoreReg? {
      var reg := Register(line.mode, e.event.addr);
      if e.event.rmw {
        ArmedStore(line, s, reg, s.lastRead, e.clk - 1, e.event.opensFirst);
      }
      ArmedStore(line, Between(line, s, e), reg, e.event.value, e.clk, e.event.opens);
    }
  }

  /** Either the receiver has the deadline and the rate it had, or the store has armed it at the rate it leaves. */
  lemma ArmedStore(line: Line, s: State, reg: nat, value: byte, clk: nat, opens: int)
    ensures var q := RegisterStored(line, s, reg, value, clk, opens);
            q.rx.None? || (q.rx == s.rx && q.ticksRx == s.ticksRx) || q.rx.value == clk + q.ticksRx
  {
    hide AtRate, Commanded;
    CommandedFrame(line, s, value, clk, opens);
    AtRateFrame(line, s.(ctrl := value), clk);
    AtRateFrame(line, s.(ectrl := value), clk);
  }

  lemma {:induction false} ArmedFrom(line: Line, s: State, es: seq<Timed>, i: nat, n: nat, t: nat)
    requires i < n <= |es| && InOrder(es) && Arrives(StateAt(line, s, es, i), es[i])
    requires forall k :: i < k <= n ==> StateAt(line, s, es, k).ticksRx >= t
    ensures Armed(StateAt(line, s, es, n), es[i].clk, t)
  {
    hide React, Arrives;
    if n == i + 1 {
      AfterArrival(line, StateAt(line, s, es, i), es[i]);
    } else {
      ArmedFrom(line, s, es, i, n - 1, t);
      assert StateAt(line, s, es, n) == React(line, StateAt(line, s, es, n - 1), es[n - 1]);
      ArmedStep(line, StateAt(line, s, es, n - 1), es[n - 1], es[i].clk, t);
    }
  }

  lemma AfterArrival(line: Line, s: State, e: Timed)
    requires e.clk >= 1 && Arrives(s, e)
    ensures var q := React(line, s, e); q.rx == Some(e.clk + q.ticksRx)
  {
  }

  /** Two bytes come in at least a character apart, by the fastest rate set between them; stopping and
      starting the receiver does not help. */
  lemma ArrivalsArePaced(line: Line, s: State, es: seq<Timed>, i: nat, j: nat, t: nat)
    requires i < j < |es| && InOrder(es)
    requires Arrives(StateAt(line, s, es, i), es[i]) && Arrives(StateAt(line, s, es, j), es[j])
    requires forall k :: i < k <= j ==> StateAt(line, s, es, k).ticksRx >= t
    ensures es[j].clk >= es[i].clk + t
  {
    hide React;
    ArmedFrom(line, s, es, i, j, t);
  }

  // ----- Snapshots -----

  /** The module contents; an old snapshot lacks the receiver's time. */
  datatype Snapshot = Snapshot(txdata: byte, rxdata: byte, status: byte, cmd: byte, ctrl: byte, inTx: byte, act: Alarms.Clock,
                               aar: Option<Alarms.Clock>)

  /** The deadlines fit the width of CLOCK. */
  predicate Timely(s: State) {
    (s.tx.Some? ==> s.tx.value <= Alarms.NEVER) && (s.rx.Some? ==> s.rx.value <= Alarms.NEVER)
  }

  /** The cycles from `clk` to a deadline, in the width of CLOCK. */
  function Left(deadline: Alarms.Clock, clk: Alarms.Clock): Alarms.Clock {
    Alarms.Warped(deadline, -(clk as int))
  }

  /** Remaining cycles, zero for an alarm that is off. */
  function LeftOf(deadline: Option<nat>, clk: Alarms.Clock): Alarms.Clock
    requires deadline.Some? ==> deadline.value <= Alarms.NEVER
  {
    if deadline.Some? then Left(deadline.value, clk) else 0
  }

  /** Writing a snapshot looks at the modem lines. */
  function Polled(s: State, dsr: bool): State {
    s.(status := s.status.(dsr := dsr, dcd := false))
  }

  function SnapshotOf(s: State, clk: Alarms.Clock, dsr: bool): Snapshot
    requires Timely(s)
  {
    Snapshot(s.txdata, s.rxdata, StatusByte(Polled(s, dsr).status, s.irq), s.cmd, s.ctrl, U8(s.inTx), LeftOf(s.tx, clk), Some(LeftOf(s.rx, clk)))
  }

  /** The registers of a snapshot, both alarms off. */
  function Loaded(s: State, snap: Snapshot): State {
    s.(tx := None, rx := None, txdata := snap.txdata, rxdata := snap.rxdata, status := StatusOf(snap.status), cmd := snap.cmd,
       ctrl := snap.ctrl, irq := IrqOf(snap.status))
  }

  /** The line opened or closed as the command register asks. */
  function Connected(line: Line, s: State, clk: nat, opens: int): State {
    if Dtr(s.cmd) && s.fd < 0 then Handshaken(line, s.(fd := opens), clk)
    else if s.fd >= 0 && !Dtr(s.cmd) then s.(fd := -1)
    else s
  }

  function Deadline(clk: Alarms.Clock, left: Alarms.Clock): Option<nat> {
    if left == 0 then None else Some(Alarms.Warped(clk, left))
  }

  /** The receiver may be armed by the handshake lines and again with the transmitter's time; a snapshot that has
      a time of its own for it overrides both. */
  function Restored(line: Line, s: State, snap: Snapshot, clk: Alarms.Clock, opens: int): State {
    var t := AtRate(line, Connected(line, Loaded(s, snap), clk, opens), clk);
    t.(inTx := snap.inTx, tx := Deadline(clk, snap.act),
       rx := if snap.aar.Some? then Deadline(clk, snap.aar.value)
             else if snap.act != 0 then Deadline(clk, snap.act) else t.rx)
  }

  /** Modular remaining times. */
  lemma Remaining(deadline: Alarms.Clock, clk: Alarms.Clock, later: Alarms.Clock)
    ensures Left(deadline, clk) == 0 <==> deadline == clk
    ensures Left(Alarms.Warped(later, Left(deadline, clk)), later) == Left(deadline, clk)
  {
  }

  /** An alarm comes back with the time it had left, unless it was due at once. */
  predicate CameBack(was: Option<nat>, clk: Alarms.Clock, now: Option<nat>, later: Alarms.Clock)
    requires was.Some? ==> was.value <= Alarms.NEVER
  {
    if was.Some? && was.value != clk then
      now.Some? && now.value <= Alarms.NEVER && Left(now.value, later) == Left(was.value, clk)
    else
      now.None?
  }

  lemma Comeback(was: Option<nat>, clk: Alarms.Clock, later: Alarms.Clock)
    requires was.Some? ==> was.value <= Alarms.NEVER
    ensures CameBack(was, clk, Deadline(later, LeftOf(was, clk)), later)
    ensures Deadline(later, LeftOf(was, clk)).Some? ==> was.Some?
  {
    if was.Some? {
      Remaining(was.value, clk, later);
    }
  }

  /** Written at `clk`, the chip reset, and read back at `later`: data, command, control, status, interrupt and the
      transmitter's state (whose three values fit a byte) are as before, and an alarm is on with the time it had left
      unless it was due in the very cycle of the write.  The enhanced control register is not in the snapshot, so the
      rate is that of the registers with a zero there; and the handshake lines come back only with DTR. */
  lemma SnapshotRoundTrip(line: Line, s: State, clk: Alarms.Clock, later: Alarms.Clock, dsr: bool, opens: int)
    requires Timely(s)
    ensures var t := Restored(line, HardwareReset(line, Polled(s, dsr)), SnapshotOf(s, clk, dsr), later, opens);
            && t.txdata == s.txdata && t.rxdata == s.rxdata && t.cmd == s.cmd && t.ctrl == s.ctrl
            && t.inTx == U8(s.inTx) && t.irq == s.irq && t.status == Polled(s, dsr).status && t.lastRead == s.lastRead
            && (Consistent(s) ==> t.inTx == s.inTx && Consistent(t))
            && CameBack(s.tx, clk, t.tx, later) && CameBack(s.rx, clk, t.rx, later)
            && t.ectrl == 0 && t.ticks == CharTicks(line, s.cmd, s.ctrl, 0)
            && t.fd == (if Dtr(s.cmd) then opens else -1)
            && t.dtr == Dtr(s.cmd) && t.rts == (Dtr(s.cmd) && Transmitter(s.cmd) != 0)
  {
    hide StatusByte, StatusOf, IrqOf, Left, CharTicks, CameBack, Deadline, LeftOf;
    StatusByteRoundTrip(Polled(s, dsr).status, s.irq);
    Comeback(s.tx, clk, later);
    Comeback(s.rx, clk, later);
  }
}
