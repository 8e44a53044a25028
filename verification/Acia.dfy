/** The ACIA 6551 (vice/src/aciacore.c): a transmitter and a receiver driven by two alarms.

    The chip runs on a real alarm context, and `Valid` ties its own flags and times to that scheduler.
    Every operation is proved to do what the machine of `Acia6551` does. */
module Acia {
  import opened Alarms
  import opened Bytes
  import opened Acia6551
  import opened AciaRuns

  /** The array has a slot for each of the two alarms of the ACIA that is not in it. */
  ghost predicate Room(m: Schedule, tx: Alarm, rx: Alarm) {
    |m.Keys| + (if tx in m then 0 else 1) + (if rx in m then 0 else 1) <= MAX_PENDING
  }

  /** With room, setting one of the two works, and keeps the room. */
  lemma RoomForOne(m: Schedule, tx: Alarm, rx: Alarm, a: Alarm, clk: Clock)
    requires Room(m, tx, rx) && a in {tx, rx} && tx != rx
    ensures WithAlarm(m, a, clk) == m[a := clk] && Room(m[a := clk], tx, rx)
  {
    assert |m| == |m.Keys|;
    assert m[a := clk].Keys == m.Keys + {a};
  }

  lemma RoomWithoutOne(m: Schedule, tx: Alarm, rx: Alarm, a: Alarm)
    requires Room(m, tx, rx) && a in {tx, rx} && tx != rx
    ensures Room(WithoutAlarm(m, a), tx, rx)
  {
    assert WithoutAlarm(m, a).Keys == m.Keys - {a};
  }

  class Chip {
    const context: AlarmContext
    const alarmTx: Alarm
    const alarmRx: Alarm
    const mode: Mode
    const cyclesPerSecond: nat
    var ticks: nat
    var ticksRx: nat
    var fd: int
    var inTx: int
    var irq: bool
    var cmd: byte
    var ctrl: byte
    var rxdata: byte
    var txdata: byte
    var status: SR
    var ectrl: byte
    var alarmActiveTx: bool
    var alarmActiveRx: bool
    var lastRead: byte
    var alarmClkTx: Clock
    var alarmClkRx: Clock
    var rts: bool
    var dtr: bool

    /** acia_preinit, with the two alarms that myacia_init has made. */
    constructor (context: AlarmContext, alarmTx: Alarm, alarmRx: Alarm, mode: Mode, cyclesPerSecond: nat)
      requires context.Valid() && alarmTx in context.members && alarmRx in context.members && alarmTx != alarmRx
      requires alarmTx !in context.Pending() && alarmRx !in context.Pending() && |context.Pending()| <= MAX_PENDING - 2
      requires cyclesPerSecond <= MAX_CYCLES
      ensures Valid() && this.context == context && this.alarmTx == alarmTx && this.alarmRx == alarmRx
      ensures Circuit() == Line(mode, cyclesPerSecond)
      ensures View() == State(21111, 21111, -1, NO_TRANSMIT, false, 0, 0, 0, 0, 0,
                              SR(false, false, false, false, false, false, false), None, None, 0, false, false)
      ensures Consistent(View())
    {
      this.context, this.alarmTx, this.alarmRx := context, alarmTx, alarmRx;
      this.mode, this.cyclesPerSecond := mode, cyclesPerSecond;
      ticks, ticksRx, fd, inTx := 21111, 21111, -1, NO_TRANSMIT;
      irq, alarmActiveTx, alarmActiveRx, rts, dtr := false, false, false, false, false;
      cmd, ctrl, rxdata, txdata, ectrl, lastRead := 0, 0, 0, 0, 0, 0;
      status := SR(false, false, false, false, false, false, false);
      alarmClkTx, alarmClkRx := 0, 0;
      new;
      assert |context.Pending()| == |context.Pending().Keys|;
    }

    static function When(active: bool, clk: Clock): Option<nat> {
      if active then Option<nat>.Some(clk) else None
    }

    function Circuit(): Line {
      Line(mode, cyclesPerSecond)
    }

    /** The state this chip stands for. */
    ghost function View(): (s: State)
      reads this
    {
      State(ticks, ticksRx, fd, inTx, irq, cmd, ctrl, ectrl, rxdata, txdata, status,
            When(alarmActiveTx, alarmClkTx), When(alarmActiveRx, alarmClkRx), lastRead, rts, dtr)
    }

    // ----- Representation invariant -----

    /** The alarms belong to the context, and the context is in order. */
    ghost predicate Wired()
      reads context, context.pendingAlarm, context.pendingClk, context.members
    {
      && context.Valid() && alarmTx in context.members && alarmRx in context.members && alarmTx != alarmRx
      && Room(context.Pending(), alarmTx, alarmRx)
    }

    /** The flag and the time of an alarm agree with the scheduler. */
    ghost predicate TxScheduled()
      requires Wired()
      reads this`alarmActiveTx, this`alarmClkTx, context, context.pendingAlarm, context.pendingClk, context.members
    {
      (alarmActiveTx <==> alarmTx in context.Pending()) && (alarmActiveTx ==> context.Pending()[alarmTx] == alarmClkTx)
    }

    ghost predicate RxScheduled()
      requires Wired()
      reads this`alarmActiveRx, this`alarmClkRx, context, context.pendingAlarm, context.pendingClk, context.members
    {
      (alarmActiveRx <==> alarmRx in context.Pending()) && (alarmActiveRx ==> context.Pending()[alarmRx] == alarmClkRx)
    }

    /** A character fits the width of CLOCK. */
    ghost predicate Rated()
      reads this`ticks, this`ticksRx
    {
      cyclesPerSecond <= MAX_CYCLES && ticks <= MAX_TICKS && ticksRx <= 2 * MAX_TICKS
    }

    ghost predicate Valid()
      reads this, context, context.pendingAlarm, context.pendingClk, context.members
    {
      Wired() && TxScheduled() && RxScheduled() && Rated()
    }

    // ----- Alarms -----

    method ArmTx(clk: Clock)
      requires Wired()
      modifies this`alarmClkTx, this`alarmActiveTx
      modifies context`numPending, context`nextClk, context`nextIdx, context.pendingAlarm, context.pendingClk, context.members`pendingIdx
      ensures Wired() && TxScheduled() && (old(RxScheduled()) ==> RxScheduled())
      ensures View() == old(View()).(tx := Some(clk))
    {
      hide AlarmContext.Slots, AlarmContext.Cached, AlarmContext.Linked, AlarmContext.Pending, Room, WithAlarm;
      ghost var m := context.Pending();
      RoomForOne(m, alarmTx, alarmRx, alarmTx, clk);
      alarmClkTx := clk;
      context.Set(alarmTx, clk);
      assert context.Pending() == m[alarmTx := clk];
      alarmActiveTx := true;
    }

    method ArmRx(clk: Clock)
      requires Wired()
      modifies this`alarmClkRx, this`alarmActiveRx
      modifies context`numPending, context`nextClk, context`nextIdx, context.pendingAlarm, context.pendingClk, context.members`pendingIdx
      ensures Wired() && RxScheduled() && (old(TxScheduled()) ==> TxScheduled())
      ensures View() == old(View()).(rx := Some(clk))
    {
      hide AlarmContext.Slots, AlarmContext.Cached, AlarmContext.Linked, AlarmContext.Pending, Room, WithAlarm;
      ghost var m := context.Pending();
      RoomForOne(m, alarmTx, alarmRx, alarmRx, clk);
      alarmClkRx := clk;
      context.Set(alarmRx, clk);
      assert context.Pending() == m[alarmRx := clk];
      alarmActiveRx := true;
    }

    method CancelTx()
      requires Wired()
      modifies this`alarmActiveTx
      modifies context`numPending, context`nextClk, context`nextIdx, context.pendingAlarm, context.pendingClk, context.members`pendingIdx
      ensures Wired() && TxScheduled() && (old(RxScheduled()) ==> RxScheduled())
      ensures View() == old(View()).(tx := None)
    {
      hide AlarmContext.Slots, AlarmContext.Cached, AlarmContext.Linked, AlarmContext.Pending, Room;
      ghost var m := context.Pending();
      RoomWithoutOne(m, alarmTx, alarmRx, alarmTx);
      context.Unset(alarmTx);
      assert context.Pending() == m - {alarmTx};
      alarmActiveTx := false;
    }

    method CancelRx()
      requires Wired()
      modifies this`alarmActiveRx
      modifies context`numPending, context`nextClk, context`nextIdx, context.pendingAlarm, context.pendingClk, context.members`pendingIdx
      ensures Wired() && RxScheduled() && (old(TxScheduled()) ==> TxScheduled())
      ensures View() == old(View()).(rx := None)
    {
      hide AlarmContext.Slots, AlarmContext.Cached, AlarmContext.Linked, AlarmContext.Pending, Room;
      ghost var m := context.Pending();
      RoomWithoutOne(m, alarmTx, alarmRx, alarmRx);
      context.Unset(alarmRx);
      assert context.Pending() == m - {alarmRx};
      alarmActiveRx := false;
    }

    // ----- Rate and handshake -----

    /** get_acia_bps, in hundredths. */
    method GetAciaBps() returns (bps: nat)
      ensures bps == Bps(mode, ctrl, ectrl)
    {
      match mode
      case Normal => bps := BPS[ctrl % 0x10];
      case Swiftlink => bps := BPS[ctrl % 0x10] * 2;
      case Turbo232 =>
        if ctrl % 0x10 == 0 {
          bps := T232_BPS[ectrl % 4];
        } else {
          bps := BPS[ctrl % 0x10] * 2;
        }
    }

    method CountBits() returns (bits: nat)
      ensures bits == CharBits(cmd, ctrl)
    {
      match ctrl / 0x20 % 4 {
        case 0 => bits := 8;
        case 1 => bits := 7;
        case 2 => bits := 6;
        case _ => bits := 5;
      }
      bits := bits + 1 + (if cmd / 0x20 % 2 == 1 then 1 else 0) + (if ctrl >= 0x80 then 2 else 1);
    }

    /** set_acia_ticks: the rate of the registers, and a receiver that is on starts its character anew. */
    method SetAciaTicks(clk: Clock)
      requires Wired() && TxScheduled() && (RxScheduled() || alarmActiveRx)
      requires cyclesPerSecond <= MAX_CYCLES && clk + 2 * MAX_TICKS <= NEVER
      modifies this`ticks, this`ticksRx, this`alarmClkRx, this`alarmActiveRx
      modifies context`numPending, context`nextClk, context`nextIdx, context.pendingAlarm, context.pendingClk, context.members`pendingIdx
      ensures Valid() && View() == AtRate(Circuit(), old(View()), clk)
    {
      hide Wired, TxScheduled, RxScheduled, CharBits, Bps, Scaled;
      CharTicksBound(Circuit(), cmd, ctrl, ectrl);
      var bits := CountBits();
      var bps := GetAciaBps();
      ticks := Scaled(cyclesPerSecond, 100 * bits, bps);
      ticksRx := ticks * 5 / 4;
      if alarmActiveRx {
        ArmRx(clk + ticksRx);
      }
    }

    /** Enable the receiver's alarm at the current rate. */
    method EnableRx(clk: Clock)
      requires Wired() && TxScheduled() && cyclesPerSecond <= MAX_CYCLES && clk + 2 * MAX_TICKS <= NEVER
      modifies this`ticks, this`ticksRx, this`alarmClkRx, this`alarmActiveRx
      modifies context`numPending, context`nextClk, context`nextIdx, context.pendingAlarm, context.pendingClk, context.members`pendingIdx
      ensures Valid() && View() == Listening(Circuit(), old(View()), clk)
    {
      hide Wired, TxScheduled, RxScheduled, CharTicks;
      alarmActiveRx := true;
      SetAciaTicks(clk);
    }

    /** acia_set_handshake_lines: RTS and DTR by the command register, and with RTS the receiver. */
    method SetHandshakeLines(clk: Clock)
      requires Valid() && clk + 2 * MAX_TICKS <= NEVER
      modifies this`rts, this`dtr, this`ticks, this`ticksRx, this`alarmClkRx, this`alarmActiveRx
      modifies context`numPending, context`nextClk, context`nextIdx, context.pendingAlarm, context.pendingClk, context.members`pendingIdx
      ensures Valid() && View() == Handshaken(Circuit(), old(View()), clk)
    {
      hide Wired, TxScheduled, RxScheduled, CharTicks, Transmitter, Acia6551.Dtr;
      if Transmitter(cmd) == 0 {
        rts := false;
        if alarmActiveRx {
          CancelRx();
        }
      } else {
        rts := true;
        if !alarmActiveRx {
          EnableRx(clk);
        }
      }
      dtr := Dtr(cmd);
    }

    /** acia_get_status: the modem lines; carrier detect is never reported. */
    method GetStatus(dsr: bool)
      modifies this`status
      ensures View() == Polled(old(View()), dsr)
    {
      status := status.(dsr := false, dcd := false);
      if dsr {
        status := status.(dsr := true);
      }
    }

    // ----- Reset, registers -----

    /** myacia_reset. */
    method Reset(clk: Clock)
      requires Valid() && clk + 2 * MAX_TICKS <= NEVER
      modifies this
      modifies context`numPending, context`nextClk, context`nextIdx, context.pendingAlarm, context.pendingClk, context.members`pendingIdx
      ensures Valid() && View() == HardwareReset(Circuit(), old(View())) && Consistent(View())
    {
      hide Wired, TxScheduled, RxScheduled, CharTicks;
      ClearRegisters();
      SetAciaTicks(clk);
      StopAll();
    }

    method ClearRegisters()
      modifies this`rts, this`dtr, this`cmd, this`ctrl, this`ectrl
      ensures View() == old(View()).(rts := false, dtr := false, cmd := 0, ctrl := 0, ectrl := 0)
    {
      rts, dtr := false, false;
      cmd, ctrl, ectrl := 0, 0, 0;
    }

    /** The status of a reset, the line closed and both alarms off. */
    method StopAll()
      requires Valid()
      modifies this`status, this`inTx, this`fd, this`irq, this`alarmActiveTx, this`alarmActiveRx
      modifies context`numPending, context`nextClk, context`nextIdx, context.pendingAlarm, context.pendingClk, context.members`pendingIdx
      ensures Valid()
      ensures View() == old(View()).(status := RESET_STATUS, inTx := NO_TRANSMIT, fd := -1, tx := None, rx := None, irq := false)
    {
      hide Wired, TxScheduled, RxScheduled;
      ClearStatus();
      StopAlarms();
    }

    method ClearStatus()
      modifies this`status, this`inTx, this`fd, this`irq
      ensures View() == old(View()).(status := RESET_STATUS, inTx := NO_TRANSMIT, fd := -1, irq := false)
    {
      status := RESET_STATUS;
      inTx, fd, irq := NO_TRANSMIT, -1, false;
    }

    method StopAlarms()
      requires Wired()
      modifies this`alarmActiveTx, this`alarmActiveRx
      modifies context`numPending, context`nextClk, context`nextIdx, context.pendingAlarm, context.pendingClk, context.members`pendingIdx
      ensures Wired() && TxScheduled() && RxScheduled() && View() == old(View()).(tx := None, rx := None)
    {
      hide Wired, TxScheduled, RxScheduled;
      CancelTx();
      CancelRx();
    }

    /** myacia_store without the read-modify-write prelude. */
    method StoreRegister(addr: nat, value: byte, clk: Clock, opens: int)
      requires Valid() && clk + 2 * MAX_TICKS < NEVER
      modifies this
      modifies context`numPending, context`nextClk, context`nextIdx, context.pendingAlarm, context.pendingClk, context.members`pendingIdx
      ensures Valid() && View() == RegisterStored(Circuit(), old(View()), Register(mode, addr), value, clk, opens)
    {
      hide Wired, TxScheduled, RxScheduled, AtRate, Commanded, DataStored, Acia6551.ProgrammedReset;
      match Register(mode, addr) {
        case 0 => StoreData(value, clk);
        case 1 => ProgrammedReset(clk);
        case 2 => StoreCommand(value, clk, opens);
        case 3 =>
          ctrl := value;
          SetAciaTicks(clk);
        case 7 =>
          if ctrl % 0x10 == 0 {
            ectrl := value;
            SetAciaTicks(clk);
          }
        case _ =>
      }
    }

    /** A store to the data register; the transmitter's alarm goes off at once if it is idle. */
    method StoreData(value: byte, clk: Clock)
      requires Valid() && clk < NEVER
      modifies this`txdata, this`inTx, this`status, this`alarmClkTx, this`alarmActiveTx
      modifies context`numPending, context`nextClk, context`nextIdx, context.pendingAlarm, context.pendingClk, context.members`pendingIdx
      ensures Valid() && View() == DataStored(old(View()), value, clk)
    {
      hide Wired, TxScheduled, RxScheduled, Acia6551.Dtr;
      txdata := value;
      if Dtr(cmd) {
        FillDr();
        if !alarmActiveTx {
          ArmTx(clk + 1);
        }
      }
    }

    /** The data register holds a byte to be sent. */
    method FillDr()
      modifies this`inTx, this`status
      ensures var s := old(View()); View() == s.(inTx := DR_WRITTEN, status := s.status.(tdre := false))
    {
      inTx := DR_WRITTEN;
      status := status.(tdre := false);
    }

    /** A store to the status register is a programmed reset. */
    method ProgrammedReset(clk: Clock)
      requires Valid() && clk + 2 * MAX_TICKS <= NEVER
      modifies this
      modifies context`numPending, context`nextClk, context`nextIdx, context.pendingAlarm, context.pendingClk, context.members`pendingIdx
      ensures Valid() && View() == Acia6551.ProgrammedReset(old(View()))
    {
      hide Wired, TxScheduled, RxScheduled, Listening, Transmitter, Acia6551.Dtr;
      ParityOnly(cmd);
      CloseLine();
      SetHandshakeLines(clk);
    }

    /** The parity bits of a command ask for neither RTS nor DTR. */
    static lemma ParityOnly(cmd: byte)
      ensures Transmitter(cmd / 0x20 * 0x20) == 0 && !Dtr(cmd / 0x20 * 0x20)
    {
    }

    method CloseLine()
      requires Valid()
      modifies this`fd, this`status, this`cmd, this`inTx, this`irq, this`alarmActiveTx
      modifies context`numPending, context`nextClk, context`nextIdx, context.pendingAlarm, context.pendingClk, context.members`pendingIdx
      ensures Valid()
      ensures var s := old(View());
              View() == s.(fd := -1, status := s.status.(overrun := false), cmd := s.cmd / 0x20 * 0x20,
                           inTx := NO_TRANSMIT, irq := false, tx := None)
    {
      hide Wired, TxScheduled, RxScheduled;
      ClearLine();
      CancelTx();
    }

    method ClearLine()
      modifies this`fd, this`status, this`cmd, this`inTx, this`irq
      ensures var s := old(View());
              View() == s.(fd := -1, status := s.status.(overrun := false), cmd := s.cmd / 0x20 * 0x20,
                           inTx := NO_TRANSMIT, irq := false)
    {
      fd := -1;
      status := status.(overrun := false);
      cmd := cmd / 0x20 * 0x20;
      inTx, irq := NO_TRANSMIT, false;
    }

    method StoreCommand(value: byte, clk: Clock, opens: int)
      requires Valid() && clk + 2 * MAX_TICKS <= NEVER
      modifies this
      modifies context`numPending, context`nextClk, context`nextIdx, context.pendingAlarm, context.pendingClk, context.members`pendingIdx
      ensures Valid() && View() == Commanded(Circuit(), old(View()), value, clk, opens)
    {
      hide Wired, TxScheduled, RxScheduled, Handshaken, Listening;
      ghost var s := View();
      cmd := value;
      SetHandshakeLines(clk);
      HandshakenFrame(Circuit(), s.(cmd := value), clk);
      OpenOrClose(clk, opens);
    }

    /** The line opened with DTR and closed without. */
    method OpenOrClose(clk: Clock, opens: int)
      requires Valid() && clk + 2 * MAX_TICKS <= NEVER
      modifies this`fd, this`alarmActiveTx, this`ticks, this`ticksRx, this`alarmClkRx, this`alarmActiveRx
      modifies context`numPending, context`nextClk, context`nextIdx, context.pendingAlarm, context.pendingClk, context.members`pendingIdx
      ensures Valid()
      ensures var t := old(View());
              View() == if Dtr(t.cmd) && t.fd < 0 then Listening(Circuit(), t.(fd := opens), clk)
                        else if t.fd >= 0 && !Dtr(t.cmd) then t.(fd := -1, tx := None) else t
    {
      hide Wired, TxScheduled, RxScheduled, Listening, Acia6551.Dtr;
      if Dtr(cmd) && fd < 0 {
        fd := opens;
        EnableRx(clk);
      } else if fd >= 0 && !Dtr(cmd) {
        fd := -1;
        CancelTx();
      }
    }

    /** myacia_store.  A read-modify-write opcode stores the old value first, a cycle earlier. */
    method Store(addr: nat, value: byte, clk: Clock, rmw: bool, opensFirst: int, opens: int)
      requires Valid() && 1 <= clk && clk + 2 * MAX_TICKS < NEVER
      modifies this
      modifies context`numPending, context`nextClk, context`nextIdx, context.pendingAlarm, context.pendingClk, context.members`pendingIdx
      ensures Valid()
      ensures View() == React(Circuit(), old(View()), Timed(clk, StoreReg(addr, value, rmw, opensFirst, opens)))
    {
      hide Valid, RegisterStored;
      if rmw {
        StoreRegister(addr, lastRead, clk - 1, opensFirst);
      }
      StoreRegister(addr, value, clk, opens);
    }

    /** Reading the status clears the interrupt. */
    method ReadStatus(dsr: bool) returns (v: byte)
      modifies this`status, this`lastRead, this`irq
      ensures v == ValueRead(old(View()), 1, dsr) && View() == RegisterRead(old(View()), 1, dsr)
    {
      hide StatusByte;
      GetStatus(dsr);
      v := StatusByte(status, irq);
      irq := false;
      lastRead := v;
    }

    /** myacia_read. */
    method Read(addr: nat, dsr: bool) returns (v: byte)
      requires Valid()
      modifies this`status, this`lastRead, this`irq
      ensures Valid()
      ensures v == ValueRead(old(View()), Register(mode, addr), dsr)
      ensures View() == RegisterRead(old(View()), Register(mode, addr), dsr)
    {
      hide Wired, TxScheduled, RxScheduled, StatusByte;
      match Register(mode, addr) {
        case 0 =>
          status := status.(rdrf := false);
          lastRead := rxdata;
          v := rxdata;
        case 1 =>
          v := ReadStatus(dsr);
        case 2 =>
          lastRead := cmd;
          v := cmd;
        case 3 =>
          lastRead := ctrl;
          v := ctrl;
        case 7 =>
          v := (ectrl + if ctrl % 0x10 == 0 then 4 else 0) % 0x100;
        case _ =>
          v := 0xff;
      }
    }

    // ----- Alarm callbacks -----

    /** int_acia_tx, run by the scheduler at its time or later; `sent` is what goes to rs232drv_putc. */
    method TxCallback(clk: Clock) returns (sent: Option<byte>)
      requires Valid() && clk + 2 * MAX_TICKS <= NEVER
      modifies this`inTx, this`status, this`irq, this`alarmClkTx, this`alarmActiveTx
      modifies context`numPending, context`nextClk, context`nextIdx, context.pendingAlarm, context.pendingClk, context.members`pendingIdx
      ensures Valid() && View() == TxFired(old(View()), clk)
      ensures sent == if Sending(old(View())) then Some(txdata) else None
    {
      hide Wired, TxScheduled, RxScheduled, Transmitter;
      sent := PutByte();
      if inTx != NO_TRANSMIT {
        inTx := inTx - 1;
      }
      if inTx != NO_TRANSMIT {
        ArmTx(clk + ticks);
      } else {
        CancelTx();
      }
    }

    /** rs232drv_putc, the status bit and the interrupt. */
    method PutByte() returns (sent: Option<byte>)
      modifies this`status, this`irq
      ensures sent == if Sending(old(View())) then Some(txdata) else None
      ensures var s := old(View());
              View() == if Sending(s) then s.(status := s.status.(tdre := true), irq := s.irq || Transmitter(s.cmd) == 1) else s
    {
      sent := None;
      if inTx == DR_WRITTEN && fd >= 0 {
        sent := Some(txdata);
        status := status.(tdre := true);
        if Transmitter(cmd) == 1 {
          irq := true;
        }
      }
    }

    /** int_acia_rx; `input` is what rs232drv_getc delivers. */
    method RxCallback(clk: Clock, input: Option<byte>)
      requires Valid() && clk + 2 * MAX_TICKS <= NEVER
      modifies this`rxdata, this`status, this`irq, this`alarmClkRx, this`alarmActiveRx
      modifies context`numPending, context`nextClk, context`nextIdx, context.pendingAlarm, context.pendingClk, context.members`pendingIdx
      ensures Valid() && View() == RxFired(old(View()), input, clk)
    {
      hide Wired, TxScheduled, RxScheduled;
      if fd >= 0 && input.Some? {
        Receive(input.value);
      }
      ArmRx(clk + ticksRx);
    }

    /** A received byte: data, interrupt, and the full or the overrun bit. */
    method Receive(value: byte)
      modifies this`rxdata, this`status, this`irq
      ensures var s := old(View());
              View() == s.(rxdata := value, irq := s.irq || s.cmd / 2 % 2 == 0,
                           status := s.status.(rdrf := true, overrun := s.status.overrun || s.status.rdrf))
    {
      rxdata := value;
      if cmd / 2 % 2 == 0 {
        irq := true;
      }
      if status.rdrf {
        status := status.(overrun := true);
        return;
      }
      status := status.(rdrf := true);
    }

    // ----- Snapshots -----

    /** myacia_snapshot_write_module: deadlines as remaining cycles, zero for none. */
    method SnapshotWrite(clk: Clock, dsr: bool) returns (snap: Snapshot)
      modifies this`status
      ensures View() == Polled(old(View()), dsr)
      ensures Timely(old(View())) && snap == SnapshotOf(old(View()), clk, dsr)
    {
      hide StatusByte, Left;
      var act := if alarmActiveTx then Left(alarmClkTx, clk) else 0;
      var aar := if alarmActiveRx then Left(alarmClkRx, clk) else 0;
      GetStatus(dsr);
      snap := Snapshot(txdata, rxdata, StatusByte(status, irq), cmd, ctrl, U8(inTx), act, Some(aar));
    }

    /** myacia_snapshot_read_module. */
    method SnapshotRead(snap: Snapshot, clk: Clock, opens: int)
      requires Valid() && clk + 2 * MAX_TICKS <= NEVER
      modifies this
      modifies context`numPending, context`nextClk, context`nextIdx, context.pendingAlarm, context.pendingClk, context.members`pendingIdx
      ensures Valid() && View() == Restored(Circuit(), old(View()), snap, clk, opens)
    {
      hide Wired, TxScheduled, RxScheduled, Warped, AtRate, Connected, Loaded;
      ghost var s := View();
      Load(snap);
      Connect(clk, opens);
      SetAciaTicks(clk);
      inTx := snap.inTx;
      NoTransmitter(Circuit(), s, snap, clk, opens);
      LoadAlarms(snap, clk);
    }

    /** Opening the line does not set off the transmitter. */
    static lemma NoTransmitter(line: Line, s: State, snap: Snapshot, clk: nat, opens: int)
      ensures AtRate(line, Connected(line, Loaded(s, snap), clk, opens), clk).tx.None?
    {
      hide CharTicks, StatusOf, IrqOf;
    }

    /** Both alarms off, and the registers from the snapshot. */
    method Load(snap: Snapshot)
      requires Valid()
      modifies this`txdata, this`rxdata, this`status, this`cmd, this`ctrl, this`irq, this`alarmActiveTx, this`alarmActiveRx
      modifies context`numPending, context`nextClk, context`nextIdx, context.pendingAlarm, context.pendingClk, context.members`pendingIdx
      ensures Valid() && View() == Loaded(old(View()), snap)
    {
      hide Wired, TxScheduled, RxScheduled, StatusOf, IrqOf;
      StopAlarms();
      LoadRegisters(snap);
    }

    method LoadRegisters(snap: Snapshot)
      modifies this`txdata, this`rxdata, this`status, this`cmd, this`ctrl, this`irq
      ensures View() == old(View()).(txdata := snap.txdata, rxdata := snap.rxdata, status := StatusOf(snap.status), cmd := snap.cmd,
                                     ctrl := snap.ctrl, irq := IrqOf(snap.status))
    {
      hide StatusOf, IrqOf;
      txdata, rxdata, cmd, ctrl := snap.txdata, snap.rxdata, snap.cmd, snap.ctrl;
      status := StatusOf(snap.status);
      irq := IrqOf(snap.status);
    }

    method Connect(clk: Clock, opens: int)
      requires Valid() && clk + 2 * MAX_TICKS <= NEVER
      modifies this`fd, this`rts, this`dtr, this`ticks, this`ticksRx, this`alarmClkRx, this`alarmActiveRx
      modifies context`numPending, context`nextClk, context`nextIdx, context.pendingAlarm, context.pendingClk, context.members`pendingIdx
      ensures Valid() && View() == Connected(Circuit(), old(View()), clk, opens)
    {
      hide Wired, TxScheduled, RxScheduled, Handshaken;
      if Dtr(cmd) && fd < 0 {
        fd := opens;
        SetHandshakeLines(clk);
      } else if fd >= 0 && !Dtr(cmd) {
        fd := -1;
      }
    }

    /** The deadlines of a snapshot, where the transmitter's alarm is off. */
    method LoadAlarms(snap: Snapshot, clk: Clock)
      requires Valid() && !alarmActiveTx
      modifies this`alarmClkTx, this`alarmActiveTx, this`alarmClkRx, this`alarmActiveRx
      modifies context`numPending, context`nextClk, context`nextIdx, context.pendingAlarm, context.pendingClk, context.members`pendingIdx
      ensures Valid()
      ensures View() == old(View()).(tx := Deadline(clk, snap.act),
                                     rx := if snap.aar.Some? then Deadline(clk, snap.aar.value)
                                           else if snap.act != 0 then Deadline(clk, snap.act) else old(View()).rx)
    {
      hide Wired, TxScheduled, RxScheduled, Warped;
      if snap.act != 0 {
        ArmTx(Warped(clk, snap.act));
        ArmRx(Warped(clk, snap.act));
      }
      if snap.aar.Some? {
        if snap.aar.value != 0 {
          ArmRx(Warped(clk, snap.aar.value));
        } else {
          CancelRx();
        }
      }
    }
  }

  // ----- Runs -----

  /** Every run of register accesses, alarms and resets: the chip, whose flags agree with the scheduler all the
      way, ends in the state its machine computes from the events, and sends what its machine sends.  From a
      consistent state it ends in one, and what it has sent is part of what it held and was given, in that order. */
  method Run(chip: Chip, es: seq<Timed>) returns (sent: seq<byte>)
    requires chip.Valid() && InOrder(es) && forall i :: 0 <= i < |es| ==> es[i].clk + 2 * MAX_TICKS < NEVER
    modifies chip, chip.context`numPending, chip.context`nextClk, chip.context`nextIdx
    modifies chip.context.pendingAlarm, chip.context.pendingClk, chip.context.members`pendingIdx
    ensures chip.Valid() && chip.View() == StateAt(chip.Circuit(), old(chip.View()), es, |es|)
    ensures sent == SentBytes(chip.Circuit(), old(chip.View()), es, |es|)
    ensures var s := old(chip.View());
            Consistent(s) ==>
              Consistent(chip.View()) && PartOf(sent, Held(s) + StoredBytes(chip.Circuit(), s, es, |es|))
  {
    hide Chip.Wired, Chip.TxScheduled, Chip.RxScheduled, Acia6551.React, SentBy, Consistent, PartOf, StoredBytes;
    ghost var line, s := chip.Circuit(), chip.View();
    sent := [];
    var k := 0;
    while k < |es|
      invariant 0 <= k <= |es| && chip.Valid() && chip.View() == StateAt(chip.Circuit(), old(chip.View()), es, k)
      invariant sent == SentBytes(chip.Circuit(), old(chip.View()), es, k)
    {
      var out := RunEvent(chip, es[k]);
      sent := sent + out;
      k := k + 1;
    }
    if Consistent(s) {
      StaysConsistent(line, s, es, |es|);
      SentArePartOfStored(line, s, es, |es|);
    }
  }

  /** One event; a callback is run if the scheduler has its alarm for now or earlier. */
  method RunEvent(chip: Chip, e: Timed) returns (out: seq<byte>)
    requires chip.Valid() && 1 <= e.clk && e.clk + 2 * MAX_TICKS < NEVER
    modifies chip, chip.context`numPending, chip.context`nextClk, chip.context`nextIdx
    modifies chip.context.pendingAlarm, chip.context.pendingClk, chip.context.members`pendingIdx
    ensures chip.Valid() && chip.View() == React(chip.Circuit(), old(chip.View()), e) && out == SentBy(old(chip.View()), e)
  {
    hide Chip.Valid, RegisterStored, Between, RegisterRead, TxFired, RxFired, HardwareReset, Consistent;
    out := [];
    match e.event {
      case StoreReg(addr, value, rmw, opensFirst, opens) => chip.Store(addr, value, e.clk, rmw, opensFirst, opens);
      case ReadReg(addr, dsr) => var v := chip.Read(addr, dsr);
      case TxAlarm =>
        if chip.alarmActiveTx && chip.alarmClkTx <= e.clk {
          var sent := chip.TxCallback(e.clk);
          if sent.Some? {
            out := [sent.value];
          }
        }
      case RxAlarm(input) =>
        if chip.alarmActiveRx && chip.alarmClkRx <= e.clk {
          chip.RxCallback(e.clk, input);
        }
      case HardReset => chip.Reset(e.clk);
    }
  }

  /** Written, reset and read back by the chip itself. */
  method SaveAndRestore(chip: Chip, clk: Clock, later: Clock, dsr: bool, opens: int)
    requires chip.Valid() && clk + 2 * MAX_TICKS <= NEVER && later + 2 * MAX_TICKS <= NEVER
    modifies chip, chip.context`numPending, chip.context`nextClk, chip.context`nextIdx
    modifies chip.context.pendingAlarm, chip.context.pendingClk, chip.context.members`pendingIdx
    ensures chip.Valid() && Timely(old(chip.View()))
    ensures var s, t := old(chip.View()), chip.View();
            && t.txdata == s.txdata && t.rxdata == s.rxdata && t.cmd == s.cmd && t.ctrl == s.ctrl && t.inTx == U8(s.inTx)
            && t.irq == s.irq && t.status == Polled(s, dsr).status && (Consistent(s) ==> t.inTx == s.inTx && Consistent(t))
            && CameBack(s.tx, clk, t.tx, later) && CameBack(s.rx, clk, t.rx, later)
  {
    hide Chip.Wired, Chip.TxScheduled, Chip.RxScheduled, StatusByte, Restored, HardwareReset, SnapshotOf, CameBack, Consistent;
    ghost var s := chip.View();
    var snap := chip.SnapshotWrite(clk, dsr);
    chip.Reset(clk);
    chip.SnapshotRead(snap, later, opens);
    SnapshotRoundTrip(chip.Circuit(), s, clk, later, dsr, opens);
  }
}
