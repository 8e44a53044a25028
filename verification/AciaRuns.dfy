/** What the transmitter of the ACIA 6551 keeps over every run: its state, its alarm and TDRE fit together, what goes
    out is part of what was stored, in the same order, and TDRE is clear with nothing waiting exactly if a byte was
    given up. */
module AciaRuns {
  import Alarms
  import opened Acia6551
  import opened Bytes

  // ----- The transmitter's own invariant -----

  lemma StoreConsistent(line: Line, s: State, reg: nat, value: byte, clk: nat, opens: int)
    requires Consistent(s)
    ensures Consistent(RegisterStored(line, s, reg, value, clk, opens))
  {
    hide CharTicks;
  }

  lemma ConsistentStep(line: Line, s: State, e: Timed)
    requires e.clk >= 1 && Consistent(s)
    ensures Consistent(React(line, s, e))
  {
    hide CharTicks, StatusByte, RegisterStored;
    match e.event
    case StoreReg(addr, value, rmw, opensFirst, opens) =>
      hide Consistent, TxFired, RxFired, RegisterRead, HardwareReset;
      var reg := Register(line.mode, addr);
      StoreConsistent(line, s, reg, s.lastRead, e.clk - 1, opensFirst);
      StoreConsistent(line, Between(line, s, e), reg, value, e.clk, opens);
    case ReadReg(_, _) => hide TxFired, RxFired, HardwareReset;
    case TxAlarm => hide RxFired, RegisterRead, HardwareReset;
    case RxAlarm(_) => hide TxFired, RegisterRead, HardwareReset;
    case HardReset => hide TxFired, RxFired, RegisterRead;
  }

  /** From the constructor's state, or any other that is consistent, no run leads to one that is not; and a hardware
      reset makes any state consistent. */
  lemma {:induction false} StaysConsistent(line: Line, s: State, es: seq<Timed>, n: nat)
    requires n <= |es| && InOrder(es)
    requires Consistent(s) || exists k :: 0 <= k < n && es[k].event.HardReset?
    ensures Consistent(StateAt(line, s, es, n))
  {
    hide Consistent, React;
    if n > 0 {
      var q, e := StateAt(line, s, es, n - 1), es[n - 1];
      if e.event.HardReset? {
        ResetConsistent(line, q, e);
      } else {
        StaysConsistent(line, s, es, n - 1);
        ConsistentStep(line, q, e);
      }
    }
  }

  lemma ResetConsistent(line: Line, s: State, e: Timed)
    requires e.clk >= 1 && e.event.HardReset?
    ensures Consistent(React(line, s, e))
  {
    hide CharTicks;
  }

  // ----- What goes out, and what was stored -----

  function SentBy(s: State, e: Timed): seq<byte> {
    if Sends(s, e) then [s.txdata] else []
  }

  /** A read-modify-write opcode stores the byte read last before the new one. */
  function StoredBy(line: Line, s: State, e: Timed): seq<byte> {
    if StoresTo(line, e, 0) then (if e.event.rmw then [s.lastRead] else []) + [e.event.value] else []
  }

  /** The bytes that go out on the line in the first `n` events. */
  function SentBytes(line: Line, s: State, es: seq<Timed>, n: nat): seq<byte>
    requires n <= |es| && InOrder(es)
  {
    if n == 0 then [] else SentBytes(line, s, es, n - 1) + SentBy(StateAt(line, s, es, n - 1), es[n - 1])
  }

  /** The bytes stored to the data register in the first `n` events. */
  function StoredBytes(line: Line, s: State, es: seq<Timed>, n: nat): seq<byte>
    requires n <= |es| && InOrder(es)
  {
    if n == 0 then [] else StoredBytes(line, s, es, n - 1) + StoredBy(line, StateAt(line, s, es, n - 1), es[n - 1])
  }

  /** The byte that waits in the data register already. */
  function Held(s: State): seq<byte> {
    if s.inTx == DR_WRITTEN then [s.txdata] else []
  }

  /** `xs` is what remains of `ys` when some of its elements are left out. */
  predicate PartOf(xs: seq<byte>, ys: seq<byte>) {
    xs == [] ||
    (ys != [] && (PartOf(xs, ys[..|ys| - 1]) || (xs[|xs| - 1] == ys[|ys| - 1] && PartOf(xs[..|xs| - 1], ys[..|ys| - 1]))))
  }

  /** Increasing places at which `ys` has the elements of `xs`. */
  predicate Picks(places: seq<nat>, xs: seq<byte>, ys: seq<byte>) {
    && |places| == |xs|
    && (forall i :: 0 <= i < |xs| ==> places[i] < |ys| && ys[places[i]] == xs[i])
    && (forall i, j :: 0 <= i < j < |xs| ==> places[i] < places[j])
  }

  ghost predicate Selects(xs: seq<byte>, ys: seq<byte>) {
    exists places :: Picks(places, xs, ys)
  }

  lemma {:induction false} PartOfSelects(xs: seq<byte>, ys: seq<byte>)
    ensures PartOf(xs, ys) <==> Selects(xs, ys)
    decreases |ys|
  {
    if xs == [] {
      assert Picks([], xs, ys);
    } else if ys == [] {
      forall places ensures !Picks(places, xs, ys) {
        assert |places| == |xs| ==> places[0] >= |ys|;
      }
    } else {
      PartOfSelects(xs, ys[..|ys| - 1]);
      PartOfSelects(xs[..|xs| - 1], ys[..|ys| - 1]);
      SelectsLast(xs, ys);
    }
  }

  /** The last element is picked last, or not at all. */
  lemma SelectsLast(xs: seq<byte>, ys: seq<byte>)
    requires xs != [] && ys != []
    ensures var n, m := |xs| - 1, |ys| - 1;
            Selects(xs, ys) <==> Selects(xs, ys[..m]) || (xs[n] == ys[m] && Selects(xs[..n], ys[..m]))
  {
    var n, m := |xs| - 1, |ys| - 1;
    if places :| Picks(places, xs, ys) {
      assert if places[n] == m then Picks(places[..n], xs[..n], ys[..m]) else Picks(places, xs, ys[..m]);
    }
    if places :| Picks(places, xs, ys[..m]) {
      assert Picks(places, xs, ys);
    }
    if xs[n] == ys[m] {
      if places :| Picks(places, xs[..n], ys[..m]) {
        assert Picks(places + [m], xs, ys);
      }
    }
  }

  lemma PartOfMore(xs: seq<byte>, ys: seq<byte>, y: byte)
    requires PartOf(xs, ys)
    ensures PartOf(xs, ys + [y]) && PartOf(xs + [y], ys + [y])
  {
    assert (ys + [y])[..|ys|] == ys && (xs + [y])[..|xs|] == xs;
  }

  /** What went out is part of what was stored, and a byte that waits is the last one stored and has not gone out. */
  predicate Logged(s: State, sent: seq<byte>, stored: seq<byte>) {
    && PartOf(sent, stored)
    && (s.inTx == DR_WRITTEN ==>
        stored != [] && stored[|stored| - 1] == s.txdata && PartOf(sent, stored[..|stored| - 1]))
  }

  lemma LogStep(line: Line, s: State, e: Timed, sent: seq<byte>, stored: seq<byte>)
    requires e.clk >= 1 && Consistent(s) && Logged(s, sent, stored)
    ensures Logged(React(line, s, e), sent + SentBy(s, e), stored + StoredBy(line, s, e))
  {
    hide React, StoresTo, Sends, PartOf;
    if StoresTo(line, e, 0) {
      LogStore(line, s, e, sent, stored);
    } else if Sends(s, e) {
      LogSend(line, s, e, sent, stored);
    } else {
      KeepsData(line, s, e);
      if s.inTx <= TX_STARTED {
        StaysIdle(line, s, e);
      }
      assert sent + SentBy(s, e) == sent && stored + StoredBy(line, s, e) == stored;
    }
  }

  lemma LogStore(line: Line, s: State, e: Timed, sent: seq<byte>, stored: seq<byte>)
    requires e.clk >= 1 && Logged(s, sent, stored) && StoresTo(line, e, 0)
    ensures Logged(React(line, s, e), sent + SentBy(s, e), stored + StoredBy(line, s, e))
  {
    hide React, PartOf, IsDue, Sending, Register, InOrder, StateAt;
    TakesData(line, s, e);
    assert SentBy(s, e) == [];
    assert sent + [] == sent;
    if e.event.rmw {
      PartOfMore(sent, stored, s.lastRead);
      LastOf(sent, stored + [s.lastRead], e.event.value);
      assert stored + ([s.lastRead] + [e.event.value]) == stored + [s.lastRead] + [e.event.value];
    } else {
      LastOf(sent, stored, e.event.value);
      assert [] + [e.event.value] == [e.event.value];
    }
  }

  lemma LastOf(sent: seq<byte>, stored: seq<byte>, v: byte)
    requires PartOf(sent, stored)
    ensures var all := stored + [v]; PartOf(sent, all) && all[|all| - 1] == v && all[..|all| - 1] == stored
  {
    PartOfMore(sent, stored, v);
    assert (stored + [v])[..|stored|] == stored;
  }

  lemma LogSend(line: Line, s: State, e: Timed, sent: seq<byte>, stored: seq<byte>)
    requires e.clk >= 1 && Logged(s, sent, stored) && Sends(s, e)
    ensures Logged(React(line, s, e), sent + SentBy(s, e), stored + StoredBy(line, s, e))
  {
    hide React, PartOf, InOrder, StateAt, IsDue;
    AfterSend(line, s, e);
    PartOfMore(sent, stored[..|stored| - 1], s.txdata);
    assert stored[..|stored| - 1] + [s.txdata] == stored;
    assert stored + StoredBy(line, s, e) == stored && sent + SentBy(s, e) == sent + [s.txdata];
  }

  lemma {:induction false} LoggedAt(line: Line, s: State, es: seq<Timed>, n: nat)
    requires n <= |es| && InOrder(es) && Consistent(s)
    ensures Logged(StateAt(line, s, es, n), SentBytes(line, s, es, n), Held(s) + StoredBytes(line, s, es, n))
  {
    hide React, Logged, SentBy, StoredBy, Consistent;
    if n == 0 {
      NothingLogged(s);
      assert Held(s) + StoredBytes(line, s, es, 0) == Held(s);
    } else {
      LoggedAt(line, s, es, n - 1);
      StaysConsistent(line, s, es, n - 1);
      var q, e := StateAt(line, s, es, n - 1), es[n - 1];
      LogStep(line, q, e, SentBytes(line, s, es, n - 1), Held(s) + StoredBytes(line, s, es, n - 1));
      assert Held(s) + StoredBytes(line, s, es, n - 1) + StoredBy(line, q, e) == Held(s) + StoredBytes(line, s, es, n);
    }
  }

  lemma NothingLogged(s: State)
    ensures Logged(s, [], Held(s))
  {
  }

  /** The line gets the bytes that were stored, in the order in which they were stored, each at most once; some may be
      missing, but none is made up. */
  lemma SentArePartOfStored(line: Line, s: State, es: seq<Timed>, n: nat)
    requires n <= |es| && InOrder(es) && Consistent(s)
    ensures PartOf(SentBytes(line, s, es, n), Held(s) + StoredBytes(line, s, es, n))
  {
    hide SentBytes, StoredBytes, PartOf;
    LoggedAt(line, s, es, n);
  }

  // ----- What comes in -----

  lemma KeepsReceived(line: Line, s: State, e: Timed)
    requires e.clk >= 1 && !Arrives(s, e)
    ensures React(line, s, e).rxdata == s.rxdata
  {
    hide CharTicks, StatusByte, RegisterStored;
    match e.event
    case StoreReg(addr, value, rmw, opensFirst, opens) =>
      hide TxFired, RxFired, RegisterRead, HardwareReset;
      var reg := Register(line.mode, addr);
      StoreKeepsReceived(line, s, reg, s.lastRead, e.clk - 1, opensFirst);
      StoreKeepsReceived(line, Between(line, s, e), reg, value, e.clk, opens);
    case ReadReg(_, _) => hide TxFired, RxFired, HardwareReset;
    case TxAlarm => hide RxFired, RegisterRead, HardwareReset;
    case RxAlarm(_) => hide TxFired, RegisterRead, HardwareReset;
    case HardReset => hide TxFired, RxFired, RegisterRead;
  }

  lemma TakesReceived(line: Line, s: State, e: Timed)
    requires e.clk >= 1 && Arrives(s, e)
    ensures Some(React(line, s, e).rxdata) == e.event.input
  {
    hide CharTicks, RegisterStored, RegisterRead, TxFired, HardwareReset;
  }

  lemma StoreKeepsReceived(line: Line, s: State, reg: nat, value: byte, clk: nat, opens: int)
    ensures RegisterStored(line, s, reg, value, clk, opens).rxdata == s.rxdata
  {
    hide AtRate, Commanded;
    CommandedFrame(line, s, value, clk, opens);
    AtRateFrame(line, s.(ctrl := value), clk);
    AtRateFrame(line, s.(ectrl := value), clk);
  }

  lemma {:induction false} StillReceived(line: Line, s: State, es: seq<Timed>, k: nat, n: nat)
    requires k < n <= |es| && InOrder(es) && Arrives(StateAt(line, s, es, k), es[k])
    requires forall m :: k < m < n ==> !Arrives(StateAt(line, s, es, m), es[m])
    ensures Some(StateAt(line, s, es, n).rxdata) == es[k].event.input
  {
    hide React, Arrives;
    if n == k + 1 {
      TakesReceived(line, StateAt(line, s, es, k), es[k]);
    } else {
      StillReceived(line, s, es, k, n - 1);
      KeepsReceived(line, StateAt(line, s, es, n - 1), es[n - 1]);
    }
  }

  /** A read of the data register delivers the byte that came in last, however many reads, stores, resets and rates lie
      between. */
  lemma ReadsLastArrived(line: Line, s: State, es: seq<Timed>, k: nat, n: nat)
    requires k < n < |es| && InOrder(es) && Arrives(StateAt(line, s, es, k), es[k])
    requires forall m :: k < m < n ==> !Arrives(StateAt(line, s, es, m), es[m])
    requires ReadsData(line, es[n])
    ensures Some(ValueRead(StateAt(line, s, es, n), Register(line.mode, es[n].event.addr), es[n].event.dsr)) == es[k].event.input
  {
    hide React, Arrives;
    StillReceived(line, s, es, k, n);
  }

  // ----- A byte given up -----

  /** A byte waits in the data register for its alarm. */
  predicate Waits(s: State) {
    s.inTx == DR_WRITTEN && s.tx.Some?
  }

  /** TDRE says that a byte is still to be sent, and none is. */
  predicate Stranded(s: State) {
    !s.status.tdre && !Waits(s)
  }

  /** A waiting byte is dropped: by a programmed reset, by a command that closes the line, or at its alarm while the
      line is not open. */
  predicate GivesUp(line: Line, s: State, e: Timed) {
    Waits(s) && (StoresTo(line, e, 1) || HangsUp(line, s, e) || (e.event.TxAlarm? && IsDue(s.tx, e.clk) && s.fd < 0))
  }

  /** The next byte to be sent, or a hardware reset, ends it. */
  predicate Recovers(line: Line, s: State, e: Timed) {
    Fills(line, s, e) || e.event.HardReset?
  }

  /** One store gives a waiting byte up. */
  predicate Drops(s: State, reg: nat, value: byte) {
    Waits(s) && (reg == 1 || (reg == 2 && s.fd >= 0 && !Dtr(value)))
  }

  lemma StrandedStore(line: Line, s: State, reg: nat, value: byte, clk: nat, opens: int)
    requires Consistent(s)
    ensures var t := RegisterStored(line, s, reg, value, clk, opens);
            && (Stranded(t) <==> Drops(s, reg, value) || (Stranded(s) && !(reg == 0 && Dtr(s.cmd))))
            && (Waits(t) <==> (reg == 0 && Dtr(s.cmd)) || (Waits(s) && !Drops(s, reg, value)))
            && (reg == 0 ==> t.cmd == s.cmd)
  {
    hide CharTicks;
  }

  lemma StrandedStores(line: Line, s: State, e: Timed)
    requires e.clk >= 1 && Consistent(s) && e.event.StoreReg?
    ensures Stranded(React(line, s, e)) <==> GivesUp(line, s, e) || (Stranded(s) && !Recovers(line, s, e))
  {
    hide RegisterStored, Consistent, Stranded, Waits, Dtr;
    var reg := Register(line.mode, e.event.addr);
    StoreConsistent(line, s, reg, s.lastRead, e.clk - 1, e.event.opensFirst);
    StrandedStore(line, s, reg, s.lastRead, e.clk - 1, e.event.opensFirst);
    StrandedStore(line, Between(line, s, e), reg, e.event.value, e.clk, e.event.opens);
  }

  lemma StrandedStep(line: Line, s: State, e: Timed)
    requires e.clk >= 1 && Consistent(s)
    ensures Stranded(React(line, s, e)) <==> GivesUp(line, s, e) || (Stranded(s) && !Recovers(line, s, e))
  {
    match e.event
    case StoreReg(_, _, _, _, _) =>
      hide *;
      StrandedStores(line, s, e);
    case ReadReg(_, _) => hide TxFired, RxFired, HardwareReset, CharTicks, StatusByte, RegisterStored;
    case TxAlarm => hide RxFired, RegisterRead, HardwareReset, RegisterStored;
    case RxAlarm(_) => hide TxFired, RegisterRead, HardwareReset, RegisterStored;
    case HardReset => hide TxFired, RxFired, RegisterRead, CharTicks, RegisterStored;
  }

  predicate NoRecovery(line: Line, s: State, es: seq<Timed>, from: nat, to: nat)
    requires to <= |es| && InOrder(es)
  {
    forall m :: from <= m < to ==> !Recovers(line, StateAt(line, s, es, m), es[m])
  }

  /** At event `k` a byte was given up, and since then none was stored to be sent. */
  predicate GivenUpSince(line: Line, s: State, es: seq<Timed>, k: nat, n: nat)
    requires k < n <= |es| && InOrder(es)
  {
    GivesUp(line, StateAt(line, s, es, k), es[k]) && NoRecovery(line, s, es, k + 1, n)
  }

  /** TDRE is clear with nothing to send exactly if a byte was given up since the last one was stored to be sent or the
      chip was reset. */
  lemma {:induction false} StrandedExactly(line: Line, s: State, es: seq<Timed>, n: nat)
    requires n <= |es| && InOrder(es) && Consistent(s)
    ensures Stranded(StateAt(line, s, es, n)) <==>
            (Stranded(s) && NoRecovery(line, s, es, 0, n)) || exists k :: 0 <= k < n && GivenUpSince(line, s, es, k, n)
  {
    hide React, Consistent, Stranded, GivesUp, Recovers, NoRecovery, GivenUpSince;
    if n == 0 {
      NothingYet(line, s, es);
    } else {
      var last := n - 1;
      var q, e := StateAt(line, s, es, last), es[last];
      StrandedExactly(line, s, es, n - 1);
      StaysConsistent(line, s, es, n - 1);
      StrandedStep(line, q, e);
      NoRecoveryMore(line, s, es, n);
      forall k | 0 <= k < n
        ensures GivenUpSince(line, s, es, k, n)
           <==> if k == n - 1 then GivesUp(line, q, e) else GivenUpSince(line, s, es, k, n - 1) && !Recovers(line, q, e)
      {
        GivenUpMore(line, s, es, k, n);
      }
      if GivesUp(line, q, e) {
        assert GivenUpSince(line, s, es, n - 1, n);
      } else if k :| 0 <= k < last && GivenUpSince(line, s, es, k, last) {
        assert !Recovers(line, q, e) ==> GivenUpSince(line, s, es, k, n);
      }
    }
  }

  lemma NothingYet(line: Line, s: State, es: seq<Timed>)
    requires InOrder(es)
    ensures NoRecovery(line, s, es, 0, 0)
  {
  }

  lemma NoRecoveryMore(line: Line, s: State, es: seq<Timed>, n: nat)
    requires 0 < n <= |es| && InOrder(es)
    ensures NoRecovery(line, s, es, 0, n)
       <==> NoRecovery(line, s, es, 0, n - 1) && !Recovers(line, StateAt(line, s, es, n - 1), es[n - 1])
  {
    hide StateAt, Recovers;
  }

  lemma GivenUpMore(line: Line, s: State, es: seq<Timed>, k: nat, n: nat)
    requires k < n <= |es| && InOrder(es)
    ensures GivenUpSince(line, s, es, k, n) <==>
            if k == n - 1 then GivesUp(line, StateAt(line, s, es, n - 1), es[n - 1])
            else GivenUpSince(line, s, es, k, n - 1) && !Recovers(line, StateAt(line, s, es, n - 1), es[n - 1])
  {
    hide StateAt, GivesUp, Recovers;
  }

  /** A snapshot strands a waiting byte if its alarm is due in the very cycle of the write, and only then. */
  lemma SnapshotStrands(line: Line, s: State, clk: Alarms.Clock, later: Alarms.Clock, dsr: bool, opens: int)
    requires Timely(s) && Consistent(s)
    ensures var t := Restored(line, HardwareReset(line, Polled(s, dsr)), SnapshotOf(s, clk, dsr), later, opens);
            Stranded(t) <==> Stranded(s) || (Waits(s) && s.tx.value == clk)
  {
    hide Restored, HardwareReset, SnapshotOf, CharTicks, Left;
    SnapshotRoundTrip(line, s, clk, later, dsr, opens);
  }

  // ----- Runs that show it -----

  /** After a reset: DTR set while the line fails to open, a byte stored, and the transmitter's alarm. */
  function FailedOpen(v: byte): (es: seq<Timed>)
    ensures |es| == 4 && InOrder(es)
  {
    [Timed(1, HardReset), Timed(2, StoreReg(2, 1, false, -1, -1)), Timed(3, StoreReg(0, v, false, -1, -1)), Timed(4, TxAlarm)]
  }

  /** The byte is given up: nothing was sent, TDRE stays clear, and a program that waits for it waits on. */
  lemma FailedOpenExample(line: Line, s: State, v: byte)
    ensures var es := FailedOpen(v); var t := StateAt(line, s, es, 4);
            && StoresTo(line, es[2], 0) && GivesUp(line, StateAt(line, s, es, 3), es[3])
            && Stranded(t) && !t.status.tdre && t.inTx == TX_STARTED
            && SentBytes(line, s, es, 4) == [] && StoredBytes(line, s, es, 4) == [v]
  {
    hide CharTicks;
    var es := FailedOpen(v);
    var q1 := HardwareReset(line, s);
    var q2 := Commanded(line, q1, 1, 2, -1);
    var q3 := DataStored(q2, v, 3);
    assert Register(line.mode, 0) == 0 && Register(line.mode, 2) == 2;
    assert StateAt(line, s, es, 0) == s;
    assert StateAt(line, s, es, 1) == React(line, s, es[0]) == q1;
    assert StateAt(line, s, es, 2) == React(line, q1, es[1]) == q2;
    assert StateAt(line, s, es, 3) == React(line, q2, es[2]) == q3;
    assert StateAt(line, s, es, 4) == React(line, q3, es[3]) == TxFired(q3, 4);
    assert SentBytes(line, s, es, 1) == [] && StoredBytes(line, s, es, 1) == [];
    assert SentBytes(line, s, es, 2) == [] && StoredBytes(line, s, es, 2) == [];
    assert SentBytes(line, s, es, 3) == [] && StoredBytes(line, s, es, 3) == [v];
  }

  /** A byte arrives while the last one has not been read, and then both are read. */
  function TwoReads(c: nat, v: byte): (es: seq<Timed>)
    requires c >= 1
    ensures |es| == 3 && InOrder(es)
  {
    [Timed(c, RxAlarm(Some(v))), Timed(c, ReadReg(0, false)), Timed(c, ReadReg(1, false))]
  }

  /** Overrun stays although the data register and the status register have been read. */
  lemma OverrunExample(line: Line, s: State, c: nat, v: byte)
    requires c >= 1 && s.fd >= 0 && s.rx == Some(c) && s.status.rdrf && !s.status.overrun
    ensures var es := TwoReads(c, v); var t := StateAt(line, s, es, 3);
            Overruns(s, es[0]) && ReadsData(line, es[1]) && t.status.overrun && !t.status.rdrf
  {
    hide StatusByte;
    var es := TwoReads(c, v);
    var q1 := RxFired(s, Some(v), c);
    var q2 := RegisterRead(q1, 0, false);
    assert Register(line.mode, 0) == 0 && Register(line.mode, 1) == 1;
    assert StateAt(line, s, es, 0) == s;
    assert StateAt(line, s, es, 1) == React(line, s, es[0]) == q1;
    assert StateAt(line, s, es, 2) == React(line, q1, es[1]) == q2;
    assert StateAt(line, s, es, 3) == React(line, q2, es[2]) == RegisterRead(q2, 1, false);
  }
}
