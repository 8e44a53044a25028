/** How late an alarm callback can be.

    The core looks at its alarms once per main-loop round and, in BRK and the interrupt
    sequence, once more after the pushes.  Between two looks at most one opcode runs, so
    lateness is bounded by the longest opcode. */
module Lateness {
  import opened Bytes
  import opened Isa6510
  import opened Alarms
  import InstructionCore
  import Agreement

  /** What a memory access does to an alarm: set it, `at` cycles into a stretch, for `delay` cycles later,
      or unset it. */
  datatype Request = Request(alarm: Alarm, at: nat, delay: nat) | Cancel(alarm: Alarm)

  /** One event of a run with the alarms that are set while it executes. */
  datatype Tick = Tick(event: Event, first: seq<Request>, second: seq<Request>)

  /** The request leaves at least a cycle between the start of its stretch and its deadline: it is
      made after the opcode's own fetch, or not for the very cycle it is made in. */
  predicate Prompt(r: Request) {
    r.Request? ==> r.at + r.delay >= 1
  }

  predicate AllPrompt(rs: seq<Request>) {
    forall i :: 0 <= i < |rs| ==> Prompt(rs[i])
  }

  /** The alarms exist and the clock does not run out. */
  ghost predicate Fit(ctx: AlarmContext, rs: seq<Request>, until: nat)
    reads ctx`members
  {
    forall i :: 0 <= i < |rs| ==>
      rs[i].alarm in ctx.members && (rs[i].Request? ==> until + rs[i].at + rs[i].delay <= NEVER)
  }

  predicate InTime(rs: seq<Request>, from: nat) {
    forall i :: 0 <= i < |rs| && rs[i].Request? ==> from + rs[i].at + rs[i].delay <= NEVER
  }

  /** The schedule after one request. */
  ghost function Made(q: Schedule, from: nat, r: Request): Schedule
    requires r.Request? ==> from + r.at + r.delay <= NEVER
  {
    match r
    case Request(a, at, delay) => WithAlarm(q, a, from + at + delay)
    case Cancel(a) => WithoutAlarm(q, a)
  }

  /** The schedule once the first `k` requests of a stretch that starts at `from` are made. */
  ghost function Requested(m: Schedule, from: nat, rs: seq<Request>, k: nat): Schedule
    requires k <= |rs| && InTime(rs, from)
  {
    if k == 0 then m
    else Made(Requested(m, from, rs, k - 1), from, rs[k - 1])
  }

  predicate Plain(s: Cpu, e: Event) {
    e.TakeOpcode? && Decode(Opcode(s)) != Brk
  }

  /** An event runs in one stretch, or in stretches of five and two cycles with a look at the alarms
      between them. */
  lemma Stretches(s: Cpu, e: Event)
    requires e.TakeOpcode? ==> !Jammed(s)
    ensures Plain(s, e) ==> s.clk + 2 <= React(s, e).clk <= s.clk + 8
    ensures !Plain(s, e) ==> React(s, e).clk == s.clk + 5 + 2
  {
    match e
    case TakeInterrupt(nmi) => Agreement.InterruptCycles(s, nmi);
    case TakeOpcode(nmi) =>
      Agreement.OpcodeCycles(s, nmi);
      hide Decode, ExecRead, ExecModify, ExecModifyA, ExecWrite, ExecHigh, ExecImplied, ExecBranch, PushFrame;
  }

  function Events(ts: seq<Tick>): (es: seq<Event>)
    ensures |es| == |ts| && forall i :: 0 <= i < |ts| ==> es[i] == ts[i].event
  {
    seq(|ts|, i requires 0 <= i < |ts| => ts[i].event)
  }

  ghost predicate Bounded(trace: seq<Dispatch>, bound: int) {
    forall i :: 0 <= i < |trace| ==> trace[i].offset <= bound
  }

  /** All deadlines lie after `now`. */
  ghost predicate Ahead(m: Schedule, now: int) {
    forall a :: a in m ==> m[a] > now
  }

  /** One look at the alarms: the callbacks it runs, and the schedule it leaves. */
  datatype Look = Look(calls: seq<Dispatch>, left: Schedule)

  /** At `now` exactly the alarms due in `m` are called, in order of their deadlines, and the others stay as they are. */
  ghost predicate Looked(m: Schedule, now: nat, l: Look) {
    && now < NEVER && Dispatched(m, now, l.calls) && Ran(l.calls) == Due(m, now)
    && SameBut(m, l.left, Due(m, now)) && Ahead(l.left, now)
  }

  /** What a tick does to the schedule `m`: the requests of a stretch and then a look, once or twice. */
  ghost predicate Follows(s: Cpu, t: Tick, m: Schedule, looks: seq<Look>) {
    && InTime(t.first, s.clk) && InTime(t.second, s.clk + 5)
    && var q := Requested(m, s.clk, t.first, |t.first|);
    if Plain(s, t.event) then
      |looks| == 1 && Looked(q, React(s, t.event).clk, looks[0])
    else
      && |looks| == 2 && Looked(q, s.clk + 5, looks[0])
      && Looked(Requested(looks[0].left, s.clk + 5, t.second, |t.second|), s.clk + 7, looks[1])
  }

  /** The callbacks of looks, in order. */
  ghost function Calls(looks: seq<Look>): seq<Dispatch> {
    if looks == [] then [] else Calls(looks[..|looks| - 1]) + looks[|looks| - 1].calls
  }

  /** The requests of a stretch, made one after the other. */
  method MakeRequests(ctx: AlarmContext, from: nat, rs: seq<Request>)
    requires ctx.Valid() && Fit(ctx, rs, from)
    modifies ctx`numPending, ctx`nextClk, ctx`nextIdx, ctx.pendingAlarm, ctx.pendingClk, ctx.members`pendingIdx
    ensures ctx.Valid() && ctx.Pending() == Requested(old(ctx.Pending()), from, rs, |rs|)
  {
    hide AlarmContext.Slots, AlarmContext.Cached, AlarmContext.Linked, AlarmContext.Pending, WithAlarm, WithoutAlarm;
    ghost var m := ctx.Pending();
    var k := 0;
    while k < |rs|
      invariant 0 <= k <= |rs| && ctx.Valid() && ctx.Pending() == Requested(m, from, rs, k)
    {
      match rs[k] {
        case Request(alarm, at, delay) => ctx.Set(alarm, from + at + delay);
        case Cancel(alarm) => ctx.Unset(alarm);
      }
      k := k + 1;
    }
  }

  lemma MadeAhead(q: Schedule, from: nat, r: Request)
    requires r.Request? ==> from + r.at + r.delay <= NEVER
    ensures Ahead(q, from - 1) ==> Ahead(Made(q, from, r), from - 1)
    ensures Ahead(q, from) && Prompt(r) ==> Ahead(Made(q, from, r), from)
  {
  }

  /** No request is for a cycle that has passed. */
  lemma {:induction false} RequestedAhead(m: Schedule, from: nat, rs: seq<Request>, k: nat)
    requires k <= |rs| && Ahead(m, from) && InTime(rs, from)
    ensures Ahead(Requested(m, from, rs, k), from - 1)
    ensures AllPrompt(rs) ==> Ahead(Requested(m, from, rs, k), from)
  {
    hide Made;
    if k > 0 {
      RequestedAhead(m, from, rs, k - 1);
      MadeAhead(Requested(m, from, rs, k - 1), from, rs[k - 1]);
    }
  }

  /** A stretch of `to - from` cycles and the look at the alarms that ends it. */
  method Stretch(ctx: AlarmContext, from: nat, to: nat, rs: seq<Request>) returns (trace: seq<Dispatch>)
    requires ctx.Valid() && Fit(ctx, rs, from) && Ahead(ctx.Pending(), from) && from <= to < NEVER
    modifies ctx`numPending, ctx`nextClk, ctx`nextIdx, ctx.pendingAlarm, ctx.pendingClk, ctx.members`pendingIdx
    ensures ctx.Valid() && Looked(Requested(old(ctx.Pending()), from, rs, |rs|), to, Look(trace, ctx.Pending()))
    ensures Ahead(ctx.Pending(), to)
    ensures Bounded(trace, to - from)
    ensures AllPrompt(rs) ==> Bounded(trace, to - from - 1)
  {
    hide AlarmContext.Slots, AlarmContext.Cached, AlarmContext.Linked, AlarmContext.Pending;
    RequestedAhead(ctx.Pending(), from, rs, |rs|);
    MakeRequests(ctx, from, rs);
    ghost var m := ctx.Pending();
    trace := ProcessAlarms(ctx, to);
    AheadOfNothingDue(ctx.Pending(), to);
    forall i | 0 <= i < |trace|
      ensures trace[i].offset == to - m[trace[i].alarm] <= to - from
    {
      assert trace[i].alarm in Due(m, to);
    }
  }

  lemma AheadOfNothingDue(m: Schedule, now: Clock)
    requires Due(m, now) == {}
    ensures Ahead(m, now)
  {
    forall a | a in m
      ensures m[a] > now
    {
      assert a !in Due(m, now);
    }
  }

  // ----- Eight cycles late -----

  /** After `k` requests the last one about its alarm is request `i`, for the very cycle of the opcode's fetch. */
  predicate SetsNow(rs: seq<Request>, i: nat, k: nat)
    requires i < k <= |rs|
  {
    rs[i].Request? && rs[i].at + rs[i].delay == 0 && forall j :: i < j < k ==> rs[j].alarm != rs[i].alarm
  }

  /** The opcode leaves an alarm set for its own fetch cycle. */
  predicate LeavesOne(rs: seq<Request>) {
    exists i :: 0 <= i < |rs| && SetsNow(rs, i, |rs|)
  }

  /** An opcode of eight cycles, other than BRK, after whose requests an alarm is set for its fetch cycle. */
  ghost predicate Late(s: Cpu, t: Tick, m: Schedule) {
    && Plain(s, t.event) && React(s, t.event).clk == s.clk + 8 && InTime(t.first, s.clk)
    && var q := Requested(m, s.clk, t.first, |t.first|);
    exists a :: a in q && q[a] == s.clk
  }

  /** The same in terms of the requests alone. */
  predicate EightLate(s: Cpu, t: Tick) {
    Plain(s, t.event) && React(s, t.event).clk == s.clk + 8 && LeavesOne(t.first)
  }

  /** Where an alarm's deadline comes from. */
  lemma MadeAt(q: Schedule, from: nat, r: Request, a: Alarm)
    requires r.Request? ==> from + r.at + r.delay <= NEVER
    requires a in Made(q, from, r)
    ensures if r.alarm == a then r.Request? && Made(q, from, r)[a] == from + r.at + r.delay
            else a in q && Made(q, from, r)[a] == q[a]
  {
  }

  /** An alarm set for the start of the stretch was last set for it by a request. */
  lemma {:induction false} SetByRequest(m: Schedule, from: nat, rs: seq<Request>, k: nat, a: Alarm) returns (i: nat)
    requires k <= |rs| && InTime(rs, from) && Ahead(m, from)
    requires var q := Requested(m, from, rs, k); a in q && q[a] == from
    ensures i < k && rs[i].alarm == a && SetsNow(rs, i, k)
  {
    hide Made;
    MadeAt(Requested(m, from, rs, k - 1), from, rs[k - 1], a);
    if rs[k - 1].alarm == a {
      RequestedAhead(m, from, rs, k - 1);
      i := k - 1;
    } else {
      i := SetByRequest(m, from, rs, k - 1, a);
    }
  }

  /** With a slot for every alarm no request is refused. */
  lemma {:induction false} StaysSet(m: Schedule, from: nat, rs: seq<Request>, i: nat, k: nat, all: set<Alarm>)
    requires i < k <= |rs| && InTime(rs, from) && SetsNow(rs, i, k)
    requires m.Keys <= all && (forall j :: 0 <= j < |rs| ==> rs[j].alarm in all) && |all| <= MAX_PENDING
    ensures var q := Requested(m, from, rs, k); rs[i].alarm in q && q[rs[i].alarm] == from
  {
    hide Made;
    if k == i + 1 {
      RequestedKeys(m, from, rs, i, all);
      SetInMade(Requested(m, from, rs, i), from, rs[i], all);
    } else {
      StaysSet(m, from, rs, i, k - 1, all);
      KeepsOther(Requested(m, from, rs, k - 1), from, rs[k - 1], rs[i].alarm);
    }
  }

  /** With a slot for every alarm a request is granted. */
  lemma SetInMade(q: Schedule, from: nat, r: Request, all: set<Alarm>)
    requires r.Request? && r.at + r.delay == 0 && from <= NEVER
    requires q.Keys <= all && r.alarm in all && |all| <= MAX_PENDING
    ensures r.alarm in Made(q, from, r) && Made(q, from, r)[r.alarm] == from
  {
    FitsIn(q, r.alarm, all);
  }

  /** A request about one alarm does not touch another. */
  lemma KeepsOther(q: Schedule, from: nat, r: Request, a: Alarm)
    requires r.Request? ==> from + r.at + r.delay <= NEVER
    requires a in q && r.alarm != a
    ensures a in Made(q, from, r) && Made(q, from, r)[a] == q[a]
  {
  }

  lemma {:induction false} RequestedKeys(m: Schedule, from: nat, rs: seq<Request>, k: nat, all: set<Alarm>)
    requires k <= |rs| && InTime(rs, from)
    requires m.Keys <= all && forall j :: 0 <= j < |rs| ==> rs[j].alarm in all
    ensures Requested(m, from, rs, k).Keys <= all
  {
    hide Made;
    if k > 0 {
      RequestedKeys(m, from, rs, k - 1, all);
      MadeKeys(Requested(m, from, rs, k - 1), from, rs[k - 1], all);
    }
  }

  lemma MadeKeys(q: Schedule, from: nat, r: Request, all: set<Alarm>)
    requires r.Request? ==> from + r.at + r.delay <= NEVER
    requires q.Keys <= all && r.alarm in all
    ensures Made(q, from, r).Keys <= all
  {
  }

  lemma FitsIn(m: Schedule, a: Alarm, all: set<Alarm>)
    requires m.Keys <= all && a in all && |all| <= MAX_PENDING
    ensures a in m || |m| < MAX_PENDING
  {
    if a !in m {
      assert m.Keys <= all - {a};
      SmallerSet(m.Keys, all - {a});
      assert |m| == |m.Keys|;
    }
  }

  lemma {:induction false} SmallerSet(a: set<Alarm>, b: set<Alarm>)
    requires a <= b
    ensures |a| <= |b|
  {
    if a != {} {
      var x :| x in a;
      SmallerSet(a - {x}, b - {x});
    }
  }

  /** The two conditions agree, but for requests that a full array refuses. */
  lemma LateByRequests(s: Cpu, t: Tick, m: Schedule, all: set<Alarm>)
    requires Ahead(m, s.clk) && InTime(t.first, s.clk)
    requires m.Keys <= all && forall j :: 0 <= j < |t.first| ==> t.first[j].alarm in all
    ensures Late(s, t, m) ==> EightLate(s, t)
    ensures |all| <= MAX_PENDING ==> (Late(s, t, m) <==> EightLate(s, t))
  {
    hide Plain, React, Requested;
    var rs, q := t.first, Requested(m, s.clk, t.first, |t.first|);
    if a :| a in q && q[a] == s.clk {
      var i := SetByRequest(m, s.clk, rs, |rs|, a);
    }
    if |all| <= MAX_PENDING && LeavesOne(rs) {
      var i :| 0 <= i < |rs| && SetsNow(rs, i, |rs|);
      StaysSet(m, s.clk, rs, i, |rs|, all);
    }
  }

  /** Callbacks after a stretch of at most eight cycles that ends at `now`. */
  lemma SevenBound(m: Schedule, from: nat, now: nat, l: Look)
    requires from <= now <= from + 8 && Ahead(m, from - 1) && Looked(m, now, l)
    ensures Bounded(l.calls, 7) <==> now < from + 8 || forall a :: a in m ==> m[a] != from
  {
    var trace := l.calls;
    if now == from + 8 {
      if a :| a in m && m[a] == from {
        assert a in Ran(trace);
        var d :| d in trace && d.alarm == a;
        var i :| 0 <= i < |trace| && trace[i] == d;
        assert trace[i].offset == 8;
      } else {
        forall i | 0 <= i < |trace|
          ensures trace[i].offset <= 7
        {
          assert trace[i].alarm in Due(m, now);
        }
      }
    } else {
      forall i | 0 <= i < |trace|
        ensures trace[i].offset <= 7
      {
        assert trace[i].alarm in Due(m, now);
      }
    }
  }

  /** One event: its requests and every look at the alarms up to the next main-loop round. */
  method RunTick(cpu: InstructionCore.Core, ctx: AlarmContext, t: Tick) returns (trace: seq<Dispatch>, ghost looks: seq<Look>)
    requires cpu.Valid() && ctx.Valid() && (t.event.TakeOpcode? ==> !Jammed(cpu.View()) && cpu.FetchAgrees())
    requires Ahead(ctx.Pending(), cpu.clk) && cpu.clk + 8 < NEVER
    requires Fit(ctx, t.first, cpu.clk) && Fit(ctx, t.second, cpu.clk + 5)
    modifies cpu, cpu.ram, ctx`numPending, ctx`nextClk, ctx`nextIdx, ctx.pendingAlarm, ctx.pendingClk, ctx.members`pendingIdx
    ensures cpu.Valid() && cpu.View() == React(old(cpu.View()), t.event)
    ensures cpu.clk <= old(cpu.clk) + 8
    ensures ctx.Valid() && Ahead(ctx.Pending(), cpu.clk)
    ensures Follows(old(cpu.View()), t, old(ctx.Pending()), looks) && trace == Calls(looks)
    ensures looks != [] && ctx.Pending() == looks[|looks| - 1].left
    ensures Bounded(trace, 8)
    ensures Bounded(trace, 7) <==> !Late(old(cpu.View()), t, old(ctx.Pending()))
  {
    hide AlarmContext.Slots, AlarmContext.Cached, AlarmContext.Linked, AlarmContext.Pending, React, Jammed, Decode;
    hide Requested, Looked, Bounded, Calls, InTime, Fit;
    ghost var s, m := cpu.View(), ctx.Pending();
    var from, plain := cpu.clk, t.event.TakeOpcode? && cpu.Load(cpu.regPc) != 0x00;
    Stretches(s, t.event);
    BrkIsZero(s);
    Agreement.AdvanceInstruction(cpu, t.event);
    FitMeans(ctx, t.first, from);
    FitMeans(ctx, t.second, from + 5);
    if plain {
      trace := Stretch(ctx, from, cpu.clk, t.first);
      looks := [Look(trace, ctx.Pending())];
      RequestedAhead(m, from, t.first, |t.first|);
      SevenBound(Requested(m, from, t.first, |t.first|), from, cpu.clk, looks[0]);
      TwoCalls(looks[0], looks[0]);
      BoundedBy(trace, cpu.clk - from, 8);
    } else {
      trace := Stretch(ctx, from, from + 5, t.first);
      looks := [Look(trace, ctx.Pending())];
      var more := Stretch(ctx, from + 5, from + 7, t.second);
      TwoCalls(looks[0], Look(more, ctx.Pending()));
      BoundedBy(trace, 5, 7);
      BoundedBy(more, 2, 7);
      BoundedBoth(trace, more, 7);
      BoundedBy(trace + more, 7, 8);
      looks := looks + [Look(more, ctx.Pending())];
      trace := trace + more;
    }
  }

  lemma BoundedBy(trace: seq<Dispatch>, bound: int, more: int)
    requires Bounded(trace, bound) && bound <= more
    ensures Bounded(trace, more)
  {
  }

  lemma TwoCalls(l: Look, l': Look)
    ensures Calls([l]) == l.calls && Calls([l] + [l']) == l.calls + l'.calls
  {
    assert ([l] + [l'])[..1] == [l];
  }

  /** The only opcode decoded as BRK is zero. */
  lemma BrkIsZero(s: Cpu)
    ensures Decode(Opcode(s)) == Brk <==> Opcode(s) == 0
  {
  }

  /** The first event of the rest of a run. */
  method RunFirst(cpu: InstructionCore.Core, ctx: AlarmContext, t: Tick, ghost es: seq<Event>)
    returns (trace: seq<Dispatch>, ghost looks: seq<Look>)
    requires es != [] && es[0] == t.event && cpu.Valid() && ctx.Valid() && cpu.RunAgrees(es) && Runnable(cpu.View(), es)
    requires Ahead(ctx.Pending(), cpu.clk) && cpu.clk + 8 < NEVER
    requires Fit(ctx, t.first, cpu.clk) && Fit(ctx, t.second, cpu.clk + 5)
    modifies cpu, cpu.ram, ctx`numPending, ctx`nextClk, ctx`nextIdx, ctx.pendingAlarm, ctx.pendingClk, ctx.members`pendingIdx
    ensures cpu.Valid() && cpu.View() == React(old(cpu.View()), t.event) && cpu.clk <= old(cpu.clk) + 8
    ensures cpu.RunAgrees(es[1..]) && Runnable(cpu.View(), es[1..]) && Run(cpu.View(), es[1..]) == Run(old(cpu.View()), es)
    ensures ctx.Valid() && Ahead(ctx.Pending(), cpu.clk)
    ensures Follows(old(cpu.View()), t, old(ctx.Pending()), looks) && trace == Calls(looks)
    ensures looks != [] && ctx.Pending() == looks[|looks| - 1].left
    ensures Bounded(trace, 8) && (Bounded(trace, 7) <==> !Late(old(cpu.View()), t, old(ctx.Pending())))
  {
    hide AlarmContext.Slots, AlarmContext.Cached, AlarmContext.Linked, AlarmContext.Pending, React, Jammed, Late, Bounded,
      InstructionCore.Shows, Follows, Calls;
    trace, looks := RunTick(cpu, ctx, t);
  }

  /** The state before tick `k`. */
  function Before(s: Cpu, ts: seq<Tick>, k: nat): Cpu
    requires k <= |ts|
  {
    if k == 0 then s else React(Before(s, ts, k - 1), ts[k - 1].event)
  }

  /** The looks at place `k` of a run, the first look or those of tick `k - 1`, leave the schedule `before[k]`. */
  ghost predicate LooksAt(s: Cpu, ts: seq<Tick>, before: seq<Schedule>, looks: seq<seq<Look>>, k: nat)
    requires k < |before| == |looks| <= |ts| + 1
  {
    && looks[k] != [] && before[k] == looks[k][|looks[k]| - 1].left
    && (k > 0 ==> Follows(Before(s, ts, k - 1), ts[k - 1], before[k - 1], looks[k]))
  }

  /** Every look of a run: the first one, at its start, and then those of each tick; `before[k]` is the schedule with
      which tick `k` starts, and the last one that with which the run ends. */
  ghost predicate Looks(s: Cpu, ts: seq<Tick>, before: seq<Schedule>, looks: seq<seq<Look>>) {
    |before| == |looks| <= |ts| + 1 && forall k :: 0 <= k < |looks| ==> LooksAt(s, ts, before, looks, k)
  }

  ghost function AllCalls(looks: seq<seq<Look>>): seq<Dispatch> {
    if looks == [] then [] else AllCalls(looks[..|looks| - 1]) + Calls(looks[|looks| - 1])
  }

  /** Lateness over whole runs: with no deadline already passed at the start and no alarm set in the past, every
      callback runs at most eight cycles late.  What is called is what the looks call, and each look calls exactly
      the alarms due in the schedule that the last one left and the requests since then have changed.  One callback
      is eight cycles late if and only if some opcode of eight cycles leaves an alarm set for its own fetch cycle: in
      the schedule `before[k]` that tick `k` starts with; and in the requests themselves, if the array has a slot for
      every alarm. */
  method RunWithAlarms(cpu: InstructionCore.Core, ctx: AlarmContext, ts: seq<Tick>)
    returns (trace: seq<Dispatch>, ghost before: seq<Schedule>, ghost looks: seq<seq<Look>>)
    requires cpu.Valid() && ctx.Valid() && cpu.RunAgrees(Events(ts))
    requires Runnable(cpu.View(), Events(ts)) && Ahead(ctx.Pending(), cpu.clk - 1)
    requires cpu.clk + 8 * |ts| + 8 < NEVER
    requires forall i :: 0 <= i < |ts| ==> Fit(ctx, ts[i].first, cpu.clk + 8 * |ts|) && Fit(ctx, ts[i].second, cpu.clk + 8 * |ts| + 5)
    modifies cpu, cpu.ram, ctx`numPending, ctx`nextClk, ctx`nextIdx, ctx.pendingAlarm, ctx.pendingClk, ctx.members`pendingIdx
    ensures cpu.Valid() && cpu.View() == Run(old(cpu.View()), Events(ts))
    ensures ctx.Valid()
    ensures |looks| == |ts| + 1 && Looks(old(cpu.View()), ts, before, looks) && ctx.Pending() == before[|ts|]
    ensures |looks[0]| == 1 && Looked(old(ctx.Pending()), old(cpu.clk), looks[0][0]) && trace == AllCalls(looks)
    ensures Bounded(trace, 8)
    ensures Bounded(trace, 7) <==> NoneLate(old(cpu.View()), ts, before, |ts|)
    ensures NoneEightLate(old(cpu.View()), ts, |ts|) ==> Bounded(trace, 7)
    ensures |ctx.members| <= MAX_PENDING ==> (Bounded(trace, 7) <==> NoneEightLate(old(cpu.View()), ts, |ts|))
  {
    hide AlarmContext.Slots, AlarmContext.Cached, AlarmContext.Linked, AlarmContext.Pending, React, Jammed, Late, EightLate;
    hide NoneLate, NoneEightLate, Looks, Looked, AllCalls, Bounded, InstructionCore.Shows, InstructionCore.Core.RunAgrees,
      Run, Runnable, Fit, InTime, Follows, Calls, Ahead;
    ghost var start, clk0, m0 := cpu.View(), cpu.clk, ctx.Pending();
    trace := FirstLook(ctx, cpu.clk);
    BoundedBy(trace, 0, 7);
    BoundedBy(trace, 0, 8);
    before, looks := [ctx.Pending()], [[Look(trace, ctx.Pending())]];
    NoTicks(start, ts, before, looks);
    var k := 0;
    while k < |ts|
      invariant 0 <= k <= |ts| && cpu.Valid() && ctx.Valid() && cpu.View() == Before(start, ts, k)
      invariant cpu.RunAgrees(Events(ts[k..]))
      invariant Runnable(cpu.View(), Events(ts[k..])) && Run(cpu.View(), Events(ts[k..])) == Run(start, Events(ts))
      invariant Ahead(ctx.Pending(), cpu.clk) && cpu.clk <= clk0 + 8 * k
      invariant |before| == |looks| == k + 1 && Looks(start, ts, before, looks) && before[k] == ctx.Pending()
      invariant |looks[0]| == 1 && Looked(m0, clk0, looks[0][0]) && trace == AllCalls(looks)
      invariant Bounded(trace, 8)
      invariant Bounded(trace, 7) <==> NoneLate(start, ts, before, k)
      invariant NoneEightLate(start, ts, k) ==> NoneLate(start, ts, before, k)
      invariant |ctx.members| <= MAX_PENDING ==> (NoneLate(start, ts, before, k) <==> NoneEightLate(start, ts, k))
    {
      assert Events(ts[k..])[1..] == Events(ts[k + 1..]);
      ghost var m := ctx.Pending();
      PendingMembers(ctx);
      FitsSooner(ctx, ts[k].first, cpu.clk, clk0 + 8 * |ts|);
      FitsSooner(ctx, ts[k].second, cpu.clk + 5, clk0 + 8 * |ts| + 5);
      FitMeans(ctx, ts[k].first, cpu.clk);
      LateByRequests(cpu.View(), ts[k], m, ctx.members);
      var more, lookedAt := RunFirst(cpu, ctx, ts[k], Events(ts[k..]));
      BoundedBoth(trace, more, 7);
      BoundedBoth(trace, more, 8);
      OneMoreTick(start, ts, before, ctx.Pending(), k);
      LooksMore(start, ts, before, looks, lookedAt);
      CallsMore(looks, lookedAt);
      trace, before, looks := trace + more, before + [ctx.Pending()], looks + [lookedAt];
      k := k + 1;
    }
    assert Events(ts[|ts|..]) == [];
    RunNothing(cpu.View());
  }

  lemma RunNothing(s: Cpu)
    ensures Run(s, []) == s
  {
  }

  ghost predicate NoneLate(s: Cpu, ts: seq<Tick>, before: seq<Schedule>, n: nat)
    requires n <= |ts| && n <= |before|
  {
    forall k :: 0 <= k < n ==> !Late(Before(s, ts, k), ts[k], before[k])
  }

  ghost predicate NoneEightLate(s: Cpu, ts: seq<Tick>, n: nat)
    requires n <= |ts|
  {
    forall k :: 0 <= k < n ==> !EightLate(Before(s, ts, k), ts[k])
  }

  lemma NoTicks(s: Cpu, ts: seq<Tick>, before: seq<Schedule>, looks: seq<seq<Look>>)
    requires |before| == |looks| == 1 && |looks[0]| == 1 && before[0] == looks[0][0].left
    ensures Looks(s, ts, before, looks) && NoneLate(s, ts, before, 0) && NoneEightLate(s, ts, 0)
    ensures AllCalls(looks) == looks[0][0].calls
  {
    hide Before, Follows;
    assert looks[..0] == [] && looks[0][..0] == [];
    assert Calls(looks[0]) == looks[0][0].calls;
  }

  lemma OneMoreTick(s: Cpu, ts: seq<Tick>, before: seq<Schedule>, m: Schedule, n: nat)
    requires n < |ts| && n < |before|
    ensures var q := Before(s, ts, n);
            && (NoneLate(s, ts, before + [m], n + 1) <==> NoneLate(s, ts, before, n) && !Late(q, ts[n], before[n]))
            && (NoneEightLate(s, ts, n + 1) <==> NoneEightLate(s, ts, n) && !EightLate(q, ts[n]))
  {
    hide Before, Late, EightLate;
    assert forall k :: 0 <= k < |before| ==> (before + [m])[k] == before[k];
  }

  lemma LooksMore(s: Cpu, ts: seq<Tick>, before: seq<Schedule>, looks: seq<seq<Look>>, more: seq<Look>)
    requires 1 <= |before| <= |ts| && Looks(s, ts, before, looks) && more != []
    requires var k := |before| - 1; Follows(Before(s, ts, k), ts[k], before[k], more)
    ensures Looks(s, ts, before + [more[|more| - 1].left], looks + [more])
  {
    hide Before, Follows;
    var before', looks' := before + [more[|more| - 1].left], looks + [more];
    forall k | 0 <= k < |looks'|
      ensures LooksAt(s, ts, before', looks', k)
    {
      if k < |looks| {
        assert LooksAt(s, ts, before, looks, k);
      }
    }
  }

  lemma CallsMore(looks: seq<seq<Look>>, more: seq<Look>)
    ensures AllCalls(looks + [more]) == AllCalls(looks) + Calls(more)
  {
    assert (looks + [more])[..|looks|] == looks;
  }

  lemma FitsSooner(ctx: AlarmContext, rs: seq<Request>, now: nat, until: nat)
    requires Fit(ctx, rs, until) && now <= until
    ensures Fit(ctx, rs, now)
  {
  }

  lemma FitMeans(ctx: AlarmContext, rs: seq<Request>, now: nat)
    requires Fit(ctx, rs, now)
    ensures InTime(rs, now) && forall j :: 0 <= j < |rs| ==> rs[j].alarm in ctx.members
  {
  }

  lemma PendingMembers(ctx: AlarmContext)
    requires ctx.Valid()
    ensures ctx.Pending().Keys <= ctx.members
  {
  }

  lemma BoundedBoth(trace: seq<Dispatch>, more: seq<Dispatch>, bound: int)
    ensures Bounded(trace + more, bound) <==> Bounded(trace, bound) && Bounded(more, bound)
  {
    assert forall i :: 0 <= i < |trace| ==> trace[i] == (trace + more)[i];
    assert forall i :: 0 <= i < |more| ==> more[i] == (trace + more)[|trace| + i];
    if Bounded(trace, bound) && Bounded(more, bound) {
      assert forall i :: |trace| <= i < |trace + more| ==> (trace + more)[i] == more[i - |trace|];
    }
  }

  /** PROCESS_ALARMS at the start of a run: alarms due this very cycle are on time. */
  method FirstLook(ctx: AlarmContext, clk: nat) returns (trace: seq<Dispatch>)
    requires ctx.Valid() && Ahead(ctx.Pending(), clk - 1) && clk < NEVER
    modifies ctx`numPending, ctx`nextClk, ctx`nextIdx, ctx.pendingAlarm, ctx.pendingClk, ctx.members`pendingIdx
    ensures ctx.Valid() && Looked(old(ctx.Pending()), clk, Look(trace, ctx.Pending()))
    ensures Ahead(ctx.Pending(), clk) && Bounded(trace, 0)
  {
    hide AlarmContext.Slots, AlarmContext.Cached, AlarmContext.Linked, AlarmContext.Pending;
    ghost var m := ctx.Pending();
    trace := ProcessAlarms(ctx, clk);
    AheadOfNothingDue(ctx.Pending(), clk);
    forall i | 0 <= i < |trace|
      ensures trace[i].offset == 0
    {
      assert trace[i].alarm in Due(m, clk);
    }
  }

  /** Both bounds are attained by the core, in an ISB ($nn,X) of eight cycles: an alarm that the opcode's own
      fetch sets `delay` cycles ahead is called exactly 8 - delay late, so the bound of seven fails for
      it just when the request is not prompt. */
  method LatenessAttained(cpu: InstructionCore.Core, ctx: AlarmContext, alarm: Alarm, delay: nat) returns (trace: seq<Dispatch>)
    requires cpu.Valid() && cpu.FetchAgrees() && Opcode(cpu.View()) == 0xe3 && cpu.clk + 16 < NEVER
    requires ctx.Valid() && ctx.Pending() == map[] && alarm in ctx.members && delay <= 8
    modifies cpu, cpu.ram, ctx`numPending, ctx`nextClk, ctx`nextIdx, ctx.pendingAlarm, ctx.pendingClk, ctx.members`pendingIdx
    ensures cpu.Valid() && cpu.View() == React(old(cpu.View()), TakeOpcode(false)) && ctx.Valid()
    ensures trace == [Dispatch(alarm, 8 - delay)]
    ensures Bounded(trace, 7) <==> Prompt(Request(alarm, 0, delay))
  {
    hide AlarmContext.Slots, AlarmContext.Cached, AlarmContext.Linked, AlarmContext.Pending, React, Jammed, Decode, Step,
      Plain, Requested, Dispatched, Ran, Due, Follows, Calls;
    ghost var s, from := cpu.View(), cpu.clk;
    EightCycles(s);
    OneRequest(alarm, from, delay);
    ghost var looks;
    trace, looks := RunTick(cpu, ctx, Tick(TakeOpcode(false), [Request(alarm, 0, delay)], []));
    PlainLook(s, Tick(TakeOpcode(false), [Request(alarm, 0, delay)], []), map[], looks);
    OnlyOne(trace, alarm, from, delay);
    assert trace[0].offset == 8 - delay;
  }

  /** The one look of an opcode that is not BRK. */
  lemma PlainLook(s: Cpu, t: Tick, m: Schedule, looks: seq<Look>)
    requires Follows(s, t, m, looks) && Plain(s, t.event)
    ensures InTime(t.first, s.clk) && React(s, t.event).clk < NEVER
    ensures var q, now := Requested(m, s.clk, t.first, |t.first|), React(s, t.event).clk;
            Dispatched(q, now, Calls(looks)) && Ran(Calls(looks)) == Due(q, now)
  {
    hide React, Plain, Requested, Dispatched, Ran, Due;
    assert Calls(looks) == looks[0].calls by {
      assert looks == [looks[0]];
      TwoCalls(looks[0], looks[0]);
    }
  }

  lemma OneRequest(alarm: Alarm, from: nat, delay: nat)
    requires from + delay <= NEVER
    ensures Requested(map[], from, [Request(alarm, 0, delay)], 1) == map[alarm := from + delay]
  {
    assert Requested(map[], from, [Request(alarm, 0, delay)], 0) == map[];
  }

  lemma EightCycles(s: Cpu)
    requires Opcode(s) == 0xe3
    ensures !Jammed(s) && Plain(s, TakeOpcode(false)) && React(s, TakeOpcode(false)).clk == s.clk + 8
  {
    BrkIsZero(s);
    hide Step, Decode;
    Agreement.OpcodeCyclesTight(s, false);
  }

  lemma OnlyOne(trace: seq<Dispatch>, alarm: Alarm, from: nat, delay: nat)
    requires delay <= 8 && from + 16 < NEVER
    requires var m: Schedule := map[alarm := from + delay];
             Dispatched(m, from + 8, trace) && Ran(trace) == Due(m, from + 8)
    ensures trace == [Dispatch(alarm, 8 - delay)]
  {
    var m: Schedule := map[alarm := from + delay];
    assert Due(m, from + 8) == {alarm};
    OneCall(trace, alarm);
    assert trace[0].offset == from + 8 - m[alarm];
    assert trace[0] == Dispatch(alarm, 8 - delay);
  }

  /** Calls of one alarm, none of them twice, are one call. */
  lemma OneCall(trace: seq<Dispatch>, alarm: Alarm)
    requires Ran(trace) == {alarm}
    requires forall i, j :: 0 <= i < j < |trace| ==> trace[i].alarm != trace[j].alarm
    ensures |trace| == 1 && trace[0].alarm == alarm
  {
    assert trace != [] by {
      assert alarm in Ran(trace);
    }
    assert forall i :: 0 <= i < |trace| ==> trace[i].alarm in Ran(trace);
    assert trace[0].alarm == trace[|trace| - 1].alarm;
  }
}
