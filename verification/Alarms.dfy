/** The alarm scheduler (vice/src/alarm.h, vice/src/alarm.c).

    A context keeps its pending alarms in an unordered array of 256 slots; each alarm holds
    the index of its slot, removal moves the last slot into the hole, and the earliest
    deadline is cached.  All of this is proved to be a finite map from alarms to deadlines. */
module Alarms {

  const MAX_PENDING := 0x100

  /** `(CLOCK)~0L`, the deadline of "no alarm". */
  const NEVER := 0xffff_ffff

  /** CLOCK is a 32-bit unsigned integer. */
  type Clock = c: int | 0 <= c <= NEVER

  // ----- The specification: a map from alarms to deadlines -----

  type Schedule = map<Alarm, Clock>

  /** alarm_set: a full schedule takes no new alarm. */
  ghost function WithAlarm(m: Schedule, a: Alarm, clk: Clock): Schedule {
    if a in m || |m| < MAX_PENDING then m[a := clk] else m
  }

  /** alarm_unset. */
  ghost function WithoutAlarm(m: Schedule, a: Alarm): Schedule {
    m - {a}
  }

  /** `clk` is the earliest deadline of `m`, or NEVER if there is none before it. */
  ghost predicate IsEarliest(m: Schedule, clk: Clock) {
    (forall a :: a in m ==> clk <= m[a]) &&
    (clk < NEVER ==> exists a :: a in m && m[a] == clk)
  }

  ghost function Due(m: Schedule, now: Clock): set<Alarm> {
    set a | a in m && m[a] <= now
  }

  /** There is at most one earliest deadline. */
  lemma EarliestUnique(m: Schedule, c: Clock, d: Clock)
    requires IsEarliest(m, c) && IsEarliest(m, d)
    ensures c == d
  {
  }

  class Alarm {
    const context: AlarmContext
    /** Index into the pending alarm list; negative if not pending. */
    var pendingIdx: int
    var next: Alarm?
    var prev: Alarm?

    /** The field part of alarm_init; AlarmContext.Link does the list part. */
    constructor (context: AlarmContext)
      ensures this.context == context && pendingIdx == -1 && next == null && prev == null
    {
      this.context := context;
      pendingIdx := -1;
      next, prev := null, null;
    }
  }

  /** The alarm at a position of the list, or a null pointer off its ends. */
  ghost function At(s: seq<Alarm>, i: int): Alarm? {
    if 0 <= i < |s| then s[i] else null
  }

  /** `s` lists the members of `all`, each once. */
  ghost predicate Listed(s: seq<Alarm>, all: set<Alarm>) {
    && (forall i, j :: 0 <= i < j < |s| ==> s[i] != s[j])
    && (forall i :: 0 <= i < |s| ==> s[i] in all)
    && (forall a :: a in all ==> a in s)
  }

  lemma AtListed(s: seq<Alarm>, all: set<Alarm>, j: int)
    requires Listed(s, all)
    ensures 0 <= j < |s| ==> s[j] in all
    ensures At(s, j) != null ==> At(s, j) in all
  {
  }

  lemma AtOnce(s: seq<Alarm>, all: set<Alarm>, i: nat, j: int)
    requires Listed(s, all) && i < |s|
    ensures s[i] == At(s, j) ==> i == j
  {
  }

  lemma AtWithout(s: seq<Alarm>, k: nat, i: int)
    requires k < |s|
    ensures At(s[..k] + s[k + 1..], i) == At(s, if i < k then i else i + 1)
  {
  }

  class AlarmContext {
    /** Head of the doubly linked list of all alarms of this context. */
    var alarms: Alarm?
    const pendingAlarm: array<Alarm?>
    const pendingClk: array<Clock>
    var numPending: nat
    var nextClk: Clock
    var nextIdx: int

    /** The alarms on the list, from the head, and as a set. */
    ghost var list: seq<Alarm>
    ghost var members: set<Alarm>

    /** alarm_context_init: `next_pending_alarm_idx` is left as it was. */
    constructor (garbage: int)
      ensures Valid() && Pending() == map[] && list == []
      ensures fresh(pendingAlarm) && fresh(pendingClk)
    {
      alarms := null;
      pendingAlarm := new Alarm?[MAX_PENDING];
      pendingClk := new Clock[MAX_PENDING];
      numPending := 0;
      nextClk := NEVER;
      nextIdx := garbage;
      list, members := [], {};
    }

    // ----- Representation invariant -----

    ghost predicate Shape()
      reads this`numPending
    {
      pendingAlarm.Length == pendingClk.Length == MAX_PENDING && numPending <= MAX_PENDING
    }

    /** The array and the back indices agree. */
    ghost predicate Slots()
      reads this`numPending, this`members, pendingAlarm, members`pendingIdx
    {
      && Shape()
      && (forall i :: 0 <= i < numPending ==> pendingAlarm[i] != null && pendingAlarm[i] in members && pendingAlarm[i].pendingIdx == i)
      && (forall a :: a in members ==> a.pendingIdx < numPending && (0 <= a.pendingIdx ==> pendingAlarm[a.pendingIdx] == a))
    }

    /** The cached deadline is the least; its index is right unless nothing is due before NEVER. */
    ghost predicate Cached()
      requires Shape()
      reads this`numPending, this`nextClk, this`nextIdx, pendingClk
    {
      && (forall i :: 0 <= i < numPending ==> nextClk <= pendingClk[i])
      && (nextClk < NEVER ==> 0 <= nextIdx < numPending && pendingClk[nextIdx] == nextClk)
    }

    /** The links spell out `list`. */
    ghost predicate Linked()
      reads this`alarms, this`list, this`members, members`next, members`prev
    {
      && Listed(list, members)
      && (forall a :: a in members ==> a.context == this)
      && alarms == At(list, 0)
      && (forall i {:trigger list[i].next} :: 0 <= i < |list| ==> list[i].next == At(list, i + 1))
      && (forall i {:trigger list[i].prev} :: 0 <= i < |list| ==> list[i].prev == At(list, i - 1))
    }

    ghost predicate Valid()
      reads this, pendingAlarm, pendingClk, members
    {
      Slots() && Cached() && Linked()
    }

    /** The schedule this context represents. */
    ghost function Pending(): Schedule
      requires Slots()
      reads this`numPending, this`members, pendingAlarm, pendingClk, members`pendingIdx
    {
      map a | a in members && 0 <= a.pendingIdx :: pendingClk[a.pendingIdx]
    }

    /** Exactly the first `numPending` slots are the entries of the schedule. */
    lemma SlotsArePending()
      requires Slots()
      ensures forall i :: 0 <= i < numPending ==> pendingAlarm[i] in Pending() && Pending()[pendingAlarm[i]] == pendingClk[i]
      ensures forall a :: a in Pending() ==> 0 <= a.pendingIdx < numPending && pendingAlarm[a.pendingIdx] == a
      ensures |Pending()| == numPending
    {
      var s := seq(numPending, i requires 0 <= i < numPending reads this, pendingAlarm, members requires Slots() => pendingAlarm[i] as Alarm);
      assert Pending().Keys == set a | a in s by {
        forall a | a in Pending()
          ensures a in s
        {
          assert s[a.pendingIdx] == a;
        }
      }
      DistinctSize(s, Pending().Keys);
    }

    /** The cache is the earliest deadline of the schedule, and its slot holds it. */
    lemma CacheIsEarliest()
      requires Slots() && Cached()
      ensures IsEarliest(Pending(), nextClk)
      ensures nextClk < NEVER ==> pendingAlarm[nextIdx] in Pending() && Pending()[pendingAlarm[nextIdx]] == nextClk
    {
      SlotsArePending();
    }

    // ----- Operations -----

    /** alarm_context_update_next_pending. */
    method UpdateNextPending()
      requires Shape()
      modifies this`nextClk, this`nextIdx
      ensures Cached()
    {
      var clk: Clock, idx := NEVER, nextIdx;
      var i := 0;
      while i < numPending
        invariant 0 <= i <= numPending
        invariant forall j :: 0 <= j < i ==> clk <= pendingClk[j]
        invariant if i == 0 then clk == NEVER else 0 <= idx < i && pendingClk[idx] == clk
      {
        if pendingClk[i] <= clk {
          clk := pendingClk[i];
          idx := i;
        }
        i := i + 1;
      }
      nextClk, nextIdx := clk, idx;
    }

    /** The array part of alarm_set on an alarm that is not pending: the next free slot. */
    method Append(alarm: Alarm, clk: Clock)
      requires Slots() && alarm in members && alarm.pendingIdx < 0 && numPending < MAX_PENDING
      modifies this`numPending, pendingAlarm, pendingClk, alarm`pendingIdx
      ensures Slots() && numPending == old(numPending) + 1
      ensures pendingClk[old(numPending)] == clk && forall i :: 0 <= i < old(numPending) ==> pendingClk[i] == old(pendingClk[i])
      ensures Pending() == old(Pending())[alarm := clk]
    {
      PendingAt();
      ghost var m := Pending();
      hide Pending;
      var newIdx := numPending;
      pendingAlarm[newIdx] := alarm;
      pendingClk[newIdx] := clk;
      numPending := numPending + 1;
      alarm.pendingIdx := newIdx;
      PendingIs(m[alarm := clk]);
    }

    /** An alarm is in the schedule exactly if it has a slot, with that slot's deadline. */
    lemma PendingAt()
      requires Slots()
      ensures Represents(Pending())
    {
    }

    ghost predicate Represents(m: Schedule)
      requires Slots()
      reads this`numPending, this`members, pendingAlarm, pendingClk, members`pendingIdx
    {
      && m.Keys <= members
      && (forall a :: a in members ==> (a in m <==> 0 <= a.pendingIdx))
      && (forall a :: a in m ==> m[a] == pendingClk[a.pendingIdx])
    }

    lemma PendingIs(m: Schedule)
      requires Slots() && Represents(m)
      ensures Pending() == m
    {
    }

    /** alarm_set on a pending alarm: a new deadline in its slot. */
    method Change(alarm: Alarm, clk: Clock)
      requires Valid() && alarm in members && alarm.pendingIdx >= 0
      modifies this`nextClk, this`nextIdx, pendingClk
      ensures Valid()
      ensures Pending() == old(Pending())[alarm := clk]
    {
      hide Linked;
      var idx := alarm.pendingIdx;
      pendingClk[idx] := clk;
      if nextClk > clk || idx == nextIdx {
        UpdateNextPending();
      }
    }

    /** alarm_set. */
    method Set(alarm: Alarm, clk: Clock)
      requires Valid() && alarm in members
      modifies this`numPending, this`nextClk, this`nextIdx, pendingAlarm, pendingClk, alarm`pendingIdx
      ensures Valid()
      ensures Pending() == WithAlarm(old(Pending()), alarm, clk)
    {
      hide Linked, Pending;
      SlotsArePending();
      if alarm.pendingIdx < 0 {
        var newIdx := numPending;
        if newIdx >= MAX_PENDING {
          return;
        }
        Append(alarm, clk);
        if clk < nextClk {
          nextClk := clk;
          nextIdx := newIdx;
        }
      } else {
        Change(alarm, clk);
      }
    }

    /** The array part of alarm_unset: the hole is filled from the end. */
    method Remove(alarm: Alarm, idx: nat)
      requires Slots() && alarm in members && alarm.pendingIdx == idx
      modifies this`numPending, pendingAlarm, pendingClk, members`pendingIdx
      ensures Slots() && numPending == old(numPending) - 1
      ensures Pending() == WithoutAlarm(old(Pending()), alarm)
      ensures forall i :: 0 <= i < numPending && i != idx ==> pendingClk[i] == old(pendingClk[i])
      ensures idx < numPending ==> pendingClk[idx] == old(pendingClk[numPending - 1])
    {
      PendingAt();
      ghost var m := Pending();
      hide Pending;
      numPending := numPending - 1;
      var last := numPending;
      if last != idx {
        pendingAlarm[idx] := pendingAlarm[last];
        pendingClk[idx] := pendingClk[last];
        pendingAlarm[idx].pendingIdx := idx;
      }
      alarm.pendingIdx := -1;
      PendingIs(WithoutAlarm(m, alarm));
    }

    /** alarm_unset. */
    method Unset(alarm: Alarm)
      requires Valid() && alarm in members
      modifies this`numPending, this`nextClk, this`nextIdx, pendingAlarm, pendingClk, members`pendingIdx
      ensures Valid()
      ensures Pending() == WithoutAlarm(old(Pending()), alarm)
    {
      hide Linked, Pending;
      var idx := alarm.pendingIdx;
      if idx < 0 {
        NotPending(alarm);
        return;
      }
      var last := numPending - 1;
      Remove(alarm, idx);
      if last > 0 {
        if nextIdx == idx {
          UpdateNextPending();
        } else if nextIdx == last {
          nextIdx := idx;
        }
      } else {
        nextClk := NEVER;
        nextIdx := -1;
      }
    }

    lemma NotPending(alarm: Alarm)
      requires Slots() && alarm.pendingIdx < 0
      ensures WithoutAlarm(Pending(), alarm) == Pending()
    {
    }

    // ----- The list of all alarms -----

    /** The list part of alarm_init: the new alarm becomes the head. */
    method Link(alarm: Alarm)
      requires Linked() && alarm !in members && alarm.context == this
      modifies this`alarms, this`list, this`members, members`prev, alarm`next, alarm`prev
      ensures Linked()
      ensures list == [alarm] + old(list) && members == old(members) + {alarm}
    {
      if alarms == null {
        alarms := alarm;
        alarm.next := null;
      } else {
        alarm.next := alarms;
        alarms.prev := alarm;
        alarms := alarm;
      }
      alarm.prev := null;
      list, members := [alarm] + list, members + {alarm};
      assert forall i :: 1 <= i < |list| ==> list[i] == old(list)[i - 1];
      assert list[0] == alarm;
    }

    /** alarm_init, for an alarm whose own fields are set. */
    method Init(alarm: Alarm)
      requires Valid() && alarm !in members && alarm.context == this && alarm.pendingIdx == -1
      modifies this`alarms, this`list, this`members, members`prev, alarm`next, alarm`prev
      ensures Valid()
      ensures list == [alarm] + old(list) && members == old(members) + {alarm}
      ensures Pending() == old(Pending())
    {
      hide Linked;
      Link(alarm);
    }

    /** The list part of alarm_destroy, for the alarm at position `k`. */
    method Unlink(alarm: Alarm, ghost k: nat)
      requires Linked() && k < |list| && list[k] == alarm
      modifies this`alarms, this`list, this`members, members`next, members`prev
      ensures Linked()
      ensures list == old(list)[..k] + old(list)[k + 1..] && members == old(members) - {alarm}
    {
      hide Listed;
      ghost var was, all := list, members;
      AtListed(list, members, k);
      AtListed(list, members, k - 1);
      AtListed(list, members, k + 1);
      ListedWithout(list, k, members);
      AtWithout(was, k, 0);
      assert list[k].next == At(list, k + 1) && list[k].prev == At(list, k - 1);
      assert alarms == alarm <==> k == 0 by {
        AtOnce(list, members, k, 0);
      }
      if alarm == alarms {
        alarms := alarm.next;
      }
      Bypass(alarm, k);
      list, members := list[..k] + list[k + 1..], members - {alarm};
      forall i | 0 <= i < |list|
        ensures list[i].next == At(list, i + 1) && list[i].prev == At(list, i - 1)
      {
        var j := if i < k then i else i + 1;
        assert list[i] == was[j];
        AtWithout(was, k, i - 1);
        AtWithout(was, k, i + 1);
        hide At;
        assert was[j].next == (if j + 1 == k then At(was, k + 1) else At(was, j + 1));
        assert was[j].prev == (if j == k + 1 then At(was, k - 1) else At(was, j - 1));
      }
    }

    /** The neighbours of position `k` are linked to each other. */
    method Bypass(alarm: Alarm, ghost k: nat)
      requires Listed(list, members) && k < |list| && list[k] == alarm
      requires alarm.next == At(list, k + 1) && alarm.prev == At(list, k - 1)
      modifies members`next, members`prev
      ensures forall i {:trigger list[i].next} :: 0 <= i < |list| ==>
                list[i].next == if i + 1 == k then At(list, k + 1) else old(list[i].next)
      ensures forall i {:trigger list[i].prev} :: 0 <= i < |list| ==>
                list[i].prev == if i == k + 1 then At(list, k - 1) else old(list[i].prev)
    {
      hide Listed;
      AtListed(list, members, k - 1);
      AtListed(list, members, k + 1);
      ghost var s, all := list, members;
      if alarm.next != null {
        alarm.next.prev := alarm.prev;
      }
      if alarm.prev != null {
        alarm.prev.next := alarm.next;
      }
      forall i | 0 <= i < |s|
        ensures s[i] == At(s, k - 1) ==> i + 1 == k
        ensures s[i] == At(s, k + 1) ==> i == k + 1
      {
        AtOnce(s, all, i, k - 1);
        AtOnce(s, all, i, k + 1);
      }
    }

    /** alarm_destroy. */
    method Destroy(alarm: Alarm, ghost k: nat)
      requires Valid() && k < |list| && list[k] == alarm
      modifies this, pendingAlarm, pendingClk, members
      ensures Valid()
      ensures list == old(list)[..k] + old(list)[k + 1..] && members == old(members) - {alarm}
      ensures Pending() == WithoutAlarm(old(Pending()), alarm)
    {
      assert alarm in members;
      hide Linked;
      Unset(alarm);
      assert alarm.pendingIdx < 0 by {
        assert alarm !in Pending();
      }
      Unlink(alarm, k);
    }

    /** alarm_context_destroy: every alarm goes, head first. */
    method DestroyAll()
      requires Valid()
      modifies this, pendingAlarm, pendingClk, members
      ensures Valid() && list == [] && Pending() == map[]
    {
      var ap := alarms;
      while ap != null
        invariant Valid() && ap == alarms && members <= old(members)
        decreases |list|
      {
        ghost var was := list;
        var apNext := ap.next;
        assert was[0].next == At(was, 1) && was[0] == ap;
        Destroy(ap, 0);
        assert list == was[1..];
        ap := apNext;
      }
    }

    // ----- Time warp -----

    /** alarm_context_time_warp: every deadline and the cached one move by the same amount. */
    method TimeWarp(warpAmount: Clock, warpDirection: int)
      requires Valid()
      modifies this`nextClk, pendingClk
      ensures Slots() && Linked()
      ensures nextClk == Warped(old(nextClk), Signed(warpAmount, warpDirection))
      ensures Pending() == WarpedSchedule(old(Pending()), Signed(warpAmount, warpDirection))
    {
      hide Linked, Cached, Warped;
      if warpDirection == 0 {
        WarpedExact(nextClk, 0);
        WarpedByZero(Pending());
        return;
      }
      ghost var m := Pending();
      var i := 0;
      while i < numPending
        invariant 0 <= i <= numPending && nextClk == old(nextClk)
        invariant forall j :: 0 <= j < i ==> pendingClk[j] == Warped(old(pendingClk[j]), Signed(warpAmount, warpDirection))
        invariant forall j :: i <= j < numPending ==> pendingClk[j] == old(pendingClk[j])
      {
        if warpDirection > 0 {
          pendingClk[i] := Warped(pendingClk[i], warpAmount);
        } else {
          pendingClk[i] := Warped(pendingClk[i], -(warpAmount as int));
        }
        i := i + 1;
      }
      if warpDirection > 0 {
        nextClk := Warped(nextClk, warpAmount);
      } else {
        nextClk := Warped(nextClk, -(warpAmount as int));
      }
    }
  }

  /** `c + amount` in the width of CLOCK. */
  function Warped(c: Clock, amount: int): Clock {
    (c + amount) % 0x1_0000_0000
  }

  function Signed(amount: Clock, direction: int): (d: int)
    ensures -NEVER <= d <= NEVER
  {
    if direction > 0 then amount else if direction < 0 then -(amount as int) else 0
  }

  ghost function WarpedSchedule(m: Schedule, d: int): Schedule {
    map a | a in m :: Warped(m[a], d)
  }

  lemma WarpedExact(c: Clock, d: int)
    requires -NEVER <= d <= NEVER
    ensures 0 <= c + d <= NEVER ==> Warped(c, d) == c + d
    ensures c == NEVER && d != 0 ==> Warped(c, d) != NEVER
  {
  }

  lemma WarpedByZero(m: Schedule)
    ensures WarpedSchedule(m, 0) == m
  {
  }

  /** With alarms pending and no wrap-around the cached deadline stays the earliest one. */
  lemma WarpKeepsEarliest(m: Schedule, clk: Clock, d: int)
    requires IsEarliest(m, clk) && clk < NEVER && -NEVER <= d <= NEVER
    requires forall a :: a in m ==> 0 <= m[a] + d <= NEVER
    ensures IsEarliest(WarpedSchedule(m, d), Warped(clk, d))
  {
    forall a | a in m
      ensures Warped(m[a], d) == m[a] + d
    {
      WarpedExact(m[a], d);
    }
    var first :| first in m && m[first] == clk;
    assert WarpedSchedule(m, d)[first] == Warped(clk, d);
    hide Warped;
  }

  /** On an empty context any real warp spoils the marker for "no alarm". */
  lemma WarpOfEmpty(clk: Clock, d: int)
    requires IsEarliest(map[], clk) && -NEVER <= d <= NEVER
    ensures IsEarliest(WarpedSchedule(map[], d), Warped(clk, d)) <==> d == 0
  {
    WarpedExact(clk, d);
    assert WarpedSchedule(map[], d) == map[];
  }

  /** Dropping position `k` from a listing. */
  lemma ListedWithout(was: seq<Alarm>, k: nat, all: set<Alarm>)
    requires Listed(was, all) && k < |was|
    ensures Listed(was[..k] + was[k + 1..], all - {was[k]})
  {
    var now := was[..k] + was[k + 1..];
    assert forall i :: 0 <= i < |now| ==> now[i] == was[if i < k then i else i + 1];
    forall a | a in all && a != was[k]
      ensures a in now
    {
      var i :| 0 <= i < |was| && was[i] == a;
      assert now[if i < k then i else i - 1] == a;
    }
  }

  /** A sequence without repetitions is as long as the set of its elements. */
  lemma {:induction false} DistinctSize(s: seq<Alarm>, all: set<Alarm>)
    requires forall i, j :: 0 <= i < j < |s| ==> s[i] != s[j]
    requires all == set a | a in s
    ensures |all| == |s|
  {
    if s == [] {
      assert all == {};
    } else {
      var a := s[|s| - 1];
      DistinctSize(s[..|s| - 1], all - {a});
    }
  }

  // ----- Sequences of operations -----

  datatype Operation = SetAlarm(alarm: Alarm, clk: Clock) | UnsetAlarm(alarm: Alarm)

  ghost function Applied(m: Schedule, op: Operation): Schedule {
    match op
    case SetAlarm(a, clk) => WithAlarm(m, a, clk)
    case UnsetAlarm(a) => WithoutAlarm(m, a)
  }

  ghost function Replayed(m: Schedule, ops: seq<Operation>): Schedule
    decreases |ops|
  {
    if ops == [] then m else Replayed(Applied(m, ops[0]), ops[1..])
  }

  /** After any sequence of sets and unsets the array holds exactly the entries of the replayed
      map, and the cache is its earliest deadline. */
  method Replay(ctx: AlarmContext, ops: seq<Operation>)
    requires ctx.Valid() && forall i :: 0 <= i < |ops| ==> ops[i].alarm in ctx.members
    modifies ctx`numPending, ctx`nextClk, ctx`nextIdx, ctx.pendingAlarm, ctx.pendingClk, ctx.members`pendingIdx
    ensures ctx.Valid()
    ensures ctx.Pending() == Replayed(old(ctx.Pending()), ops)
    ensures IsEarliest(ctx.Pending(), ctx.nextClk)
    ensures |ctx.Pending()| == ctx.numPending
  {
    hide AlarmContext.Slots, AlarmContext.Cached, AlarmContext.Linked, AlarmContext.Pending, WithAlarm, WithoutAlarm;
    ghost var start := ctx.Pending();
    var k := 0;
    while k < |ops|
      invariant 0 <= k <= |ops| && ctx.Valid()
      invariant Replayed(ctx.Pending(), ops[k..]) == Replayed(start, ops)
    {
      match ops[k] {
        case SetAlarm(a, clk) => ctx.Set(a, clk);
        case UnsetAlarm(a) => ctx.Unset(a);
      }
      assert ops[k..][1..] == ops[k + 1..];
      k := k + 1;
    }
    ReplayedExactly(ctx);
  }

  lemma ReplayedExactly(ctx: AlarmContext)
    requires ctx.Valid()
    ensures IsEarliest(ctx.Pending(), ctx.nextClk) && |ctx.Pending()| == ctx.numPending
  {
    ctx.SlotsArePending();
    ctx.CacheIsEarliest();
  }

  // ----- Dispatching -----

  /** A callback was run, this late. */
  datatype Dispatch = Dispatch(alarm: Alarm, offset: Clock)

  /** alarm_context_dispatch up to the call of the callback. */
  method NextDispatch(ctx: AlarmContext, cpuClk: Clock) returns (d: Dispatch)
    requires ctx.Valid() && ctx.nextClk <= cpuClk < NEVER
    ensures var m := ctx.Pending();
            && d.alarm in m && d.alarm in Due(m, cpuClk) && d.offset == cpuClk - m[d.alarm]
            && forall a :: a in m ==> m[d.alarm] <= m[a]
  {
    ctx.CacheIsEarliest();
    ctx.SlotsArePending();
    var offset := cpuClk - ctx.nextClk;
    var idx := ctx.nextIdx;
    d := Dispatch(ctx.pendingAlarm[idx], offset);
  }

  /** Two schedules that differ in alarms of `s` alone. */
  ghost predicate SameBut(m: Schedule, m': Schedule, s: set<Alarm>) {
    m.Keys - s == m'.Keys - s && forall a :: a in m.Keys - s ==> m[a] == m'[a]
  }

  /** What a well-behaved callback may do: unset its alarm, or set it strictly after CLK. */
  method RunCallback(ctx: AlarmContext, alarm: Alarm, cpuClk: Clock)
    requires ctx.Valid() && alarm in ctx.Pending() && cpuClk < NEVER
    modifies ctx`numPending, ctx`nextClk, ctx`nextIdx, ctx.pendingAlarm, ctx.pendingClk, ctx.members`pendingIdx
    ensures ctx.Valid()
    ensures SameBut(old(ctx.Pending()), ctx.Pending(), {alarm})
    ensures alarm in ctx.Pending() ==> cpuClk < ctx.Pending()[alarm]
  {
    var rearm: bool := *;
    if rearm {
      var clk: Clock :| cpuClk < clk;
      ctx.Set(alarm, clk);
    } else {
      ctx.Unset(alarm);
    }
  }

  /** `trace` runs each alarm of `m` due at `now` once, earliest first, with its exact lateness. */
  ghost predicate Dispatched(m: Schedule, now: Clock, trace: seq<Dispatch>) {
    && (forall i :: 0 <= i < |trace| ==> trace[i].alarm in Due(m, now) && trace[i].offset == now - m[trace[i].alarm])
    && (forall i, j :: 0 <= i < j < |trace| ==> trace[i].alarm != trace[j].alarm && trace[i].offset >= trace[j].offset)
  }

  ghost function Ran(trace: seq<Dispatch>): set<Alarm> {
    set d | d in trace :: d.alarm
  }

  /** PROCESS_ALARMS. */
  method ProcessAlarms(ctx: AlarmContext, clk: Clock) returns (trace: seq<Dispatch>)
    requires ctx.Valid() && clk < NEVER
    modifies ctx`numPending, ctx`nextClk, ctx`nextIdx, ctx.pendingAlarm, ctx.pendingClk, ctx.members`pendingIdx
    ensures ctx.Valid()
    ensures Dispatched(old(ctx.Pending()), clk, trace) && Ran(trace) == Due(old(ctx.Pending()), clk)
    ensures Due(ctx.Pending(), clk) == {}
    ensures SameBut(old(ctx.Pending()), ctx.Pending(), Ran(trace))
  {
    hide AlarmContext.Slots, AlarmContext.Cached, AlarmContext.Linked, AlarmContext.Pending;
    hide Progress, SameBut, Due, Ran;
    ghost var m0 := ctx.Pending();
    trace := [];
    NoProgress(m0, clk);
    CacheIsEarliest(ctx);
    while clk >= ctx.nextClk
      invariant ctx.Valid() && IsEarliest(ctx.Pending(), ctx.nextClk)
      invariant Progress(m0, ctx.Pending(), clk, trace)
      decreases |Due(ctx.Pending(), clk)|
    {
      ghost var m := ctx.Pending();
      var d := NextDispatch(ctx, clk);
      RunCallback(ctx, d.alarm, clk);
      OneMore(m0, m, ctx.Pending(), clk, trace, d);
      trace := trace + [d];
      CacheIsEarliest(ctx);
    }
    NothingDue(m0, ctx.Pending(), ctx.nextClk, clk, trace);
  }

  lemma NoProgress(m: Schedule, clk: Clock)
    ensures Progress(m, m, clk, [])
  {
  }

  lemma NothingDue(m0: Schedule, m: Schedule, next: Clock, clk: Clock, trace: seq<Dispatch>)
    requires Progress(m0, m, clk, trace) && IsEarliest(m, next) && clk < next
    ensures Dispatched(m0, clk, trace) && Ran(trace) == Due(m0, clk)
    ensures Due(m, clk) == {} && SameBut(m0, m, Ran(trace))
  {
    forall a | a in Ran(trace)
      ensures a in Due(m0, clk)
    {
      var d :| d in trace && d.alarm == a;
    }
    assert Due(m, clk) == {};
    forall a | a in Due(m0, clk)
      ensures a in Ran(trace)
    {
      assert a !in Due(m0, clk) - Ran(trace);
    }
    assert Ran(trace) == Due(m0, clk);
  }

  lemma CacheIsEarliest(ctx: AlarmContext)
    requires ctx.Valid()
    ensures IsEarliest(ctx.Pending(), ctx.nextClk)
  {
    ctx.CacheIsEarliest();
  }

  /** Part of the way from schedule `m0` to one with nothing due. */
  ghost predicate Progress(m0: Schedule, m: Schedule, clk: Clock, trace: seq<Dispatch>) {
    && Dispatched(m0, clk, trace)
    && Due(m, clk) == Due(m0, clk) - Ran(trace)
    && SameBut(m0, m, Ran(trace))
    && (forall i, a :: 0 <= i < |trace| && a in Due(m, clk) ==> clk - m[a] <= trace[i].offset)
  }

  lemma OneMore(m0: Schedule, m: Schedule, m': Schedule, clk: Clock, trace: seq<Dispatch>, d: Dispatch)
    requires Progress(m0, m, clk, trace)
    requires d.alarm in Due(m, clk) && d.offset == clk - m[d.alarm] && forall a :: a in m ==> m[d.alarm] <= m[a]
    requires SameBut(m, m', {d.alarm}) && (d.alarm in m' ==> clk < m'[d.alarm])
    ensures Progress(m0, m', clk, trace + [d])
    ensures |Due(m', clk)| < |Due(m, clk)|
  {
    RanMore(trace, d);
    hide Ran;
    assert d.alarm in m0.Keys - Ran(trace);
    StillSame(m0, m, m', Ran(trace), d.alarm);
    assert Due(m', clk) == Due(m, clk) - {d.alarm} by {
      forall a | a in Due(m', clk) + Due(m, clk) && a != d.alarm
        ensures a in Due(m', clk) <==> a in Due(m, clk)
      {
        assert a in m.Keys - {d.alarm};
      }
    }
  }

  lemma StillSame(m0: Schedule, m: Schedule, m': Schedule, s: set<Alarm>, a: Alarm)
    requires SameBut(m0, m, s) && SameBut(m, m', {a})
    ensures SameBut(m0, m', s + {a})
  {
    assert m0.Keys - (s + {a}) == (m0.Keys - s) - {a} == (m.Keys - {a}) - s == m'.Keys - (s + {a});
    forall b | b in m0.Keys - (s + {a})
      ensures m0[b] == m'[b]
    {
      assert b in m0.Keys - s && b in m.Keys - {a};
    }
  }

  lemma RanMore(trace: seq<Dispatch>, d: Dispatch)
    ensures Ran(trace + [d]) == Ran(trace) + {d.alarm}
    ensures forall i :: 0 <= i < |trace| ==> trace[i].alarm in Ran(trace)
  {
    assert forall e :: e in trace + [d] <==> e in trace || e == d;
  }
}
