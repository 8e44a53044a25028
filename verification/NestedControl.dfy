/** Subroutines, saved registers and interrupts nest: page one, driven by JSR/RTS, PHA/PLA,
    PHP/PLP, BRK, interrupt entry and RTI, refines an abstract stack of frames.

    Both cores are proved to do what `React` says, so this holds of either. */
module NestedControl {
  import opened Bytes
  import opened Isa6510
  import opened LazyFlags

  /** One open bracket. */
  datatype Frame =
    | ReturnTo(pc: word)
    | SavedA(a: byte)
    | SavedP(f: Flags)
    | Interrupted(pc: word, f: Flags)

  /** The bytes a frame occupies, in the order they are pushed.  JSR pushes one less than the address
      it returns to. */
  function Image(fr: Frame): seq<byte> {
    match fr
    case ReturnTo(pc) => [Hi(U16(pc - 1)), Lo(U16(pc - 1))]
    case SavedA(a) => [a]
    case SavedP(f) => [StatusByte(f)]
    case Interrupted(pc, f) => [Hi(pc), Lo(pc), StatusByte(f)]
  }

  function Images(st: seq<Frame>): seq<byte> {
    if st == [] then [] else Images(st[..|st| - 1]) + Image(st[|st| - 1])
  }

  /** `bytes` lie on the stack from position `sp0` downwards, wrapping in page one. */
  predicate OnStack(mem: Ram, sp0: byte, bytes: seq<byte>) {
    |bytes| <= 0x100 && forall k :: 0 <= k < |bytes| ==> mem[0x100 + U8(sp0 - k)] == bytes[k]
  }

  /** The processor state represents the abstract stack. */
  predicate Represents(s: Cpu, sp0: byte, st: seq<Frame>) {
    s.r.sp == U8(sp0 - |Images(st)|) && OnStack(s.mem, sp0, Images(st))
  }

  // ----- The abstract machine -----

  /** The frame an event opens, if it opens one. */
  datatype Opened = Opens(frame: Frame) | OpensNothing

  function Opening(s: Cpu, e: Event): Opened {
    if e.TakeInterrupt? then Opens(Interrupted(s.pc, s.r.f.(b := false)))
    else
      match Decode(Opcode(s))
      case Jsr => Opens(ReturnTo(U16(s.pc + 3)))
      case Pha => Opens(SavedA(s.r.a))
      case Php => Opens(SavedP(s.r.f.(b := true)))
      case Brk => Opens(Interrupted(U16(s.pc + 2), s.r.f.(b := true)))
      case _ => OpensNothing
  }

  predicate Closing(s: Cpu, e: Event) {
    e.TakeOpcode? && Decode(Opcode(s)) in {Rts, Pla, Plp, Rti}
  }

  /** The closing opcode meets its own kind of frame. */
  predicate Matches(i: Instr, fr: Frame) {
    match i
    case Rts => fr.ReturnTo?
    case Pla => fr.SavedA?
    case Plp => fr.SavedP?
    case Rti => fr.Interrupted?
    case _ => false
  }

  /** Any other opcode leaves SP and the occupied bytes of page one alone. */
  predicate Quiet(s: Cpu, e: Event, sp0: byte, st: seq<Frame>)
    requires e.TakeOpcode? && !Jammed(s)
  {
    React(s, e).r.sp == s.r.sp &&
    (OnStack(s.mem, sp0, Images(st)) ==> OnStack(React(s, e).mem, sp0, Images(st)))
  }

  /** The event is well bracketed and the stack does not overflow page one. */
  predicate Legal(s: Cpu, e: Event, sp0: byte, st: seq<Frame>) {
    && (e.TakeOpcode? ==> !Jammed(s))
    && (Closing(s, e) ==> st != [] && Matches(Decode(Opcode(s)), st[|st| - 1]))
    && if Opening(s, e).Opens? then |Images(st)| + |Image(Opening(s, e).frame)| <= 0x100
       else Closing(s, e) || (e.TakeOpcode? && Quiet(s, e, sp0, st))
  }

  function Next(s: Cpu, e: Event, st: seq<Frame>): seq<Frame>
    requires Closing(s, e) ==> st != []
  {
    if Opening(s, e).Opens? then st + [Opening(s, e).frame]
    else if Closing(s, e) then st[..|st| - 1]
    else st
  }

  /** What closing a frame gives back. */
  predicate Restores(fr: Frame, s: Cpu, s': Cpu) {
    match fr
    case ReturnTo(pc) => s'.pc == pc && s'.r == s.r.(sp := s'.r.sp)
    case SavedA(a) => s'.pc == U16(s.pc + 1) && s'.r == SetA(s.r, a).(sp := s'.r.sp)
    case SavedP(f) => s'.pc == U16(s.pc + 1) && s'.r == s.r.(f := f, sp := s'.r.sp)
    case Interrupted(pc, f) => s'.pc == pc && s'.r == s.r.(f := f, sp := s'.r.sp)
  }

  // ----- Bytes on the stack -----

  lemma ImagesPush(st: seq<Frame>, fr: Frame)
    ensures Images(st + [fr]) == Images(st) + Image(fr)
  {
    assert (st + [fr])[..|st|] == st;
  }

  lemma Apart(sp0: byte, j: nat, k: nat)
    requires j < k < 0x100
    ensures U8(sp0 - j) != U8(sp0 - k)
  {
  }

  lemma SpAfter(sp0: int, n: int, k: int)
    ensures U8(U8(sp0 - n) - k) == U8(sp0 - (n + k))
  {
    U8Add(sp0 - n, -k);
  }

  /** One push on top of `bytes`. */
  lemma PushOne(mem: Ram, sp0: byte, bytes: seq<byte>, v: byte)
    requires OnStack(mem, sp0, bytes) && |bytes| < 0x100
    ensures OnStack(Push(mem, U8(sp0 - |bytes|), v), sp0, bytes + [v])
  {
    hide U8;
    var mem', bytes' := Push(mem, U8(sp0 - |bytes|), v), bytes + [v];
    forall k | 0 <= k < |bytes|
      ensures mem'[0x100 + U8(sp0 - k)] == bytes'[k]
    {
      Apart(sp0, k, |bytes|);
    }
  }

  /** The k-th byte from the top is the one pulled k-th. */
  lemma PullOne(s: Cpu, sp0: byte, bytes: seq<byte>, k: nat)
    requires OnStack(s.mem, sp0, bytes) && s.r.sp == U8(sp0 - |bytes|) && 1 <= k <= |bytes|
    ensures Pulled(s, k) == bytes[|bytes| - k]
    ensures U8(s.r.sp + k) == U8(sp0 - (|bytes| - k))
  {
    U8Add(sp0 - |bytes|, k);
  }

  lemma OnStackPrefix(mem: Ram, sp0: byte, bytes: seq<byte>, more: seq<byte>)
    requires OnStack(mem, sp0, bytes + more)
    ensures OnStack(mem, sp0, bytes)
  {
    forall k | 0 <= k < |bytes|
      ensures mem[0x100 + U8(sp0 - k)] == bytes[k]
    {
      assert (bytes + more)[k] == bytes[k];
    }
  }

  // ----- One event -----

  /** Opening a bracket pushes its frame. */
  lemma OpenRefines(s: Cpu, e: Event, sp0: byte, st: seq<Frame>)
    requires Represents(s, sp0, st) && Legal(s, e, sp0, st) && Opening(s, e).Opens?
    ensures Represents(React(s, e), sp0, Next(s, e, st))
  {
    hide U8, U16, Lo, Hi, StatusByte, WordAt, Decode, Images, OnStack;
    var fr, bytes, sp := Opening(s, e).frame, Images(st), s.r.sp;
    ImagesPush(st, fr);
    SpAfter(sp0, |bytes|, 1);
    SpAfter(sp0, |bytes|, 2);
    SpAfter(sp0, |bytes|, 3);
    U16Add(s.pc + 3, -1);
    PushImage(s.mem, sp0, bytes, Image(fr));
  }

  /** Memory after pushing up to three bytes from position `sp` down. */
  function PushAll(mem: Ram, sp: byte, v: seq<byte>): Ram
    requires 1 <= |v| <= 3
  {
    var m1 := Push(mem, sp, v[0]);
    if |v| == 1 then m1
    else
      var m2 := Push(m1, U8(sp - 1), v[1]);
      if |v| == 2 then m2 else Push(m2, U8(sp - 2), v[2])
  }

  lemma PushImage(mem: Ram, sp0: byte, bytes: seq<byte>, v: seq<byte>)
    requires OnStack(mem, sp0, bytes) && 1 <= |v| <= 3 && |bytes| + |v| <= 0x100
    ensures OnStack(PushAll(mem, U8(sp0 - |bytes|), v), sp0, bytes + v)
  {
    hide U8, OnStack;
    var sp: int := U8(sp0 - |bytes|);
    SpAfter(sp0, |bytes|, 1);
    SpAfter(sp0, |bytes|, 2);
    PushOne(mem, sp0, bytes, v[0]);
    if |v| == 1 {
      assert bytes + v == bytes + [v[0]];
    } else {
      PushOne(Push(mem, sp, v[0]), sp0, bytes + [v[0]], v[1]);
      if |v| == 2 {
        assert bytes + v == bytes + [v[0]] + [v[1]];
      } else {
        PushOne(Push(Push(mem, sp, v[0]), U8(sp - 1), v[1]), sp0, bytes + [v[0]] + [v[1]], v[2]);
        assert bytes + v == bytes + [v[0]] + [v[1]] + [v[2]];
      }
    }
  }

  /** Closing a bracket pops its frame and restores what it saved. */
  lemma CloseRefines(s: Cpu, e: Event, sp0: byte, st: seq<Frame>)
    requires Represents(s, sp0, st) && Legal(s, e, sp0, st) && Closing(s, e)
    ensures Represents(React(s, e), sp0, Next(s, e, st))
    ensures Restores(st[|st| - 1], s, React(s, e))
  {
    hide React, Represents, Restores, Opening, Quiet, Matches, Decode, Images, Image;
    var fr, rest := st[|st| - 1], st[..|st| - 1];
    assert st == rest + [fr];
    NotBoth(s, e);
    ClosesFrame(s, e, sp0, rest, fr);
  }

  lemma ClosesFrame(s: Cpu, e: Event, sp0: byte, rest: seq<Frame>, fr: Frame)
    requires Represents(s, sp0, rest + [fr]) && Closing(s, e) && !Jammed(s) && Matches(Decode(Opcode(s)), fr)
    ensures Represents(React(s, e), sp0, rest) && Restores(fr, s, React(s, e))
  {
    hide U8, U16, Lo, Hi, StatusByte, FlagsOf, Decode, OnStack, Images;
    TopFrame(s, sp0, rest, fr);
    match fr {
      case ReturnTo(pc) => PullWord(U16(pc - 1)); U16Add(pc - 1, 1);
      case SavedA(a) =>
      case SavedP(f) => StatusRoundTrip(f);
      case Interrupted(pc, f) => PullWord(pc); StatusRoundTrip(f);
    }
  }

  /** Pulling the bytes of the top frame, last one first. */
  lemma TopFrame(s: Cpu, sp0: byte, rest: seq<Frame>, fr: Frame)
    requires Represents(s, sp0, rest + [fr])
    ensures var n := |Image(fr)|;
            && U8(s.r.sp + n) == U8(sp0 - |Images(rest)|) && OnStack(s.mem, sp0, Images(rest))
            && Pulled(s, 1) == Image(fr)[n - 1]
            && (n >= 2 ==> Pulled(s, 2) == Image(fr)[n - 2])
            && (n >= 3 ==> Pulled(s, 3) == Image(fr)[n - 3])
  {
    hide U8, U16, OnStack, Pulled, Images, StatusByte, Lo, Hi;
    ImagesPush(rest, fr);
    TopBytes(s, sp0, Images(rest), Image(fr));
  }

  lemma TopBytes(s: Cpu, sp0: byte, below: seq<byte>, top: seq<byte>)
    requires OnStack(s.mem, sp0, below + top) && s.r.sp == U8(sp0 - |below + top|) && 1 <= |top| <= 3
    ensures var n := |top|;
            && U8(s.r.sp + n) == U8(sp0 - |below|) && OnStack(s.mem, sp0, below)
            && Pulled(s, 1) == top[n - 1] && (n >= 2 ==> Pulled(s, 2) == top[n - 2]) && (n >= 3 ==> Pulled(s, 3) == top[n - 3])
  {
    hide U8, OnStack, Pulled;
    var bytes, n := below + top, |top|;
    PullOne(s, sp0, bytes, 1);
    PullOne(s, sp0, bytes, n);
    if n >= 2 {
      PullOne(s, sp0, bytes, 2);
    }
    OnStackPrefix(s.mem, sp0, below, top);
  }

  lemma PullWord(w: word)
    ensures Word(Lo(w), Hi(w)) == w
  {
  }

  /** One event of any kind. */
  lemma StepRefines(s: Cpu, e: Event, sp0: byte, st: seq<Frame>)
    requires Represents(s, sp0, st) && Legal(s, e, sp0, st)
    ensures Represents(React(s, e), sp0, Next(s, e, st))
    ensures Closing(s, e) ==> Restores(st[|st| - 1], s, React(s, e))
  {
    hide React, Decode, Images, OnStack, Restores, Image, Matches, Opening;
    if Closing(s, e) {
      NotBoth(s, e);
      CloseRefines(s, e, sp0, st);
    } else if Opening(s, e).Opens? {
      OpenRefines(s, e, sp0, st);
    }
  }

  // ----- Runs -----

  /** Every event of the run is legal where it happens. */
  predicate WellBracketed(s: Cpu, es: seq<Event>, sp0: byte, st: seq<Frame>)
    decreases |es|
  {
    es != [] ==> Legal(s, es[0], sp0, st) && WellBracketed(React(s, es[0]), es[1..], sp0, Next(s, es[0], st))
  }

  function After(s: Cpu, es: seq<Event>, sp0: byte, st: seq<Frame>): seq<Frame>
    requires WellBracketed(s, es, sp0, st)
    decreases |es|
  {
    if es == [] then st else After(React(s, es[0]), es[1..], sp0, Next(s, es[0], st))
  }

  /** Refinement over whole runs. */
  lemma {:induction false} RunRefines(s: Cpu, es: seq<Event>, sp0: byte, st: seq<Frame>)
    requires Represents(s, sp0, st) && WellBracketed(s, es, sp0, st)
    ensures Represents(Run(s, es), sp0, After(s, es, sp0, st))
    decreases |es|
  {
    hide React, Represents, Quiet, Opening, Images;
    if es != [] {
      if Closing(s, es[0]) {
        NotBoth(s, es[0]);
      }
      StepRefines(s, es[0], sp0, st);
      RunRefines(React(s, es[0]), es[1..], sp0, Next(s, es[0], st));
    }
  }

  /** A whole bracket: an opening event, a body that gives the stack back as it got it, and the closing
      opcode.  SP is what it was, and the frame's contents come back: RTS resumes after its JSR, RTI at
      the interrupted instruction with the flags of that moment. */
  lemma BracketTheorem(s: Cpu, open: Event, body: seq<Event>, close: Event, sp0: byte, st: seq<Frame>)
    requires Represents(s, sp0, st) && Legal(s, open, sp0, st) && Opening(s, open).Opens?
    requires WellBracketed(React(s, open), body, sp0, Next(s, open, st))
    requires After(React(s, open), body, sp0, Next(s, open, st)) == Next(s, open, st)
    requires var s1 := Run(React(s, open), body); Legal(s1, close, sp0, Next(s, open, st)) && Closing(s1, close)
    ensures var s1 := Run(React(s, open), body); var s2 := React(s1, close);
            && s2.r.sp == s.r.sp
            && Restores(Opening(s, open).frame, s1, s2)
            && Represents(s2, sp0, st)
  {
    hide React, Legal, Run, Decode, Restores, Images, OnStack;
    StepRefines(s, open, sp0, st);
    RunRefines(React(s, open), body, sp0, Next(s, open, st));
    var s1 := Run(React(s, open), body);
    StepRefines(s1, close, sp0, Next(s, open, st));
    assert Next(s1, close, Next(s, open, st)) == st by {
      NotBoth(s1, close);
    }
  }

  lemma NotBoth(s: Cpu, e: Event)
    requires Closing(s, e)
    ensures !Opening(s, e).Opens?
  {
    hide Decode;
  }

  /** Any state represents the empty stack, so a bracket can be opened anywhere. */
  lemma EmptyStack(s: Cpu)
    ensures Represents(s, s.r.sp, [])
  {
  }
}
