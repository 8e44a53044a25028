/** The two 6510 cores agree: driven by the same events from the same state they show the
    same registers, status, memory and clock after every instruction. */
module Agreement {
  import opened Bytes
  import opened Isa6510
  import opened CycleCore
  import InstructionCore

  /** Equal in everything a program can see; only the interrupt logic's note may differ. */
  predicate Same(s: Cpu, t: Cpu) {
    s.r == t.r && s.pc == t.pc && s.mem == t.mem && s.clk == t.clk
  }

  /** What the instruction-level core is told when the cycle-level one meets event `e`. */
  function Seen(e: CycleEvent): Event {
    match e
    case TakeNmi => TakeInterrupt(true)
    case TakeIrq(hijack) => TakeInterrupt(hijack)
    case RunOpcode(nmi) => TakeOpcode(nmi)
  }

  function AllSeen(es: seq<CycleEvent>): (fs: seq<Event>)
    ensures |fs| == |es| && forall i :: 0 <= i < |es| ==> fs[i] == Seen(es[i])
  {
    seq(|es|, i requires 0 <= i < |es| => Seen(es[i]))
  }

  /** The event executes an ANE. */
  predicate ExecutesAne(s: Cpu, e: CycleEvent) {
    e.RunOpcode? && Opcode(s) == 0x8b
  }

  /** One event.  The notes about the last opcode also agree, except after an ANE. */
  lemma EventAgreement(s: Cpu, t: Cpu, e: CycleEvent)
    requires Same(s, t) && (e.RunOpcode? ==> !Jammed(s))
    ensures Same(CycleReact(s, e), React(t, Seen(e)))
    ensures CycleReact(s, e).info == React(t, Seen(e)).info <==> !ExecutesAne(s, e)
  {
    hide Decode, EnterHandler, Word, U16;
    match e
    case TakeNmi => InterruptIgnoresInfo(s, t, true);
    case TakeIrq(hijack) => InterruptIgnoresInfo(s, t, hijack);
    case RunOpcode(nmi) => StepAgreement(s, t, nmi);
  }

  lemma InterruptIgnoresInfo(s: Cpu, t: Cpu, nmi: bool)
    requires Same(s, t)
    ensures Interrupt(s, nmi) == Interrupt(t, nmi)
  {
  }

  lemma StepAgreement(s: Cpu, t: Cpu, nmi: bool)
    requires Same(s, t) && !Jammed(s)
    ensures !Jammed(t)
    ensures Opcode(s) != 0x8b ==> CycleStep(s, nmi) == Step(t, nmi)
    ensures Opcode(s) == 0x8b ==> Step(t, nmi).info.number == 0x8b && CycleStep(s, nmi) == Step(t, nmi).(info := OpInfo(0x80, false, false, false))
  {
    hide Execute, Word, U16;
    if Opcode(s) == 0x8b {
      AneReportsItself(t, nmi);
    } else {
      hide Decode;
      assert s.(info := OpInfo(Opcode(s), false, false, false)) == t.(info := OpInfo(Opcode(s), false, false, false));
    }
  }

  lemma AneReportsItself(t: Cpu, nmi: bool)
    requires Opcode(t) == 0x8b
    ensures !Jammed(t) && Step(t, nmi).info.number == 0x8b
  {
    hide And, Or, Word, U16, SetA;
    assert Decode(0x8b) == Read(ANE, Imm);
  }

  /** Whole runs: after any number of events the cores agree, and so do their notes unless the
      last event executed an ANE. */
  lemma {:induction false} RunAgreement(s: Cpu, t: Cpu, es: seq<CycleEvent>)
    requires Same(s, t) && CycleRunnable(s, es)
    ensures Runnable(t, AllSeen(es))
    ensures Same(CycleRun(s, es), Run(t, AllSeen(es)))
    ensures es != [] ==>
      (CycleRun(s, es).info == Run(t, AllSeen(es)).info
       <==> !ExecutesAne(CycleRun(s, es[..|es| - 1]), es[|es| - 1]))
    decreases |es|
  {
    hide CycleReact, React, Jammed, ExecutesAne;
    if es != [] {
      var s', t' := CycleReact(s, es[0]), React(t, Seen(es[0]));
      NotJammed(s, t, es[0]);
      EventAgreement(s, t, es[0]);
      RunAgreement(s', t', es[1..]);
      assert AllSeen(es)[1..] == AllSeen(es[1..]);
      if |es| > 1 {
        assert es[..|es| - 1][1..] == es[1..][..|es| - 2];
        assert CycleRun(s, es[..|es| - 1]) == CycleRun(s', es[1..][..|es| - 2]);
      }
    }
  }

  lemma NotJammed(s: Cpu, t: Cpu, e: CycleEvent)
    requires Same(s, t) && (e.RunOpcode? ==> !Jammed(s))
    ensures Seen(e).TakeOpcode? ==> !Jammed(t)
  {
  }

  /** The two cores side by side: in the same state after every event, and with the same note about the
      last opcode unless that was an ANE. */
  method LockStep(a: InstructionCore.Core, b: CycleCore.Core, es: seq<CycleEvent>)
    requires a.Valid() && b.Valid() && a.ram != b.ram && a.bankBase != b.ram && a.RunAgrees(AllSeen(es))
    requires Same(b.View(), a.View()) && CycleRunnable(b.View(), es)
    modifies a, a.ram, b, b.ram
    ensures a.Valid() && b.Valid()
    ensures Same(b.View(), a.View())
    ensures b.View() == CycleRun(old(b.View()), es)
    ensures a.View() == Run(old(a.View()), AllSeen(es))
    ensures es != [] ==>
      (b.opInfo == a.opInfo <==> !ExecutesAne(CycleRun(old(b.View()), es[..|es| - 1]), es[|es| - 1]))
  {
    hide CycleReact, React, Jammed, CycleStep, Step, Interrupt, ExecutesAne, InstructionCore.Shows;
    ghost var s, t := b.View(), a.View();
    RunAgreement(s, t, es);
    var k := 0;
    while k < |es|
      invariant 0 <= k <= |es| && a.Valid() && b.Valid()
      invariant Same(b.View(), a.View())
      invariant CycleRunnable(b.View(), es[k..]) && a.RunAgrees(AllSeen(es[k..]))
      invariant CycleRun(b.View(), es[k..]) == CycleRun(s, es)
      invariant Run(a.View(), AllSeen(es[k..])) == Run(t, AllSeen(es))
    {
      ghost var s0, t0 := b.View(), a.View();
      EventAgreement(s0, t0, es[k]);
      NotJammed(s0, t0, es[k]);
      AdvanceCycle(b, es[k]);
      AdvanceInstruction(a, Seen(es[k]));
      assert es[k..][1..] == es[k + 1..];
      assert AllSeen(es[k..])[1..] == AllSeen(es[k + 1..]);
      k := k + 1;
    }
  }

  method AdvanceCycle(b: CycleCore.Core, e: CycleEvent)
    requires b.Valid() && (e.RunOpcode? ==> !Jammed(b.View()))
    modifies b, b.ram
    ensures b.Valid() && b.View() == CycleReact(old(b.View()), e)
  {
    hide CycleStep, Interrupt, Jammed;
    match e
    case TakeNmi => b.DoNmi();
    case TakeIrq(hijack) => b.DoIrq(hijack);
    case RunOpcode(nmi) => b.Step(nmi);
  }

  method AdvanceInstruction(a: InstructionCore.Core, e: Event)
    requires a.Valid() && (e.TakeOpcode? ==> !Jammed(a.View()) && a.FetchAgrees())
    modifies a, a.ram
    ensures a.Valid() && a.View() == React(old(a.View()), e)
  {
    hide Step, Interrupt, Jammed;
    match e
    case TakeInterrupt(nmi) => a.DoInterrupt(nmi);
    case TakeOpcode(nmi) => a.Step(nmi);
  }

  // ----- Cycle counts -----

  /** Every opcode but JAM takes two to eight cycles. */
  lemma OpcodeCycles(s: Cpu, nmi: bool)
    requires !Jammed(s)
    ensures 2 <= Step(s, nmi).clk - s.clk <= 8
  {
    hide Decode, ApplyRead, ApplyModify, Modified, EffectiveAddress, Operand, HighAddress, HighValue, Word, U16, U8;
    var i := Decode(Opcode(s));
    match i
    case Branch(t) => hide Holds;
    case _ =>
  }

  /** The bounds are attained: a NOP takes two cycles, an ISB ($nn,X) eight. */
  lemma OpcodeCyclesTight(s: Cpu, nmi: bool)
    ensures Opcode(s) == 0xea ==> !Jammed(s) && Step(s, nmi).clk == s.clk + 2
    ensures Opcode(s) == 0xe3 ==> !Jammed(s) && Step(s, nmi).clk == s.clk + 8
  {
    hide SubtractFromA, Word, U16, U8;
    assert Decode(0xea) == Implied(NOP) && Decode(0xe3) == Modify(ISB, IndX);
  }

  lemma InterruptCycles(s: Cpu, nmi: bool)
    ensures Interrupt(s, nmi).clk == s.clk + 7
  {
  }
}
