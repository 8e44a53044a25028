/** JSL and RTL of the 65816: the far call and its return. */
module FarCalls {
  import opened Bytes
  import opened Isa65816
  import opened Core65816

  /** The byte `k` above the stack pointer in bank 0. */
  function Above(s: Machine, k: nat): byte {
    s.mem[U16(s.r.sp + k)]
  }

  /** The three bytes a call leaves for its return are still there, and so is the stack pointer. */
  predicate ReturnIntact(s: Machine, t: Machine) {
    t.r.emul == s.r.emul && t.r.sp == FarCall(s).r.sp
    && (forall k :: 1 <= k <= 3 ==> Above(t, k) == Above(FarCall(s), k))
  }

  /** Control is back behind the four bytes of the call, in its program bank. */
  predicate Returned(s: Machine, r: Machine) {
    r.r.pc == U16(s.r.pc + 4) && r.r.pbr == s.r.pbr
  }

  /** The return comes from the same three bytes wherever it happens. */
  lemma SameReturn(s: Machine, t: Machine)
    requires ReturnIntact(s, t)
    ensures var r, r' := FarReturn(FarCall(s)), FarReturn(t);
            r'.r.pc == r.r.pc && r'.r.pbr == r.r.pbr && r'.r.sp == r.r.sp
  {
    hide U16, U8, Word, Hi, Lo;
    assert Above(t, 1) == Above(FarCall(s), 1) && Above(t, 2) == Above(FarCall(s), 2) && Above(t, 3) == Above(FarCall(s), 3);
  }

  lemma ReturnAddress(pc: word)
    ensures U16(U16(pc + 3) + 1) == U16(pc + 4)
    ensures Word(Lo(U16(pc + 3)), Hi(U16(pc + 3))) == U16(pc + 3)
  {
    U16Add(pc + 3, 1);
    var w := U16(pc + 3);
    assert w == Lo(w) + 0x100 * Hi(w);
  }

  /** In native mode a far call returns for every stack pointer, wrapping in bank 0. */
  lemma NativeRoundTrip(s: Machine, t: Machine)
    requires !s.r.emul && ReturnIntact(s, t)
    ensures Returned(s, FarReturn(t)) && FarReturn(t).r.sp == s.r.sp
  {
    SameReturn(s, t);
    NativeStack(s.r.sp);
    ReturnAddress(s.r.pc);
    hide Lo, Hi, Word, U16;
  }

  lemma NativeStack(sp: word)
    ensures var b := U16(sp - 3);
            && U16(b + 1) == U16(sp - 2) && U16(b + 2) == U16(sp - 1) && U16(b + 3) == sp
            && U16(sp - 2) != U16(sp - 1) && U16(sp - 2) != sp && U16(sp - 1) != sp
  {
  }

  /** In emulation mode the call runs out of page one downwards without wrapping, but the return starts
      from the wrapped stack pointer.  So the round trip holds if the low byte of SP is at least 3, and
      otherwise only if the right bytes already lay above page one.  SP itself comes back in any case. */
  lemma EmulationRoundTrip(s: Machine, t: Machine)
    requires s.r.emul && ModeOk(s.r) && ReturnIntact(s, t)
    ensures FarReturn(t).r.sp == s.r.sp
    ensures Returned(s, FarReturn(t)) <==> Lo(s.r.sp) >= 3 || LuckyBytes(s)
  {
    hide U16, U8, Lo, Hi, Word, FarCall, FarReturn;
    SameReturn(s, t);
    EmulationBytes(s);
    var f := FarCall(s);
    assert FarReturn(f).r.sp == s.r.sp && (Returned(s, FarReturn(f)) <==>
      Above(f, 1) == Lo(U16(s.r.pc + 3)) && Above(f, 2) == Hi(U16(s.r.pc + 3)) && Above(f, 3) == s.r.pbr) by {
      ReturnedBytes(s, f);
    }
  }

  lemma WordUnique(lo: byte, hi: byte, ret: word)
    ensures U16(Word(lo, hi) + 1) == U16(ret + 1) <==> lo == Lo(ret) && hi == Hi(ret)
  {
    ReturnAddressBytes(ret);
    hide U16, Lo, Hi;
    assert Word(lo, hi) == ret <==> lo == Lo(ret) && hi == Hi(ret);
    hide Word;
    Injective(Word(lo, hi), ret);
  }

  lemma Injective(w: word, r: word)
    ensures U16(w + 1) == U16(r + 1) <==> w == r
  {
    hide U16;
  }

  lemma ReturnAddressBytes(r: word)
    ensures r == Lo(r) + 0x100 * Hi(r)
  {
  }

  lemma ReturnedBytes(s: Machine, f: Machine)
    requires s.r.emul && f.r.emul && 0x100 <= s.r.sp <= 0x1ff && f.r.sp == 0x100 + U8(s.r.sp - 3)
    ensures FarReturn(f).r.sp == s.r.sp
    ensures Returned(s, FarReturn(f)) <==>
            Above(f, 1) == Lo(U16(s.r.pc + 3)) && Above(f, 2) == Hi(U16(s.r.pc + 3)) && Above(f, 3) == s.r.pbr
  {
    WordUnique(Above(f, 1), Above(f, 2), U16(s.r.pc + 3));
    ReturnAddress(s.r.pc);
    EmulationStack(s.r.sp, s.r.sp - 0x100);
    hide U16, U8, Lo, Hi, Word;
  }

  /** Where the return looks after a call in emulation mode, and what lies there. */
  lemma EmulationBytes(s: Machine)
    requires s.r.emul && ModeOk(s.r)
    ensures var f := FarCall(s); var ret := U16(s.r.pc + 3);
            && f.r.emul && f.r.sp == 0x100 + U8(s.r.sp - 3) && 0x100 <= s.r.sp <= 0x1ff
            && if Lo(s.r.sp) >= 3 then Above(f, 1) == Lo(ret) && Above(f, 2) == Hi(ret) && Above(f, 3) == s.r.pbr
               else Above(f, 1) == s.mem[f.r.sp + 1] && Above(f, 2) == s.mem[f.r.sp + 2] && Above(f, 3) == s.mem[f.r.sp + 3]
  {
    EmulationStack(s.r.sp, s.r.sp - 0x100);
    hide U16, U8, Lo, Hi, Word;
  }

  /** The bytes where RTL looks, above the page, when the call has wrapped. */
  predicate LuckyBytes(s: Machine) {
    var b := 0x100 + U8(s.r.sp - 3);
    var ret := U16(s.r.pc + 3);
    s.mem[b + 1] == Lo(ret) && s.mem[b + 2] == Hi(ret) && s.mem[b + 3] == s.r.pbr
  }

  lemma EmulationStack(sp: word, low: nat)
    requires 0x100 <= sp <= 0x1ff && sp == 0x100 + low
    ensures Lo(sp) == low && U16(sp - 1) == sp - 1 && U16(sp - 2) == sp - 2
    ensures var b := 0x100 + U8(sp - 3);
            && (low >= 3 ==> b == sp - 3) && (low < 3 ==> b == sp + 0xfd)
            && U16(b + 1) == b + 1 && U16(b + 2) == b + 2 && U16(b + 3) == b + 3
            && 0x100 + U8(b + 3) == sp
  {
  }

  /** The call goes where its operand says exactly when the first store leaves the bank byte alone. */
  lemma FarCallTarget(s: Machine)
    ensures FarCall(s).r.pc == Word(OperandAt(s, 1), OperandAt(s, 2))
    ensures FarCall(s).r.pbr == OperandAt(s, 3) <==>
            s.r.sp != U16(s.r.pc + 3) + 0x1_0000 * s.r.pbr || s.r.pbr == OperandAt(s, 3)
  {
    hide U16;
  }

  /** A call in bank 0 with the stack pointer at its own bank byte: it stays in bank 0 where another bank was asked for. */
  lemma FarCallTargetExample(s: Machine, pc: word)
    requires pc == 0x1000 && s.r.pc == pc && s.r.pbr == 0 && s.r.sp == 0x1003 && s.mem[0x1003] != 0
    ensures OperandAt(s, 3) == s.mem[0x1003] != FarCall(s).r.pbr == 0
  {
    hide Lo, Hi, Word;
    assert U16(pc + 3) == 0x1003;
  }

  /** SP = 0x101 in emulation mode, with zeros where RTL looks: the call from 0x1000 does not return to 0x1004. */
  lemma EmulationExample(s: Machine)
    requires s.r.emul && ModeOk(s.r) && s.r.sp == 0x101 && s.r.pc == 0x1000
    requires s.mem[0x1ff] == 0 && s.mem[0x200] == 0 && s.mem[0x201] == 0
    ensures ReturnIntact(s, FarCall(s)) && !Returned(s, FarReturn(FarCall(s)))
  {
    hide FarCall, FarReturn;
    EmulationBytes(s);
    assert Lo(s.r.sp) == 1 && U8(s.r.sp - 3) == 0xfe && Lo(0x1003) == 3;
    EmulationRoundTrip(s, FarCall(s));
  }

  /** The opcodes JSL and RTL. */
  lemma JslIsFarCall(s: Machine)
    requires s.mem[s.r.pc + 0x1_0000 * s.r.pbr] == 0x22
    ensures React(NONE, s) == FarCall(s)
  {
    hide FarCall, ModeOk, ExecuteRow0, ExecuteRow1, ExecuteRow3, ExecuteRow4, ExecuteRow5, ExecuteRow6, ExecuteRow7,
      ExecuteRow8, ExecuteRow9, ExecuteRowA, ExecuteRowB, ExecuteRowC, ExecuteRowD, ExecuteRowE, ExecuteRowF;
  }

  lemma RtlIsFarReturn(s: Machine)
    requires s.mem[s.r.pc + 0x1_0000 * s.r.pbr] == 0x6b
    ensures React(NONE, s) == FarReturn(s)
  {
    hide FarReturn, ModeOk, ExecuteRow0, ExecuteRow1, ExecuteRow2, ExecuteRow3, ExecuteRow4, ExecuteRow5, ExecuteRow7,
      ExecuteRow8, ExecuteRow9, ExecuteRowA, ExecuteRowB, ExecuteRowC, ExecuteRowD, ExecuteRowE, ExecuteRowF;
  }

  /** The core's main loop at a JSL whose target holds an RTL. */
  method CallAndReturn(core: Core)
    requires core.Valid() && ModeOk(core.RegsView()) && (core.regEmul ==> Lo(core.regSp) >= 3)
    requires var s := core.View();
             var f := FarCall(s);
             s.mem[s.r.pc + 0x1_0000 * s.r.pbr] == 0x22 && f.mem[f.r.pc + 0x1_0000 * f.r.pbr] == 0x6b
    modifies core, core.mem
    ensures ModeOk(core.RegsView())
    ensures core.regPc == U16(old(core.regPc) + 4) && core.regPbr == old(core.regPbr) && core.regSp == old(core.regSp)
  {
    hide FarCall, FarReturn, React, ModeOk;
    ghost var s := core.View();
    JslIsFarCall(s);
    core.Step(NONE);
    ghost var t := core.View();
    RtlIsFarReturn(t);
    core.Step(NONE);
    assert ReturnIntact(s, t) by {
      KeepsEmulation(s);
    }
    if s.r.emul {
      EmulationRoundTrip(s, t);
    } else {
      NativeRoundTrip(s, t);
    }
  }

  lemma KeepsEmulation(s: Machine)
    ensures FarCall(s).r.emul == s.r.emul
  {
  }
}
