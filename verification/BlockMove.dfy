/** The self-repeating block moves of the 65816, MVN and MVP.

    The instruction leaves the program counter where it is until C runs out, so the main loop
    executes it again and again.  What all those rounds come to is a sequential copy. */
module BlockMove {
  import opened Bytes
  import opened Isa65816
  import opened Core65816

  /** `k` rounds of the same instruction. */
  function Rounds(up: bool, s: Machine, k: nat): Machine
    decreases k
  {
    if k == 0 then s else Rounds(up, MoveStep(up, s), k - 1)
  }

  /** An index register after `k` rounds, in a width of eight or sixteen bits. */
  function Index(w8: bool, i: word, k: int, up: bool): word {
    if w8 then U8(i + (if up then k else -k)) else U16(i + (if up then k else -k))
  }

  /** The reference: byte by byte from bank `q` to bank `d`, in order. */
  function Copied(mem: Ram24, q: byte, x: word, d: byte, y: word, n: nat, w8: bool, up: bool): Ram24
    decreases n
  {
    if n == 0 then mem
    else Copied(mem[y + 0x1_0000 * d := mem[x + 0x1_0000 * q]], q, Index(w8, x, 1, up), d, Index(w8, y, 1, up), n - 1, w8, up)
  }

  // ----- Operands -----

  /** The two operand bytes as they stand behind the opcode, in a 16-bit program counter. */
  function Dest(s: Machine): byte {
    OperandAt(s, 1)
  }

  function Source(s: Machine): byte {
    OperandAt(s, 2)
  }

  /** The rounds that do not advance the program counter read past the end of the bank. */
  predicate OperandsAgree(s: Machine) {
    s.r.c == 0 || s.r.pc <= 0xfffd
    || (s.mem[Long(s.r.pc + 1 + 0x1_0000 * s.r.pbr)] == Dest(s) && s.mem[Long(s.r.pc + 2 + 0x1_0000 * s.r.pbr)] == Source(s))
  }

  /** A round uses the operand bytes of the instruction exactly when the instruction does not
      straddle the end of its bank, or when it is the last round, or when the bytes happen to agree. */
  lemma OperandsExact(s: Machine)
    ensures DestBank(s) == Dest(s) && SourceBank(s) == Source(s) <==> OperandsAgree(s)
  {
  }

  /** An instruction at 0xfffe whose second operand lies past the end of the bank: with bytes 0 at address
      0 and 5 at 0x10000 the first of two rounds copies from bank 5 instead of bank 0. */
  lemma BankEndExample()
    ensures exists s: Machine :: ModeOk(s.r) && s.r.c == 1 && s.r.pc == 0xfffe && !OperandsAgree(s)
              && Source(s) == 0 && MoveStep(true, s).mem[0x10] == 7 && s.mem[0] == 0
  {
    var zero: Ram24 := seq(0x100_0000, _ => 0);
    var mem: Ram24 := zero[0x1_0000 := 5][0x5_0000 := 7];
    var s := Machine(Regs(1, 0, 0x10, 0x1ff, 0, 0, 0, 0xfffe, false, P(false, false, false, false, false, false), false, false), mem);
    assert SourceBank(s) == 5 && DestBank(s) == 0 && Source(s) == 0;
    assert MoveStep(true, s).mem[0x10] == 7;
  }

  /** The opcode of MVN (`up`) or MVP is what the main loop fetches next. */
  predicate MoveAt(up: bool, s: Machine) {
    s.mem[s.r.pc + 0x1_0000 * s.r.pbr] == if up then 0x54 else 0x44
  }

  predicate IsInstructionAddress(s: Machine, a: nat) {
    a == s.r.pc + 0x1_0000 * s.r.pbr || a == U16(s.r.pc + 1) + 0x1_0000 * s.r.pbr || a == U16(s.r.pc + 2) + 0x1_0000 * s.r.pbr
    || a == Long(s.r.pc + 1 + 0x1_0000 * s.r.pbr) || a == Long(s.r.pc + 2 + 0x1_0000 * s.r.pbr)
  }

  /** Where round `k` of the sequential copy stores. */
  function Target(up: bool, s: Machine, k: nat): (a: nat)
    ensures a < 0x100_0000
  {
    Index(Index8(s.r), s.r.y, k, up) + 0x1_0000 * Dest(s)
  }

  /** The byte that round `k` of the sequential copy moves. */
  function Moving(up: bool, s: Machine, k: nat): byte {
    Copied(s.mem, Source(s), s.r.x, Dest(s), s.r.y, k, Index8(s.r), up)[Index(Index8(s.r), s.r.x, k, up) + 0x1_0000 * Source(s)]
  }

  /** Before its last round the move stores to a byte of its own instruction only what is there. */
  predicate Untouched(up: bool, s: Machine) {
    forall k :: 0 <= k < s.r.c ==> Spares(up, s, k)
  }

  predicate Spares(up: bool, s: Machine, k: nat) {
    IsInstructionAddress(s, Target(up, s, k)) ==> Moving(up, s, k) == s.mem[Target(up, s, k)]
  }

  /** The opcode and the operands, wherever a round fetches them, are as they were at the start. */
  predicate Intact(s: Machine, t: Machine) {
    forall a :: 0 <= a < 0x100_0000 && IsInstructionAddress(s, a) ==> t.mem[a] == s.mem[a]
  }

  /** A move that turns itself into a NOP: from 0x1000 the first of two rounds stores the NOP at 0x2000
      over the opcode, and the second round is not one of the move. */
  lemma SelfOverwriteExample(s: Machine)
    requires s.r == Regs(1, 0x2000, 0x1000, 0x1ff, 0, 0, 0, 0x1000, false, P(false, false, false, false, false, false), false, false)
    requires s.mem[0x1000] == 0x54 && s.mem[0x1001] == 0 && s.mem[0x1002] == 0 && s.mem[0x2000] == 0xea
    ensures ModeOk(s.r) && MoveAt(true, s) && OperandsAgree(s) && !Untouched(true, s)
    ensures ReactAll([NONE, NONE], s) != Rounds(true, s, 2)
  {
    hide React, ReactAll, ExecNop;
    assert Dest(s) == 0 && Source(s) == 0;
    assert Target(true, s, 0) == 0x1000 && Moving(true, s, 0) == 0xea;
    assert !Spares(true, s, 0);
    FirstOfTwo(s);
    hide MoveStep, Index, ModeOk, OperandsAgree, MoveAt, IsInstructionAddress, Untouched, Spares;
    var t := MoveStep(true, s);
    NextRound(true, s);
    NopAt(t);
    LastRoundC(t);
    TwoReactions(s);
    assert Rounds(true, s, 2) == Rounds(true, t, 1) == Rounds(true, MoveStep(true, t), 0);
  }

  lemma FirstOfTwo(s: Machine)
    requires s.r == Regs(1, 0x2000, 0x1000, 0x1ff, 0, 0, 0, 0x1000, false, P(false, false, false, false, false, false), false, false)
    requires s.mem[0x1001] == 0 && s.mem[0x1002] == 0 && s.mem[0x2000] == 0xea
    ensures var t := MoveStep(true, s); t.mem[t.r.pc + 0x1_0000 * t.r.pbr] == 0xea && t.r.c == 0
  {
    assert DestBank(s) == 0 && SourceBank(s) == 0;
  }

  lemma NopAt(t: Machine)
    requires t.mem[t.r.pc + 0x1_0000 * t.r.pbr] == 0xea
    ensures React(NONE, t).r.c == t.r.c
  {
    hide ModeOk, ExecuteRow0, ExecuteRow1, ExecuteRow2, ExecuteRow3, ExecuteRow4, ExecuteRow5, ExecuteRow6, ExecuteRow7,
      ExecuteRow8, ExecuteRow9, ExecuteRowA, ExecuteRowB, ExecuteRowC, ExecuteRowD, ExecuteRowF;
  }

  lemma LastRoundC(t: Machine)
    requires t.r.c == 0
    ensures MoveStep(true, t).r.c == 0xffff
  {
  }

  lemma TwoReactions(s: Machine)
    ensures ReactAll([NONE, NONE], s) == React(NONE, React(NONE, s))
  {
    hide React;
    assert [NONE, NONE][1..] == [NONE] && [NONE][1..] == [];
  }

  // ----- Index arithmetic -----

  lemma IndexShift(w8: bool, i: word, k: int, up: bool)
    ensures Index(w8, Index(w8, i, 1, up), k, up) == Index(w8, i, k + 1, up)
  {
    hide U8, U16;
    if up {
      U8Add(i + 1, k);
      U16Add(i + 1, k);
    } else {
      U8Add(i - 1, -k);
      U16Add(i - 1, -k);
    }
  }

  lemma IndexZero(w8: bool, i: word, up: bool)
    requires w8 ==> i < 0x100
    ensures Index(w8, i, 0, up) == i
  {
  }

  lemma IndexDistinct(w8: bool, i: word, j: int, k: int, up: bool)
    requires 0 <= j < k && k - j < (if w8 then 0x100 else 0x1_0000)
    ensures Index(w8, i, j, up) != Index(w8, i, k, up)
  {
    var a, b := i + (if up then j else -j), i + (if up then k else -k);
    if w8 {
      SameResidue(a, b, 0x100, k - j, up);
    } else {
      SameResidue(a, b, 0x1_0000, k - j, up);
    }
  }

  lemma SameResidue(a: int, b: int, m: int, gap: int, up: bool)
    requires m in {0x100, 0x1_0000} && 0 < gap < m && b == a + (if up then gap else -gap)
    ensures a % m != b % m
  {
    if m == 0x100 {
      assert a % 0x100 != b % 0x100;
    } else {
      assert a % 0x1_0000 != b % 0x1_0000;
    }
  }

  // ----- The theorem -----

  /** One round before the last, when it spares the instruction, leaves an equally good starting point with one
      byte less to go. */
  lemma OneRound(up: bool, s: Machine)
    requires ModeOk(s.r) && s.r.c > 0 && OperandsAgree(s)
    ensures var t := MoveStep(up, s);
            && t.r == s.r.(c := s.r.c - 1, x := Index(Index8(s.r), s.r.x, 1, up), y := Index(Index8(s.r), s.r.y, 1, up), dbr := Dest(s))
            && t.mem == s.mem[s.r.y + 0x1_0000 * Dest(s) := s.mem[s.r.x + 0x1_0000 * Source(s)]]
            && ModeOk(t.r) && (Intact(s, t) <==> Spares(up, s, 0))
            && (Intact(s, t) ==> OperandsAgree(t) && Dest(t) == Dest(s) && Source(t) == Source(s) && (MoveAt(up, s) ==> MoveAt(up, t)))
  {
    hide U8, U16, Long, Index, ModeOk, OperandsAgree;
    OperandsExact(s);
    var t, w8 := MoveStep(up, s), Index8(s.r);
    IndexMoved(s.r, up, Dest(s));
    ModeWidth(s.r);
    IndexZero(w8, s.r.y, up);
    IndexZero(w8, s.r.x, up);
    assert Target(up, s, 0) == s.r.y + 0x1_0000 * Dest(s) && Moving(up, s, 0) == s.mem[s.r.x + 0x1_0000 * Source(s)];
    hide MoveStep, IsInstructionAddress, Target, Moving;
    if Intact(s, t) {
      OperandsKept(up, s, t);
    }
  }

  /** The rest of the sequential copy is the sequential copy of the rest. */
  lemma RestOfCopy(up: bool, s: Machine, t: Machine, k: nat)
    requires t.r == s.r.(c := t.r.c, x := Index(Index8(s.r), s.r.x, 1, up), y := Index(Index8(s.r), s.r.y, 1, up), dbr := Dest(s))
    requires t.mem == s.mem[s.r.y + 0x1_0000 * Dest(s) := s.mem[s.r.x + 0x1_0000 * Source(s)]]
    requires Intact(s, t) && Dest(t) == Dest(s) && Source(t) == Source(s)
    ensures Target(up, t, k) == Target(up, s, k + 1) && Moving(up, t, k) == Moving(up, s, k + 1)
    ensures Spares(up, t, k) <==> Spares(up, s, k + 1)
  {
    hide U8, U16, Long, Index, OperandAt;
    IndexShift(Index8(s.r), s.r.x, k, up);
    IndexShift(Index8(s.r), s.r.y, k, up);
    SameAddresses(s, t, Target(up, t, k));
    hide IsInstructionAddress;
  }

  lemma SameAddresses(s: Machine, t: Machine, a: nat)
    requires t.r.pc == s.r.pc && t.r.pbr == s.r.pbr
    ensures IsInstructionAddress(t, a) <==> IsInstructionAddress(s, a)
  {
    hide U16, Long;
  }

  lemma UntouchedStep(up: bool, s: Machine)
    requires ModeOk(s.r) && s.r.c > 0 && OperandsAgree(s)
    ensures var t := MoveStep(up, s); Untouched(up, s) <==> Intact(s, t) && Untouched(up, t)
  {
    hide MoveStep, ModeOk, OperandsAgree, Spares, Intact, Index;
    OneRound(up, s);
    var t := MoveStep(up, s);
    if Intact(s, t) {
      forall k: nat | k < t.r.c
        ensures Spares(up, t, k) <==> Spares(up, s, k + 1)
      {
        RestOfCopy(up, s, t, k);
      }
      if Untouched(up, t) {
        forall k: nat | k < s.r.c
          ensures Spares(up, s, k)
        {
          assert k > 0 ==> Spares(up, t, k - 1);
        }
      }
    }
  }

  lemma IntactStep(s: Machine, t: Machine, u: Machine)
    requires t.r.pc == s.r.pc && t.r.pbr == s.r.pbr && Intact(s, t)
    ensures Intact(s, u) <==> Intact(t, u)
  {
    forall a: nat
      ensures IsInstructionAddress(t, a) <==> IsInstructionAddress(s, a)
    {
      SameAddresses(s, t, a);
    }
    hide IsInstructionAddress;
  }

  /** All rounds up to the last begin with the instruction as it was. */
  predicate AlwaysIntact(up: bool, s: Machine, n: nat) {
    forall k :: 0 <= k <= n ==> Intact(s, Rounds(up, s, k))
  }

  /** Every round finds opcode and operands unchanged exactly if what the sequential copy stores over them before
      the last round is what was there. */
  lemma {:induction false} IntactExactly(up: bool, s: Machine)
    requires ModeOk(s.r) && OperandsAgree(s)
    ensures Untouched(up, s) <==> AlwaysIntact(up, s, s.r.c)
    decreases s.r.c
  {
    hide MoveStep, ModeOk, OperandsAgree, Intact, Untouched, Index;
    if s.r.c == 0 {
      IntactSelf(s);
      NothingToSpare(up, s);
    } else {
      var t := MoveStep(up, s);
      OneRound(up, s);
      UntouchedStep(up, s);
      IntactSelf(s);
      assert Rounds(up, s, 1) == Rounds(up, t, 0) == t;
      if Intact(s, t) {
        IntactExactly(up, t);
        forall k: nat | k <= t.r.c
          ensures Intact(s, Rounds(up, s, k + 1)) <==> Intact(t, Rounds(up, t, k))
        {
          IntactStep(s, t, Rounds(up, t, k));
        }
        AlwaysStep(up, s, t);
      } else {
        assert !AlwaysIntact(up, s, s.r.c);
      }
    }
  }

  lemma AlwaysStep(up: bool, s: Machine, t: Machine)
    requires t.r.c + 1 == s.r.c && Intact(s, Rounds(up, s, 0))
    requires forall k: nat :: k <= t.r.c ==> (Intact(s, Rounds(up, s, k + 1)) <==> Intact(t, Rounds(up, t, k)))
    ensures AlwaysIntact(up, s, s.r.c) <==> AlwaysIntact(up, t, t.r.c)
  {
    hide Intact, Rounds;
    if AlwaysIntact(up, s, s.r.c) {
      forall k: nat | k <= t.r.c
        ensures Intact(t, Rounds(up, t, k))
      {
        assert Intact(s, Rounds(up, s, k + 1));
      }
    }
    if AlwaysIntact(up, t, t.r.c) {
      forall k: nat | k <= s.r.c
        ensures Intact(s, Rounds(up, s, k))
      {
        assert k > 0 ==> Intact(t, Rounds(up, t, k - 1));
      }
    }
  }

  lemma IntactSelf(s: Machine)
    ensures Intact(s, s)
  {
  }

  lemma NothingToSpare(up: bool, s: Machine)
    requires s.r.c == 0
    ensures Untouched(up, s)
  {
  }

  lemma ModeWidth(r: Regs)
    requires ModeOk(r)
    ensures Index8(r) ==> r.x < 0x100 && r.y < 0x100
  {
  }

  lemma IndexMoved(r: Regs, up: bool, d: byte)
    requires ModeOk(r)
    ensures Moved(r, r.x, up) == Index(Index8(r), r.x, 1, up) && Moved(r, r.y, up) == Index(Index8(r), r.y, 1, up)
    ensures ModeOk(r.(c := U16(r.c - 1), x := Moved(r, r.x, up), y := Moved(r, r.y, up), dbr := d))
    ensures r.c > 0 ==> U16(r.c - 1) == r.c - 1
  {
    hide U8, U16;
  }

  /** The bytes of the instruction survive a store elsewhere. */
  lemma OperandsKept(up: bool, s: Machine, t: Machine)
    requires t.r.pc == s.r.pc && t.r.pbr == s.r.pbr && t.r.c < s.r.c && OperandsAgree(s) && Intact(s, t)
    ensures OperandsAgree(t) && Dest(t) == Dest(s) && Source(t) == Source(s) && (MoveAt(up, s) ==> MoveAt(up, t))
  {
    hide Long, U16;
    var b := 0x1_0000 * s.r.pbr;
    assert IsInstructionAddress(s, s.r.pc + b);
    assert IsInstructionAddress(s, U16(s.r.pc + 1) + b) && IsInstructionAddress(s, U16(s.r.pc + 2) + b);
    assert IsInstructionAddress(s, Long(s.r.pc + 1 + b)) && IsInstructionAddress(s, Long(s.r.pc + 2 + b));
  }

  /** The last round: C wraps, and only now the program counter moves on. */
  lemma LastRound(up: bool, s: Machine)
    requires ModeOk(s.r) && s.r.c == 0
    ensures var t := MoveStep(up, s);
            && t.r == s.r.(c := 0xffff, x := Index(Index8(s.r), s.r.x, 1, up), y := Index(Index8(s.r), s.r.y, 1, up),
                           dbr := Dest(s), pc := U16(s.r.pc + 3))
            && t.mem == s.mem[s.r.y + 0x1_0000 * Dest(s) := s.mem[s.r.x + 0x1_0000 * Source(s)]]
  {
    hide U8, Index, Long;
    IndexMoved(s.r, up, Dest(s));
  }

  /** The main loop, with nothing pending. */
  function Quiet(k: nat): (q: seq<Signal>)
    ensures |q| == k
  {
    if k == 0 then [] else [NONE] + Quiet(k - 1)
  }

  /** Where the main loop finds the opcode, it does a round of the move. */
  lemma NextRound(up: bool, s: Machine)
    requires MoveAt(up, s)
    ensures React(NONE, s) == MoveStep(up, s)
  {
    hide MoveStep, ModeOk, ExecuteRow0, ExecuteRow1, ExecuteRow2, ExecuteRow3, ExecuteRow6, ExecuteRow7, ExecuteRow8, ExecuteRow9,
      ExecuteRowA, ExecuteRowB, ExecuteRowC, ExecuteRowD, ExecuteRowE, ExecuteRowF;
  }

  lemma QuietStep(k: nat, s: Machine)
    ensures ReactAll(Quiet(k + 1), s) == ReactAll(Quiet(k), React(NONE, s))
  {
    hide React;
    assert Quiet(k + 1)[1..] == Quiet(k);
  }

  /** From C = n the main loop runs the instruction n + 1 times, finding its opcode again each time, the program
      counter standing still until the last, and leaves C = 0xffff, the data bank at the destination, both index
      registers n + 1 further in their width, and memory as the sequential copy has it. */
  lemma {:induction false} BlockMoveTheorem(up: bool, s: Machine)
    requires ModeOk(s.r) && MoveAt(up, s) && OperandsAgree(s) && Untouched(up, s)
    ensures ReactAll(Quiet(s.r.c + 1), s) == Rounds(up, s, s.r.c + 1)
    ensures var n, w8, t := s.r.c, Index8(s.r), Rounds(up, s, s.r.c + 1);
            && t.r == s.r.(c := 0xffff, pc := U16(s.r.pc + 3), dbr := Dest(s),
                           x := Index(w8, s.r.x, n + 1, up), y := Index(w8, s.r.y, n + 1, up))
            && t.mem == Copied(s.mem, Source(s), s.r.x, Dest(s), s.r.y, n + 1, w8, up)
    ensures forall k :: 0 <= k <= s.r.c ==> Rounds(up, s, k).r.pc == s.r.pc && MoveAt(up, Rounds(up, s, k))
    decreases s.r.c
  {
    hide U16, Index, MoveStep, ModeOk, OperandsAgree, Untouched, OperandAt, MoveAt, React, ReactAll, Quiet, Intact;
    var t, w8 := MoveStep(up, s), Index8(s.r);
    NextRound(up, s);
    QuietStep(s.r.c, s);
    if s.r.c == 0 {
      LastRound(up, s);
      NoMore(t);
      assert Rounds(up, s, 1) == Rounds(up, t, 0) == t;
      assert Copied(t.mem, Source(s), t.r.x, Dest(s), t.r.y, 0, w8, up) == t.mem;
    } else {
      OneRound(up, s);
      UntouchedStep(up, s);
      BlockMoveTheorem(up, t);
      IndexShift(w8, s.r.x, s.r.c, up);
      IndexShift(w8, s.r.y, s.r.c, up);
      forall k | 0 <= k <= s.r.c
        ensures Rounds(up, s, k).r.pc == s.r.pc && MoveAt(up, Rounds(up, s, k))
      {
        if k > 0 {
          assert Rounds(up, s, k) == Rounds(up, t, k - 1);
        }
      }
    }
  }

  lemma NoMore(s: Machine)
    ensures ReactAll(Quiet(0), s) == s
  {
    hide React;
  }

  // ----- Disjoint ranges -----

  /** The `k`-th address of a range. */
  function At(w8: bool, i: word, bank: byte, k: int, up: bool): (a: nat)
    ensures a < 0x100_0000
  {
    Index(w8, i, k, up) + 0x1_0000 * bank
  }

  /** `a` is one of the first `n` addresses of a range. */
  predicate Within(a: int, w8: bool, i: word, bank: byte, n: nat, up: bool) {
    exists k :: 0 <= k < n && At(w8, i, bank, k, up) == a
  }

  /** No destination byte is read as a source byte, and the index does not come round. */
  predicate Disjoint(q: byte, x: word, d: byte, y: word, n: nat, w8: bool, up: bool) {
    n <= (if w8 then 0x100 else 0x1_0000) &&
    forall i :: 0 <= i < n ==> !Within(At(w8, x, q, i, up), w8, y, d, n, up)
  }

  /** The rest of a range is the range that starts one further. */
  lemma AtShift(w8: bool, i: word, bank: byte, k: int, up: bool)
    ensures At(w8, Index(w8, i, 1, up), bank, k, up) == At(w8, i, bank, k + 1, up)
  {
    IndexShift(w8, i, k, up);
  }

  lemma WithinShift(a: int, w8: bool, i: word, bank: byte, n: nat, up: bool)
    requires n > 0
    ensures Within(a, w8, i, bank, n, up) <==> a == At(w8, i, bank, 0, up) || Within(a, w8, Index(w8, i, 1, up), bank, n - 1, up)
  {
    hide At;
    forall k | 0 <= k < n - 1
      ensures At(w8, Index(w8, i, 1, up), bank, k, up) == At(w8, i, bank, k + 1, up)
    {
      AtShift(w8, i, bank, k, up);
    }
    if Within(a, w8, i, bank, n, up) {
      var k :| 0 <= k < n && At(w8, i, bank, k, up) == a;
      assert k > 0 ==> At(w8, Index(w8, i, 1, up), bank, k - 1, up) == a;
    }
  }

  /** Then the copy puts every source byte in its place and touches nothing else. */
  lemma {:induction false} DisjointCopy(mem: Ram24, q: byte, x: word, d: byte, y: word, n: nat, w8: bool, up: bool)
    requires (w8 ==> x < 0x100 && y < 0x100) && Disjoint(q, x, d, y, n, w8, up)
    ensures var r := Copied(mem, q, x, d, y, n, w8, up);
            && (forall i :: 0 <= i < n ==> r[At(w8, y, d, i, up)] == mem[At(w8, x, q, i, up)])
            && (forall a :: 0 <= a < 0x100_0000 && !Within(a, w8, y, d, n, up) ==> r[a] == mem[a])
    decreases n
  {
    hide Index, At, Within, Disjoint;
    if n == 0 {
      WithinNone(w8, y, d, up);
    } else {
      var x', y' := Index(w8, x, 1, up), Index(w8, y, 1, up);
      AtZero(w8, x, q, up);
      AtZero(w8, y, d, up);
      var mem' := mem[y + 0x1_0000 * d := mem[x + 0x1_0000 * q]];
      DisjointRest(q, x, d, y, n, w8, up);
      DisjointCopy(mem', q, x', d, y', n - 1, w8, up);
      var r := Copied(mem', q, x', d, y', n - 1, w8, up);
      assert r == Copied(mem, q, x, d, y, n, w8, up);
      hide Copied;
      forall i | 0 <= i < n
        ensures r[At(w8, y, d, i, up)] == mem[At(w8, x, q, i, up)]
      {
        if i > 0 {
          AtShift(w8, x, q, i - 1, up);
          AtShift(w8, y, d, i - 1, up);
          SourceKept(q, x, d, y, n, w8, up, i);
        }
      }
      forall a | 0 <= a < 0x100_0000 && !Within(a, w8, y, d, n, up)
        ensures r[a] == mem[a]
      {
        WithinShift(a, w8, y, d, n, up);
      }
    }
  }

  lemma WithinNone(w8: bool, i: word, bank: byte, up: bool)
    ensures forall a :: !Within(a, w8, i, bank, 0, up)
  {
  }

  lemma AtZero(w8: bool, i: word, bank: byte, up: bool)
    requires w8 ==> i < 0x100
    ensures At(w8, i, bank, 0, up) == i + 0x1_0000 * bank
  {
  }

  /** The first destination is not met again, neither as a source nor as a destination. */
  lemma SourceKept(q: byte, x: word, d: byte, y: word, n: nat, w8: bool, up: bool, i: nat)
    requires Disjoint(q, x, d, y, n, w8, up) && 0 < i < n
    ensures At(w8, x, q, i, up) != At(w8, y, d, 0, up)
  {
    hide Index;
    assert !Within(At(w8, x, q, i, up), w8, y, d, n, up);
  }

  lemma DisjointRest(q: byte, x: word, d: byte, y: word, n: nat, w8: bool, up: bool)
    requires n > 0 && Disjoint(q, x, d, y, n, w8, up)
    ensures var x', y' := Index(w8, x, 1, up), Index(w8, y, 1, up);
            && Disjoint(q, x', d, y', n - 1, w8, up) && (w8 ==> x' < 0x100 && y' < 0x100)
            && !Within(At(w8, y, d, 0, up), w8, y', d, n - 1, up)
  {
    hide At, Within;
    var x', y' := Index(w8, x, 1, up), Index(w8, y, 1, up);
    forall i | 0 <= i < n - 1
      ensures !Within(At(w8, x', q, i, up), w8, y', d, n - 1, up)
    {
      AtShift(w8, x, q, i, up);
      assert !Within(At(w8, x, q, i + 1, up), w8, y, d, n, up);
      WithinShift(At(w8, x, q, i + 1, up), w8, y, d, n, up);
    }
    FirstAlone(w8, y, d, n, up);
  }

  lemma FirstAlone(w8: bool, y: word, d: byte, n: nat, up: bool)
    requires 0 < n <= (if w8 then 0x100 else 0x1_0000)
    ensures !Within(At(w8, y, d, 0, up), w8, Index(w8, y, 1, up), d, n - 1, up)
  {
    hide Index;
    forall k | 0 <= k < n - 1
      ensures At(w8, Index(w8, y, 1, up), d, k, up) != At(w8, y, d, 0, up)
    {
      AtShift(w8, y, d, k, up);
      IndexDistinct(w8, y, 0, k + 1, up);
    }
  }

  // ----- The core -----

  /** The core's main loop from a move until C wraps, whatever C is at the start. */
  method RunBlockMove(core: Core, up: bool)
    requires core.Valid() && ModeOk(core.RegsView())
    requires MoveAt(up, core.View()) && OperandsAgree(core.View()) && Untouched(up, core.View())
    modifies core, core.mem
    ensures ModeOk(core.RegsView())
    ensures core.regC == 0xffff && core.regPc == U16(old(core.regPc) + 3) && core.regDbr == Dest(old(core.View()))
    ensures var s := old(core.View());
            && core.regX == Index(Index8(s.r), s.r.x, s.r.c + 1, up) && core.regY == Index(Index8(s.r), s.r.y, s.r.c + 1, up)
            && core.mem[..] == Copied(s.mem, Source(s), s.r.x, Dest(s), s.r.y, s.r.c + 1, Index8(s.r), up)
  {
    hide MoveStep, ModeOk, U16, Index, Copied, Dest, Source, React, Rounds, MoveAt, OperandsAgree, Untouched, ReactAll, Quiet;
    ghost var s := core.View();
    BlockMoveTheorem(up, s);
    OneStep(up, s, s);
    core.Step(NONE);
    while core.regC != 0xffff
      invariant ModeOk(core.RegsView()) && Remaining(up, core.View(), s)
      decreases if core.regC == 0xffff then 0 else core.regC + 1
    {
      OneStep(up, core.View(), s);
      core.Step(NONE);
    }
  }

  /** On the way from `s`: done when C has wrapped, and otherwise at a move that ends where `s` does. */
  predicate Remaining(up: bool, t: Machine, s: Machine) {
    var end := Rounds(up, s, s.r.c + 1);
    t == end || (t.r.c != 0xffff && ModeOk(t.r) && MoveAt(up, t) && OperandsAgree(t) && Untouched(up, t)
                 && Rounds(up, t, t.r.c + 1) == end)
  }

  lemma OneStep(up: bool, t: Machine, s: Machine)
    requires ModeOk(t.r) && MoveAt(up, t) && OperandsAgree(t) && Untouched(up, t)
    requires Rounds(up, t, t.r.c + 1) == Rounds(up, s, s.r.c + 1)
    ensures Remaining(up, React(NONE, t), s)
    ensures t.r.c != 0xffff ==> React(NONE, t).r.c < t.r.c || React(NONE, t).r.c == 0xffff
  {
    hide React, ModeOk, OperandsAgree, Untouched, Index, U16, Copied, MoveAt, Intact;
    NextRound(up, t);
    if t.r.c == 0 {
      LastRound(up, t);
      hide MoveStep;
      assert Rounds(up, t, 1) == Rounds(up, MoveStep(up, t), 0);
    } else {
      OneRound(up, t);
      UntouchedStep(up, t);
      hide MoveStep;
    }
  }
}
