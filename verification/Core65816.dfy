/** The 65816 core (vice/src/65816core.c), each opcode proved against its entry in the
    reference `Isa65816`.  Clock and dummy accesses are not part of this model. */
module Core65816 {
  import opened Bytes
  import opened Isa65816
  import Isa6510
  import CmosAlu

  class Core {
    var regC: word
    var regX: word
    var regY: word
    var regSp: word
    var regDpr: word
    var regPbr: byte
    var regDbr: byte
    var regPc: word
    var regEmul: bool
    var regP: P
    var flagN: byte
    var flagZ: byte
    const mem: array<byte>

    ghost predicate Valid() {
      mem.Length == 0x100_0000
    }

    ghost function RegsView(): Regs
      reads this
    {
      Regs(regC, regX, regY, regSp, regDpr, regPbr, regDbr, regPc, regEmul, regP, flagN >= 0x80, flagZ == 0)
    }

    ghost function View(): Machine
      requires Valid()
      reads this, mem
    {
      Machine(RegsView(), mem[..])
    }

    /** The registers as the main loop starts with them. */
    constructor (memory: array<byte>)
      requires memory.Length == 0x100_0000
      ensures Valid() && mem == memory && ModeOk(RegsView())
      ensures regEmul && regSp == 0x100
    {
      regC, regX, regY, regDpr, regPbr, regDbr, regPc, flagN, flagZ := 0, 0, 0, 0, 0, 0, 0, 0, 0;
      regSp, regEmul := 0x100, true;
      regP := P(false, false, false, false, false, false);
      mem := memory;
    }

    predicate M8()
      reads this
      ensures M8() == Memory8(RegsView())
    {
      regEmul || regP.m
    }

    predicate X8()
      reads this
      ensures X8() == Index8(RegsView())
    {
      regEmul || regP.x
    }

    // ----- Memory -----

    function LoadLong(a: int): (v: byte)
      requires Valid()
      reads this, mem
      ensures v == View().mem[Long(a)]
    {
      mem[Long(a)]
    }

    function LoadBank0(a: int): (v: byte)
      requires Valid()
      reads this, mem
      ensures v == Bank0(View().mem, a)
    {
      mem[U16(a)]
    }

    /** FETCH_PARAM: through LOAD_PBR, which adds the program bank to an address it does not cut. */
    function FetchParam(a: nat): byte
      requires Valid()
      reads this, mem
    {
      LoadLong(a + 0x1_0000 * regPbr)
    }

    method StoreLong(a: int, v: int)
      requires Valid()
      modifies mem
      ensures mem[..] == old(mem[..])[Long(a) := U8(v)]
    {
      mem[Long(a)] := U8(v);
    }

    method IncPc(n: int)
      requires Valid()
      modifies this`regPc
      ensures regPc == U16(old(regPc) + n)
    {
      regPc := U16(regPc + n);
    }

    /** The next instruction byte: INC_PC, then FETCH_PARAM. */
    method NextByte() returns (v: byte)
      requires Valid()
      modifies this`regPc
      ensures regPc == U16(old(regPc) + 1)
      ensures v == mem[U16(old(regPc) + 1) + 0x1_0000 * regPbr]
    {
      IncPc(1);
      v := FetchParam(regPc);
    }

    /** Two operand bytes; the program counter stays on the second. */
    method NextWord() returns (v: word)
      requires Valid()
      modifies this`regPc
      ensures regPc == U16(old(regPc) + 2) && v == OperandWord(old(View()))
    {
      hide U16, Long, Word;
      U16Add(regPc + 1, 1);
      var p1 := NextByte();
      var p2 := NextByte();
      v := Word(p1, p2);
    }

    // ----- Stack -----

    method Push(v: int)
      requires Valid()
      modifies this`regSp, mem
      ensures View() == Pushed(old(View()), U8(v))
    {
      StoreLong(regSp, v);
      if regEmul {
        regSp := 0x100 + U8(regSp - 1);
      } else {
        regSp := U16(regSp - 1);
      }
    }

    method Pull() returns (v: byte)
      requires Valid()
      modifies this`regSp
      ensures View() == Pulled(old(View())) && v == Top(old(View()))
    {
      if regEmul {
        regSp := 0x100 + U8(regSp + 1);
      } else {
        regSp := U16(regSp + 1);
      }
      v := LoadLong(regSp);
    }

    /** PUSH of a high byte and then of a low one. */
    method PushBytes(v: int)
      requires Valid()
      modifies this`regSp, mem
      ensures View() == PushedWord(old(View()), U16(v))
    {
      HiByte(v);
      HiLoOfU16(v);
      hide U8, U16, Lo, Hi, Pushed;
      Push(v / 0x100);
      Push(v);
    }

    method PullBytes() returns (v: word)
      requires Valid()
      modifies this`regSp
      ensures View() == PulledWord(old(View())) && v == TopWord(old(View()))
    {
      hide Popped, Word;
      var lo := Pull();
      var hi := Pull();
      v := Word(lo, hi);
    }

    static lemma HiByte(v: int)
      ensures U8(v / 0x100) == Hi(v) && U8(v) == Lo(v)
    {
    }

    // ----- Operands -----

    /** The addresses of the first and second byte of an operand; the program counter ends behind it. */
    method Address(mode: AddrMode) returns (ea: nat, next: nat)
      requires Valid()
      modifies this`regPc
      ensures Place(ea, next) == Effective(mode, old(View()))
      ensures regPc == U16(old(regPc) + ModeLength(mode))
    {
      hide U16, Effective, ModeLength;
      match mode
      case DIRECT_PAGE | DIRECT_PAGE_X | DIRECT_PAGE_Y | STACK_REL | STACK_REL_Y =>
        ea, next := PageAddress(mode);
      case INDIRECT | INDIRECT_X | INDIRECT_Y =>
        ea, next := PointerAddress(mode);
      case INDIRECT_LONG | INDIRECT_LONG_Y =>
        ea, next := LongPointerAddress(mode);
      case ABS | ABS_X | ABS_Y | ABS_LONG | ABS_LONG_X =>
        ea, next := AbsoluteAddress(mode);
    }

    /** Direct page and stack. */
    method PageAddress(mode: AddrMode) returns (ea: nat, next: nat)
      requires Valid() && (mode.DIRECT_PAGE? || mode.DIRECT_PAGE_X? || mode.DIRECT_PAGE_Y? || mode.STACK_REL? || mode.STACK_REL_Y?)
      modifies this`regPc
      ensures Place(ea, next) == Effective(mode, old(View()))
      ensures regPc == U16(old(regPc) + ModeLength(mode))
    {
      hide U8, U16, Long, Word, OperandWord, Bank0,
        Isa65816.DirectIndexed, Isa65816.DirectPointer, Isa65816.DirectPointerX, Isa65816.LongPointer;
      ghost var pc0: int := regPc;
      U16Add(pc0 + 1, 1);
      U16Add(pc0 + 2, 1);
      U16Add(pc0 + 3, 1);
      var dbank := 0x1_0000 * regDbr;
      var p1 := NextByte();
      match mode {
        case DIRECT_PAGE =>
          ea, next := U16(p1 + regDpr), U16(p1 + regDpr + 1);
        case DIRECT_PAGE_X =>
          ea := DirectIndexed(p1, regX);
          next := U16(ea + 1);
        case DIRECT_PAGE_Y =>
          ea := DirectIndexed(p1, regY);
          next := U16(ea + 1);
        case STACK_REL =>
          ea, next := U16(p1 + regSp), U16(p1 + regSp + 1);
        case STACK_REL_Y =>
          ea, next := Indexed(Word(LoadBank0(p1 + regSp), LoadBank0(p1 + regSp + 1)) + regY + dbank);
      }
      IncPc(1);
    }

    /** Through a pointer in the direct page, into the data bank. */
    method PointerAddress(mode: AddrMode) returns (ea: nat, next: nat)
      requires Valid() && (mode.INDIRECT? || mode.INDIRECT_X? || mode.INDIRECT_Y?)
      modifies this`regPc
      ensures Place(ea, next) == Effective(mode, old(View()))
      ensures regPc == U16(old(regPc) + ModeLength(mode))
    {
      hide U8, U16, Long, Word, OperandWord, Bank0, Word0,
        Isa65816.DirectIndexed, Isa65816.DirectPointer, Isa65816.DirectPointerX, Isa65816.LongPointer;
      U16Add(regPc + 1, 1);
      var dbank := 0x1_0000 * regDbr;
      var p1 := NextByte();
      match mode {
        case INDIRECT =>
          ea := DirectPointer(p1) + dbank;
          next := Long(ea + 1);
        case INDIRECT_X =>
          ea := DirectPointerX(p1) + dbank;
          next := Long(ea + 1);
        case INDIRECT_Y =>
          ea, next := Indexed(DirectPointer(p1) + regY + dbank);
      }
      IncPc(1);
    }

    /** Through a long pointer. */
    method LongPointerAddress(mode: AddrMode) returns (ea: nat, next: nat)
      requires Valid() && (mode.INDIRECT_LONG? || mode.INDIRECT_LONG_Y?)
      modifies this`regPc
      ensures Place(ea, next) == Effective(mode, old(View()))
      ensures regPc == U16(old(regPc) + ModeLength(mode))
    {
      hide U8, U16, Long, Word, OperandWord, Bank0, Word0,
        Isa65816.DirectIndexed, Isa65816.DirectPointer, Isa65816.DirectPointerX, Isa65816.LongPointer;
      U16Add(regPc + 1, 1);
      var p1 := NextByte();
      match mode {
        case INDIRECT_LONG =>
          ea := LongPointer(p1);
          next := Long(ea + 1);
        case INDIRECT_LONG_Y =>
          ea, next := Indexed(LongPointer(p1) + regY);
      }
      IncPc(1);
    }

    /** Absolute and long. */
    method AbsoluteAddress(mode: AddrMode) returns (ea: nat, next: nat)
      requires Valid() && (mode.ABS? || mode.ABS_X? || mode.ABS_Y? || mode.ABS_LONG? || mode.ABS_LONG_X?)
      modifies this`regPc
      ensures Place(ea, next) == Effective(mode, old(View()))
      ensures regPc == U16(old(regPc) + ModeLength(mode))
    {
      hide U8, U16, Long, Word, OperandWord, Bank0, Word0,
        Isa65816.DirectIndexed, Isa65816.DirectPointer, Isa65816.DirectPointerX, Isa65816.LongPointer;
      ghost var pc0: int := regPc;
      U16Add(pc0 + 1, 1);
      U16Add(pc0 + 2, 1);
      U16Add(pc0 + 3, 1);
      var dbank := 0x1_0000 * regDbr;
      var w := NextWord();
      match mode {
        case ABS =>
          ea := w + dbank;
          next := Long(ea + 1);
        case ABS_X =>
          ea, next := Indexed(w + regX + dbank);
        case ABS_Y =>
          ea, next := Indexed(w + regY + dbank);
        case ABS_LONG =>
          var p3: int := NextByte();
          ea := w + 0x1_0000 * p3;
          next := Long(ea + 1);
        case ABS_LONG_X =>
          var p3: int := NextByte();
          ea, next := Indexed(w + 0x1_0000 * p3 + regX);
      }
      IncPc(1);
    }

    /** An address with an index added, in 24 bits. */
    static method Indexed(a: nat) returns (ea: nat, next: nat)
      ensures Place(ea, next) == Anywhere(a)
    {
      ea := Long(a);
      next := Long(ea + 1);
    }

    /** $ff,r: in emulation mode with an aligned direct page the index wraps inside it. */
    function DirectIndexed(p1: byte, regR: word): (w: word)
      reads this
      ensures w == Isa65816.DirectIndexed(OldPage(RegsView()), regDpr, p1, regR)
    {
      hide U8, U16;
      if regEmul then
        if regDpr % 0x100 != 0 then U16(p1 + regR + regDpr) else U16(U8(p1 + regR) + regDpr)
      else
        U16(p1 + regDpr + regR)
    }

    /** ($ff): the pointer's second byte wraps in an aligned direct page of emulation mode. */
    function DirectPointer(p1: byte): (w: word)
      requires Valid()
      reads this, mem
      ensures w == Isa65816.DirectPointer(OldPage(RegsView()), View().mem, regDpr, p1)
    {
      hide U8, U16, Long, Word, Bank0;
      if !regEmul || regDpr % 0x100 != 0 || p1 != 0xff then Word(LoadBank0(p1 + regDpr), LoadBank0(p1 + regDpr + 1))
      else Word(LoadBank0(p1 + regDpr), LoadLong(regDpr))
    }

    /** ($ff,x). */
    function DirectPointerX(p1: byte): (w: word)
      requires Valid()
      reads this, mem
      ensures w == Isa65816.DirectPointerX(OldPage(RegsView()), View().mem, regDpr, p1, regX)
    {
      hide U8, U16, Long, Word, Bank0;
      if !regEmul || regDpr % 0x100 != 0 then Word(LoadBank0(p1 + regX + regDpr), LoadBank0(p1 + regX + regDpr + 1))
      else Word(LoadLong(U8(p1 + regX) + regDpr), LoadLong(U8(p1 + regX + 1) + regDpr))
    }

    /** [$ff]. */
    function LongPointer(p1: byte): (a: nat)
      requires Valid()
      reads this, mem
      ensures a == Isa65816.LongPointer(View().mem, regDpr, p1) && a < 0x100_0000
    {
      hide U8, U16, Long, Word, Bank0;
      var bank: int := LoadBank0(p1 + regDpr + 2);
      Word(LoadBank0(p1 + regDpr), LoadBank0(p1 + regDpr + 1)) + 0x1_0000 * bank
    }

    method Load(source: Source, bits8: bool) returns (v: word)
      requires Valid()
      modifies this`regPc
      ensures v == Operand(source, bits8, old(View())) && regPc == U16(old(regPc) + Length(source, bits8))
    {
      hide U16, Effective, Word;
      match source
      case IMMEDIATE =>
        U16Add(regPc + 1, 1);
        U16Add(regPc + 2, 1);
        if bits8 {
          v := NextByte();
        } else {
          v := NextWord();
        }
        IncPc(1);
      case MEMORY(mode) =>
        var ea, next := Address(mode);
        v := LoadLong(ea);
        if !bits8 {
          v := Word(v, LoadLong(next));
        }
    }

    method StoreTo(mode: AddrMode, v: word, bits8: bool)
      requires Valid()
      modifies this`regPc, mem
      ensures View() == ExecStore(v, bits8, mode, old(View()))
    {
      HiByte(v);
      hide U8, U16, Effective, Lo, Hi;
      var ea, next := Address(mode);
      StoreLong(ea, v);
      if !bits8 {
        StoreLong(next, v / 0x100);
      }
    }

    /** The load half of a read-modify-write opcode; emulation mode writes the old value back. */
    method LoadForWrite(target: Target, bits8: bool) returns (v: word, ea: nat, next: nat)
      requires Valid()
      modifies this`regPc, mem
      ensures v == Before(target, bits8, old(View()))
      ensures target.PLACE? ==> Place(ea, next) == Effective(target.mode, old(View()))
      ensures regPc == U16(old(regPc) + if target.ACCU? then 1 else ModeLength(target.mode)) && mem[..] == old(mem[..])
    {
      hide U8, U16, Effective, Word, Lo;
      ea, next := 0, 0;
      match target
      case ACCU =>
        IncPc(1);
        v := if bits8 then Lo(regC) else regC;
      case PLACE(mode) =>
        ea, next := Address(mode);
        v := LoadLong(ea);
        if regEmul {
          StoreLong(ea, v);
          SmallByte(v);
        }
        if !bits8 {
          v := Word(v, LoadLong(next));
        }
    }

    static lemma SmallByte(v: byte)
      ensures U8(v) == v
    {
    }

    /** The store half.  `s` is the machine before the load half. */
    method StoreBack(target: Target, v: int, ea: nat, next: nat, bits8: bool, ghost s: Machine)
      requires Valid() && (target.PLACE? ==> Place(ea, next) == Effective(target.mode, s))
      requires mem[..] == s.mem && regC == s.r.c
      modifies this`regC, mem
      ensures var t := After(target, U16(v), bits8, s); regC == t.r.c && mem[..] == t.mem
    {
      HiByte(v);
      HiLoOfU16(v);
      hide Effective, U8, U16, Word, Lo, Hi;
      match target
      case ACCU =>
        regC := if bits8 then Word(U8(v), Hi(regC)) else U16(v);
      case PLACE(_) =>
        if !bits8 {
          StoreLong(next, v / 0x100);
        }
        StoreLong(ea, v);
    }

    // ----- Flags and accumulator -----

    /** LOCAL_SET_NZ. */
    method SetNz(v: int, bits8: bool)
      modifies this`flagN, this`flagZ
      ensures RegsView() == Isa65816.SetNz(old(RegsView()), if bits8 then U8(v) else U16(v), bits8)
    {
      if bits8 {
        flagN, flagZ := U8(v), U8(v);
      } else {
        flagN := Hi(v);
        flagZ := Or(Lo(v), flagN);
        OrIsZero(Lo(v), Hi(v));
        LoHiZero(v);
      }
    }

    static lemma OrIsZero(a: byte, b: byte)
      ensures Or(a, b) == 0 <==> a == 0 && b == 0
    {
      if a != 0 || b != 0 {
        assert ((a as bv8) | (b as bv8)) != 0;
      }
    }

    static lemma LoHiZero(v: int)
      ensures U16(v) == 0 <==> Lo(v) == 0 && Hi(v) == 0
      ensures U16(v) >= 0x8000 <==> Hi(v) >= 0x80
    {
      HiLoOfU16(v);
      var w := U16(v);
      assert w == Lo(w) + 0x100 * Hi(w);
    }

    /** A result into the accumulator, by its width, with N and Z. */
    method SetAccu(v: word, bits8: bool)
      requires bits8 ==> v < 0x100
      modifies this`regC, this`flagN, this`flagZ
      ensures RegsView() == SetA(old(RegsView()), v, bits8)
    {
      hide Hi, Word;
      regC := if bits8 then Word(v, Hi(regC)) else v;
      SetNz(v, bits8);
    }

    // ----- Opcodes: accumulator and memory -----

    method LdaOp(source: Source)
      requires Valid()
      modifies this`regC, this`regPc, this`flagN, this`flagZ
      ensures View() == ExecLda(source, old(View()))
    {
      hide Operand, Length, SetA, U16;
      var bits8 := M8();
      var v := Load(source, bits8);
      SetAccu(v, bits8);
    }

    /** AND, EOR and ORA, byte by byte. */
    method LogicalOp(op: (byte, byte) -> byte, source: Source)
      requires Valid()
      modifies this`regC, this`regPc, this`flagN, this`flagZ
      ensures View() == ExecLogical(op, source, old(View()))
    {
      var bits8 := M8();
      var v := Load(source, bits8);
      if bits8 {
        LowIsAll(v);
      }
      hide Operand, Length, SetA, U16, Word, Lo, Hi;
      if bits8 {
        SetAccu(op(Lo(regC), v), true);
      } else {
        SetAccu(Word(op(Lo(regC), Lo(v)), op(Hi(regC), Hi(v))), false);
      }
    }

    static lemma LowIsAll(v: word)
      requires v < 0x100
      ensures Lo(v) == v && U8(v) == v
    {
    }

    method AdcOp(source: Source)
      requires Valid()
      modifies this`regC, this`regPc, this`regP, this`flagN, this`flagZ
      ensures View() == ExecAdc(source, old(View()))
    {
      hide Operand, Length, SetA, U16, Lo, Isa6510.Adc, CmosAlu.Cmos, CmosAlu.WideAdc;
      var bits8 := M8();
      var v := Load(source, bits8);
      if bits8 {
        var s := CmosAlu.Adc65816(regP.d, Lo(regC), v, regP.c);
        regP := regP.(v := s.v, c := s.c);
        SetAccu(s.r, true);
      } else {
        var s := CmosAlu.Adc65816Wide(regP.d, regC, v, regP.c);
        regP := regP.(v := s.v, c := s.c);
        SetAccu(s.r, false);
      }
    }

    method SbcOp(source: Source)
      requires Valid()
      modifies this`regC, this`regPc, this`regP, this`flagN, this`flagZ
      ensures View() == ExecSbc(source, old(View()))
    {
      hide Operand, Length, SetA, U16, Lo, Isa6510.Sbc, CmosAlu.Cmos, CmosAlu.WideSbc;
      var bits8 := M8();
      var v := Load(source, bits8);
      if bits8 {
        var s := CmosAlu.Sbc65816(regP.d, Lo(regC), v, regP.c);
        regP := regP.(v := s.v, c := s.c);
        SetAccu(s.r, true);
      } else {
        var s := CmosAlu.Sbc65816Wide(regP.d, regC, v, regP.c);
        regP := regP.(v := s.v, c := s.c);
        SetAccu(s.r, false);
      }
    }

    /** CMP, CPX and CPY. */
    method CompareOp(reg: word, source: Source, bits8: bool)
      requires Valid() && (bits8 ==> reg < 0x100)
      modifies this`regPc, this`regP, this`flagN, this`flagZ
      ensures View() == ExecCompare(reg, bits8, source, old(View()))
    {
      hide Operand, Length;
      var value := Load(source, bits8);
      var tmp := U32(reg - value);
      Borrow(reg, value);
      hide U8, U16, U32;
      regP := regP.(c := tmp < (if bits8 then 0x100 else 0x1_0000));
      SetNz(tmp, bits8);
    }

    /** A 32-bit difference by its low bytes. */
    static lemma Borrow(a: word, b: word)
      ensures var t := U32(a - b);
              && U16(t) == U16(a - b) && U8(t) == U8(a - b) && (t < 0x1_0000 <==> a >= b)
              && (a < 0x100 && b < 0x100 ==> (t < 0x100 <==> a >= b))
    {
      var d := a - b;
      assert d == 0x1_0000_0000 * (d / 0x1_0000_0000) + U32(d);
    }

    /** LOCAL_SET_ZERO by the bits in common with the accumulator. */
    method SetZeroByAnd(v: word, bits8: bool)
      modifies this`flagZ
      ensures flagZ == 0 <==> Misses(regC, v, bits8)
    {
      hide And, Lo, Hi;
      flagZ := if And(Lo(v), Lo(regC)) == 0 && (bits8 || And(Hi(v), Hi(regC)) == 0) then 0 else 1;
    }

    method BitImmOp()
      requires Valid()
      modifies this`regPc, this`flagZ
      ensures View() == ExecBitImm(old(View()))
    {
      hide Operand, Length, U16, Misses;
      var bits8 := M8();
      var v := Load(IMMEDIATE, bits8);
      SetZeroByAnd(v, bits8);
    }

    method BitOp(mode: AddrMode)
      requires Valid()
      modifies this`regPc, this`regP, this`flagN, this`flagZ
      ensures View() == ExecBit(mode, old(View()))
    {
      hide Operand, U16, BitTested, ModeLength;
      var bits8 := M8();
      var v := Load(MEMORY(mode), bits8);
      BitFlags(v, bits8);
    }

    method BitFlags(v: word, bits8: bool)
      requires bits8 ==> v < 0x100
      modifies this`regP, this`flagN, this`flagZ
      ensures RegsView() == BitTested(old(RegsView()), v, bits8)
    {
      hide Hi, Misses, Bit6, Bit7;
      var top := if bits8 then v else Hi(v);
      flagN := if Bit7(top) then 0x80 else 0;
      regP := regP.(v := Bit6(top));
      SetZeroByAnd(v, bits8);
    }

    /** What a read-modify-write opcode leaves once its result is back. */
    static lemma PutBack(target: Target, v: int, bits8: bool, s: Machine)
      ensures var w := if bits8 then U8(v) else U16(v);
              var t, u := After(target, U16(v), bits8, s), After(target, w, bits8, s);
              t == u && t.r == s.r.(pc := t.r.pc, c := t.r.c)
      ensures After(target, U16(v), bits8, s).r.pc == U16(s.r.pc + if target.ACCU? then 1 else ModeLength(target.mode))
    {
      HiLoOfU16(v);
      HiByte(v);
      if bits8 {
        LowIsAll(U8(v));
      }
      hide Effective, U8, U16, Lo, Hi, Word, ModeLength;
    }

    /** N and Z by the result, and the result back to where the operand came from. */
    method Finish(target: Target, tmp: nat, ea: nat, next: nat, bits8: bool, ghost s: Machine)
      requires Valid() && (target.PLACE? ==> Place(ea, next) == Effective(target.mode, s))
      requires RegsView() == s.r.(p := regP, pc := U16(s.r.pc + if target.ACCU? then 1 else ModeLength(target.mode)))
      requires mem[..] == s.mem
      modifies this`regC, this`flagN, this`flagZ, mem
      ensures var q := Modified(target, if bits8 then U8(tmp) else U16(tmp), bits8, s);
              View() == q.(r := q.r.(p := regP))
    {
      hide After, Effective, U8, U16, ModeLength;
      PutBack(target, tmp, bits8, s);
      SetNz(tmp, bits8);
      StoreBack(target, tmp, ea, next, bits8, s);
    }

    /** ASL (`rotate` false) and ROL. */
    method ShiftLeftOp(target: Target, rotate: bool)
      requires Valid()
      modifies this`regC, this`regPc, this`regP, this`flagN, this`flagZ, mem
      ensures View() == ExecShiftLeft(target, rotate, old(View()))
    {
      hide Before, Modified, Effective, U8, U16, ModeLength;
      ghost var s := View();
      var bits8 := M8();
      var v, ea, next := LoadForWrite(target, bits8);
      var tmp := ShiftedLeft(v, rotate, bits8);
      Finish(target, tmp, ea, next, bits8, s);
    }

    method ShiftedLeft(v: word, rotate: bool, bits8: bool) returns (tmp: nat)
      requires bits8 ==> v < 0x100
      modifies this`regP
      ensures tmp == 2 * v + Isa6510.Bit(rotate && old(regP).c)
      ensures regP == old(regP).(c := if bits8 then v >= 0x80 else v >= 0x8000)
    {
      var w: int := v;
      tmp := 2 * w + (if rotate && regP.c then 1 else 0);
      regP := regP.(c := tmp >= if bits8 then 0x100 else 0x1_0000);
    }

    /** LSR (`rotate` false) and ROR. */
    method ShiftRightOp(target: Target, rotate: bool)
      requires Valid()
      modifies this`regC, this`regPc, this`regP, this`flagN, this`flagZ, mem
      ensures View() == ExecShiftRight(target, rotate, old(View()))
    {
      hide Before, Modified, Effective, U8, U16, ModeLength;
      ghost var s := View();
      var bits8 := M8();
      var v, ea, next := LoadForWrite(target, bits8);
      var tmp := RotatedRight(v, rotate, bits8);
      Finish(target, tmp, ea, next, bits8, s);
    }

    method RotatedRight(v: word, rotate: bool, bits8: bool) returns (tmp: word)
      requires bits8 ==> v < 0x100
      modifies this`regP
      ensures tmp == v / 2 + Isa6510.Bit(rotate && old(regP).c) * (if bits8 then 0x80 else 0x8000)
      ensures tmp == (if bits8 then U8(tmp) else U16(tmp)) && regP == old(regP).(c := v % 2 == 1)
    {
      hide U8, U16;
      ShiftedRight(v, rotate && regP.c, bits8);
      var w := (v as int) + (if rotate && regP.c then (if bits8 then 0x100 else 0x1_0000) else 0);
      regP := regP.(c := w % 2 == 1);
      tmp := w / 2;
    }

    static lemma ShiftedRight(w: word, c: bool, bits8: bool)
      requires bits8 ==> w < 0x100
      ensures var t := w + if c then (if bits8 then 0x100 else 0x1_0000) else 0;
              && t / 2 == w / 2 + Isa6510.Bit(c) * (if bits8 then 0x80 else 0x8000) && t % 2 == w % 2
              && t / 2 == if bits8 then U8(t / 2) else U16(t / 2)
    {
    }

    /** INC and DEC. */
    method CountOp(target: Target, delta: int)
      requires Valid() && delta in {1, -1}
      modifies this`regC, this`regPc, this`flagN, this`flagZ, mem
      ensures View() == ExecCount(target, delta, old(View()))
    {
      hide Before, Modified, Effective, U8, U16, U32, ModeLength;
      ghost var s := View();
      var bits8 := M8();
      var v, ea, next := LoadForWrite(target, bits8);
      var tmp := U32(v + delta);
      LowOfU32(v + delta);
      Finish(target, tmp, ea, next, bits8, s);
    }

    static lemma LowOfU32(v: int)
      ensures U16(U32(v)) == U16(v) && U8(U32(v)) == U8(v)
    {
      assert v == 0x1_0000_0000 * (v / 0x1_0000_0000) + U32(v);
    }

    /** TSB and TRB. */
    method TestAndSetOp(target: Target, setting: bool)
      requires Valid()
      modifies this`regC, this`regPc, this`flagZ, mem
      ensures View() == ExecTestAndSet(target, setting, old(View()))
    {
      hide Before, After, Effective, U8, Lo, Hi, And, Or, ModeLength, Word, Misses;
      ghost var s := View();
      var bits8 := M8();
      var v, ea, next := LoadForWrite(target, bits8);
      SetZeroByAnd(v, bits8);
      var lo := if setting then Or(Lo(v), Lo(regC)) else And(Lo(v), 0xff - Lo(regC));
      var hi := if setting then Or(Hi(v), Hi(regC)) else And(Hi(v), 0xff - Hi(regC));
      var w: word := if bits8 then lo else Word(lo, hi);
      PutBack(target, w, bits8, s);
      StoreBack(target, w, ea, next, bits8, s);
    }

    // ----- Opcodes: index registers and transfers -----

    method LdxOp(source: Source)
      requires Valid()
      modifies this`regX, this`regPc, this`flagN, this`flagZ
      ensures View() == ExecLdx(source, old(View()))
    {
      SmallValue(Operand(source, X8(), View()), X8());
      hide Operand, Length, U8, U16;
      regX := Load(source, X8());
      SetNz(regX, X8());
    }

    method LdyOp(source: Source)
      requires Valid()
      modifies this`regY, this`regPc, this`flagN, this`flagZ
      ensures View() == ExecLdy(source, old(View()))
    {
      SmallValue(Operand(source, X8(), View()), X8());
      hide Operand, Length, U8, U16;
      regY := Load(source, X8());
      SetNz(regY, X8());
    }

    static lemma SmallValue(v: word, bits8: bool)
      requires bits8 ==> v < 0x100
      ensures v == if bits8 then U8(v) else U16(v)
    {
    }

    /** INX and DEX. */
    method CountX(delta: int)
      requires Valid()
      modifies this`regX, this`regPc, this`flagN, this`flagZ
      ensures View() == ExecToX(old(regX) + delta, old(View()))
    {
      CutTwice(regX + delta);
      hide U8, U16;
      IncPc(1);
      regX := U16(regX + delta);
      if X8() {
        regX := U8(regX);
      }
      SetNz(regX, X8());
    }

    method CountY(delta: int)
      requires Valid()
      modifies this`regY, this`regPc, this`flagN, this`flagZ
      ensures View() == ExecToY(old(regY) + delta, old(View()))
    {
      CutTwice(regY + delta);
      hide U8, U16;
      IncPc(1);
      regY := U16(regY + delta);
      if X8() {
        regY := U8(regY);
      }
      SetNz(regY, X8());
    }

    static lemma CutTwice(v: int)
      ensures U8(U16(v)) == U8(v) && U8(U8(v)) == U8(v) && U16(U16(v)) == U16(v)
    {
      assert v == 0x1_0000 * (v / 0x1_0000) + U16(v);
    }

    /** TAX and TSX. */
    method TransferToX(v: word)
      requires Valid()
      modifies this`regX, this`regPc, this`flagN, this`flagZ
      ensures View() == ExecToX(v, old(View()))
    {
      CutTwice(v);
      SmallValue(v, false);
      hide U8, U16;
      IncPc(1);
      regX := v;
      if X8() {
        regX := U8(regX);
      }
      SetNz(regX, X8());
    }

    /** TAY. */
    method TransferToY(v: word)
      requires Valid()
      modifies this`regY, this`regPc, this`flagN, this`flagZ
      ensures View() == ExecToY(v, old(View()))
    {
      CutTwice(v);
      SmallValue(v, false);
      hide U8, U16;
      IncPc(1);
      regY := v;
      if X8() {
        regY := U8(regY);
      }
      SetNz(regY, X8());
    }

    /** TXA and TYA. */
    method TransferToA(v: word)
      requires Valid()
      modifies this`regC, this`regPc, this`flagN, this`flagZ
      ensures View() == ExecToA(v, old(View()))
    {
      hide SetA, U8, U16;
      IncPc(1);
      SetAccu(if M8() then U8(v) else v, M8());
    }

    method Txy()
      requires Valid() && ModeOk(RegsView())
      modifies this`regY, this`regPc, this`flagN, this`flagZ
      ensures View() == ExecToY(old(regX), old(View()))
    {
      SmallValue(regX, X8());
      SmallValue(regX, false);
      hide U8, U16;
      IncPc(1);
      regY := regX;
      SetNz(regY, X8());
    }

    method Tyx()
      requires Valid() && ModeOk(RegsView())
      modifies this`regX, this`regPc, this`flagN, this`flagZ
      ensures View() == ExecToX(old(regY), old(View()))
    {
      SmallValue(regY, X8());
      SmallValue(regY, false);
      hide U8, U16;
      IncPc(1);
      regX := regY;
      SetNz(regX, X8());
    }

    /** TDC and TSC. */
    method TransferToC(v: word)
      requires Valid()
      modifies this`regC, this`regPc, this`flagN, this`flagZ
      ensures View() == ExecToC(v, old(View()))
    {
      SmallValue(v, false);
      hide U16;
      IncPc(1);
      regC := v;
      SetNz(regC, false);
    }

    method Tcd()
      requires Valid()
      modifies this`regDpr, this`regPc, this`flagN, this`flagZ
      ensures View() == ExecTcd(old(View()))
    {
      SmallValue(regC, false);
      hide U16;
      IncPc(1);
      regDpr := regC;
      SetNz(regDpr, false);
    }

    method Tcs()
      requires Valid()
      modifies this`regSp, this`regPc
      ensures View() == ExecToSp(old(regC), old(View()))
    {
      hide U16;
      IncPc(1);
      regSp := if regEmul then 0x100 + Lo(regC) else regC;
    }

    /** TXS ors X into page one: right only because X is eight bits wide in emulation mode. */
    method Txs()
      requires Valid() && ModeOk(RegsView())
      modifies this`regSp, this`regPc
      ensures View() == ExecToSp(old(regX), old(View()))
    {
      hide U16;
      IncPc(1);
      regSp := if regEmul then 0x100 + regX else regX;
    }

    method Xba()
      requires Valid()
      modifies this`regC, this`regPc
      ensures View() == ExecXba(old(View()))
    {
      hide U16, Lo, Hi, Word;
      IncPc(1);
      regC := Word(Hi(regC), Lo(regC));
    }

    // ----- Opcodes: flags and modes -----

    /** CLC, SEC, CLI, SEI, CLV, CLD and SED. */
    method FlagOp(p: P)
      requires Valid() && p.x == regP.x
      modifies this`regP, this`regPc
      ensures View() == ExecFlag(p, old(View()))
    {
      hide U16;
      IncPc(1);
      regP := p;
    }

    /** REP (`v` false) and SEP: M and X only in native mode, and a set X cuts the index registers. */
    method RepSep(v: bool)
      requires Valid()
      modifies this`regP, this`regX, this`regY, this`regPc, this`flagN, this`flagZ
      ensures View() == ExecRepSep(v, old(View()))
    {
      hide U16, UnderMask;
      U16Add(regPc + 1, 1);
      var value := NextByte();
      IncPc(1);
      ApplyMask(value, v);
    }

    method ApplyMask(value: byte, v: bool)
      modifies this`regP, this`regX, this`regY, this`flagN, this`flagZ
      ensures RegsView() == UnderMask(value, v, old(RegsView()))
    {
      hide MaskBit, MaskedP, Masked, Cut;
      NzUnderMask(value, v);
      CutIndices(v && !regEmul && MaskBit(value, 4));
      regP := StatusUnderMask(value, v, !regEmul, regP);
    }

    method NzUnderMask(value: byte, v: bool)
      modifies this`flagN, this`flagZ
      ensures var r := old(RegsView());
              RegsView() == r.(n := Masked(MaskBit(value, 7), v, r.n), z := Masked(MaskBit(value, 1), v, r.z))
    {
      hide MaskBit;
      if MaskBit(value, 7) {
        flagN := if v then 0x80 else 0;
      }
      if MaskBit(value, 1) {
        flagZ := if v then 0 else 1;
      }
    }

    method CutIndices(on: bool)
      modifies this`regX, this`regY
      ensures regX == Cut(old(regX), on) && regY == Cut(old(regY), on)
    {
      if on {
        regX := U8(regX);
        regY := U8(regY);
      }
    }

    /** The bits of `reg_p`. */
    static method StatusUnderMask(value: byte, v: bool, wide: bool, p0: P) returns (p: P)
      ensures p == MaskedP(value, v, wide, p0)
    {
      hide MaskBit;
      var overflow := Under(MaskBit(value, 6), v, p0.v);
      var m := Under(MaskBit(value, 5) && wide, v, p0.m);
      var x := Under(MaskBit(value, 4) && wide, v, p0.x);
      var d := Under(MaskBit(value, 3), v, p0.d);
      var i := Under(MaskBit(value, 2), v, p0.i);
      var c := Under(MaskBit(value, 0), v, p0.c);
      hide Masked;
      p := P(overflow, m, x, d, i, c);
    }

    static method Under(on: bool, v: bool, kept: bool) returns (b: bool)
      ensures b == Masked(on, v, kept)
    {
      b := kept;
      if on {
        b := v;
      }
    }

    /** XCE: the carry and the mode change places. */
    method Xce()
      requires Valid()
      modifies this`regEmul, this`regP, this`regX, this`regY, this`regSp, this`regPc
      ensures View() == ExecXce(old(View()))
    {
      hide U16, Lo;
      IncPc(1);
      if regP.c != regEmul {
        if regP.c {
          regEmul := true;
          regP := regP.(c := false, x := false);
          regX := Lo(regX);
          regY := Lo(regY);
          regSp := 0x100 + Lo(regSp);
        } else {
          regEmul := false;
          regP := regP.(c := true, m := true, x := true);
        }
      }
    }

    /** LOCAL_SET_STATUS and the cut that PLP and RTI make after it. */
    method SetStatus(s: byte)
      requires Valid()
      modifies this`regP, this`regX, this`regY, this`flagN, this`flagZ
      ensures RegsView() == WithStatus(old(RegsView()), s)
    {
      hide U8, StatusP;
      regP := StatusP(s);
      flagZ := if (s / 2) % 2 == 1 then 0 else 1;
      flagN := s;
      if X8() {
        regX := U8(regX);
        regY := U8(regY);
      }
    }

    /** LOCAL_STATUS in emulation mode, LOCAL_65816_STATUS otherwise. */
    function Status(): byte
      reads this
      ensures Status() == StatusByte(RegsView())
    {
      PValue(regP) + (if regEmul || regP.m then 0x20 else 0) + (if flagN >= 0x80 then 0x80 else 0) + (if flagZ == 0 then 2 else 0)
    }

    // ----- Opcodes: stack -----

    /** STORE_STACK: a register of either width. */
    method PushValue(v: word, bits8: bool)
      requires Valid()
      modifies this`regSp, this`regPc, mem
      ensures View() == ExecPush(v, bits8, old(View()))
    {
      HiByte(v);
      SmallValue(v, false);
      hide U8, U16, Lo, Hi, PushedWord;
      IncPc(1);
      if bits8 {
        Push(v);
      } else {
        PushBytes(v);
      }
    }

    /** LOAD_STACK. */
    method PullOperand(bits8: bool) returns (v: word)
      requires Valid()
      modifies this`regSp, this`regPc
      ensures View() == AfterPull(bits8, old(View())) && v == PullValue(bits8, old(View()))
    {
      hide U8, U16, Word;
      IncPc(1);
      if bits8 {
        v := Pull();
      } else {
        v := PullBytes();
      }
    }

    method PlaOp()
      requires Valid()
      modifies this`regC, this`regSp, this`regPc, this`flagN, this`flagZ
      ensures View() == ExecPla(old(View()))
    {
      hide U8, U16, SetA, Popped, PullValue;
      var v := PullOperand(M8());
      SetAccu(v, M8());
    }

    method PlbOp()
      requires Valid()
      modifies this`regDbr, this`regSp, this`regPc, this`flagN, this`flagZ
      ensures View() == ExecPlb(old(View()))
    {
      SmallByte(Top(View()));
      hide U8, U16, Popped;
      regDbr := PullOperand(true);
      SetNz(regDbr, true);
    }

    method PlxOp()
      requires Valid()
      modifies this`regX, this`regSp, this`regPc, this`flagN, this`flagZ
      ensures View() == ExecPlx(old(View()))
    {
      SmallValue(PullValue(X8(), View()), X8());
      hide U8, U16, Popped, PullValue;
      regX := PullOperand(X8());
      SetNz(regX, X8());
    }

    method PlyOp()
      requires Valid()
      modifies this`regY, this`regSp, this`regPc, this`flagN, this`flagZ
      ensures View() == ExecPly(old(View()))
    {
      SmallValue(PullValue(X8(), View()), X8());
      hide U8, U16, Popped, PullValue;
      regY := PullOperand(X8());
      SetNz(regY, X8());
    }

    method PlpOp()
      requires Valid()
      modifies this`regP, this`regX, this`regY, this`regSp, this`regPc, this`flagN, this`flagZ
      ensures View() == ExecPlp(old(View()))
    {
      hide U8, U16, Popped, WithStatus;
      var s := PullOperand(true);
      SetStatus(s);
    }

    method PhpOp()
      requires Valid()
      modifies this`regSp, this`regPc, mem
      ensures View() == ExecPhp(old(View()))
    {
      hide ExecPush, StatusByte, Or;
      var s := Status();
      if regEmul {
        s := Or(s, 0x10);
      }
      PushValue(s, true);
    }

    /** The first byte goes out without the wrap of emulation mode, so the stack pointer may leave page
        one; the PUSH of the second brings it back. */
    method PushLoose(v: int)
      requires Valid()
      modifies this`regSp, mem
      ensures View() == PushedLoose(old(View()), U16(v))
    {
      LooseSp(regSp);
      HiByte(v);
      HiLoOfU16(v);
      hide U16, U8, Lo, Hi;
      StoreLong(regSp, v / 0x100);
      regSp := U16(regSp - 1);
      Push(v);
    }

    static lemma LooseSp(sp: word)
      ensures U16(U16(sp - 1) - 1) == U16(sp - 2) && U8(U16(sp - 1) - 1) == U8(sp - 2)
      ensures U16(U16(sp - 2) - 1) == U16(sp - 3) && U8(U16(sp - 2) - 1) == U8(sp - 3)
    {
    }

    method Pea()
      requires Valid()
      modifies this`regSp, this`regPc, mem
      ensures View() == ExecPea(old(View()))
    {
      U16Add(regPc + 2, 1);
      SmallValue(OperandWord(View()), false);
      hide U16, OperandWord, PushedLoose;
      var w := NextWord();
      IncPc(1);
      PushLoose(w);
    }

    method Pei()
      requires Valid()
      modifies this`regSp, this`regPc, mem
      ensures View() == ExecPei(old(View()))
    {
      hide U16, PushedLoose, Word;
      U16Add(regPc + 1, 1);
      var p1 := NextByte();
      IncPc(1);
      var ea := p1 + regDpr;
      var v := Word(LoadBank0(ea), LoadBank0(ea + 1));
      SmallValue(v, false);
      PushLoose(v);
    }

    method Per()
      requires Valid()
      modifies this`regSp, this`regPc, mem
      ensures View() == ExecPer(old(View()))
    {
      hide U16, OperandWord, PushedLoose;
      U16Add(regPc + 2, 1);
      U16Add(regPc + 3, OperandWord(View()));
      var w := NextWord();
      IncPc(1);
      PushLoose(regPc + w);
    }

    method Phd()
      requires Valid()
      modifies this`regSp, this`regPc, mem
      ensures View() == ExecPhd(old(View()))
    {
      SmallValue(regDpr, false);
      hide U16, PushedLoose;
      IncPc(1);
      PushLoose(regDpr);
    }

    method Pld()
      requires Valid()
      modifies this`regDpr, this`regSp, this`regPc, this`flagN, this`flagZ
      ensures View() == ExecPld(old(View()))
    {
      hide Word0, U16, U8;
      IncPc(1);
      regDpr := PullAndWrap();
      SmallValue(regDpr, false);
      SetNz(regDpr, false);
    }

    method PullAndWrap() returns (v: word)
      requires Valid()
      modifies this`regSp
      ensures v == Word0(mem[..], old(regSp) + 1)
      ensures regSp == if regEmul then 0x100 + U8(old(regSp) + 2) else U16(old(regSp) + 2)
    {
      CutTwice(regSp + 2);
      hide Word0, U16, U8;
      v := PullLoose();
      WrapSp();
    }

    /** Two bytes from above the stack pointer without the wrap of emulation mode. */
    method PullLoose() returns (v: word)
      requires Valid()
      modifies this`regSp
      ensures v == Word0(mem[..], old(regSp) + 1) && regSp == U16(old(regSp) + 2)
    {
      U16Add(regSp + 1, 1);
      hide Word, U16;
      regSp := U16(regSp + 1);
      var lo := LoadLong(regSp);
      regSp := U16(regSp + 1);
      v := Word(lo, LoadLong(regSp));
    }

    /** Back into page one. */
    method WrapSp()
      modifies this`regSp
      ensures regSp == if regEmul then 0x100 + U8(old(regSp)) else old(regSp)
    {
      if regEmul {
        regSp := 0x100 + U8(regSp);
      }
    }

    // ----- Opcodes: control flow -----

    method BranchOp(cond: bool)
      requires Valid()
      modifies this`regPc
      ensures View() == ExecBranch(cond, old(View()))
    {
      hide U16, Signed;
      U16Add(regPc + 1, 1);
      var p1 := NextByte();
      IncPc(1);
      U16Add(old(regPc) + 2, Signed(p1));
      if cond {
        regPc := U16(regPc + Signed(p1));
      }
    }

    method BranchLong()
      requires Valid()
      modifies this`regPc
      ensures View() == ExecBranchLong(old(View()))
    {
      hide U16, OperandWord;
      var w: int := NextWord();
      U16Add(old(regPc) + 2, w + 1);
      IncPc(w + 1);
    }

    method Jmp()
      requires Valid()
      modifies this`regPc
      ensures View() == ExecJmp(old(View()))
    {
      hide OperandWord;
      regPc := NextWord();
    }

    method JmpInd()
      requires Valid()
      modifies this`regPc
      ensures View() == ExecJmpInd(old(View()))
    {
      SmallValue(OperandWord(View()), false);
      hide OperandWord, U16, Word;
      var ea: int := NextWord();
      regPc := Word(LoadLong(ea), LoadBank0(ea + 1));
    }

    method JmpIndLong()
      requires Valid()
      modifies this`regPc, this`regPbr
      ensures View() == ExecJmpIndLong(old(View()))
    {
      SmallValue(OperandWord(View()), false);
      hide OperandWord, U16, Word;
      var ea: int := NextWord();
      regPc := Word(LoadLong(ea), LoadBank0(ea + 1));
      regPbr := LoadBank0(ea + 2);
    }

    method JmpIndX()
      requires Valid()
      modifies this`regPc
      ensures View() == ExecJmpIndX(old(View()))
    {
      hide OperandWord, U16, Word;
      U16Add(OperandWord(View()) + regX, 1);
      var w := NextWord();
      var ea: int := U16(w + regX);
      regPc := Word(FetchParam(ea), FetchParam(U16(ea + 1)));
    }

    method JmpLong()
      requires Valid()
      modifies this`regPc, this`regPbr
      ensures View() == ExecJmpLong(old(View()))
    {
      hide OperandWord, U16;
      U16Add(regPc + 2, 1);
      var w := NextWord();
      regPbr := NextByte();
      regPc := w;
    }

    method Jsr()
      requires Valid()
      modifies this`regPc, this`regSp, mem
      ensures View() == ExecJsr(old(View()))
    {
      SmallValue(U16(regPc + 2), false);
      hide OperandWord, U16, PushedWord;
      var w := NextWord();
      PushBytes(regPc);
      regPc := w;
    }

    method JsrIndX()
      requires Valid()
      modifies this`regPc, this`regSp, mem
      ensures View() == ExecJsrIndX(old(View()))
    {
      hide U16, PushedLoose, Word, ProgramWord, OperandAt;
      var p1 := FirstAndPush();
      SecondAndJump(p1);
    }

    /** The first operand byte, and the address of the second onto the stack. */
    method FirstAndPush() returns (p1: byte)
      requires Valid()
      modifies this`regPc, this`regSp, mem
      ensures var s := old(View());
              && p1 == OperandAt(s, 1) && View() == PushedLoose(s.(r := Skip(s.r, 2)), U16(s.r.pc + 2))
              && regPc == U16(s.r.pc + 2) && View().mem == PushedLoose(s.(r := Skip(s.r, 2)), U16(s.r.pc + 2)).mem
    {
      SmallValue(U16(regPc + 2), false);
      hide U16, PushedLoose;
      U16Add(regPc + 1, 1);
      p1 := NextByte();
      IncPc(1);
      PushLoose(regPc);
      assert regPc == U16(old(regPc) + 2);
    }

    method SecondAndJump(p1: byte)
      requires Valid()
      modifies this`regPc
      ensures regPc == ProgramWord(mem[..], regPbr, Word(p1, mem[..][old(regPc) + 0x1_0000 * regPbr]) + regX)
    {
      hide Word, ProgramWord;
      var p2 := LoadPbr(regPc);
      PointerJump(Word(p1, p2));
    }

    method LoadPbr(a: word) returns (v: byte)
      requires Valid()
      ensures v == mem[..][a + 0x1_0000 * regPbr]
    {
      v := FetchParam(a);
    }

    /** `reg_pc` from the pointer in the program bank, indexed by X. */
    method PointerJump(w: word)
      requires Valid()
      modifies this`regPc
      ensures regPc == ProgramWord(mem[..], regPbr, w + regX)
    {
      hide U16, Word;
      U16Add(w + regX, 1);
      var ea: int := U16(w + regX);
      regPc := Word(FetchParam(ea), FetchParam(U16(ea + 1)));
    }

    method JsrLong()
      requires Valid()
      modifies this`regPc, this`regPbr, this`regSp, mem
      ensures View() == FarCall(old(View()))
    {
      hide Word, U16, U8, Lo, Hi, Long;
      U16Add(regPc + 2, 1);
      var w := NextWord();
      IncPc(1);
      var bank := PushReturn();
      regPbr := bank;
      regPc := w;
    }

    /** The stores of JSL, with the fetch of the target bank after the first of them. */
    method PushReturn() returns (bank: byte)
      requires Valid()
      modifies this`regSp, mem
      ensures var m1 := old(mem[..])[old(regSp) := regPbr];
              && bank == m1[regPc + 0x1_0000 * regPbr]
              && mem[..] == m1[U16(old(regSp) - 1) := Hi(regPc)][U16(old(regSp) - 2) := Lo(regPc)]
      ensures regSp == if regEmul then 0x100 + U8(old(regSp) - 3) else U16(old(regSp) - 3)
    {
      hide U16, U8, Lo, Hi, Long;
      LooseSp(regSp);
      HiByte(regPc);
      StoreLong(regSp, regPbr);
      regSp := U16(regSp - 1);
      bank := FetchParam(regPc);
      StoreLong(regSp, regPc / 0x100);
      regSp := U16(regSp - 1);
      Push(regPc);
    }

    method Rtl()
      requires Valid()
      modifies this`regPc, this`regPbr, this`regSp
      ensures View() == FarReturn(old(View()))
    {
      U16Add(regSp + 2, 1);
      CutTwice(regSp + 3);
      hide Word, U16, U8;
      IncPc(1);
      regPc := PullLoose();
      regSp := U16(regSp + 1);
      regPbr := LoadLong(regSp);
      WrapSp();
      IncPc(1);
    }

    method Rts()
      requires Valid()
      modifies this`regPc, this`regSp
      ensures View() == ExecRts(old(View()))
    {
      hide U16, U8, TopWord, Popped;
      regPc := PullBytes();
      IncPc(1);
    }

    method Rti()
      requires Valid()
      modifies this`regPc, this`regPbr, this`regSp, this`regP, this`regX, this`regY, this`flagN, this`flagZ
      ensures View() == ExecRti(old(View()))
    {
      hide U16, U8, TopWord, Popped, WithStatus;
      var s := Pull();
      SetStatus(s);
      regPc := PullBytes();
      if !regEmul {
        regPbr := Pull();
      }
    }

    /** BRK, COP, IRQ and NMI: the frame, D and I, and the vector of the mode. */
    method Handler(b: bool, emulVector: word, nativeVector: word)
      requires Valid() && emulVector < 0xffff && nativeVector < 0xffff
      modifies this`regPc, this`regPbr, this`regSp, this`regP, mem
      ensures View() == EnterHandler(b, emulVector, nativeVector, old(View()))
    {
      SmallByte(regPbr);
      hide U8, Pushed, HandlerFrame, Word;
      if regEmul {
        regP := regP.(x := b);
        PushFrame();
        regPc := Word(LoadLong(emulVector), LoadLong(emulVector + 1));
      } else {
        Push(regPbr);
        PushFrame();
        regPc := Word(LoadLong(nativeVector), LoadLong(nativeVector + 1));
      }
      regPbr := 0;
    }

    /** The program counter and the status. */
    method PushFrame()
      requires Valid()
      modifies this`regSp, this`regP, mem
      ensures View() == HandlerFrame(old(View()))
    {
      SmallValue(regPc, false);
      hide U16, StatusByte, PushedWord, Pushed;
      PushBytes(regPc);
      PushStatus();
    }

    method PushStatus()
      requires Valid()
      modifies this`regSp, this`regP, mem
      ensures var t := Pushed(old(View()), StatusByte(old(RegsView())));
              View() == t.(r := t.r.(p := t.r.p.(d := false, i := true)))
    {
      SmallByte(Status());
      hide U8, StatusByte;
      Push(Status());
      regP := regP.(d := false, i := true);
    }

    method BrkOp(emulVector: word, nativeVector: word)
      requires Valid() && emulVector < 0xffff && nativeVector < 0xffff
      modifies this`regPc, this`regPbr, this`regSp, this`regP, mem
      ensures View() == ExecBrk(emulVector, nativeVector, old(View()))
    {
      hide EnterHandler, U16;
      IncPc(2);
      Handler(true, emulVector, nativeVector);
    }

    /** RES, after which the machine is in emulation mode whatever it was before. */
    method Res()
      requires Valid()
      modifies this
      ensures View() == ResetOf(old(View()))
    {
      hide Word, U8;
      EmulationMode();
      ResetStack();
      regP := regP.(d := false, i := true);
      regPc := Word(LoadLong(0xfffc), LoadLong(0xfffd));
    }

    method EmulationMode()
      modifies this`regEmul, this`regP, this`regX, this`regY, this`regDpr, this`regDbr, this`regPbr
      ensures var r := old(RegsView());
              RegsView() == r.(emul := true, p := r.p.(x := false), x := U8(r.x), y := U8(r.y), dpr := 0, dbr := 0, pbr := 0)
    {
      hide U8;
      regP := regP.(x := false);
      regEmul := true;
      regX, regY := U8(regX), U8(regY);
      regDpr, regDbr, regPbr := 0, 0, 0;
    }

    /** The stack pointer forced into page one and lowered by three dummy pulls. */
    method ResetStack()
      modifies this`regSp
      ensures regSp == 0x100 + U8(old(regSp) - 3)
    {
      ThreeDown(regSp);
      hide U8;
      regSp := 0x100 + U8(regSp);
      regSp := 0x100 + U8(regSp - 1);
      regSp := 0x100 + U8(regSp - 1);
      regSp := 0x100 + U8(regSp - 1);
    }

    static lemma ThreeDown(sp: word)
      ensures var a := 0x100 + U8(sp); var b := 0x100 + U8(a - 1); var c := 0x100 + U8(b - 1);
              U8(c - 1) == U8(sp - 3)
    {
    }

    // ----- Block move -----

    /** The operand bytes; only the last round advances the program counter. */
    method MoveOperands() returns (p1: byte)
      requires Valid()
      modifies this`regDbr, this`regPc
      ensures p1 == DestBank(old(View())) && regDbr == SourceBank(old(View()))
      ensures regPc == if regC == 0 then U16(old(regPc) + 3) else old(regPc)
    {
      hide U16;
      ghost var pc0: int := regPc;
      U16Add(pc0 + 1, 1);
      U16Add(pc0 + 2, 1);
      if regC == 0 {
        p1 := NextByte();
        regDbr := NextByte();
        IncPc(1);
      } else {
        p1 := FetchParam(regPc + 1);
        regDbr := FetchParam(regPc + 2);
      }
    }

    /** `reg_x logic; reg_y logic` and the cut to eight bits. */
    method MoveIndices(up: bool)
      requires Valid()
      modifies this`regX, this`regY
      ensures regX == Moved(old(RegsView()), old(regX), up) && regY == Moved(old(RegsView()), old(regY), up)
    {
      hide U8, U16;
      CutTwice(regX + (if up then 1 else -1));
      CutTwice(regY + (if up then 1 else -1));
      regX := U16(regX + (if up then 1 else -1));
      regY := U16(regY + (if up then 1 else -1));
      if X8() {
        regX := U8(regX);
        regY := U8(regY);
      }
    }

    /** MVN (`up`) and MVP. */
    method MoveOp(up: bool)
      requires Valid()
      modifies this`regC, this`regX, this`regY, this`regDbr, this`regPc, mem
      ensures View() == MoveStep(up, old(View()))
    {
      hide Long, U16, DestBank, SourceBank;
      var p1 := MoveOperands();
      var tmp := LoadLong(regX + 0x1_0000 * regDbr);
      SmallByte(tmp);
      hide U8;
      regDbr := p1;
      StoreLong(regY + 0x1_0000 * regDbr, tmp);
      MoveIndices(up);
      regC := U16(regC - 1);
    }

    method Nop(size: nat)
      requires Valid()
      modifies this`regPc
      ensures View() == ExecNop(size, old(View()))
    {
      IncPc(size);
    }

    // ----- The opcode switch -----

    method OpcodeRow0(p0: byte)
      requires Valid() && ModeOk(RegsView()) && 0x00 <= p0 <= 0x0f
      modifies this, mem
      ensures View() == ExecuteRow0(p0, old(View()))
    {
      hide ExecBrk, ExecLogical, ExecPhd, ExecPhp, ExecShiftLeft, ExecTestAndSet, Lo, U8, U16;
      match p0
      case 0x00 => BrkOp(0xfffe, 0xffe6);
      case 0x01 => LogicalOp(Or, MEMORY(INDIRECT_X));
      case 0x02 => BrkOp(0xfff4, 0xffe4);
      case 0x03 => LogicalOp(Or, MEMORY(STACK_REL));
      case 0x04 => TestAndSetOp(PLACE(DIRECT_PAGE), true);
      case 0x05 => LogicalOp(Or, MEMORY(DIRECT_PAGE));
      case 0x06 => ShiftLeftOp(PLACE(DIRECT_PAGE), false);
      case 0x07 => LogicalOp(Or, MEMORY(INDIRECT_LONG));
      case 0x08 => PhpOp();
      case 0x09 => LogicalOp(Or, IMMEDIATE);
      case 0x0a => ShiftLeftOp(ACCU, false);
      case 0x0b => Phd();
      case 0x0c => TestAndSetOp(PLACE(ABS), true);
      case 0x0d => LogicalOp(Or, MEMORY(ABS));
      case 0x0e => ShiftLeftOp(PLACE(ABS), false);
      case 0x0f => LogicalOp(Or, MEMORY(ABS_LONG));
    }

    method OpcodeRow1(p0: byte)
      requires Valid() && ModeOk(RegsView()) && 0x10 <= p0 <= 0x1f
      modifies this, mem
      ensures View() == ExecuteRow1(p0, old(View()))
    {
      hide ExecBranch, ExecCount, ExecFlag, ExecLogical, ExecShiftLeft, ExecTestAndSet, ExecToSp, Lo, U8, U16;
      match p0
      case 0x10 => BranchOp(flagN < 0x80);
      case 0x11 => LogicalOp(Or, MEMORY(INDIRECT_Y));
      case 0x12 => LogicalOp(Or, MEMORY(INDIRECT));
      case 0x13 => LogicalOp(Or, MEMORY(STACK_REL_Y));
      case 0x14 => TestAndSetOp(PLACE(DIRECT_PAGE), false);
      case 0x15 => LogicalOp(Or, MEMORY(DIRECT_PAGE_X));
      case 0x16 => ShiftLeftOp(PLACE(DIRECT_PAGE_X), false);
      case 0x17 => LogicalOp(Or, MEMORY(INDIRECT_LONG_Y));
      case 0x18 => FlagOp(regP.(c := false));
      case 0x19 => LogicalOp(Or, MEMORY(ABS_Y));
      case 0x1a => CountOp(ACCU, 1);
      case 0x1b => Tcs();
      case 0x1c => TestAndSetOp(PLACE(ABS), false);
      case 0x1d => LogicalOp(Or, MEMORY(ABS_X));
      case 0x1e => ShiftLeftOp(PLACE(ABS_X), false);
      case 0x1f => LogicalOp(Or, MEMORY(ABS_LONG_X));
    }

    method OpcodeRow2(p0: byte)
      requires Valid() && ModeOk(RegsView()) && 0x20 <= p0 <= 0x2f
      modifies this, mem
      ensures View() == ExecuteRow2(p0, old(View()))
    {
      hide ExecBit, ExecJsr, ExecLogical, ExecPld, ExecPlp, ExecShiftLeft, FarCall, Lo, U8, U16;
      match p0
      case 0x20 => Jsr();
      case 0x21 => LogicalOp(And, MEMORY(INDIRECT_X));
      case 0x22 => JsrLong();
      case 0x23 => LogicalOp(And, MEMORY(STACK_REL));
      case 0x24 => BitOp(DIRECT_PAGE);
      case 0x25 => LogicalOp(And, MEMORY(DIRECT_PAGE));
      case 0x26 => ShiftLeftOp(PLACE(DIRECT_PAGE), true);
      case 0x27 => LogicalOp(And, MEMORY(INDIRECT_LONG));
      case 0x28 => PlpOp();
      case 0x29 => LogicalOp(And, IMMEDIATE);
      case 0x2a => ShiftLeftOp(ACCU, true);
      case 0x2b => Pld();
      case 0x2c => BitOp(ABS);
      case 0x2d => LogicalOp(And, MEMORY(ABS));
      case 0x2e => ShiftLeftOp(PLACE(ABS), true);
      case 0x2f => LogicalOp(And, MEMORY(ABS_LONG));
    }

    method OpcodeRow3(p0: byte)
      requires Valid() && ModeOk(RegsView()) && 0x30 <= p0 <= 0x3f
      modifies this, mem
      ensures View() == ExecuteRow3(p0, old(View()))
    {
      hide ExecBit, ExecBranch, ExecCount, ExecFlag, ExecLogical, ExecShiftLeft, ExecToC, Lo, U8, U16;
      match p0
      case 0x30 => BranchOp(flagN >= 0x80);
      case 0x31 => LogicalOp(And, MEMORY(INDIRECT_Y));
      case 0x32 => LogicalOp(And, MEMORY(INDIRECT));
      case 0x33 => LogicalOp(And, MEMORY(STACK_REL_Y));
      case 0x34 => BitOp(DIRECT_PAGE_X);
      case 0x35 => LogicalOp(And, MEMORY(DIRECT_PAGE_X));
      case 0x36 => ShiftLeftOp(PLACE(DIRECT_PAGE_X), true);
      case 0x37 => LogicalOp(And, MEMORY(INDIRECT_LONG_Y));
      case 0x38 => FlagOp(regP.(c := true));
      case 0x39 => LogicalOp(And, MEMORY(ABS_Y));
      case 0x3a => CountOp(ACCU, -1);
      case 0x3b => TransferToC(regSp);
      case 0x3c => BitOp(ABS_X);
      case 0x3d => LogicalOp(And, MEMORY(ABS_X));
      case 0x3e => ShiftLeftOp(PLACE(ABS_X), true);
      case 0x3f => LogicalOp(And, MEMORY(ABS_LONG_X));
    }

    method OpcodeRow4(p0: byte)
      requires Valid() && ModeOk(RegsView()) && 0x40 <= p0 <= 0x4f
      modifies this, mem
      ensures View() == ExecuteRow4(p0, old(View()))
    {
      hide ExecJmp, ExecLogical, ExecNop, ExecPush, ExecRti, ExecShiftRight, MoveStep, Lo, U8, U16;
      match p0
      case 0x40 => Rti();
      case 0x41 => LogicalOp(Xor, MEMORY(INDIRECT_X));
      case 0x42 => Nop(2);
      case 0x43 => LogicalOp(Xor, MEMORY(STACK_REL));
      case 0x44 => MoveOp(false);
      case 0x45 => LogicalOp(Xor, MEMORY(DIRECT_PAGE));
      case 0x46 => ShiftRightOp(PLACE(DIRECT_PAGE), false);
      case 0x47 => LogicalOp(Xor, MEMORY(INDIRECT_LONG));
      case 0x48 => PushValue(regC, M8());
      case 0x49 => LogicalOp(Xor, IMMEDIATE);
      case 0x4a => ShiftRightOp(ACCU, false);
      case 0x4b => PushValue(regPbr, true);
      case 0x4c => Jmp();
      case 0x4d => LogicalOp(Xor, MEMORY(ABS));
      case 0x4e => ShiftRightOp(PLACE(ABS), false);
      case 0x4f => LogicalOp(Xor, MEMORY(ABS_LONG));
    }

    method OpcodeRow5(p0: byte)
      requires Valid() && ModeOk(RegsView()) && 0x50 <= p0 <= 0x5f
      modifies this, mem
      ensures View() == ExecuteRow5(p0, old(View()))
    {
      hide ExecBranch, ExecFlag, ExecJmpLong, ExecLogical, ExecPush, ExecShiftRight, ExecTcd, MoveStep, Lo, U8, U16;
      match p0
      case 0x50 => BranchOp(!regP.v);
      case 0x51 => LogicalOp(Xor, MEMORY(INDIRECT_Y));
      case 0x52 => LogicalOp(Xor, MEMORY(INDIRECT));
      case 0x53 => LogicalOp(Xor, MEMORY(STACK_REL_Y));
      case 0x54 => MoveOp(true);
      case 0x55 => LogicalOp(Xor, MEMORY(DIRECT_PAGE_X));
      case 0x56 => ShiftRightOp(PLACE(DIRECT_PAGE_X), false);
      case 0x57 => LogicalOp(Xor, MEMORY(INDIRECT_LONG_Y));
      case 0x58 => FlagOp(regP.(i := false));
      case 0x59 => LogicalOp(Xor, MEMORY(ABS_Y));
      case 0x5a => PushValue(regY, X8());
      case 0x5b => Tcd();
      case 0x5c => JmpLong();
      case 0x5d => LogicalOp(Xor, MEMORY(ABS_X));
      case 0x5e => ShiftRightOp(PLACE(ABS_X), false);
      case 0x5f => LogicalOp(Xor, MEMORY(ABS_LONG_X));
    }

    method OpcodeRow6(p0: byte)
      requires Valid() && ModeOk(RegsView()) && 0x60 <= p0 <= 0x6f
      modifies this, mem
      ensures View() == ExecuteRow6(p0, old(View()))
    {
      hide ExecAdc, ExecJmpInd, ExecPer, ExecPla, ExecRts, ExecShiftRight, ExecStore, FarReturn, Lo, U8, U16;
      match p0
      case 0x60 => Rts();
      case 0x61 => AdcOp(MEMORY(INDIRECT_X));
      case 0x62 => Per();
      case 0x63 => AdcOp(MEMORY(STACK_REL));
      case 0x64 => StoreTo(DIRECT_PAGE, 0, M8());
      case 0x65 => AdcOp(MEMORY(DIRECT_PAGE));
      case 0x66 => ShiftRightOp(PLACE(DIRECT_PAGE), true);
      case 0x67 => AdcOp(MEMORY(INDIRECT_LONG));
      case 0x68 => PlaOp();
      case 0x69 => AdcOp(IMMEDIATE);
      case 0x6a => ShiftRightOp(ACCU, true);
      case 0x6b => Rtl();
      case 0x6c => JmpInd();
      case 0x6d => AdcOp(MEMORY(ABS));
      case 0x6e => ShiftRightOp(PLACE(ABS), true);
      case 0x6f => AdcOp(MEMORY(ABS_LONG));
    }

    method OpcodeRow7(p0: byte)
      requires Valid() && ModeOk(RegsView()) && 0x70 <= p0 <= 0x7f
      modifies this, mem
      ensures View() == ExecuteRow7(p0, old(View()))
    {
      hide ExecAdc, ExecBranch, ExecFlag, ExecJmpIndX, ExecPly, ExecShiftRight, ExecStore, ExecToC, Lo, U8, U16;
      match p0
      case 0x70 => BranchOp(regP.v);
      case 0x71 => AdcOp(MEMORY(INDIRECT_Y));
      case 0x72 => AdcOp(MEMORY(INDIRECT));
      case 0x73 => AdcOp(MEMORY(STACK_REL_Y));
      case 0x74 => StoreTo(DIRECT_PAGE_X, 0, M8());
      case 0x75 => AdcOp(MEMORY(DIRECT_PAGE_X));
      case 0x76 => ShiftRightOp(PLACE(DIRECT_PAGE_X), true);
      case 0x77 => AdcOp(MEMORY(INDIRECT_LONG_Y));
      case 0x78 => FlagOp(regP.(i := true));
      case 0x79 => AdcOp(MEMORY(ABS_Y));
      case 0x7a => PlyOp();
      case 0x7b => TransferToC(regDpr);
      case 0x7c => JmpIndX();
      case 0x7d => AdcOp(MEMORY(ABS_X));
      case 0x7e => ShiftRightOp(PLACE(ABS_X), true);
      case 0x7f => AdcOp(MEMORY(ABS_LONG_X));
    }

    method OpcodeRow8(p0: byte)
      requires Valid() && ModeOk(RegsView()) && 0x80 <= p0 <= 0x8f
      modifies this, mem
      ensures View() == ExecuteRow8(p0, old(View()))
    {
      hide ExecBitImm, ExecBranch, ExecBranchLong, ExecPush, ExecStore, ExecToA, ExecToY, Lo, U8, U16;
      match p0
      case 0x80 => BranchOp(true);
      case 0x81 => StoreTo(INDIRECT_X, regC, M8());
      case 0x82 => BranchLong();
      case 0x83 => StoreTo(STACK_REL, regC, M8());
      case 0x84 => StoreTo(DIRECT_PAGE, regY, X8());
      case 0x85 => StoreTo(DIRECT_PAGE, regC, M8());
      case 0x86 => StoreTo(DIRECT_PAGE, regX, X8());
      case 0x87 => StoreTo(INDIRECT_LONG, regC, M8());
      case 0x88 => CountY(-1);
      case 0x89 => BitImmOp();
      case 0x8a => TransferToA(regX);
      case 0x8b => PushValue(regDbr, true);
      case 0x8c => StoreTo(ABS, regY, X8());
      case 0x8d => StoreTo(ABS, regC, M8());
      case 0x8e => StoreTo(ABS, regX, X8());
      case 0x8f => StoreTo(ABS_LONG, regC, M8());
    }

    method OpcodeRow9(p0: byte)
      requires Valid() && ModeOk(RegsView()) && 0x90 <= p0 <= 0x9f
      modifies this, mem
      ensures View() == ExecuteRow9(p0, old(View()))
    {
      hide ExecBranch, ExecStore, ExecToA, ExecToSp, ExecToY, Lo, U8, U16;
      match p0
      case 0x90 => BranchOp(!regP.c);
      case 0x91 => StoreTo(INDIRECT_Y, regC, M8());
      case 0x92 => StoreTo(INDIRECT, regC, M8());
      case 0x93 => StoreTo(STACK_REL_Y, regC, M8());
      case 0x94 => StoreTo(DIRECT_PAGE_X, regY, X8());
      case 0x95 => StoreTo(DIRECT_PAGE_X, regC, M8());
      case 0x96 => StoreTo(DIRECT_PAGE_Y, regX, X8());
      case 0x97 => StoreTo(INDIRECT_LONG_Y, regC, M8());
      case 0x98 => TransferToA(regY);
      case 0x99 => StoreTo(ABS_Y, regC, M8());
      case 0x9a => Txs();
      case 0x9b => Txy();
      case 0x9c => StoreTo(ABS, 0, M8());
      case 0x9d => StoreTo(ABS_X, regC, M8());
      case 0x9e => StoreTo(ABS_X, 0, M8());
      case 0x9f => StoreTo(ABS_LONG_X, regC, M8());
    }

    method OpcodeRowA(p0: byte)
      requires Valid() && ModeOk(RegsView()) && 0xa0 <= p0 <= 0xaf
      modifies this, mem
      ensures View() == ExecuteRowA(p0, old(View()))
    {
      hide ExecLda, ExecLdx, ExecLdy, ExecPlb, ExecToX, ExecToY, Lo, U8, U16;
      match p0
      case 0xa0 => LdyOp(IMMEDIATE);
      case 0xa1 => LdaOp(MEMORY(INDIRECT_X));
      case 0xa2 => LdxOp(IMMEDIATE);
      case 0xa3 => LdaOp(MEMORY(STACK_REL));
      case 0xa4 => LdyOp(MEMORY(DIRECT_PAGE));
      case 0xa5 => LdaOp(MEMORY(DIRECT_PAGE));
      case 0xa6 => LdxOp(MEMORY(DIRECT_PAGE));
      case 0xa7 => LdaOp(MEMORY(INDIRECT_LONG));
      case 0xa8 => TransferToY(regC);
      case 0xa9 => LdaOp(IMMEDIATE);
      case 0xaa => TransferToX(regC);
      case 0xab => PlbOp();
      case 0xac => LdyOp(MEMORY(ABS));
      case 0xad => LdaOp(MEMORY(ABS));
      case 0xae => LdxOp(MEMORY(ABS));
      case 0xaf => LdaOp(MEMORY(ABS_LONG));
    }

    method OpcodeRowB(p0: byte)
      requires Valid() && ModeOk(RegsView()) && 0xb0 <= p0 <= 0xbf
      modifies this, mem
      ensures View() == ExecuteRowB(p0, old(View()))
    {
      hide ExecBranch, ExecFlag, ExecLda, ExecLdx, ExecLdy, ExecToX, Lo, U8, U16;
      match p0
      case 0xb0 => BranchOp(regP.c);
      case 0xb1 => LdaOp(MEMORY(INDIRECT_Y));
      case 0xb2 => LdaOp(MEMORY(INDIRECT));
      case 0xb3 => LdaOp(MEMORY(STACK_REL_Y));
      case 0xb4 => LdyOp(MEMORY(DIRECT_PAGE_X));
      case 0xb5 => LdaOp(MEMORY(DIRECT_PAGE_X));
      case 0xb6 => LdxOp(MEMORY(DIRECT_PAGE_Y));
      case 0xb7 => LdaOp(MEMORY(INDIRECT_LONG_Y));
      case 0xb8 => FlagOp(regP.(v := false));
      case 0xb9 => LdaOp(MEMORY(ABS_Y));
      case 0xba => TransferToX(regSp);
      case 0xbb => Tyx();
      case 0xbc => LdyOp(MEMORY(ABS_X));
      case 0xbd => LdaOp(MEMORY(ABS_X));
      case 0xbe => LdxOp(MEMORY(ABS_Y));
      case 0xbf => LdaOp(MEMORY(ABS_LONG_X));
    }

    method OpcodeRowC(p0: byte)
      requires Valid() && ModeOk(RegsView()) && 0xc0 <= p0 <= 0xcf
      modifies this, mem
      ensures View() == ExecuteRowC(p0, old(View()))
    {
      hide ExecCompare, ExecCount, ExecNop, ExecRepSep, ExecToX, ExecToY, Lo, U8, U16;
      match p0
      case 0xc0 => CompareOp(regY, IMMEDIATE, X8());
      case 0xc1 => CompareOp(if M8() then Lo(regC) else regC, MEMORY(INDIRECT_X), M8());
      case 0xc2 => RepSep(false);
      case 0xc3 => CompareOp(if M8() then Lo(regC) else regC, MEMORY(STACK_REL), M8());
      case 0xc4 => CompareOp(regY, MEMORY(DIRECT_PAGE), X8());
      case 0xc5 => CompareOp(if M8() then Lo(regC) else regC, MEMORY(DIRECT_PAGE), M8());
      case 0xc6 => CountOp(PLACE(DIRECT_PAGE), -1);
      case 0xc7 => CompareOp(if M8() then Lo(regC) else regC, MEMORY(INDIRECT_LONG), M8());
      case 0xc8 => CountY(1);
      case 0xc9 => CompareOp(if M8() then Lo(regC) else regC, IMMEDIATE, M8());
      case 0xca => CountX(-1);
      case 0xcb => Nop(1);
      case 0xcc => CompareOp(regY, MEMORY(ABS), X8());
      case 0xcd => CompareOp(if M8() then Lo(regC) else regC, MEMORY(ABS), M8());
      case 0xce => CountOp(PLACE(ABS), -1);
      case 0xcf => CompareOp(if M8() then Lo(regC) else regC, MEMORY(ABS_LONG), M8());
    }

    method OpcodeRowD(p0: byte)
      requires Valid() && ModeOk(RegsView()) && 0xd0 <= p0 <= 0xdf
      modifies this, mem
      ensures View() == ExecuteRowD(p0, old(View()))
    {
      hide ExecBranch, ExecCompare, ExecCount, ExecFlag, ExecJmpIndLong, ExecNop, ExecPei, ExecPush, Lo, U8, U16;
      match p0
      case 0xd0 => BranchOp(flagZ != 0);
      case 0xd1 => CompareOp(if M8() then Lo(regC) else regC, MEMORY(INDIRECT_Y), M8());
      case 0xd2 => CompareOp(if M8() then Lo(regC) else regC, MEMORY(INDIRECT), M8());
      case 0xd3 => CompareOp(if M8() then Lo(regC) else regC, MEMORY(STACK_REL_Y), M8());
      case 0xd4 => Pei();
      case 0xd5 => CompareOp(if M8() then Lo(regC) else regC, MEMORY(DIRECT_PAGE_X), M8());
      case 0xd6 => CountOp(PLACE(DIRECT_PAGE_X), -1);
      case 0xd7 => CompareOp(if M8() then Lo(regC) else regC, MEMORY(INDIRECT_LONG_Y), M8());
      case 0xd8 => FlagOp(regP.(d := false));
      case 0xd9 => CompareOp(if M8() then Lo(regC) else regC, MEMORY(ABS_Y), M8());
      case 0xda => PushValue(regX, X8());
      case 0xdb => Nop(1);
      case 0xdc => JmpIndLong();
      case 0xdd => CompareOp(if M8() then Lo(regC) else regC, MEMORY(ABS_X), M8());
      case 0xde => CountOp(PLACE(ABS_X), -1);
      case 0xdf => CompareOp(if M8() then Lo(regC) else regC, MEMORY(ABS_LONG_X), M8());
    }

    method OpcodeRowE(p0: byte)
      requires Valid() && ModeOk(RegsView()) && 0xe0 <= p0 <= 0xef
      modifies this, mem
      ensures View() == ExecuteRowE(p0, old(View()))
    {
      hide ExecCompare, ExecCount, ExecNop, ExecRepSep, ExecSbc, ExecToX, ExecXba, Lo, U8, U16;
      match p0
      case 0xe0 => CompareOp(regX, IMMEDIATE, X8());
      case 0xe1 => SbcOp(MEMORY(INDIRECT_X));
      case 0xe2 => RepSep(true);
      case 0xe3 => SbcOp(MEMORY(STACK_REL));
      case 0xe4 => CompareOp(regX, MEMORY(DIRECT_PAGE), X8());
      case 0xe5 => SbcOp(MEMORY(DIRECT_PAGE));
      case 0xe6 => CountOp(PLACE(DIRECT_PAGE), 1);
      case 0xe7 => SbcOp(MEMORY(INDIRECT_LONG));
      case 0xe8 => CountX(1);
      case 0xe9 => SbcOp(IMMEDIATE);
      case 0xea => Nop(1);
      case 0xeb => Xba();
      case 0xec => CompareOp(regX, MEMORY(ABS), X8());
      case 0xed => SbcOp(MEMORY(ABS));
      case 0xee => CountOp(PLACE(ABS), 1);
      case 0xef => SbcOp(MEMORY(ABS_LONG));
    }

    method OpcodeRowF(p0: byte)
      requires Valid() && ModeOk(RegsView()) && 0xf0 <= p0 <= 0xff
      modifies this, mem
      ensures View() == ExecuteRowF(p0, old(View()))
    {
      hide ExecBranch, ExecCount, ExecFlag, ExecJsrIndX, ExecPea, ExecPlx, ExecSbc, ExecXce, Lo, U8, U16;
      match p0
      case 0xf0 => BranchOp(flagZ == 0);
      case 0xf1 => SbcOp(MEMORY(INDIRECT_Y));
      case 0xf2 => SbcOp(MEMORY(INDIRECT));
      case 0xf3 => SbcOp(MEMORY(STACK_REL_Y));
      case 0xf4 => Pea();
      case 0xf5 => SbcOp(MEMORY(DIRECT_PAGE_X));
      case 0xf6 => CountOp(PLACE(DIRECT_PAGE_X), 1);
      case 0xf7 => SbcOp(MEMORY(INDIRECT_LONG_Y));
      case 0xf8 => FlagOp(regP.(d := true));
      case 0xf9 => SbcOp(MEMORY(ABS_Y));
      case 0xfa => PlxOp();
      case 0xfb => Xce();
      case 0xfc => JsrIndX();
      case 0xfd => SbcOp(MEMORY(ABS_X));
      case 0xfe => CountOp(PLACE(ABS_X), 1);
      case 0xff => SbcOp(MEMORY(ABS_LONG_X));
    }

    /** The opcode switch. */
    method Opcode(p0: byte)
      requires Valid() && ModeOk(RegsView())
      modifies this, mem
      ensures View() == Execute(p0, old(View()))
    {
      hide ModeOk, ExecuteRow0, ExecuteRow1, ExecuteRow2, ExecuteRow3, ExecuteRow4, ExecuteRow5, ExecuteRow6, ExecuteRow7,
        ExecuteRow8, ExecuteRow9, ExecuteRowA, ExecuteRowB, ExecuteRowC, ExecuteRowD, ExecuteRowE, ExecuteRowF;
      if p0 <= 0x0f {
        OpcodeRow0(p0);
      } else if p0 <= 0x1f {
        OpcodeRow1(p0);
      } else if p0 <= 0x2f {
        OpcodeRow2(p0);
      } else if p0 <= 0x3f {
        OpcodeRow3(p0);
      } else if p0 <= 0x4f {
        OpcodeRow4(p0);
      } else if p0 <= 0x5f {
        OpcodeRow5(p0);
      } else if p0 <= 0x6f {
        OpcodeRow6(p0);
      } else if p0 <= 0x7f {
        OpcodeRow7(p0);
      } else if p0 <= 0x8f {
        OpcodeRow8(p0);
      } else if p0 <= 0x9f {
        OpcodeRow9(p0);
      } else if p0 <= 0xaf {
        OpcodeRowA(p0);
      } else if p0 <= 0xbf {
        OpcodeRowB(p0);
      } else if p0 <= 0xcf {
        OpcodeRowC(p0);
      } else if p0 <= 0xdf {
        OpcodeRowD(p0);
      } else if p0 <= 0xef {
        OpcodeRowE(p0);
      } else {
        OpcodeRowF(p0);
      }
    }

    /** One round of the main loop: a pending reset, NMI or IRQ, or the next opcode. */
    method Step(pending: Signal)
      requires Valid() && ModeOk(RegsView())
      modifies this, mem
      ensures View() == React(pending, old(View())) && ModeOk(RegsView())
    {
      hide ModeOk, Execute, EnterHandler, ResetOf;
      match pending
      case RESET_PENDING => Res();
      case NMI_PENDING => Handler(false, 0xfffa, 0xffea);
      case IRQ_PENDING => Handler(false, 0xfffe, 0xffee);
      case NONE =>
        var p0 := LoadPbr(regPc);
        Opcode(p0);
    }

    /** Any run: the core is where the reference is, and the mode invariant holds. */
    method Run(signals: seq<Signal>)
      requires Valid() && ModeOk(RegsView())
      modifies this, mem
      ensures View() == ReactAll(signals, old(View())) && ModeOk(RegsView())
    {
      hide ModeOk, React;
      ghost var start := View();
      var k := 0;
      while k < |signals|
        invariant 0 <= k <= |signals| && ModeOk(RegsView())
        invariant ReactAll(signals[k..], View()) == ReactAll(signals, start)
      {
        assert signals[k..][1..] == signals[k + 1..];
        Step(signals[k]);
        k := k + 1;
      }
    }
  }
}
