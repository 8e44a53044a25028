/** The instruction-level 6510 core (vice/src/6510core.c): one opcode at a time, the clock
    advanced in the lumps its macros add, flags kept lazily and the program counter unmasked.

    `View` is the architectural state a core stands for; every method is proved to have
    exactly the effect that the reference instruction set gives it. */
module InstructionCore {
  import opened Bytes
  import opened Isa6510
  import opened LazyFlags
  import opened AluMacros
  import opened OpcodeMatrix

  /** The load macros handed to the read-modify-write opcodes. */
  datatype LoadFn = LOAD_ZERO | LOAD_ABS | LOAD_ABS_X_RMW | LOAD_ABS_Y_RMW

  /** The store macros handed to the store and read-modify-write opcodes. */
  datatype StoreFn = STORE_ZERO | STORE_ABS | STORE_ABS_X | STORE_ABS_Y | STORE_ABS_X_RMW | STORE_ABS_Y_RMW

  function LoadAddress(f: LoadFn, addr: nat, r: Regs): word {
    match f
    case LOAD_ZERO => U8(addr)
    case LOAD_ABS => U16(addr)
    case LOAD_ABS_X_RMW => U16(addr + r.x)
    case LOAD_ABS_Y_RMW => U16(addr + r.y)
  }

  function LoadClk(f: LoadFn): nat {
    if f in {LOAD_ABS_X_RMW, LOAD_ABS_Y_RMW} then 1 else 0
  }

  function StoreAddress(f: StoreFn, addr: nat, r: Regs): word {
    match f
    case STORE_ZERO => U8(addr)
    case STORE_ABS => U16(addr)
    case STORE_ABS_X => U16(addr + r.x)
    case STORE_ABS_Y => U16(addr + r.y)
    case STORE_ABS_X_RMW => U16(addr + r.x)
    case STORE_ABS_Y_RMW => U16(addr + r.y)
  }

  /** New registers, PC moved on by `pcInc`, clock by `clkInc`. */
  function After(s: Cpu, r: Regs, clkInc: nat, pcInc: nat): Cpu {
    Cpu(r, U16(s.pc + pcInc), s.mem, s.clk + clkInc, s.info)
  }

  /** An unstable store at `base` plus `index`. */
  function AfterHigh(s: Cpu, op: HighOp, base: word, index: byte, clkInc: nat, pcInc: nat): Cpu {
    After(s, s.r, clkInc, pcInc).(mem := s.mem[HighAddress(op, s.r, base, index) := HighValue(op, s.r, base)])
  }

  /** A read-modify-write opcode with its operand at `from`, the result written back at `to`. */
  function ModifyAt(op: ModifyOp, s: Cpu, from: word, to: word, clkInc: nat, pcInc: nat): Cpu {
    var v := s.mem[from];
    var w := Modified(op, v, s.r.f.c);
    After(s, ApplyModify(op, v, w, s.r), clkInc, pcInc).(mem := s.mem[to := w])
  }

  /** Memory after the two pushes of a JSR. */
  function CallMemory(s: Cpu): Ram {
    var ret := U16(s.pc + 2);
    Push(Push(s.mem, s.r.sp, Hi(ret)), U8(s.r.sp - 1), Lo(ret))
  }

  /** A call that fetches its last byte through `base` gets the one in memory by then. */
  predicate ShowsCall(base: Ram, s: Cpu) {
    s.pc <= 0xfffd ==> base[s.pc + 2] == CallMemory(s)[s.pc + 2]
  }

  /** What an opcode fetches through `base` is what it would load. */
  predicate Shows(base: Ram, s: Cpu) {
    s.pc <= 0xfffd ==>
      && base[s.pc] == s.mem[s.pc] && base[s.pc + 1] == s.mem[s.pc + 1] && base[s.pc + 2] == s.mem[s.pc + 2]
      && (Opcode(s) == 0x20 ==> ShowsCall(base, s))
  }

  /** At every opcode of a run. */
  predicate ShowsAll(base: Ram, s: Cpu, es: seq<Event>)
    decreases |es|
  {
    es != [] ==> (es[0].TakeOpcode? ==> Shows(base, s)) && ShowsAll(base, React(s, es[0]), es[1..])
  }

  class Core {
    var regA: byte
    var regX: byte
    var regY: byte
    var regSp: byte
    var regP: RegP
    var flagN: byte
    var flagZ: byte
    var regPc: nat
    var clk: nat
    var opInfo: OpInfo
    const ram: array<byte>
    /** Where opcodes are fetched from below the bank limit: perhaps memory itself. */
    const bankBase: array<byte>
    var bankStart: int
    var bankLimit: int

    ghost predicate Valid()
      reads this
    {
      ram.Length == bankBase.Length == 0x1_0000 && bankLimit <= 0xfffe
    }

    ghost function View(): Cpu
      requires Valid()
      reads this, ram
    {
      Cpu(Regs(regA, regX, regY, regSp, Lazy(regP, flagN, flagZ)), U16(regPc), ram[..], clk, opInfo)
    }

    /** The bank pointer points into memory, or it shows what the next opcode would load. */
    ghost predicate FetchAgrees()
      requires Valid()
      reads this, ram, bankBase
    {
      bankBase == ram || Shows(bankBase[..], View())
    }

    /** The same for the last byte of a call. */
    ghost predicate CallAgrees(s: Cpu)
      requires Valid()
      reads this, bankBase
    {
      bankBase == ram || ShowsCall(bankBase[..], s)
    }

    /** The same at every opcode of a run. */
    ghost predicate RunAgrees(es: seq<Event>)
      requires Valid()
      reads this, ram, bankBase
    {
      bankBase == ram || ShowsAll(bankBase[..], View(), es)
    }

    constructor (memory: array<byte>)
      requires memory.Length == 0x1_0000
      ensures Valid() && ram == bankBase == memory
      ensures View() == Cpu(Regs(0, 0, 0, 0, Flags(false, false, false, false, false, true, false)), 0, memory[..], 0,
                            OpInfo(0, false, false, false))
    {
      regA, regX, regY, regSp, flagN, flagZ := 0, 0, 0, 0, 0, 0;
      regP := RegP(false, false, false, false, false);
      regPc, clk, opInfo := 0, 0, OpInfo(0, false, false, false);
      ram, bankBase := memory, memory;
      bankStart, bankLimit := 0, 0;
    }

    // ----- Memory, stack, program counter -----

    function Load(addr: nat): byte
      requires Valid()
      reads this, ram
    {
      ram[U16(addr)]
    }

    function LoadZero(addr: nat): byte
      requires Valid()
      reads this, ram
    {
      ram[U8(addr)]
    }

    function LoadZeroAddr(addr: nat): word
      requires Valid()
      reads this, ram
    {
      Word(LoadZero(addr), LoadZero(addr + 1))
    }

    function LoadAddr(addr: nat): word
      requires Valid()
      reads this, ram
    {
      Word(Load(addr), Load(addr + 1))
    }

    /** FETCH_PARAM: through the bank pointer when the address is below the bank limit. */
    function FetchParam(addr: nat): byte
      requires Valid()
      reads this, ram, bankBase
    {
      if addr < bankLimit then bankBase[addr] else Load(addr)
    }

    method Store(addr: nat, value: int)
      requires Valid()
      modifies ram
      ensures Valid()
      ensures View() == old(View()).(mem := old(View()).mem[U16(addr) := U8(value)])
    {
      ram[U16(addr)] := U8(value);
    }

    method PushByte(value: int)
      requires Valid()
      modifies this`regSp, ram
      ensures Valid()
      ensures var s := old(View());
              View() == s.(r := s.r.(sp := U8(s.r.sp - 1)), mem := Push(s.mem, s.r.sp, U8(value)))
    {
      ram[0x100 + regSp] := U8(value);
      regSp := U8(regSp - 1);
    }

    method Pull() returns (v: byte)
      requires Valid()
      modifies this`regSp
      ensures Valid()
      ensures var s := old(View());
              View() == s.(r := s.r.(sp := U8(s.r.sp + 1))) && v == s.mem[0x100 + U8(s.r.sp + 1)]
    {
      regSp := U8(regSp + 1);
      v := ram[0x100 + regSp];
    }

    /** JUMP: the memory map decides where the fast fetch window lies, anywhere in range. */
    method Jump(addr: nat)
      requires Valid()
      modifies this`regPc, this`bankStart, this`bankLimit
      ensures Valid()
      ensures View() == old(View()).(pc := U16(addr))
    {
      regPc := addr;
      if regPc >= bankLimit || regPc < bankStart {
        var start, limit :| start <= limit <= 0xfffe;
        bankStart, bankLimit := start, limit;
      }
    }

    /** INC_PC: the program counter is an unmasked `unsigned int`. */
    method IncPc(n: nat)
      requires Valid()
      modifies this`regPc
      ensures Valid() && regPc == old(regPc) + n
      ensures View() == old(View()).(pc := U16(old(View()).pc + n))
    {
      U16Add(regPc, n);
      regPc := regPc + n;
    }

    // ----- Addressing modes with cycles of their own -----

    method LoadAbsX(addr: word) returns (v: byte)
      requires Valid()
      modifies this`clk
      ensures Valid()
      ensures var s := old(View());
              v == s.mem[U16(addr + s.r.x)] && View() == s.(clk := s.clk + if Lo(addr) + s.r.x > 0xff then 1 else 0)
    {
      if Lo(addr) + regX > 0xff {
        clk := clk + 1;
      }
      v := Load(addr + regX);
    }

    method LoadAbsY(addr: word) returns (v: byte)
      requires Valid()
      modifies this`clk
      ensures Valid()
      ensures var s := old(View());
              v == s.mem[U16(addr + s.r.y)] && View() == s.(clk := s.clk + if Lo(addr) + s.r.y > 0xff then 1 else 0)
    {
      if Lo(addr) + regY > 0xff {
        clk := clk + 1;
      }
      v := Load(addr + regY);
    }

    method LoadIndX(addr: byte) returns (v: byte)
      requires Valid()
      modifies this`clk
      ensures Valid()
      ensures var s := old(View());
              v == s.mem[ZpWord(s.mem, U8(addr + s.r.x))] && View() == s.(clk := s.clk + 3)
    {
      hide U8, U16, Word;
      clk := clk + 3;
      U8Add(addr + regX, 1);
      v := Load(LoadZeroAddr(addr + regX));
    }

    method LoadIndY(addr: byte) returns (v: byte)
      requires Valid()
      modifies this`clk
      ensures Valid()
      ensures var s := old(View());
              v == s.mem[U16(ZpWord(s.mem, addr) + s.r.y)] && View() == s.(clk := s.clk + if s.mem[addr] + s.r.y > 0xff then 3 else 2)
    {
      hide U8, U16, Lo, Hi, Word;
      clk := clk + 2;
      if Lo(LoadZeroAddr(addr)) + regY > 0xff {
        clk := clk + 1;
      }
      v := Load(LoadZeroAddr(addr) + regY);
    }

    /** The load half of a read-modify-write opcode. */
    method LoadBy(f: LoadFn, addr: nat) returns (v: byte)
      requires Valid()
      modifies this`clk
      ensures Valid()
      ensures var s := old(View());
              v == s.mem[LoadAddress(f, addr, s.r)] && View() == s.(clk := s.clk + LoadClk(f))
    {
      match f
      case LOAD_ZERO => v := LoadZero(addr);
      case LOAD_ABS => v := Load(addr);
      case LOAD_ABS_X_RMW =>
        clk := clk + 1;
        v := Load(addr + regX);
      case LOAD_ABS_Y_RMW =>
        clk := clk + 1;
        v := Load(addr + regY);
    }

    method StoreBy(f: StoreFn, addr: nat, value: int, inc: nat)
      requires Valid()
      modifies this`clk, ram
      ensures Valid()
      ensures var s := old(View());
              View() == s.(clk := s.clk + inc, mem := s.mem[StoreAddress(f, addr, s.r) := U8(value)])
    {
      clk := clk + inc;
      match f
      case STORE_ZERO => Store(U8(addr), value);
      case STORE_ABS => Store(addr, value);
      case STORE_ABS_X => Store(addr + regX, value);
      case STORE_ABS_Y => Store(addr + regY, value);
      case STORE_ABS_X_RMW => Store(addr + regX, value);
      case STORE_ABS_Y_RMW => Store(addr + regY, value);
    }

    /** STORE_ABS_SH_X and STORE_ABS_SH_Y: a page crossing puts the value in the address. */
    method StoreAbsSh(addr: word, index: byte, value: byte, inc: nat)
      requires Valid()
      modifies this`clk, ram
      ensures Valid()
      ensures var s := old(View());
              var at := if Lo(addr) + index > 0xff then Word(Lo(addr + index), value) else addr + index;
              View() == s.(clk := s.clk + inc, mem := s.mem[at := value])
    {
      hide U16;
      clk := clk + inc;
      var tmp2 := addr + index;
      if Lo(addr) + index > 0xff {
        tmp2 := Lo(tmp2) + 0x100 * (value as int);
      }
      Store(tmp2, value);
    }

    // ----- Opcodes: arithmetic and logic -----

    /** The assignments an arithmetic macro makes: flag_z and flag_n by LOCAL_SET_ZERO and
        LOCAL_SET_SIGN, the rest in `reg_p`, the result in A. */
    method AssignSum(sum: Sum)
      requires Valid()
      modifies this`regA, this`regP, this`flagN, this`flagZ
      ensures Valid()
      ensures View() == old(View()).(r := WithSum(old(View()).r, sum))
    {
      flagZ := if sum.z then 0 else 1;
      flagN := if sum.n then 0x80 else 0;
      regP := regP.(v := sum.v, c := sum.c);
      regA := sum.r;
    }

    method AdcOp(value: byte, clkInc: nat, pcInc: nat)
      requires Valid()
      modifies this
      ensures Valid()
      ensures var s := old(View());
              View() == After(s, AddToA(s.r, value), clkInc, pcInc)
    {
      hide And, Adc, Sbc, ArrSum, U16;
      var sum := AdcMacro(regP.d, regA, value, regP.c);
      clk := clk + clkInc;
      AssignSum(sum);
      IncPc(pcInc);
    }

    method SbcOp(value: byte, clkInc: nat, pcInc: nat)
      requires Valid()
      modifies this
      ensures Valid()
      ensures var s := old(View());
              View() == After(s, SubtractFromA(s.r, value), clkInc, pcInc)
    {
      hide And, Adc, Sbc, ArrSum, U16;
      var sum := SbcMacro(regP.d, regA, value, regP.c);
      clk := clk + clkInc;
      AssignSum(sum);
      IncPc(pcInc);
    }

    method ArrOp(value: byte, pcInc: nat)
      requires Valid()
      modifies this
      ensures Valid()
      ensures var s := old(View());
              View() == After(s, RotateAnd(s.r, value), 0, pcInc)
    {
      hide And, Adc, Sbc, ArrSum, U16;
      var sum := ArrMacro(regP.d, And(regA, value), regP.c);
      AssignSum(sum);
      IncPc(pcInc);
    }

    method OraOp(value: byte, clkInc: nat, pcInc: nat)
      requires Valid()
      modifies this
      ensures Valid()
      ensures var s := old(View());
              View() == After(s, SetA(s.r, Or(s.r.a, value)), clkInc, pcInc)
    {
      hide And, Or, Xor, Bit7, Bit8, U8, U16, U32, Lo, Hi;
      var tmp := Or(regA, value);
      regA := tmp;
      flagZ, flagN := tmp, tmp;
      clk := clk + clkInc;
      IncPc(pcInc);
    }

    method AndOp(value: byte, clkInc: nat, pcInc: nat)
      requires Valid()
      modifies this
      ensures Valid()
      ensures var s := old(View());
              View() == After(s, SetA(s.r, And(s.r.a, value)), clkInc, pcInc)
    {
      hide And, Or, Xor, Bit7, Bit8, U8, U16, U32, Lo, Hi;
      var tmp := And(regA, value);
      regA := tmp;
      flagZ, flagN := tmp, tmp;
      clk := clk + clkInc;
      IncPc(pcInc);
    }

    method EorOp(value: byte, clkInc: nat, pcInc: nat)
      requires Valid()
      modifies this
      ensures Valid()
      ensures var s := old(View());
              View() == After(s, SetA(s.r, Xor(s.r.a, value)), clkInc, pcInc)
    {
      hide And, Or, Xor, Bit7, Bit8, U8, U16, U32, Lo, Hi;
      var tmp := Xor(regA, value);
      regA := tmp;
      flagZ, flagN := tmp, tmp;
      clk := clk + clkInc;
      IncPc(pcInc);
    }

    method BitOp(value: byte, pcInc: nat)
      requires Valid()
      modifies this
      ensures Valid()
      ensures var s := old(View());
              View() == After(s, BitTest(s.r, value), 1, pcInc)
    {
      hide And, Or, Xor, Bit7, Bit8, U8, U16, U32, Lo, Hi;
      clk := clk + 1;
      flagN := if Bit7(value) then 0x80 else 0;
      regP := regP.(v := Bit6(value));
      flagZ := if And(value, regA) == 0 then 0 else 1;
      IncPc(pcInc);
    }

    /** CMP, CPX and CPY: an unsigned subtraction that borrows iff it leaves the byte range. */
    method CompareOp(reg: byte, value: byte, clkInc: nat, pcInc: nat)
      requires Valid()
      modifies this
      ensures Valid()
      ensures var s := old(View());
              View() == After(s, CompareWith(s.r, reg, value), clkInc, pcInc)
    {
      hide And, Or, Xor, Bit7, Bit8, U8, U16, U32, Lo, Hi;
      var tmp := U32(reg - value);
      U8OfU32(reg - value);
      regP := regP.(c := tmp < 0x100);
      flagZ, flagN := U8(tmp), U8(tmp);
      clk := clk + clkInc;
      IncPc(pcInc);
    }

    method LdaOp(value: byte, clkInc: nat, pcInc: nat)
      requires Valid()
      modifies this
      ensures Valid()
      ensures var s := old(View());
              View() == After(s, SetA(s.r, value), clkInc, pcInc)
    {
      hide And, Or, Xor, Bit7, Bit8, U8, U16, U32, Lo, Hi;
      regA := value;
      clk := clk + clkInc;
      flagZ, flagN := value, value;
      IncPc(pcInc);
    }

    method LdxOp(value: byte, clkInc: nat, pcInc: nat)
      requires Valid()
      modifies this
      ensures Valid()
      ensures var s := old(View());
              View() == After(s, SetX(s.r, value), clkInc, pcInc)
    {
      hide And, Or, Xor, Bit7, Bit8, U8, U16, U32, Lo, Hi;
      regX := value;
      flagZ, flagN := regX, regX;
      clk := clk + clkInc;
      IncPc(pcInc);
    }

    method LdyOp(value: byte, clkInc: nat, pcInc: nat)
      requires Valid()
      modifies this
      ensures Valid()
      ensures var s := old(View());
              View() == After(s, SetY(s.r, value), clkInc, pcInc)
    {
      hide And, Or, Xor, Bit7, Bit8, U8, U16, U32, Lo, Hi;
      regY := value;
      flagZ, flagN := regY, regY;
      clk := clk + clkInc;
      IncPc(pcInc);
    }

    method LaxOp(value: byte, clkInc: nat, pcInc: nat)
      requires Valid()
      modifies this
      ensures Valid()
      ensures var s := old(View());
              View() == After(s, SetAX(s.r, value), clkInc, pcInc)
    {
      hide And, Or, Xor, Bit7, Bit8, U8, U16, U32, Lo, Hi;
      regX := value;
      regA := value;
      flagZ, flagN := value, value;
      clk := clk + clkInc;
      IncPc(pcInc);
    }

    method LasOp(value: byte, clkInc: nat, pcInc: nat)
      requires Valid()
      modifies this
      ensures Valid()
      ensures var s := old(View());
              View() == After(s, SetAXS(s.r, And(s.r.sp, value)), clkInc, pcInc)
    {
      hide And, Or, Xor, Bit7, Bit8, U8, U16, U32, Lo, Hi;
      regSp := And(regSp, value);
      regX := regSp;
      regA := regSp;
      flagZ, flagN := regSp, regSp;
      clk := clk + clkInc;
      IncPc(pcInc);
    }

    method AncOp(value: byte, pcInc: nat)
      requires Valid()
      modifies this
      ensures Valid()
      ensures var s := old(View());
              View() == After(s, SetC(SetA(s.r, And(s.r.a, value)), And(s.r.a, value) >= 0x80), 0, pcInc)
    {
      hide And, Or, Xor, Bit7, Bit8, U8, U16, U32, Lo, Hi;
      var tmp := And(regA, value);
      regA := tmp;
      flagZ, flagN := tmp, tmp;
      regP := regP.(c := Bit7(flagN));
      IncPc(pcInc);
    }

    method AsrOp(value: byte, pcInc: nat)
      requires Valid()
      modifies this
      ensures Valid()
      ensures var s := old(View());
              View() == After(s, SetC(SetA(s.r, And(s.r.a, value) / 2), And(s.r.a, value) % 2 == 1), 0, pcInc)
    {
      hide And, Or, Xor, Bit7, Bit8, U8, U16, U32, Lo, Hi;
      var tmp := And(regA, value);
      regP := regP.(c := tmp % 2 == 1);
      tmp := tmp / 2;
      regA := tmp;
      flagZ, flagN := tmp, tmp;
      IncPc(pcInc);
    }

    method AneOp(value: byte, pcInc: nat)
      requires Valid()
      modifies this
      ensures Valid()
      ensures var s := old(View());
              View() == After(s, SetA(s.r, And(And(Or(s.r.a, 0xff), s.r.x), value)), 0, pcInc)
    {
      hide And, Or, Xor, Bit7, Bit8, U8, U16, U32, Lo, Hi;
      var tmp := And(And(Or(regA, 0xff), regX), value);
      regA := tmp;
      flagZ, flagN := tmp, tmp;
      IncPc(pcInc);
    }

    method LxaOp(value: byte, pcInc: nat)
      requires Valid()
      modifies this
      ensures Valid()
      ensures var s := old(View());
              View() == After(s, SetAX(s.r, And(Or(s.r.a, 0xee), value)), 0, pcInc)
    {
      hide And, Or, Xor, Bit7, Bit8, U8, U16, U32, Lo, Hi;
      var tmp := And(Or(regA, 0xee), value);
      regX := tmp;
      regA := tmp;
      flagZ, flagN := tmp, tmp;
      IncPc(pcInc);
    }

    method SbxOp(value: byte, pcInc: nat)
      requires Valid()
      modifies this
      ensures Valid()
      ensures var s := old(View());
              View() == After(s, SubtractToX(s.r, value), 0, pcInc)
    {
      hide And, Or, Xor, Bit7, Bit8, U8, U16, U32, Lo, Hi;
      IncPc(pcInc);
      var tmp := U32(And(regA, regX) - value);
      U8OfU32(And(regA, regX) - value);
      regP := regP.(c := tmp < 0x100);
      regX := U8(tmp);
      flagZ, flagN := regX, regX;
    }

    // ----- Opcodes: read-modify-write -----

    /** reg_a_write(v), LOCAL_SET_NZ(v). */
    method AssignA(v: byte)
      requires Valid()
      modifies this`regA, this`flagN, this`flagZ
      ensures Valid()
      ensures View() == old(View()).(r := SetA(old(View()).r, v))
    {
      regA := v;
      flagZ, flagN := v, v;
    }

    /** LOCAL_SET_CARRY(reg_a >= v), LOCAL_SET_NZ(reg_a - v). */
    method AssignCompare(v: byte)
      requires Valid()
      modifies this`regP, this`flagN, this`flagZ
      ensures Valid()
      ensures View() == old(View()).(r := CompareWith(old(View()).r, old(View()).r.a, v))
    {
      hide U8;
      regP := regP.(c := regA >= v);
      flagZ, flagN := U8(regA - v), U8(regA - v);
    }

    /** The result and the flags of ASL on `v`. */
    method Asl(v: byte) returns (w: byte)
      requires Valid()
      modifies this`regP, this`flagN, this`flagZ
      ensures Valid() && w == Modified(ASL, v, old(regP.c))
      ensures View() == old(View()).(r := ApplyModify(ASL, v, w, old(View()).r))
    {
      hide And, Or, Xor, U8, U16, U32, Lo, Hi;
      regP := regP.(c := Bit7(v));
      w := U8(v * 2);
      flagZ, flagN := w, w;
    }

    method AslOp(addr: nat, clkInc: nat, pcInc: nat, load: LoadFn, store: StoreFn)
      requires Valid()
      modifies this, ram
      ensures Valid()
      ensures var s := old(View());
              View() == ModifyAt(ASL, s, LoadAddress(load, addr, s.r), StoreAddress(store, addr, s.r), LoadClk(load) + clkInc, pcInc)
    {
      hide Modified, ApplyModify, U8, U16, LoadAddress, LoadClk;
      var v := LoadBy(load, addr);
      var w := Asl(v);
      IncPc(pcInc);
      StoreBy(store, addr, w, clkInc);
    }

    /** The result and the flags of LSR on `v`. */
    method Lsr(v: byte) returns (w: byte)
      requires Valid()
      modifies this`regP, this`flagN, this`flagZ
      ensures Valid() && w == Modified(LSR, v, old(regP.c))
      ensures View() == old(View()).(r := ApplyModify(LSR, v, w, old(View()).r))
    {
      hide And, Or, Xor, U8, U16, U32, Lo, Hi;
      regP := regP.(c := v % 2 == 1);
      w := v / 2;
      flagZ, flagN := w, w;
    }

    method LsrOp(addr: nat, clkInc: nat, pcInc: nat, load: LoadFn, store: StoreFn)
      requires Valid()
      modifies this, ram
      ensures Valid()
      ensures var s := old(View());
              View() == ModifyAt(LSR, s, LoadAddress(load, addr, s.r), StoreAddress(store, addr, s.r), LoadClk(load) + clkInc, pcInc)
    {
      hide Modified, ApplyModify, U8, U16, LoadAddress, LoadClk;
      var v := LoadBy(load, addr);
      var w := Lsr(v);
      IncPc(pcInc);
      StoreBy(store, addr, w, clkInc);
    }

    /** The result and the flags of ROL on `v`. */
    method Rol(v: byte) returns (w: byte)
      requires Valid()
      modifies this`regP, this`flagN, this`flagZ
      ensures Valid() && w == Modified(ROL, v, old(regP.c))
      ensures View() == old(View()).(r := ApplyModify(ROL, v, w, old(View()).r))
    {
      hide And, Or, Xor, U8, U16, U32, Lo, Hi;
      var tmp := v * 2 + (if regP.c then 1 else 0);
      regP := regP.(c := Bit8(tmp));
      w := U8(tmp);
      flagZ, flagN := w, w;
    }

    method RolOp(addr: nat, clkInc: nat, pcInc: nat, load: LoadFn, store: StoreFn)
      requires Valid()
      modifies this, ram
      ensures Valid()
      ensures var s := old(View());
              View() == ModifyAt(ROL, s, LoadAddress(load, addr, s.r), StoreAddress(store, addr, s.r), LoadClk(load) + clkInc, pcInc)
    {
      hide Modified, ApplyModify, U8, U16, LoadAddress, LoadClk;
      var v := LoadBy(load, addr);
      var w := Rol(v);
      IncPc(pcInc);
      StoreBy(store, addr, w, clkInc);
    }

    /** The result and the flags of ROR on `v`. */
    method Ror(v: byte) returns (w: byte)
      requires Valid()
      modifies this`regP, this`flagN, this`flagZ
      ensures Valid() && w == Modified(ROR, v, old(regP.c))
      ensures View() == old(View()).(r := ApplyModify(ROR, v, w, old(View()).r))
    {
      hide And, Or, Xor, U8, U16, U32, Lo, Hi;
      var src := v + (if regP.c then 0x100 else 0);
      regP := regP.(c := src % 2 == 1);
      w := src / 2;
      flagZ, flagN := w, w;
    }

    method RorOp(addr: nat, clkInc: nat, pcInc: nat, load: LoadFn, store: StoreFn)
      requires Valid()
      modifies this, ram
      ensures Valid()
      ensures var s := old(View());
              View() == ModifyAt(ROR, s, LoadAddress(load, addr, s.r), StoreAddress(store, addr, s.r), LoadClk(load) + clkInc, pcInc)
    {
      hide Modified, ApplyModify, U8, U16, LoadAddress, LoadClk;
      var v := LoadBy(load, addr);
      var w := Ror(v);
      IncPc(pcInc);
      StoreBy(store, addr, w, clkInc);
    }

    /** The result and the flags of INC on `v`. */
    method Inc(v: byte) returns (w: byte)
      requires Valid()
      modifies this`flagN, this`flagZ
      ensures Valid() && w == Modified(INC, v, old(regP.c))
      ensures View() == old(View()).(r := ApplyModify(INC, v, w, old(View()).r))
    {
      hide And, Or, Xor, U8, U16, U32, Lo, Hi;
      w := U8(v + 1);
      flagZ, flagN := w, w;
    }

    method IncOp(addr: nat, clkInc: nat, pcInc: nat, load: LoadFn, store: StoreFn)
      requires Valid()
      modifies this, ram
      ensures Valid()
      ensures var s := old(View());
              View() == ModifyAt(INC, s, LoadAddress(load, addr, s.r), StoreAddress(store, addr, s.r), LoadClk(load) + clkInc, pcInc)
    {
      hide Modified, ApplyModify, U8, U16, LoadAddress, LoadClk;
      var v := LoadBy(load, addr);
      var w := Inc(v);
      IncPc(pcInc);
      StoreBy(store, addr, w, clkInc);
    }

    /** The result and the flags of DEC on `v`. */
    method Dec(v: byte) returns (w: byte)
      requires Valid()
      modifies this`flagN, this`flagZ
      ensures Valid() && w == Modified(DEC, v, old(regP.c))
      ensures View() == old(View()).(r := ApplyModify(DEC, v, w, old(View()).r))
    {
      hide And, Or, Xor, U8, U16, U32, Lo, Hi;
      w := U8(v - 1);
      flagZ, flagN := w, w;
    }

    method DecOp(addr: nat, clkInc: nat, pcInc: nat, load: LoadFn, store: StoreFn)
      requires Valid()
      modifies this, ram
      ensures Valid()
      ensures var s := old(View());
              View() == ModifyAt(DEC, s, LoadAddress(load, addr, s.r), StoreAddress(store, addr, s.r), LoadClk(load) + clkInc, pcInc)
    {
      hide Modified, ApplyModify, U8, U16, LoadAddress, LoadClk;
      var v := LoadBy(load, addr);
      var w := Dec(v);
      IncPc(pcInc);
      StoreBy(store, addr, w, clkInc);
    }

    /** The result and the flags of SLO on `v`. */
    method Slo(v: byte) returns (w: byte)
      requires Valid()
      modifies this`regA, this`regP, this`flagN, this`flagZ
      ensures Valid() && w == Modified(SLO, v, old(regP.c))
      ensures View() == old(View()).(r := ApplyModify(SLO, v, w, old(View()).r))
    {
      hide And, Or, Xor, U8, U16, U32, Lo, Hi;
      regP := regP.(c := Bit7(v));
      w := U8(v * 2);
      AssignA(Or(regA, w));
    }

    method SloOp(addr: nat, clkInc1: nat, clkInc2: nat, pcInc: nat, load: LoadFn, store: StoreFn)
      requires Valid()
      modifies this, ram
      ensures Valid()
      ensures var s := old(View());
              View() == ModifyAt(SLO, s, LoadAddress(load, addr, s.r), StoreAddress(store, addr, s.r), clkInc1 + LoadClk(load) + clkInc2, pcInc)
    {
      hide Modified, ApplyModify, U8, U16, LoadAddress, LoadClk;
      clk := clk + clkInc1;
      var v := LoadBy(load, addr);
      var w := Slo(v);
      IncPc(pcInc);
      StoreBy(store, addr, w, clkInc2);
    }

    /** The result and the flags of RLA on `v`. */
    method Rla(v: byte) returns (w: byte)
      requires Valid()
      modifies this`regA, this`regP, this`flagN, this`flagZ
      ensures Valid() && w == Modified(RLA, v, old(regP.c))
      ensures View() == old(View()).(r := ApplyModify(RLA, v, w, old(View()).r))
    {
      hide And, Or, Xor, U8, U16, U32, Lo, Hi;
      var tmp := v * 2 + (if regP.c then 1 else 0);
      regP := regP.(c := Bit8(tmp));
      w := U8(tmp);
      AssignA(And(regA, w));
    }

    method RlaOp(addr: nat, clkInc1: nat, clkInc2: nat, pcInc: nat, load: LoadFn, store: StoreFn)
      requires Valid()
      modifies this, ram
      ensures Valid()
      ensures var s := old(View());
              View() == ModifyAt(RLA, s, LoadAddress(load, addr, s.r), StoreAddress(store, addr, s.r), clkInc1 + LoadClk(load) + clkInc2, pcInc)
    {
      hide Modified, ApplyModify, U8, U16, LoadAddress, LoadClk;
      clk := clk + clkInc1;
      var v := LoadBy(load, addr);
      var w := Rla(v);
      IncPc(pcInc);
      StoreBy(store, addr, w, clkInc2);
    }

    /** The result and the flags of SRE on `v`. */
    method Sre(v: byte) returns (w: byte)
      requires Valid()
      modifies this`regA, this`regP, this`flagN, this`flagZ
      ensures Valid() && w == Modified(SRE, v, old(regP.c))
      ensures View() == old(View()).(r := ApplyModify(SRE, v, w, old(View()).r))
    {
      hide And, Or, Xor, U8, U16, U32, Lo, Hi;
      regP := regP.(c := v % 2 == 1);
      w := v / 2;
      AssignA(Xor(regA, w));
    }

    method SreOp(addr: nat, clkInc1: nat, clkInc2: nat, pcInc: nat, load: LoadFn, store: StoreFn)
      requires Valid()
      modifies this, ram
      ensures Valid()
      ensures var s := old(View());
              View() == ModifyAt(SRE, s, LoadAddress(load, addr, s.r), StoreAddress(store, addr, s.r), clkInc1 + LoadClk(load) + clkInc2, pcInc)
    {
      hide Modified, ApplyModify, U8, U16, LoadAddress, LoadClk;
      clk := clk + clkInc1;
      var v := LoadBy(load, addr);
      var w := Sre(v);
      IncPc(pcInc);
      StoreBy(store, addr, w, clkInc2);
    }

    /** The result and the flags of DCP on `v`. */
    method Dcp(v: byte) returns (w: byte)
      requires Valid()
      modifies this`regP, this`flagN, this`flagZ
      ensures Valid() && w == Modified(DCP, v, old(regP.c))
      ensures View() == old(View()).(r := ApplyModify(DCP, v, w, old(View()).r))
    {
      hide And, Or, Xor, U8, U16, U32, Lo, Hi;
      w := U8(v - 1);
      AssignCompare(w);
    }

    method DcpOp(addr: nat, clkInc1: nat, clkInc2: nat, pcInc: nat, load: LoadFn, store: StoreFn)
      requires Valid()
      modifies this, ram
      ensures Valid()
      ensures var s := old(View());
              View() == ModifyAt(DCP, s, LoadAddress(load, addr, s.r), StoreAddress(store, addr, s.r), clkInc1 + LoadClk(load) + clkInc2, pcInc)
    {
      hide Modified, ApplyModify, U8, U16, LoadAddress, LoadClk;
      clk := clk + clkInc1;
      var v := LoadBy(load, addr);
      var w := Dcp(v);
      IncPc(pcInc);
      StoreBy(store, addr, w, clkInc2);
    }

    /** LOCAL_SET_CARRY by the bit rotated out. */
    method Rra(v: byte) returns (w: byte)
      requires Valid()
      modifies this`regP
      ensures Valid() && w == Modified(RRA, v, old(regP.c))
      ensures View() == old(View()).(r := SetC(old(View()).r, v % 2 == 1))
    {
      w := v / 2 + (if regP.c then 0x80 else 0);
      regP := regP.(c := v % 2 == 1);
    }

    method RraOp(addr: nat, clkInc1: nat, clkInc2: nat, pcInc: nat, load: LoadFn, store: StoreFn)
      requires Valid()
      modifies this, ram
      ensures Valid()
      ensures var s := old(View());
              View() == ModifyAt(RRA, s, LoadAddress(load, addr, s.r), StoreAddress(store, addr, s.r), clkInc1 + LoadClk(load) + clkInc2, pcInc)
    {
      hide AddToA, Modified, U8, U16, LoadAddress, LoadClk;
      clk := clk + clkInc1;
      var v := LoadBy(load, addr);
      var w := Rra(v);
      IncPc(pcInc);
      AdcOp(w, 0, 0);
      StoreBy(store, addr, w, clkInc2);
    }

    method IsbOp(addr: nat, clkInc1: nat, clkInc2: nat, pcInc: nat, load: LoadFn, store: StoreFn)
      requires Valid()
      modifies this, ram
      ensures Valid()
      ensures var s := old(View());
              View() == ModifyAt(ISB, s, LoadAddress(load, addr, s.r), StoreAddress(store, addr, s.r), clkInc1 + LoadClk(load) + clkInc2, pcInc)
    {
      hide SubtractFromA, U8, U16, LoadAddress, LoadClk;
      clk := clk + clkInc1;
      var mySrc: int := LoadBy(load, addr);
      var w := U8(mySrc + 1);
      SbcOp(w, 0, 0);
      IncPc(pcInc);
      StoreBy(store, addr, w, clkInc2);
    }

    /** The opening of the (nn),Y forms: pointer, dummy read, index; three cycles. */
    method RmwIndY(addr: byte) returns (ea: nat)
      requires Valid()
      modifies this`clk
      ensures Valid()
      ensures var s := old(View());
              ea == ZpWord(s.mem, addr) + s.r.y && View() == s.(clk := s.clk + 3)
    {
      ea := LoadZeroAddr(addr);
      clk := clk + 2;
      clk := clk + 1;
      ea := ea + regY;
    }

    method AslA(ghost s: Cpu)
      requires Valid()
      requires View() == s.(clk := s.clk + 2)
      modifies this
      ensures Valid()
      ensures View() == ExecModifyA(ASL, s)
    {
      hide Bit7, U8, U16;
      var tmp: int := regA;
      regP := regP.(c := Bit7(tmp));
      tmp := U8(tmp * 2);
      regA := tmp;
      flagZ, flagN := tmp, tmp;
      IncPc(1);
    }

    method LsrA(ghost s: Cpu)
      requires Valid()
      requires View() == s.(clk := s.clk + 2)
      modifies this
      ensures Valid()
      ensures View() == ExecModifyA(LSR, s)
    {
      hide U16;
      var tmp := regA;
      regP := regP.(c := tmp % 2 == 1);
      tmp := tmp / 2;
      regA := tmp;
      flagZ, flagN := tmp, tmp;
      IncPc(1);
    }

    method RolA(ghost s: Cpu)
      requires Valid()
      requires View() == s.(clk := s.clk + 2)
      modifies this
      ensures Valid()
      ensures View() == ExecModifyA(ROL, s)
    {
      hide Bit8, U8, U16;
      var tmp: int := regA * 2;
      tmp := tmp + (if regP.c then 1 else 0);
      regA := U8(tmp);
      flagZ, flagN := U8(tmp), U8(tmp);
      regP := regP.(c := Bit8(tmp));
      IncPc(1);
    }

    /** `reg_p << 7` leaves only the carry in a byte. */
    method RorA(ghost s: Cpu)
      requires Valid()
      requires View() == s.(clk := s.clk + 2)
      modifies this
      ensures Valid()
      ensures View() == ExecModifyA(ROR, s)
    {
      hide U16;
      var tmp := regA;
      var tmp2 := tmp / 2 + (if regP.c then 0x80 else 0);
      regP := regP.(c := tmp % 2 == 1);
      regA := tmp2;
      flagZ, flagN := tmp2, tmp2;
      IncPc(1);
    }

    // ----- Opcodes: stores -----

    /** STA, STX, STY, SAX and their zero-page forms. */
    method StOp(addr: nat, value: byte, clkInc: nat, pcInc: nat, store: StoreFn)
      requires Valid()
      modifies this, ram
      ensures Valid()
      ensures var s := old(View());
              View() == After(s, s.r, clkInc, pcInc).(mem := s.mem[StoreAddress(store, addr, s.r) := value])
    {
      hide U16, U8;
      IncPc(pcInc);
      StoreBy(store, addr, value, clkInc);
    }

    method StaIndY(addr: byte)
      requires Valid()
      modifies this, ram
      ensures Valid()
      ensures var s := old(View());
              View() == After(s, s.r, 4, 2).(mem := s.mem[U16(ZpWord(s.mem, addr) + s.r.y) := s.r.a])
    {
      hide U16, U8;
      clk := clk + 2;
      var tmp := LoadZeroAddr(addr);
      clk := clk + 2;
      IncPc(2);
      Store(tmp + regY, regA);
    }

    method ShaAbsY(addr: word)
      requires Valid()
      modifies this, ram
      ensures Valid()
      ensures var s := old(View()); View() == AfterHigh(s, SHA, addr, s.r.y, 2, 3)
    {
      hide And, U16, U8, Lo;
      IncPc(3);
      StoreAbsSh(addr, regY, And(And(regA, regX), U8(addr / 0x100 + 1)), 2);
    }

    method ShaIndY(addr: byte)
      requires Valid()
      modifies this, ram
      ensures Valid()
      ensures var s := old(View()); View() == AfterHigh(s, SHA, ZpWord(s.mem, addr), s.r.y, 4, 2)
    {
      hide And, U16, U8, Lo;
      clk := clk + 2;
      var tmp: nat := LoadZeroAddr(addr);
      clk := clk + 2;
      var val: int := And(And(regA, regX), U8(tmp / 0x100 + 1));
      if Lo(tmp) + regY > 0xff {
        tmp := Lo(tmp + regY) + 0x100 * val;
      } else {
        tmp := tmp + regY;
      }
      IncPc(2);
      Store(tmp, val);
    }

    method ShxAbsY(addr: word)
      requires Valid()
      modifies this, ram
      ensures Valid()
      ensures var s := old(View()); View() == AfterHigh(s, SHX, addr, s.r.y, 2, 3)
    {
      hide And, U16, U8, Lo;
      IncPc(3);
      StoreAbsSh(addr, regY, And(regX, U8(addr / 0x100 + 1)), 2);
    }

    method ShyAbsX(addr: word)
      requires Valid()
      modifies this, ram
      ensures Valid()
      ensures var s := old(View()); View() == AfterHigh(s, SHY, addr, s.r.x, 2, 3)
    {
      hide And, U16, U8, Lo;
      IncPc(3);
      StoreAbsSh(addr, regX, And(regY, U8(addr / 0x100 + 1)), 2);
    }

    method ShsAbsY(addr: word)
      requires Valid()
      modifies this, ram
      ensures Valid()
      ensures var s := old(View());
              View() == AfterHigh(s, SHS, addr, s.r.y, 2, 3).(r := s.r.(sp := And(s.r.a, s.r.x)))
    {
      hide And, U16, U8, Lo;
      IncPc(3);
      StoreAbsSh(addr, regY, And(And(regA, regX), U8(addr / 0x100 + 1)), 2);
      regSp := And(regA, regX);
    }

    // ----- Opcodes: registers and flags -----

    /** CLC, SEC, CLV, CLD and SED. */
    method FlagOpcode(op: ImpliedOp, ghost s: Cpu)
      requires Valid() && op in {CLC, SEC, CLV, CLD, SED}
      requires View() == s.(clk := s.clk + 2)
      modifies this`regP, this`regPc
      ensures Valid()
      ensures View() == ExecImplied(op, s)
    {
      hide U16;
      IncPc(1);
      if op == CLV {
        regP := regP.(v := false);
      } else if op in {CLD, SED} {
        regP := regP.(d := op == SED);
      } else {
        regP := regP.(c := op == SEC);
      }
    }

    /** CLI and SEI, with their note for the interrupt logic. */
    method InterruptFlagOpcode(op: ImpliedOp, ghost s: Cpu)
      requires Valid() && op in {CLI, SEI}
      requires View() == s.(clk := s.clk + 2)
      modifies this`regP, this`regPc, this`opInfo
      ensures Valid()
      ensures View() == ExecImplied(op, s)
    {
      hide U16;
      IncPc(1);
      if op == CLI {
        if regP.i {
          opInfo := opInfo.(enablesIrq := true);
        }
        regP := regP.(i := false);
      } else {
        if !regP.i {
          opInfo := opInfo.(disablesIrq := true);
        }
        regP := regP.(i := true);
      }
    }

    /** The transfers to and from the accumulator. */
    method TransferOpcode(op: ImpliedOp, ghost s: Cpu)
      requires Valid() && op in {TAX, TXA, TAY, TYA}
      requires View() == s.(clk := s.clk + 2)
      modifies this`regA, this`regX, this`regY, this`flagN, this`flagZ, this`regPc
      ensures Valid()
      ensures View() == ExecImplied(op, s)
    {
      hide U16, U8;
      IncPc(1);
      match op
      case TAX => regX := regA; flagZ, flagN := regX, regX;
      case TXA => regA := regX; flagZ, flagN := regX, regX;
      case TAY => regY := regA; flagZ, flagN := regY, regY;
      case TYA => regA := regY; flagZ, flagN := regY, regY;
      case _ => assert false;
    }

    /** The transfers to and from the stack pointer. */
    method StackTransferOpcode(op: ImpliedOp, ghost s: Cpu)
      requires Valid() && op in {TSX, TXS}
      requires View() == s.(clk := s.clk + 2)
      modifies this`regX, this`regSp, this`flagN, this`flagZ, this`regPc
      ensures Valid()
      ensures View() == ExecImplied(op, s)
    {
      hide U16, U8;
      IncPc(1);
      if op == TSX {
        regX := regSp;
        flagZ, flagN := regSp, regSp;
      } else {
        regSp := regX;
      }
    }

    /** INX, DEX and NOP. */
    method CountOpcode(op: ImpliedOp, ghost s: Cpu)
      requires Valid() && op in {INX, DEX, NOP}
      requires View() == s.(clk := s.clk + 2)
      modifies this`regX, this`flagN, this`flagZ, this`regPc
      ensures Valid()
      ensures View() == ExecImplied(op, s)
    {
      hide U16, U8;
      IncPc(1);
      if op != NOP {
        regX := if op == INX then U8(regX + 1) else U8(regX - 1);
        flagZ, flagN := regX, regX;
      }
    }

    /** INY and DEY. */
    method CountYOpcode(op: ImpliedOp, ghost s: Cpu)
      requires Valid() && op in {INY, DEY}
      requires View() == s.(clk := s.clk + 2)
      modifies this`regY, this`flagN, this`flagZ, this`regPc
      ensures Valid()
      ensures View() == ExecImplied(op, s)
    {
      hide U16, U8;
      IncPc(1);
      regY := if op == INY then U8(regY + 1) else U8(regY - 1);
      flagZ, flagN := regY, regY;
    }

    // ----- Opcodes: control flow and stack -----

    method BranchOp(cond: bool, value: byte, ghost t: Test, ghost s: Cpu)
      requires Valid() && cond == Holds(t, s.r.f)
      requires View() == s.(clk := s.clk + 2)
      modifies this
      ensures Valid()
      ensures View() == ExecBranch(t, value, s)
    {
      hide Holds, U16, U32, Hi, Lo, Word;
      IncPc(2);
      if cond {
        var destAddr := U32(regPc + Signed(value));
        BranchTarget(regPc, Signed(value));
        clk := clk + 1;
        if Hi(regPc) != Hi(destAddr) {
          clk := clk + 1;
        } else {
          opInfo := opInfo.(delaysInterrupt := true);
        }
        Jump(U16(destAddr));
      }
    }

    method JmpIndOp(p2: word, ghost s: Cpu)
      requires Valid()
      requires View() == s.(clk := s.clk + 3)
      modifies this
      ensures Valid()
      ensures View() == ExecJmpInd(p2, s)
    {
      hide Lo, Hi, U8, U16, Word;
      var lo := Load(p2);
      clk := clk + 1;
      var hi := Load(Word(Lo(p2 + 1), Hi(p2)));
      clk := clk + 1;
      Jump(Word(lo, hi));
    }

    method JsrOp(p1: byte, ghost s: Cpu)
      requires Valid() && CallAgrees(s)
      requires View() == s.(clk := s.clk + 2)
      modifies this, ram
      ensures Valid()
      ensures View() == ExecJsr(p1, s)
    {
      hide U8, U16, Lo, Hi, Word;
      SmallPc(regPc);
      clk := clk + 1;
      IncPc(2);
      clk := clk + 2;
      PushReturn(s);
      var p2 := FetchLast(s);
      clk := clk + 1;
      Jump(Word(p1, p2));
    }

    method PushReturn(ghost s: Cpu)
      requires Valid() && U16(regPc) == U16(s.pc + 2) && ram[..] == s.mem && regSp == s.r.sp
      modifies this`regSp, ram
      ensures Valid() && View() == old(View()).(mem := CallMemory(s), r := old(View()).r.(sp := U8(s.r.sp - 2)))
    {
      hide U8, U16, Lo, Hi;
      HiLoOfU16(regPc);
      U8Add(regSp - 1, -1);
      PushByte(Hi(regPc));
      PushByte(Lo(regPc));
    }

    /** The last byte of the call, wherever it is fetched from. */
    method FetchLast(ghost s: Cpu) returns (p2: byte)
      requires Valid() && CallAgrees(s) && ram[..] == CallMemory(s) && U16(regPc) == U16(s.pc + 2)
      requires regPc < bankLimit ==> s.pc <= 0xfffd && regPc == s.pc + 2
      ensures p2 == CallMemory(s)[U16(s.pc + 2)]
    {
      hide CallMemory;
      p2 := FetchParam(regPc);
    }

    static lemma SmallPc(pc: nat)
      ensures pc <= 0xfffd ==> U16(pc) == pc && U16(pc + 2) == pc + 2
    {
    }

    method RtsOp(ghost s: Cpu)
      requires Valid()
      requires View() == s.(clk := s.clk + 2)
      modifies this
      ensures Valid()
      ensures View() == ExecRts(s)
    {
      hide U16, U8, Word;
      clk := clk + 3;
      U8Add(regSp + 1, 1);
      var lo := Pull();
      var hi := Pull();
      Jump(Word(lo, hi));
      clk := clk + 1;
      IncPc(1);
    }

    method RtiOp(ghost s: Cpu)
      requires Valid()
      requires View() == s.(clk := s.clk + 2)
      modifies this
      ensures Valid()
      ensures View() == ExecRti(s)
    {
      hide U16, U8, Word, FlagsOf;
      clk := clk + 4;
      U8Add(regSp + 1, 1);
      U8Add(regSp + 1, 2);
      var status := Pull();
      SetStatus(status);
      var lo, hi := PullAddress();
      Jump(Word(lo, hi));
    }

    /** Two bytes from the stack. */
    method PullAddress() returns (lo: byte, hi: byte)
      requires Valid()
      modifies this`regSp
      ensures Valid()
      ensures var s := old(View());
              View() == s.(r := s.r.(sp := U8(s.r.sp + 2))) && lo == Pulled(s, 1) && hi == Pulled(s, 2)
    {
      hide U8;
      U8Add(regSp + 1, 1);
      lo := Pull();
      hi := Pull();
    }

    /** LOCAL_SET_STATUS. */
    method SetStatus(status: byte)
      requires Valid()
      modifies this`regP, this`flagN, this`flagZ
      ensures Valid()
      ensures var s := old(View()); View() == s.(r := s.r.(f := FlagsOf(status)))
    {
      SetStatusLoads(status);
      regP := StatusToP(status);
      flagZ := StatusToZ(status);
      flagN := status;
    }

    method BrkOp(nmi: bool, ghost s: Cpu)
      requires Valid()
      requires View() == s.(clk := s.clk + 2)
      modifies this, ram
      ensures Valid()
      ensures View() == EnterHandler(s, U16(s.pc + 2), true, nmi)
    {
      hide U16, U8, Hi, Lo, StatusByte;
      IncPc(2);
      regP := regP.(b := true);
      EnterVector(nmi);
    }

    /** Return address and status onto the stack, three cycles. */
    method PushState()
      requires Valid()
      modifies this`regSp, this`clk, ram
      ensures Valid()
      ensures var s := old(View());
              View() == s.(r := s.r.(sp := U8(s.r.sp - 3)), mem := PushFrame(s.mem, s.r.sp, s.pc, StatusByte(s.r.f)), clk := s.clk + 3)
    {
      hide U8, U16, Hi, Lo, StatusByte;
      HiLoOfU16(regPc);
      U8Add(regSp - 1, -1);
      U8Add(regSp - 2, -1);
      PushByte(Hi(regPc));
      PushByte(Lo(regPc));
      clk := clk + 2;
      PushByte(LocalStatus(regP, flagN, flagZ));
      clk := clk + 1;
    }

    /** The part BRK and the interrupts share: three pushes, alarms, I set, vector. */
    method EnterVector(nmi: bool)
      requires Valid()
      modifies this, ram
      ensures Valid()
      ensures var s := old(View()); View() == EnterHandler(s, s.pc, s.r.f.b, nmi).(clk := s.clk + 5)
    {
      hide U8, PushFrame, StatusByte, WordAt;
      PushState();
      // alarms due by now are processed here
      regP := regP.(i := true);
      JumpThrough(nmi);
      clk := clk + 2;
    }

    method JumpThrough(nmi: bool)
      requires Valid()
      modifies this`regPc, this`bankStart, this`bankLimit
      ensures Valid()
      ensures var s := old(View()); View() == s.(pc := WordAt(s.mem, if nmi then 0xfffa else 0xfffe))
    {
      if nmi {
        Jump(LoadAddr(0xfffa));
      } else {
        Jump(LoadAddr(0xfffe));
      }
    }

    method PhaOp(ghost s: Cpu)
      requires Valid()
      requires View() == s.(clk := s.clk + 2)
      modifies this, ram
      ensures Valid()
      ensures View() == ExecPush(s.r.a, s)
    {
      hide U16;
      clk := clk + 1;
      PushByte(regA);
      IncPc(1);
    }

    method PhpOp(ghost s: Cpu)
      requires Valid()
      requires View() == s.(clk := s.clk + 2)
      modifies this, ram
      ensures Valid()
      ensures View() == ExecPush(StatusByte(s.r.f.(b := true)), s)
    {
      hide U16, StatusByte;
      clk := clk + 1;
      PushByte(LocalStatus(regP.(b := true), flagN, flagZ));
      IncPc(1);
    }

    method PlaOp(ghost s: Cpu)
      requires Valid()
      requires View() == s.(clk := s.clk + 2)
      modifies this
      ensures Valid()
      ensures View() == ExecPla(s)
    {
      hide U16;
      clk := clk + 2;
      var tmp := Pull();
      regA := tmp;
      flagZ, flagN := tmp, tmp;
      IncPc(1);
    }

    method PlpOp(ghost s: Cpu)
      requires Valid()
      requires View() == s.(clk := s.clk + 2)
      modifies this
      ensures Valid()
      ensures View() == ExecPlp(s)
    {
      hide U16;
      var status := Pull();
      ghost var f := FlagsOf(status);
      var newI := (status / 4) % 2 == 1;
      if !newI && regP.i {
        opInfo := opInfo.(enablesIrq := true);
      } else if newI && !regP.i {
        opInfo := opInfo.(disablesIrq := true);
      }
      clk := clk + 2;
      SetStatus(status);
      IncPc(1);
    }

    // ----- The opcode switch -----

    method Noop(clkInc: nat, pcInc: nat)
      requires Valid()
      modifies this`clk, this`regPc
      ensures Valid()
      ensures var s := old(View()); View() == After(s, s.r, clkInc, pcInc)
    {
      hide U16;
      clk := clk + clkInc;
      IncPc(pcInc);
    }

    method NoopAbsX(p2: word)
      requires Valid()
      modifies this`clk, this`regPc
      ensures Valid()
      ensures var s := old(View()); View() == After(s, s.r, if Lo(p2) + s.r.x > 0xff then 2 else 1, 3)
    {
      hide U16;
      var v := LoadAbsX(p2);
      clk := clk + 1;
      IncPc(3);
    }

    /** The state after FETCH_OPCODE has read opcode `p0` at the start of an instruction in state `s`;
        the operand word is right wherever the third byte belongs to the fetch. */
    ghost predicate Fetched(p0: byte, p2: word, operand: word, s: Cpu)
      requires Valid()
      reads this, ram
    {
      View() == s.(clk := s.clk + if FetchTab(p0) then 3 else 2) && (FetchTab(p0) ==> p2 == operand)
    }

    method Opcodes00(p0: byte, p1: byte, p2: word, nmi: bool, ghost operand: word, ghost s: Cpu)
      requires Valid() && 0x00 <= p0 <= 0x03 && !Decode(p0).Jam?
      requires Fetched(p0, p2, operand, s)
      modifies this, ram
      ensures Valid()
      ensures View() == Execute(Decode(p0), p1, operand, nmi, s)
    {
      hide Decode, Modified, ApplyModify, And, Or, Xor, Bit6, Bit7, U8, U16, Lo, Hi, Word, SetA, SetX, SetY, SetAX, SetAXS, SetC,
           SetFlags, SetNZ, AddToA, SubtractFromA, CompareWith, BitTest, RotateAnd, SubtractToX, HighAddress,
           HighValue, ExecModifyA, ExecImplied, ExecBranch, ExecJmpInd, ExecJsr, ExecRts, ExecRti, ExecPush,
           ExecPla, ExecPlp, EnterHandler, StatusByte, Interrupt, ExecWrite, Stored, WriteCycles, ExecHigh,
           HighSource, HighBase, HighIndex, AfterHigh, Holds;
      Row0Low();
      match p0
      case 0x00 => BrkOp(nmi, s);
      case 0x01 => var v := LoadIndX(p1); OraOp(v, 1, 2);
      case 0x03 => SloOp(LoadZeroAddr(p1 + regX), 3, 3, 2, LOAD_ABS, STORE_ABS);
      case _ => assert false;
    }

    method Opcodes04(p0: byte, p1: byte, p2: word, nmi: bool, ghost operand: word, ghost s: Cpu)
      requires Valid() && 0x04 <= p0 <= 0x07 && !Decode(p0).Jam?
      requires Fetched(p0, p2, operand, s)
      modifies this, ram
      ensures Valid()
      ensures View() == Execute(Decode(p0), p1, operand, nmi, s)
    {
      hide Decode, Modified, ApplyModify, And, Or, Xor, Bit6, Bit7, U8, U16, Lo, Hi, Word, SetA, SetX, SetY, SetAX, SetAXS, SetC,
           SetFlags, SetNZ, AddToA, SubtractFromA, CompareWith, BitTest, RotateAnd, SubtractToX, HighAddress,
           HighValue, ExecModifyA, ExecImplied, ExecBranch, ExecJmpInd, ExecJsr, ExecRts, ExecRti, ExecPush,
           ExecPla, ExecPlp, EnterHandler, StatusByte, Interrupt, ExecWrite, Stored, WriteCycles, ExecHigh,
           HighSource, HighBase, HighIndex, AfterHigh, ZpWord, Holds;
      Row0Low();
      match p0
      case 0x04 => Noop(1, 2);
      case 0x05 => OraOp(LoadZero(p1), 1, 2);
      case 0x06 => AslOp(p1, 3, 2, LOAD_ZERO, STORE_ABS);
      case 0x07 => SloOp(p1, 0, 3, 2, LOAD_ZERO, STORE_ABS);
      case _ => assert false;
    }

    method Opcodes08(p0: byte, p1: byte, p2: word, nmi: bool, ghost operand: word, ghost s: Cpu)
      requires Valid() && 0x08 <= p0 <= 0x0b && !Decode(p0).Jam?
      requires Fetched(p0, p2, operand, s)
      modifies this, ram
      ensures Valid()
      ensures View() == Execute(Decode(p0), p1, operand, nmi, s)
    {
      hide Decode, And, Or, Xor, Bit6, Bit7, U8, U16, Lo, Hi, Word, SetA, SetX, SetY, SetAX, SetAXS, SetC,
           SetFlags, SetNZ, AddToA, SubtractFromA, CompareWith, BitTest, RotateAnd, SubtractToX, HighAddress,
           HighValue, ExecModifyA, ExecImplied, ExecBranch, ExecJmpInd, ExecJsr, ExecRts, ExecRti, ExecPush,
           ExecPla, ExecPlp, EnterHandler, StatusByte, Interrupt, ExecModify, Modified, ApplyModify, ModifyCycles,
           LoadAddress, LoadClk, StoreAddress, ModifyAt, ExecWrite, Stored, WriteCycles, ExecHigh, HighSource,
           HighBase, HighIndex, AfterHigh, ZpWord, Holds;
      Row0High();
      match p0
      case 0x08 => PhpOp(s);
      case 0x09 => OraOp(p1, 0, 2);
      case 0x0a => AslA(s);
      case 0x0b => AncOp(p1, 2);
      case _ => assert false;
    }

    method Opcodes0C(p0: byte, p1: byte, p2: word, nmi: bool, ghost operand: word, ghost s: Cpu)
      requires Valid() && 0x0c <= p0 <= 0x0d && !Decode(p0).Jam?
      requires Fetched(p0, p2, operand, s)
      modifies this, ram
      ensures Valid()
      ensures View() == Execute(Decode(p0), p1, operand, nmi, s)
    {
      hide Decode, Modified, ApplyModify, And, Or, Xor, Bit6, Bit7, U8, U16, Lo, Hi, Word, SetA, SetX, SetY, SetAX, SetAXS, SetC,
           SetFlags, SetNZ, AddToA, SubtractFromA, CompareWith, BitTest, RotateAnd, SubtractToX, HighAddress,
           HighValue, ExecModifyA, ExecImplied, ExecBranch, ExecJmpInd, ExecJsr, ExecRts, ExecRti, ExecPush,
           ExecPla, ExecPlp, EnterHandler, StatusByte, Interrupt, ExecWrite, Stored, WriteCycles, ExecHigh,
           HighSource, HighBase, HighIndex, AfterHigh, ZpWord, Holds;
      Row0High();
      match p0
      case 0x0c => Noop(1, 3);
      case 0x0d => OraOp(Load(p2), 1, 3);
      case _ => assert false;
    }

    method Opcodes0E(p0: byte, p1: byte, p2: word, nmi: bool, ghost operand: word, ghost s: Cpu)
      requires Valid() && 0x0e <= p0 <= 0x0f && !Decode(p0).Jam?
      requires Fetched(p0, p2, operand, s)
      modifies this, ram
      ensures Valid()
      ensures View() == Execute(Decode(p0), p1, operand, nmi, s)
    {
      hide Decode, Modified, ApplyModify, And, Or, Xor, Bit6, Bit7, U8, U16, Lo, Hi, Word, SetA, SetX, SetY, SetAX, SetAXS, SetC,
           SetFlags, SetNZ, AddToA, SubtractFromA, CompareWith, BitTest, RotateAnd, SubtractToX, HighAddress,
           HighValue, ExecModifyA, ExecImplied, ExecBranch, ExecJmpInd, ExecJsr, ExecRts, ExecRti, ExecPush,
           ExecPla, ExecPlp, EnterHandler, StatusByte, Interrupt, ExecWrite, Stored, WriteCycles, ExecHigh,
           HighSource, HighBase, HighIndex, AfterHigh, ZpWord, Holds;
      Row0High();
      match p0
      case 0x0e => AslOp(p2, 3, 3, LOAD_ABS, STORE_ABS);
      case 0x0f => SloOp(p2, 0, 3, 3, LOAD_ABS, STORE_ABS);
      case _ => assert false;
    }

    method Opcodes10(p0: byte, p1: byte, p2: word, nmi: bool, ghost operand: word, ghost s: Cpu)
      requires Valid() && 0x10 <= p0 <= 0x10 && !Decode(p0).Jam?
      requires Fetched(p0, p2, operand, s)
      modifies this, ram
      ensures Valid()
      ensures View() == Execute(Decode(p0), p1, operand, nmi, s)
    {
      hide Decode, Modified, ApplyModify, And, Or, Xor, Bit6, Bit7, U8, U16, Lo, Hi, Word, SetA, SetX, SetY, SetAX, SetAXS, SetC,
           SetFlags, SetNZ, AddToA, SubtractFromA, CompareWith, BitTest, RotateAnd, SubtractToX, HighAddress,
           HighValue, ExecModifyA, ExecImplied, ExecBranch, ExecJmpInd, ExecJsr, ExecRts, ExecRti, ExecPush,
           ExecPla, ExecPlp, EnterHandler, StatusByte, Interrupt, ExecWrite, Stored, WriteCycles, ExecHigh,
           HighSource, HighBase, HighIndex, AfterHigh;
      Row1Low();
      match p0
      case 0x10 => BranchOp(flagN < 0x80, p1, PL, s);
      case _ => assert false;
    }

    method Opcodes11(p0: byte, p1: byte, p2: word, nmi: bool, ghost operand: word, ghost s: Cpu)
      requires Valid() && 0x11 <= p0 <= 0x12 && !Decode(p0).Jam?
      requires Fetched(p0, p2, operand, s)
      modifies this, ram
      ensures Valid()
      ensures View() == Execute(Decode(p0), p1, operand, nmi, s)
    {
      hide Decode, Modified, ApplyModify, And, Or, Xor, Bit6, Bit7, U8, U16, Lo, Hi, Word, SetA, SetX, SetY, SetAX, SetAXS, SetC,
           SetFlags, SetNZ, AddToA, SubtractFromA, CompareWith, BitTest, RotateAnd, SubtractToX, HighAddress,
           HighValue, ExecModifyA, ExecImplied, ExecBranch, ExecJmpInd, ExecJsr, ExecRts, ExecRti, ExecPush,
           ExecPla, ExecPlp, EnterHandler, StatusByte, Interrupt, ExecWrite, Stored, WriteCycles, ExecHigh,
           HighSource, HighBase, HighIndex, AfterHigh;
      Row1Low();
      match p0
      case 0x11 => var v := LoadIndY(p1); OraOp(v, 1, 2);
      case _ => assert false;
    }

    method Opcodes13(p0: byte, p1: byte, p2: word, nmi: bool, ghost operand: word, ghost s: Cpu)
      requires Valid() && 0x13 <= p0 <= 0x13 && !Decode(p0).Jam?
      requires Fetched(p0, p2, operand, s)
      modifies this, ram
      ensures Valid()
      ensures View() == Execute(Decode(p0), p1, operand, nmi, s)
    {
      hide Decode, Modified, ApplyModify, And, Or, Xor, Bit6, Bit7, U8, U16, Lo, Hi, Word, SetA, SetX, SetY, SetAX, SetAXS, SetC,
           SetFlags, SetNZ, AddToA, SubtractFromA, CompareWith, BitTest, RotateAnd, SubtractToX, HighAddress,
           HighValue, ExecModifyA, ExecImplied, ExecBranch, ExecJmpInd, ExecJsr, ExecRts, ExecRti, ExecPush,
           ExecPla, ExecPlp, EnterHandler, StatusByte, Interrupt, ExecWrite, Stored, WriteCycles, ExecHigh,
           HighSource, HighBase, HighIndex, AfterHigh;
      Row1Low();
      match p0
      case 0x13 => var ea := RmwIndY(p1); SloOp(ea, 0, 3, 2, LOAD_ABS, STORE_ABS);
      case _ => assert false;
    }

    method Opcodes14(p0: byte, p1: byte, p2: word, nmi: bool, ghost operand: word, ghost s: Cpu)
      requires Valid() && 0x14 <= p0 <= 0x15 && !Decode(p0).Jam?
      requires Fetched(p0, p2, operand, s)
      modifies this, ram
      ensures Valid()
      ensures View() == Execute(Decode(p0), p1, operand, nmi, s)
    {
      hide Decode, Modified, ApplyModify, And, Or, Xor, Bit6, Bit7, U8, U16, Lo, Hi, Word, SetA, SetX, SetY, SetAX, SetAXS, SetC,
           SetFlags, SetNZ, AddToA, SubtractFromA, CompareWith, BitTest, RotateAnd, SubtractToX, HighAddress,
           HighValue, ExecModifyA, ExecImplied, ExecBranch, ExecJmpInd, ExecJsr, ExecRts, ExecRti, ExecPush,
           ExecPla, ExecPlp, EnterHandler, StatusByte, Interrupt, ExecWrite, Stored, WriteCycles, ExecHigh,
           HighSource, HighBase, HighIndex, AfterHigh, ZpWord, Holds;
      Row1Low();
      match p0
      case 0x14 => Noop(2, 2);
      case 0x15 => OraOp(LoadZero(p1 + regX), 2, 2);
      case _ => assert false;
    }

    method Opcodes16(p0: byte, p1: byte, p2: word, nmi: bool, ghost operand: word, ghost s: Cpu)
      requires Valid() && 0x16 <= p0 <= 0x17 && !Decode(p0).Jam?
      requires Fetched(p0, p2, operand, s)
      modifies this, ram
      ensures Valid()
      ensures View() == Execute(Decode(p0), p1, operand, nmi, s)
    {
      hide Decode, Modified, ApplyModify, And, Or, Xor, Bit6, Bit7, U8, U16, Lo, Hi, Word, SetA, SetX, SetY, SetAX, SetAXS, SetC,
           SetFlags, SetNZ, AddToA, SubtractFromA, CompareWith, BitTest, RotateAnd, SubtractToX, HighAddress,
           HighValue, ExecModifyA, ExecImplied, ExecBranch, ExecJmpInd, ExecJsr, ExecRts, ExecRti, ExecPush,
           ExecPla, ExecPlp, EnterHandler, StatusByte, Interrupt, ExecWrite, Stored, WriteCycles, ExecHigh,
           HighSource, HighBase, HighIndex, AfterHigh, ZpWord, Holds;
      Row1Low();
      match p0
      case 0x16 => AslOp(U8(p1 + regX), 4, 2, LOAD_ZERO, STORE_ABS);
      case 0x17 => SloOp(U8(p1 + regX), 0, 4, 2, LOAD_ZERO, STORE_ABS);
      case _ => assert false;
    }

    method Opcodes18(p0: byte, p1: byte, p2: word, nmi: bool, ghost operand: word, ghost s: Cpu)
      requires Valid() && 0x18 <= p0 <= 0x19 && !Decode(p0).Jam?
      requires Fetched(p0, p2, operand, s)
      modifies this, ram
      ensures Valid()
      ensures View() == Execute(Decode(p0), p1, operand, nmi, s)
    {
      hide Decode, Modified, ApplyModify, And, Or, Xor, Bit6, Bit7, U8, U16, Lo, Hi, Word, SetA, SetX, SetY, SetAX, SetAXS, SetC,
           SetFlags, SetNZ, AddToA, SubtractFromA, CompareWith, BitTest, RotateAnd, SubtractToX, HighAddress,
           HighValue, ExecModifyA, ExecImplied, ExecBranch, ExecJmpInd, ExecJsr, ExecRts, ExecRti, ExecPush,
           ExecPla, ExecPlp, EnterHandler, StatusByte, Interrupt, ExecWrite, Stored, WriteCycles, ExecHigh,
           HighSource, HighBase, HighIndex, AfterHigh, ZpWord, Holds;
      Row1High();
      match p0
      case 0x18 => FlagOpcode(CLC, s);
      case 0x19 => var v := LoadAbsY(p2); OraOp(v, 1, 3);
      case _ => assert false;
    }

    method Opcodes1A(p0: byte, p1: byte, p2: word, nmi: bool, ghost operand: word, ghost s: Cpu)
      requires Valid() && 0x1a <= p0 <= 0x1b && !Decode(p0).Jam?
      requires Fetched(p0, p2, operand, s)
      modifies this, ram
      ensures Valid()
      ensures View() == Execute(Decode(p0), p1, operand, nmi, s)
    {
      hide Decode, Modified, ApplyModify, And, Or, Xor, Bit6, Bit7, U8, U16, Lo, Hi, Word, SetA, SetX, SetY, SetAX, SetAXS, SetC,
           SetFlags, SetNZ, AddToA, SubtractFromA, CompareWith, BitTest, RotateAnd, SubtractToX, HighAddress,
           HighValue, ExecModifyA, ExecImplied, ExecBranch, ExecJmpInd, ExecJsr, ExecRts, ExecRti, ExecPush,
           ExecPla, ExecPlp, EnterHandler, StatusByte, Interrupt, ExecWrite, Stored, WriteCycles, ExecHigh,
           HighSource, HighBase, HighIndex, AfterHigh, ZpWord, Holds;
      Row1High();
      match p0
      case 0x1a => CountOpcode(NOP, s);
      case 0x1b => SloOp(p2, 0, 3, 3, LOAD_ABS_Y_RMW, STORE_ABS_Y_RMW);
      case _ => assert false;
    }

    method Opcodes1C(p0: byte, p1: byte, p2: word, nmi: bool, ghost operand: word, ghost s: Cpu)
      requires Valid() && 0x1c <= p0 <= 0x1d && !Decode(p0).Jam?
      requires Fetched(p0, p2, operand, s)
      modifies this, ram
      ensures Valid()
      ensures View() == Execute(Decode(p0), p1, operand, nmi, s)
    {
      hide Decode, Modified, ApplyModify, And, Or, Xor, Bit6, Bit7, U8, U16, Lo, Hi, Word, SetA, SetX, SetY, SetAX, SetAXS, SetC,
           SetFlags, SetNZ, AddToA, SubtractFromA, CompareWith, BitTest, RotateAnd, SubtractToX, HighAddress,
           HighValue, ExecModifyA, ExecImplied, ExecBranch, ExecJmpInd, ExecJsr, ExecRts, ExecRti, ExecPush,
           ExecPla, ExecPlp, EnterHandler, StatusByte, Interrupt, ExecWrite, Stored, WriteCycles, ExecHigh,
           HighSource, HighBase, HighIndex, AfterHigh, ZpWord, Holds;
      Row1High();
      match p0
      case 0x1c => NoopAbsX(p2);
      case 0x1d => var v := LoadAbsX(p2); OraOp(v, 1, 3);
      case _ => assert false;
    }

    method Opcodes1E(p0: byte, p1: byte, p2: word, nmi: bool, ghost operand: word, ghost s: Cpu)
      requires Valid() && 0x1e <= p0 <= 0x1f && !Decode(p0).Jam?
      requires Fetched(p0, p2, operand, s)
      modifies this, ram
      ensures Valid()
      ensures View() == Execute(Decode(p0), p1, operand, nmi, s)
    {
      hide Decode, Modified, ApplyModify, And, Or, Xor, Bit6, Bit7, U8, U16, Lo, Hi, Word, SetA, SetX, SetY, SetAX, SetAXS, SetC,
           SetFlags, SetNZ, AddToA, SubtractFromA, CompareWith, BitTest, RotateAnd, SubtractToX, HighAddress,
           HighValue, ExecModifyA, ExecImplied, ExecBranch, ExecJmpInd, ExecJsr, ExecRts, ExecRti, ExecPush,
           ExecPla, ExecPlp, EnterHandler, StatusByte, Interrupt, ExecWrite, Stored, WriteCycles, ExecHigh,
           HighSource, HighBase, HighIndex, AfterHigh, ZpWord, Holds;
      Row1High();
      match p0
      case 0x1e => AslOp(p2, 3, 3, LOAD_ABS_X_RMW, STORE_ABS_X_RMW);
      case 0x1f => SloOp(p2, 0, 3, 3, LOAD_ABS_X_RMW, STORE_ABS_X_RMW);
      case _ => assert false;
    }

    method Opcodes20(p0: byte, p1: byte, p2: word, nmi: bool, ghost operand: word, ghost s: Cpu)
      requires Valid() && CallAgrees(s) && 0x20 <= p0 <= 0x20 && !Decode(p0).Jam?
      requires Fetched(p0, p2, operand, s)
      modifies this, ram
      ensures Valid()
      ensures View() == Execute(Decode(p0), p1, operand, nmi, s)
    {
      hide Decode, Modified, ApplyModify, And, Or, Xor, Bit6, Bit7, U8, U16, Lo, Hi, Word, SetA, SetX, SetY, SetAX, SetAXS, SetC,
           SetFlags, SetNZ, AddToA, SubtractFromA, CompareWith, BitTest, RotateAnd, SubtractToX, HighAddress,
           HighValue, ExecModifyA, ExecImplied, ExecBranch, ExecJmpInd, ExecJsr, ExecRts, ExecRti, ExecPush,
           ExecPla, ExecPlp, EnterHandler, StatusByte, Interrupt, ExecWrite, Stored, WriteCycles, ExecHigh,
           HighSource, HighBase, HighIndex, AfterHigh, Holds;
      Row2Low();
      match p0
      case 0x20 => JsrOp(p1, s);
      case _ => assert false;
    }

    method Opcodes21(p0: byte, p1: byte, p2: word, nmi: bool, ghost operand: word, ghost s: Cpu)
      requires Valid() && 0x21 <= p0 <= 0x22 && !Decode(p0).Jam?
      requires Fetched(p0, p2, operand, s)
      modifies this, ram
      ensures Valid()
      ensures View() == Execute(Decode(p0), p1, operand, nmi, s)
    {
      hide Decode, Modified, ApplyModify, And, Or, Xor, Bit6, Bit7, U8, U16, Lo, Hi, Word, SetA, SetX, SetY, SetAX, SetAXS, SetC,
           SetFlags, SetNZ, AddToA, SubtractFromA, CompareWith, BitTest, RotateAnd, SubtractToX, HighAddress,
           HighValue, ExecModifyA, ExecImplied, ExecBranch, ExecJmpInd, ExecJsr, ExecRts, ExecRti, ExecPush,
           ExecPla, ExecPlp, EnterHandler, StatusByte, Interrupt, ExecWrite, Stored, WriteCycles, ExecHigh,
           HighSource, HighBase, HighIndex, AfterHigh, Holds;
      Row2Low();
      match p0
      case 0x21 => var v := LoadIndX(p1); AndOp(v, 1, 2);
      case _ => assert false;
    }

    method Opcodes23(p0: byte, p1: byte, p2: word, nmi: bool, ghost operand: word, ghost s: Cpu)
      requires Valid() && 0x23 <= p0 <= 0x23 && !Decode(p0).Jam?
      requires Fetched(p0, p2, operand, s)
      modifies this, ram
      ensures Valid()
      ensures View() == Execute(Decode(p0), p1, operand, nmi, s)
    {
      hide Decode, Modified, ApplyModify, And, Or, Xor, Bit6, Bit7, U8, U16, Lo, Hi, Word, SetA, SetX, SetY, SetAX, SetAXS, SetC,
           SetFlags, SetNZ, AddToA, SubtractFromA, CompareWith, BitTest, RotateAnd, SubtractToX, HighAddress,
           HighValue, ExecModifyA, ExecImplied, ExecBranch, ExecJmpInd, ExecJsr, ExecRts, ExecRti, ExecPush,
           ExecPla, ExecPlp, EnterHandler, StatusByte, Interrupt, ExecWrite, Stored, WriteCycles, ExecHigh,
           HighSource, HighBase, HighIndex, AfterHigh, Holds;
      Row2Low();
      match p0
      case 0x23 => RlaOp(LoadZeroAddr(p1 + regX), 3, 3, 2, LOAD_ABS, STORE_ABS);
      case _ => assert false;
    }

    method Opcodes24(p0: byte, p1: byte, p2: word, nmi: bool, ghost operand: word, ghost s: Cpu)
      requires Valid() && 0x24 <= p0 <= 0x25 && !Decode(p0).Jam?
      requires Fetched(p0, p2, operand, s)
      modifies this, ram
      ensures Valid()
      ensures View() == Execute(Decode(p0), p1, operand, nmi, s)
    {
      hide Decode, And, Or, Xor, Bit6, Bit7, U8, U16, Lo, Hi, Word, SetA, SetX, SetY, SetAX, SetAXS, SetC,
           SetFlags, SetNZ, AddToA, SubtractFromA, CompareWith, BitTest, RotateAnd, SubtractToX, HighAddress,
           HighValue, ExecModifyA, ExecImplied, ExecBranch, ExecJmpInd, ExecJsr, ExecRts, ExecRti, ExecPush,
           ExecPla, ExecPlp, EnterHandler, StatusByte, Interrupt, ExecModify, Modified, ApplyModify, ModifyCycles,
           LoadAddress, LoadClk, StoreAddress, ModifyAt, ExecWrite, Stored, WriteCycles, ExecHigh, HighSource,
           HighBase, HighIndex, AfterHigh, ZpWord, Holds;
      Row2Low();
      match p0
      case 0x24 => BitOp(LoadZero(p1), 2);
      case 0x25 => AndOp(LoadZero(p1), 1, 2);
      case _ => assert false;
    }

    method Opcodes26(p0: byte, p1: byte, p2: word, nmi: bool, ghost operand: word, ghost s: Cpu)
      requires Valid() && 0x26 <= p0 <= 0x27 && !Decode(p0).Jam?
      requires Fetched(p0, p2, operand, s)
      modifies this, ram
      ensures Valid()
      ensures View() == Execute(Decode(p0), p1, operand, nmi, s)
    {
      hide Decode, Modified, ApplyModify, And, Or, Xor, Bit6, Bit7, U8, U16, Lo, Hi, Word, SetA, SetX, SetY, SetAX, SetAXS, SetC,
           SetFlags, SetNZ, AddToA, SubtractFromA, CompareWith, BitTest, RotateAnd, SubtractToX, HighAddress,
           HighValue, ExecModifyA, ExecImplied, ExecBranch, ExecJmpInd, ExecJsr, ExecRts, ExecRti, ExecPush,
           ExecPla, ExecPlp, EnterHandler, StatusByte, Interrupt, ExecRead, ApplyRead, ReadCycles, CrossesPage,
           Operand, ExecWrite, Stored, WriteCycles, ExecHigh, HighSource, HighBase, HighIndex, AfterHigh, ZpWord,
           Holds;
      Row2Low();
      match p0
      case 0x26 => RolOp(p1, 3, 2, LOAD_ZERO, STORE_ABS);
      case 0x27 => RlaOp(p1, 0, 3, 2, LOAD_ZERO, STORE_ABS);
      case _ => assert false;
    }

    method Opcodes28(p0: byte, p1: byte, p2: word, nmi: bool, ghost operand: word, ghost s: Cpu)
      requires Valid() && 0x28 <= p0 <= 0x2b && !Decode(p0).Jam?
      requires Fetched(p0, p2, operand, s)
      modifies this, ram
      ensures Valid()
      ensures View() == Execute(Decode(p0), p1, operand, nmi, s)
    {
      hide Decode, And, Or, Xor, Bit6, Bit7, U8, U16, Lo, Hi, Word, SetA, SetX, SetY, SetAX, SetAXS, SetC,
           SetFlags, SetNZ, AddToA, SubtractFromA, CompareWith, BitTest, RotateAnd, SubtractToX, HighAddress,
           HighValue, ExecModifyA, ExecImplied, ExecBranch, ExecJmpInd, ExecJsr, ExecRts, ExecRti, ExecPush,
           ExecPla, ExecPlp, EnterHandler, StatusByte, Interrupt, ExecModify, Modified, ApplyModify, ModifyCycles,
           LoadAddress, LoadClk, StoreAddress, ModifyAt, ExecWrite, Stored, WriteCycles, ExecHigh, HighSource,
           HighBase, HighIndex, AfterHigh, ZpWord, Holds;
      Row2High();
      match p0
      case 0x28 => PlpOp(s);
      case 0x29 => AndOp(p1, 0, 2);
      case 0x2a => RolA(s);
      case 0x2b => AncOp(p1, 2);
      case _ => assert false;
    }

    method Opcodes2C(p0: byte, p1: byte, p2: word, nmi: bool, ghost operand: word, ghost s: Cpu)
      requires Valid() && 0x2c <= p0 <= 0x2d && !Decode(p0).Jam?
      requires Fetched(p0, p2, operand, s)
      modifies this, ram
      ensures Valid()
      ensures View() == Execute(Decode(p0), p1, operand, nmi, s)
    {
      hide Decode, Modified, ApplyModify, And, Or, Xor, Bit6, Bit7, U8, U16, Lo, Hi, Word, SetA, SetX, SetY, SetAX, SetAXS, SetC,
           SetFlags, SetNZ, AddToA, SubtractFromA, CompareWith, BitTest, RotateAnd, SubtractToX, HighAddress,
           HighValue, ExecModifyA, ExecImplied, ExecBranch, ExecJmpInd, ExecJsr, ExecRts, ExecRti, ExecPush,
           ExecPla, ExecPlp, EnterHandler, StatusByte, Interrupt, ExecWrite, Stored, WriteCycles, ExecHigh,
           HighSource, HighBase, HighIndex, AfterHigh, ZpWord, Holds;
      Row2High();
      match p0
      case 0x2c => BitOp(Load(p2), 3);
      case 0x2d => AndOp(Load(p2), 1, 3);
      case _ => assert false;
    }

    method Opcodes2E(p0: byte, p1: byte, p2: word, nmi: bool, ghost operand: word, ghost s: Cpu)
      requires Valid() && 0x2e <= p0 <= 0x2f && !Decode(p0).Jam?
      requires Fetched(p0, p2, operand, s)
      modifies this, ram
      ensures Valid()
      ensures View() == Execute(Decode(p0), p1, operand, nmi, s)
    {
      hide Decode, Modified, ApplyModify, And, Or, Xor, Bit6, Bit7, U8, U16, Lo, Hi, Word, SetA, SetX, SetY, SetAX, SetAXS, SetC,
           SetFlags, SetNZ, AddToA, SubtractFromA, CompareWith, BitTest, RotateAnd, SubtractToX, HighAddress,
           HighValue, ExecModifyA, ExecImplied, ExecBranch, ExecJmpInd, ExecJsr, ExecRts, ExecRti, ExecPush,
           ExecPla, ExecPlp, EnterHandler, StatusByte, Interrupt, ExecWrite, Stored, WriteCycles, ExecHigh,
           HighSource, HighBase, HighIndex, AfterHigh, ZpWord, Holds;
      Row2High();
      match p0
      case 0x2e => RolOp(p2, 3, 3, LOAD_ABS, STORE_ABS);
      case 0x2f => RlaOp(p2, 0, 3, 3, LOAD_ABS, STORE_ABS);
      case _ => assert false;
    }

    method Opcodes30(p0: byte, p1: byte, p2: word, nmi: bool, ghost operand: word, ghost s: Cpu)
      requires Valid() && 0x30 <= p0 <= 0x30 && !Decode(p0).Jam?
      requires Fetched(p0, p2, operand, s)
      modifies this, ram
      ensures Valid()
      ensures View() == Execute(Decode(p0), p1, operand, nmi, s)
    {
      hide Decode, Modified, ApplyModify, And, Or, Xor, Bit6, Bit7, U8, U16, Lo, Hi, Word, SetA, SetX, SetY, SetAX, SetAXS, SetC,
           SetFlags, SetNZ, AddToA, SubtractFromA, CompareWith, BitTest, RotateAnd, SubtractToX, HighAddress,
           HighValue, ExecModifyA, ExecImplied, ExecBranch, ExecJmpInd, ExecJsr, ExecRts, ExecRti, ExecPush,
           ExecPla, ExecPlp, EnterHandler, StatusByte, Interrupt, ExecWrite, Stored, WriteCycles, ExecHigh,
           HighSource, HighBase, HighIndex, AfterHigh;
      Row3Low();
      match p0
      case 0x30 => BranchOp(flagN >= 0x80, p1, MI, s);
      case _ => assert false;
    }

    method Opcodes31(p0: byte, p1: byte, p2: word, nmi: bool, ghost operand: word, ghost s: Cpu)
      requires Valid() && 0x31 <= p0 <= 0x32 && !Decode(p0).Jam?
      requires Fetched(p0, p2, operand, s)
      modifies this, ram
      ensures Valid()
      ensures View() == Execute(Decode(p0), p1, operand, nmi, s)
    {
      hide Decode, Modified, ApplyModify, And, Or, Xor, Bit6, Bit7, U8, U16, Lo, Hi, Word, SetA, SetX, SetY, SetAX, SetAXS, SetC,
           SetFlags, SetNZ, AddToA, SubtractFromA, CompareWith, BitTest, RotateAnd, SubtractToX, HighAddress,
           HighValue, ExecModifyA, ExecImplied, ExecBranch, ExecJmpInd, ExecJsr, ExecRts, ExecRti, ExecPush,
           ExecPla, ExecPlp, EnterHandler, StatusByte, Interrupt, ExecWrite, Stored, WriteCycles, ExecHigh,
           HighSource, HighBase, HighIndex, AfterHigh;
      Row3Low();
      match p0
      case 0x31 => var v := LoadIndY(p1); AndOp(v, 1, 2);
      case _ => assert false;
    }

    method Opcodes33(p0: byte, p1: byte, p2: word, nmi: bool, ghost operand: word, ghost s: Cpu)
      requires Valid() && 0x33 <= p0 <= 0x33 && !Decode(p0).Jam?
      requires Fetched(p0, p2, operand, s)
      modifies this, ram
      ensures Valid()
      ensures View() == Execute(Decode(p0), p1, operand, nmi, s)
    {
      hide Decode, Modified, ApplyModify, And, Or, Xor, Bit6, Bit7, U8, U16, Lo, Hi, Word, SetA, SetX, SetY, SetAX, SetAXS, SetC,
           SetFlags, SetNZ, AddToA, SubtractFromA, CompareWith, BitTest, RotateAnd, SubtractToX, HighAddress,
           HighValue, ExecModifyA, ExecImplied, ExecBranch, ExecJmpInd, ExecJsr, ExecRts, ExecRti, ExecPush,
           ExecPla, ExecPlp, EnterHandler, StatusByte, Interrupt, ExecWrite, Stored, WriteCycles, ExecHigh,
           HighSource, HighBase, HighIndex, AfterHigh;
      Row3Low();
      match p0
      case 0x33 => var ea := RmwIndY(p1); RlaOp(ea, 0, 3, 2, LOAD_ABS, STORE_ABS);
      case _ => assert false;
    }

    method Opcodes34(p0: byte, p1: byte, p2: word, nmi: bool, ghost operand: word, ghost s: Cpu)
      requires Valid() && 0x34 <= p0 <= 0x35 && !Decode(p0).Jam?
      requires Fetched(p0, p2, operand, s)
      modifies this, ram
      ensures Valid()
      ensures View() == Execute(Decode(p0), p1, operand, nmi, s)
    {
      hide Decode, And, Or, Xor, Bit6, Bit7, U8, U16, Lo, Hi, Word, SetA, SetX, SetY, SetAX, SetAXS, SetC,
           SetFlags, SetNZ, AddToA, SubtractFromA, CompareWith, BitTest, RotateAnd, SubtractToX, HighAddress,
           HighValue, ExecModifyA, ExecImplied, ExecBranch, ExecJmpInd, ExecJsr, ExecRts, ExecRti, ExecPush,
           ExecPla, ExecPlp, EnterHandler, StatusByte, Interrupt, ExecModify, Modified, ApplyModify, ModifyCycles,
           LoadAddress, LoadClk, StoreAddress, ModifyAt, ExecWrite, Stored, WriteCycles, ExecHigh, HighSource,
           HighBase, HighIndex, AfterHigh, ZpWord, Holds;
      Row3Low();
      match p0
      case 0x34 => Noop(2, 2);
      case 0x35 => AndOp(LoadZero(p1 + regX), 2, 2);
      case _ => assert false;
    }

    method Opcodes36(p0: byte, p1: byte, p2: word, nmi: bool, ghost operand: word, ghost s: Cpu)
      requires Valid() && 0x36 <= p0 <= 0x37 && !Decode(p0).Jam?
      requires Fetched(p0, p2, operand, s)
      modifies this, ram
      ensures Valid()
      ensures View() == Execute(Decode(p0), p1, operand, nmi, s)
    {
      hide Decode, Modified, ApplyModify, And, Or, Xor, Bit6, Bit7, U8, U16, Lo, Hi, Word, SetA, SetX, SetY, SetAX, SetAXS, SetC,
           SetFlags, SetNZ, AddToA, SubtractFromA, CompareWith, BitTest, RotateAnd, SubtractToX, HighAddress,
           HighValue, ExecModifyA, ExecImplied, ExecBranch, ExecJmpInd, ExecJsr, ExecRts, ExecRti, ExecPush,
           ExecPla, ExecPlp, EnterHandler, StatusByte, Interrupt, ExecRead, ApplyRead, ReadCycles, CrossesPage,
           Operand, ExecWrite, Stored, WriteCycles, ExecHigh, HighSource, HighBase, HighIndex, AfterHigh, ZpWord,
           Holds;
      Row3Low();
      match p0
      case 0x36 => RolOp(U8(p1 + regX), 4, 2, LOAD_ZERO, STORE_ABS);
      case 0x37 => RlaOp(U8(p1 + regX), 0, 4, 2, LOAD_ZERO, STORE_ABS);
      case _ => assert false;
    }

    method Opcodes38(p0: byte, p1: byte, p2: word, nmi: bool, ghost operand: word, ghost s: Cpu)
      requires Valid() && 0x38 <= p0 <= 0x39 && !Decode(p0).Jam?
      requires Fetched(p0, p2, operand, s)
      modifies this, ram
      ensures Valid()
      ensures View() == Execute(Decode(p0), p1, operand, nmi, s)
    {
      hide Decode, Modified, ApplyModify, And, Or, Xor, Bit6, Bit7, U8, U16, Lo, Hi, Word, SetA, SetX, SetY, SetAX, SetAXS, SetC,
           SetFlags, SetNZ, AddToA, SubtractFromA, CompareWith, BitTest, RotateAnd, SubtractToX, HighAddress,
           HighValue, ExecModifyA, ExecImplied, ExecBranch, ExecJmpInd, ExecJsr, ExecRts, ExecRti, ExecPush,
           ExecPla, ExecPlp, EnterHandler, StatusByte, Interrupt, ExecWrite, Stored, WriteCycles, ExecHigh,
           HighSource, HighBase, HighIndex, AfterHigh, ZpWord, Holds;
      Row3High();
      match p0
      case 0x38 => FlagOpcode(SEC, s);
      case 0x39 => var v := LoadAbsY(p2); AndOp(v, 1, 3);
      case _ => assert false;
    }

    method Opcodes3A(p0: byte, p1: byte, p2: word, nmi: bool, ghost operand: word, ghost s: Cpu)
      requires Valid() && 0x3a <= p0 <= 0x3b && !Decode(p0).Jam?
      requires Fetched(p0, p2, operand, s)
      modifies this, ram
      ensures Valid()
      ensures View() == Execute(Decode(p0), p1, operand, nmi, s)
    {
      hide Decode, Modified, ApplyModify, And, Or, Xor, Bit6, Bit7, U8, U16, Lo, Hi, Word, SetA, SetX, SetY, SetAX, SetAXS, SetC,
           SetFlags, SetNZ, AddToA, SubtractFromA, CompareWith, BitTest, RotateAnd, SubtractToX, HighAddress,
           HighValue, ExecModifyA, ExecImplied, ExecBranch, ExecJmpInd, ExecJsr, ExecRts, ExecRti, ExecPush,
           ExecPla, ExecPlp, EnterHandler, StatusByte, Interrupt, ExecWrite, Stored, WriteCycles, ExecHigh,
           HighSource, HighBase, HighIndex, AfterHigh, ZpWord, Holds;
      Row3High();
      match p0
      case 0x3a => CountOpcode(NOP, s);
      case 0x3b => RlaOp(p2, 0, 3, 3, LOAD_ABS_Y_RMW, STORE_ABS_Y_RMW);
      case _ => assert false;
    }

    method Opcodes3C(p0: byte, p1: byte, p2: word, nmi: bool, ghost operand: word, ghost s: Cpu)
      requires Valid() && 0x3c <= p0 <= 0x3d && !Decode(p0).Jam?
      requires Fetched(p0, p2, operand, s)
      modifies this, ram
      ensures Valid()
      ensures View() == Execute(Decode(p0), p1, operand, nmi, s)
    {
      hide Decode, And, Or, Xor, Bit6, Bit7, U8, U16, Lo, Hi, Word, SetA, SetX, SetY, SetAX, SetAXS, SetC,
           SetFlags, SetNZ, AddToA, SubtractFromA, CompareWith, BitTest, RotateAnd, SubtractToX, HighAddress,
           HighValue, ExecModifyA, ExecImplied, ExecBranch, ExecJmpInd, ExecJsr, ExecRts, ExecRti, ExecPush,
           ExecPla, ExecPlp, EnterHandler, StatusByte, Interrupt, ExecModify, Modified, ApplyModify, ModifyCycles,
           LoadAddress, LoadClk, StoreAddress, ModifyAt, ExecWrite, Stored, WriteCycles, ExecHigh, HighSource,
           HighBase, HighIndex, AfterHigh, ZpWord, Holds;
      Row3High();
      match p0
      case 0x3c => NoopAbsX(p2);
      case 0x3d => var v := LoadAbsX(p2); AndOp(v, 1, 3);
      case _ => assert false;
    }

    method Opcodes3E(p0: byte, p1: byte, p2: word, nmi: bool, ghost operand: word, ghost s: Cpu)
      requires Valid() && 0x3e <= p0 <= 0x3f && !Decode(p0).Jam?
      requires Fetched(p0, p2, operand, s)
      modifies this, ram
      ensures Valid()
      ensures View() == Execute(Decode(p0), p1, operand, nmi, s)
    {
      hide Decode, Modified, ApplyModify, And, Or, Xor, Bit6, Bit7, U8, U16, Lo, Hi, Word, SetA, SetX, SetY, SetAX, SetAXS, SetC,
           SetFlags, SetNZ, AddToA, SubtractFromA, CompareWith, BitTest, RotateAnd, SubtractToX, HighAddress,
           HighValue, ExecModifyA, ExecImplied, ExecBranch, ExecJmpInd, ExecJsr, ExecRts, ExecRti, ExecPush,
           ExecPla, ExecPlp, EnterHandler, StatusByte, Interrupt, ExecRead, ApplyRead, ReadCycles, CrossesPage,
           Operand, ExecWrite, Stored, WriteCycles, ExecHigh, HighSource, HighBase, HighIndex, AfterHigh, ZpWord,
           Holds;
      Row3High();
      match p0
      case 0x3e => RolOp(p2, 3, 3, LOAD_ABS_X_RMW, STORE_ABS_X_RMW);
      case 0x3f => RlaOp(p2, 0, 3, 3, LOAD_ABS_X_RMW, STORE_ABS_X_RMW);
      case _ => assert false;
    }

    method Opcodes40(p0: byte, p1: byte, p2: word, nmi: bool, ghost operand: word, ghost s: Cpu)
      requires Valid() && 0x40 <= p0 <= 0x40 && !Decode(p0).Jam?
      requires Fetched(p0, p2, operand, s)
      modifies this, ram
      ensures Valid()
      ensures View() == Execute(Decode(p0), p1, operand, nmi, s)
    {
      hide Decode, Modified, ApplyModify, And, Or, Xor, Bit6, Bit7, U8, U16, Lo, Hi, Word, SetA, SetX, SetY, SetAX, SetAXS, SetC,
           SetFlags, SetNZ, AddToA, SubtractFromA, CompareWith, BitTest, RotateAnd, SubtractToX, HighAddress,
           HighValue, ExecModifyA, ExecImplied, ExecBranch, ExecJmpInd, ExecJsr, ExecRts, ExecRti, ExecPush,
           ExecPla, ExecPlp, EnterHandler, StatusByte, Interrupt, ExecWrite, Stored, WriteCycles, ExecHigh,
           HighSource, HighBase, HighIndex, AfterHigh, Holds;
      Row4Low();
      match p0
      case 0x40 => RtiOp(s);
      case _ => assert false;
    }

    method Opcodes41(p0: byte, p1: byte, p2: word, nmi: bool, ghost operand: word, ghost s: Cpu)
      requires Valid() && 0x41 <= p0 <= 0x43 && !Decode(p0).Jam?
      requires Fetched(p0, p2, operand, s)
      modifies this, ram
      ensures Valid()
      ensures View() == Execute(Decode(p0), p1, operand, nmi, s)
    {
      hide Decode, Modified, ApplyModify, And, Or, Xor, Bit6, Bit7, U8, U16, Lo, Hi, Word, SetA, SetX, SetY, SetAX, SetAXS, SetC,
           SetFlags, SetNZ, AddToA, SubtractFromA, CompareWith, BitTest, RotateAnd, SubtractToX, HighAddress,
           HighValue, ExecModifyA, ExecImplied, ExecBranch, ExecJmpInd, ExecJsr, ExecRts, ExecRti, ExecPush,
           ExecPla, ExecPlp, EnterHandler, StatusByte, Interrupt, ExecWrite, Stored, WriteCycles, ExecHigh,
           HighSource, HighBase, HighIndex, AfterHigh, Holds;
      Row4Low();
      match p0
      case 0x41 => var v := LoadIndX(p1); EorOp(v, 1, 2);
      case 0x43 => SreOp(LoadZeroAddr(p1 + regX), 3, 3, 2, LOAD_ABS, STORE_ABS);
      case _ => assert false;
    }

    method Opcodes44(p0: byte, p1: byte, p2: word, nmi: bool, ghost operand: word, ghost s: Cpu)
      requires Valid() && 0x44 <= p0 <= 0x47 && !Decode(p0).Jam?
      requires Fetched(p0, p2, operand, s)
      modifies this, ram
      ensures Valid()
      ensures View() == Execute(Decode(p0), p1, operand, nmi, s)
    {
      hide Decode, Modified, ApplyModify, And, Or, Xor, Bit6, Bit7, U8, U16, Lo, Hi, Word, SetA, SetX, SetY, SetAX, SetAXS, SetC,
           SetFlags, SetNZ, AddToA, SubtractFromA, CompareWith, BitTest, RotateAnd, SubtractToX, HighAddress,
           HighValue, ExecModifyA, ExecImplied, ExecBranch, ExecJmpInd, ExecJsr, ExecRts, ExecRti, ExecPush,
           ExecPla, ExecPlp, EnterHandler, StatusByte, Interrupt, ExecWrite, Stored, WriteCycles, ExecHigh,
           HighSource, HighBase, HighIndex, AfterHigh, ZpWord, Holds;
      Row4Low();
      match p0
      case 0x44 => Noop(1, 2);
      case 0x45 => EorOp(LoadZero(p1), 1, 2);
      case 0x46 => LsrOp(p1, 3, 2, LOAD_ZERO, STORE_ABS);
      case 0x47 => SreOp(p1, 0, 3, 2, LOAD_ZERO, STORE_ABS);
      case _ => assert false;
    }

    method Opcodes48(p0: byte, p1: byte, p2: word, nmi: bool, ghost operand: word, ghost s: Cpu)
      requires Valid() && 0x48 <= p0 <= 0x4b && !Decode(p0).Jam?
      requires Fetched(p0, p2, operand, s)
      modifies this, ram
      ensures Valid()
      ensures View() == Execute(Decode(p0), p1, operand, nmi, s)
    {
      hide Decode, And, Or, Xor, Bit6, Bit7, U8, U16, Lo, Hi, Word, SetA, SetX, SetY, SetAX, SetAXS, SetC,
           SetFlags, SetNZ, AddToA, SubtractFromA, CompareWith, BitTest, RotateAnd, SubtractToX, HighAddress,
           HighValue, ExecModifyA, ExecImplied, ExecBranch, ExecJmpInd, ExecJsr, ExecRts, ExecRti, ExecPush,
           ExecPla, ExecPlp, EnterHandler, StatusByte, Interrupt, ExecModify, Modified, ApplyModify, ModifyCycles,
           LoadAddress, LoadClk, StoreAddress, ModifyAt, ExecWrite, Stored, WriteCycles, ExecHigh, HighSource,
           HighBase, HighIndex, AfterHigh, ZpWord, Holds;
      Row4High();
      match p0
      case 0x48 => PhaOp(s);
      case 0x49 => EorOp(p1, 0, 2);
      case 0x4a => LsrA(s);
      case 0x4b => AsrOp(p1, 2);
      case _ => assert false;
    }

    method Opcodes4C(p0: byte, p1: byte, p2: word, nmi: bool, ghost operand: word, ghost s: Cpu)
      requires Valid() && 0x4c <= p0 <= 0x4f && !Decode(p0).Jam?
      requires Fetched(p0, p2, operand, s)
      modifies this, ram
      ensures Valid()
      ensures View() == Execute(Decode(p0), p1, operand, nmi, s)
    {
      hide Decode, Modified, ApplyModify, And, Or, Xor, Bit6, Bit7, U8, U16, Lo, Hi, Word, SetA, SetX, SetY, SetAX, SetAXS, SetC,
           SetFlags, SetNZ, AddToA, SubtractFromA, CompareWith, BitTest, RotateAnd, SubtractToX, HighAddress,
           HighValue, ExecModifyA, ExecImplied, ExecBranch, ExecJmpInd, ExecJsr, ExecRts, ExecRti, ExecPush,
           ExecPla, ExecPlp, EnterHandler, StatusByte, Interrupt, ExecWrite, Stored, WriteCycles, ExecHigh,
           HighSource, HighBase, HighIndex, AfterHigh, ZpWord, Holds;
      Row4High();
      match p0
      case 0x4c => Jump(p2);
      case 0x4d => EorOp(Load(p2), 1, 3);
      case 0x4e => LsrOp(p2, 3, 3, LOAD_ABS, STORE_ABS);
      case 0x4f => SreOp(p2, 0, 3, 3, LOAD_ABS, STORE_ABS);
      case _ => assert false;
    }

    method Opcodes50(p0: byte, p1: byte, p2: word, nmi: bool, ghost operand: word, ghost s: Cpu)
      requires Valid() && 0x50 <= p0 <= 0x50 && !Decode(p0).Jam?
      requires Fetched(p0, p2, operand, s)
      modifies this, ram
      ensures Valid()
      ensures View() == Execute(Decode(p0), p1, operand, nmi, s)
    {
      hide Decode, Modified, ApplyModify, And, Or, Xor, Bit6, Bit7, U8, U16, Lo, Hi, Word, SetA, SetX, SetY, SetAX, SetAXS, SetC,
           SetFlags, SetNZ, AddToA, SubtractFromA, CompareWith, BitTest, RotateAnd, SubtractToX, HighAddress,
           HighValue, ExecModifyA, ExecImplied, ExecBranch, ExecJmpInd, ExecJsr, ExecRts, ExecRti, ExecPush,
           ExecPla, ExecPlp, EnterHandler, StatusByte, Interrupt, ExecWrite, Stored, WriteCycles, ExecHigh,
           HighSource, HighBase, HighIndex, AfterHigh;
      Row5Low();
      match p0
      case 0x50 => BranchOp(!regP.v, p1, VC, s);
      case _ => assert false;
    }

    method Opcodes51(p0: byte, p1: byte, p2: word, nmi: bool, ghost operand: word, ghost s: Cpu)
      requires Valid() && 0x51 <= p0 <= 0x52 && !Decode(p0).Jam?
      requires Fetched(p0, p2, operand, s)
      modifies this, ram
      ensures Valid()
      ensures View() == Execute(Decode(p0), p1, operand, nmi, s)
    {
      hide Decode, Modified, ApplyModify, And, Or, Xor, Bit6, Bit7, U8, U16, Lo, Hi, Word, SetA, SetX, SetY, SetAX, SetAXS, SetC,
           SetFlags, SetNZ, AddToA, SubtractFromA, CompareWith, BitTest, RotateAnd, SubtractToX, HighAddress,
           HighValue, ExecModifyA, ExecImplied, ExecBranch, ExecJmpInd, ExecJsr, ExecRts, ExecRti, ExecPush,
           ExecPla, ExecPlp, EnterHandler, StatusByte, Interrupt, ExecWrite, Stored, WriteCycles, ExecHigh,
           HighSource, HighBase, HighIndex, AfterHigh;
      Row5Low();
      match p0
      case 0x51 => var v := LoadIndY(p1); EorOp(v, 1, 2);
      case _ => assert false;
    }

    method Opcodes53(p0: byte, p1: byte, p2: word, nmi: bool, ghost operand: word, ghost s: Cpu)
      requires Valid() && 0x53 <= p0 <= 0x53 && !Decode(p0).Jam?
      requires Fetched(p0, p2, operand, s)
      modifies this, ram
      ensures Valid()
      ensures View() == Execute(Decode(p0), p1, operand, nmi, s)
    {
      hide Decode, Modified, ApplyModify, And, Or, Xor, Bit6, Bit7, U8, U16, Lo, Hi, Word, SetA, SetX, SetY, SetAX, SetAXS, SetC,
           SetFlags, SetNZ, AddToA, SubtractFromA, CompareWith, BitTest, RotateAnd, SubtractToX, HighAddress,
           HighValue, ExecModifyA, ExecImplied, ExecBranch, ExecJmpInd, ExecJsr, ExecRts, ExecRti, ExecPush,
           ExecPla, ExecPlp, EnterHandler, StatusByte, Interrupt, ExecWrite, Stored, WriteCycles, ExecHigh,
           HighSource, HighBase, HighIndex, AfterHigh;
      Row5Low();
      match p0
      case 0x53 => var ea := RmwIndY(p1); SreOp(ea, 0, 3, 2, LOAD_ABS, STORE_ABS);
      case _ => assert false;
    }

    method Opcodes54(p0: byte, p1: byte, p2: word, nmi: bool, ghost operand: word, ghost s: Cpu)
      requires Valid() && 0x54 <= p0 <= 0x55 && !Decode(p0).Jam?
      requires Fetched(p0, p2, operand, s)
      modifies this, ram
      ensures Valid()
      ensures View() == Execute(Decode(p0), p1, operand, nmi, s)
    {
      hide Decode, Modified, ApplyModify, And, Or, Xor, Bit6, Bit7, U8, U16, Lo, Hi, Word, SetA, SetX, SetY, SetAX, SetAXS, SetC,
           SetFlags, SetNZ, AddToA, SubtractFromA, CompareWith, BitTest, RotateAnd, SubtractToX, HighAddress,
           HighValue, ExecModifyA, ExecImplied, ExecBranch, ExecJmpInd, ExecJsr, ExecRts, ExecRti, ExecPush,
           ExecPla, ExecPlp, EnterHandler, StatusByte, Interrupt, ExecWrite, Stored, WriteCycles, ExecHigh,
           HighSource, HighBase, HighIndex, AfterHigh, ZpWord, Holds;
      Row5Low();
      match p0
      case 0x54 => Noop(2, 2);
      case 0x55 => EorOp(LoadZero(p1 + regX), 2, 2);
      case _ => assert false;
    }

    method Opcodes56(p0: byte, p1: byte, p2: word, nmi: bool, ghost operand: word, ghost s: Cpu)
      requires Valid() && 0x56 <= p0 <= 0x57 && !Decode(p0).Jam?
      requires Fetched(p0, p2, operand, s)
      modifies this, ram
      ensures Valid()
      ensures View() == Execute(Decode(p0), p1, operand, nmi, s)
    {
      hide Decode, Modified, ApplyModify, And, Or, Xor, Bit6, Bit7, U8, U16, Lo, Hi, Word, SetA, SetX, SetY, SetAX, SetAXS, SetC,
           SetFlags, SetNZ, AddToA, SubtractFromA, CompareWith, BitTest, RotateAnd, SubtractToX, HighAddress,
           HighValue, ExecModifyA, ExecImplied, ExecBranch, ExecJmpInd, ExecJsr, ExecRts, ExecRti, ExecPush,
           ExecPla, ExecPlp, EnterHandler, StatusByte, Interrupt, ExecWrite, Stored, WriteCycles, ExecHigh,
           HighSource, HighBase, HighIndex, AfterHigh, ZpWord, Holds;
      Row5Low();
      match p0
      case 0x56 => LsrOp(U8(p1 + regX), 4, 2, LOAD_ZERO, STORE_ABS);
      case 0x57 => SreOp(U8(p1 + regX), 0, 4, 2, LOAD_ZERO, STORE_ABS);
      case _ => assert false;
    }

    method Opcodes58(p0: byte, p1: byte, p2: word, nmi: bool, ghost operand: word, ghost s: Cpu)
      requires Valid() && 0x58 <= p0 <= 0x59 && !Decode(p0).Jam?
      requires Fetched(p0, p2, operand, s)
      modifies this, ram
      ensures Valid()
      ensures View() == Execute(Decode(p0), p1, operand, nmi, s)
    {
      hide Decode, Modified, ApplyModify, And, Or, Xor, Bit6, Bit7, U8, U16, Lo, Hi, Word, SetA, SetX, SetY, SetAX, SetAXS, SetC,
           SetFlags, SetNZ, AddToA, SubtractFromA, CompareWith, BitTest, RotateAnd, SubtractToX, HighAddress,
           HighValue, ExecModifyA, ExecImplied, ExecBranch, ExecJmpInd, ExecJsr, ExecRts, ExecRti, ExecPush,
           ExecPla, ExecPlp, EnterHandler, StatusByte, Interrupt, ExecWrite, Stored, WriteCycles, ExecHigh,
           HighSource, HighBase, HighIndex, AfterHigh, ZpWord, Holds;
      Row5High();
      match p0
      case 0x58 => InterruptFlagOpcode(CLI, s);
      case 0x59 => var v := LoadAbsY(p2); EorOp(v, 1, 3);
      case _ => assert false;
    }

    method Opcodes5A(p0: byte, p1: byte, p2: word, nmi: bool, ghost operand: word, ghost s: Cpu)
      requires Valid() && 0x5a <= p0 <= 0x5b && !Decode(p0).Jam?
      requires Fetched(p0, p2, operand, s)
      modifies this, ram
      ensures Valid()
      ensures View() == Execute(Decode(p0), p1, operand, nmi, s)
    {
      hide Decode, Modified, ApplyModify, And, Or, Xor, Bit6, Bit7, U8, U16, Lo, Hi, Word, SetA, SetX, SetY, SetAX, SetAXS, SetC,
           SetFlags, SetNZ, AddToA, SubtractFromA, CompareWith, BitTest, RotateAnd, SubtractToX, HighAddress,
           HighValue, ExecModifyA, ExecImplied, ExecBranch, ExecJmpInd, ExecJsr, ExecRts, ExecRti, ExecPush,
           ExecPla, ExecPlp, EnterHandler, StatusByte, Interrupt, ExecWrite, Stored, WriteCycles, ExecHigh,
           HighSource, HighBase, HighIndex, AfterHigh, ZpWord, Holds;
      Row5High();
      match p0
      case 0x5a => CountOpcode(NOP, s);
      case 0x5b => SreOp(p2, 0, 3, 3, LOAD_ABS_Y_RMW, STORE_ABS_Y_RMW);
      case _ => assert false;
    }

    method Opcodes5C(p0: byte, p1: byte, p2: word, nmi: bool, ghost operand: word, ghost s: Cpu)
      requires Valid() && 0x5c <= p0 <= 0x5d && !Decode(p0).Jam?
      requires Fetched(p0, p2, operand, s)
      modifies this, ram
      ensures Valid()
      ensures View() == Execute(Decode(p0), p1, operand, nmi, s)
    {
      hide Decode, Modified, ApplyModify, And, Or, Xor, Bit6, Bit7, U8, U16, Lo, Hi, Word, SetA, SetX, SetY, SetAX, SetAXS, SetC,
           SetFlags, SetNZ, AddToA, SubtractFromA, CompareWith, BitTest, RotateAnd, SubtractToX, HighAddress,
           HighValue, ExecModifyA, ExecImplied, ExecBranch, ExecJmpInd, ExecJsr, ExecRts, ExecRti, ExecPush,
           ExecPla, ExecPlp, EnterHandler, StatusByte, Interrupt, ExecWrite, Stored, WriteCycles, ExecHigh,
           HighSource, HighBase, HighIndex, AfterHigh, ZpWord, Holds;
      Row5High();
      match p0
      case 0x5c => NoopAbsX(p2);
      case 0x5d => var v := LoadAbsX(p2); EorOp(v, 1, 3);
      case _ => assert false;
    }

    method Opcodes5E(p0: byte, p1: byte, p2: word, nmi: bool, ghost operand: word, ghost s: Cpu)
      requires Valid() && 0x5e <= p0 <= 0x5f && !Decode(p0).Jam?
      requires Fetched(p0, p2, operand, s)
      modifies this, ram
      ensures Valid()
      ensures View() == Execute(Decode(p0), p1, operand, nmi, s)
    {
      hide Decode, Modified, ApplyModify, And, Or, Xor, Bit6, Bit7, U8, U16, Lo, Hi, Word, SetA, SetX, SetY, SetAX, SetAXS, SetC,
           SetFlags, SetNZ, AddToA, SubtractFromA, CompareWith, BitTest, RotateAnd, SubtractToX, HighAddress,
           HighValue, ExecModifyA, ExecImplied, ExecBranch, ExecJmpInd, ExecJsr, ExecRts, ExecRti, ExecPush,
           ExecPla, ExecPlp, EnterHandler, StatusByte, Interrupt, ExecWrite, Stored, WriteCycles, ExecHigh,
           HighSource, HighBase, HighIndex, AfterHigh, ZpWord, Holds;
      Row5High();
      match p0
      case 0x5e => LsrOp(p2, 3, 3, LOAD_ABS_X_RMW, STORE_ABS_X_RMW);
      case 0x5f => SreOp(p2, 0, 3, 3, LOAD_ABS_X_RMW, STORE_ABS_X_RMW);
      case _ => assert false;
    }

    method Opcodes60(p0: byte, p1: byte, p2: word, nmi: bool, ghost operand: word, ghost s: Cpu)
      requires Valid() && 0x60 <= p0 <= 0x61 && !Decode(p0).Jam?
      requires Fetched(p0, p2, operand, s)
      modifies this, ram
      ensures Valid()
      ensures View() == Execute(Decode(p0), p1, operand, nmi, s)
    {
      hide Decode, And, Or, Xor, Bit6, Bit7, U8, U16, Lo, Hi, Word, SetA, SetX, SetY, SetAX, SetAXS, SetC,
           SetFlags, SetNZ, AddToA, SubtractFromA, CompareWith, BitTest, RotateAnd, SubtractToX, HighAddress,
           HighValue, ExecModifyA, ExecImplied, ExecBranch, ExecJmpInd, ExecJsr, ExecRts, ExecRti, ExecPush,
           ExecPla, ExecPlp, EnterHandler, StatusByte, Interrupt, ExecModify, Modified, ApplyModify, ModifyCycles,
           LoadAddress, LoadClk, StoreAddress, ModifyAt, ExecWrite, Stored, WriteCycles, ExecHigh, HighSource,
           HighBase, HighIndex, AfterHigh, Holds;
      Row6Low();
      match p0
      case 0x60 => RtsOp(s);
      case 0x61 => var v := LoadIndX(p1); AdcOp(v, 1, 2);
      case _ => assert false;
    }

    method Opcodes62(p0: byte, p1: byte, p2: word, nmi: bool, ghost operand: word, ghost s: Cpu)
      requires Valid() && 0x62 <= p0 <= 0x63 && !Decode(p0).Jam?
      requires Fetched(p0, p2, operand, s)
      modifies this, ram
      ensures Valid()
      ensures View() == Execute(Decode(p0), p1, operand, nmi, s)
    {
      hide Decode, Modified, ApplyModify, And, Or, Xor, Bit6, Bit7, U8, U16, Lo, Hi, Word, SetA, SetX, SetY, SetAX, SetAXS, SetC,
           SetFlags, SetNZ, AddToA, SubtractFromA, CompareWith, BitTest, RotateAnd, SubtractToX, HighAddress,
           HighValue, ExecModifyA, ExecImplied, ExecBranch, ExecJmpInd, ExecJsr, ExecRts, ExecRti, ExecPush,
           ExecPla, ExecPlp, EnterHandler, StatusByte, Interrupt, ExecRead, ApplyRead, ReadCycles, CrossesPage,
           Operand, ExecWrite, Stored, WriteCycles, ExecHigh, HighSource, HighBase, HighIndex, AfterHigh, Holds;
      Row6Low();
      match p0
      case 0x63 => RraOp(LoadZeroAddr(p1 + regX), 3, 3, 2, LOAD_ABS, STORE_ABS);
      case _ => assert false;
    }

    method Opcodes64(p0: byte, p1: byte, p2: word, nmi: bool, ghost operand: word, ghost s: Cpu)
      requires Valid() && 0x64 <= p0 <= 0x65 && !Decode(p0).Jam?
      requires Fetched(p0, p2, operand, s)
      modifies this, ram
      ensures Valid()
      ensures View() == Execute(Decode(p0), p1, operand, nmi, s)
    {
      hide Decode, And, Or, Xor, Bit6, Bit7, U8, U16, Lo, Hi, Word, SetA, SetX, SetY, SetAX, SetAXS, SetC,
           SetFlags, SetNZ, AddToA, SubtractFromA, CompareWith, BitTest, RotateAnd, SubtractToX, HighAddress,
           HighValue, ExecModifyA, ExecImplied, ExecBranch, ExecJmpInd, ExecJsr, ExecRts, ExecRti, ExecPush,
           ExecPla, ExecPlp, EnterHandler, StatusByte, Interrupt, ExecModify, Modified, ApplyModify, ModifyCycles,
           LoadAddress, LoadClk, StoreAddress, ModifyAt, ExecWrite, Stored, WriteCycles, ExecHigh, HighSource,
           HighBase, HighIndex, AfterHigh, ZpWord, Holds;
      Row6Low();
      match p0
      case 0x64 => Noop(1, 2);
      case 0x65 => AdcOp(LoadZero(p1), 1, 2);
      case _ => assert false;
    }

    method Opcodes66(p0: byte, p1: byte, p2: word, nmi: bool, ghost operand: word, ghost s: Cpu)
      requires Valid() && 0x66 <= p0 <= 0x67 && !Decode(p0).Jam?
      requires Fetched(p0, p2, operand, s)
      modifies this, ram
      ensures Valid()
      ensures View() == Execute(Decode(p0), p1, operand, nmi, s)
    {
      hide Decode, Modified, ApplyModify, And, Or, Xor, Bit6, Bit7, U8, U16, Lo, Hi, Word, SetA, SetX, SetY, SetAX, SetAXS, SetC,
           SetFlags, SetNZ, AddToA, SubtractFromA, CompareWith, BitTest, RotateAnd, SubtractToX, HighAddress,
           HighValue, ExecModifyA, ExecImplied, ExecBranch, ExecJmpInd, ExecJsr, ExecRts, ExecRti, ExecPush,
           ExecPla, ExecPlp, EnterHandler, StatusByte, Interrupt, ExecRead, ApplyRead, ReadCycles, CrossesPage,
           Operand, ExecWrite, Stored, WriteCycles, ExecHigh, HighSource, HighBase, HighIndex, AfterHigh, ZpWord,
           Holds;
      Row6Low();
      match p0
      case 0x66 => RorOp(p1, 3, 2, LOAD_ZERO, STORE_ABS);
      case 0x67 => RraOp(p1, 0, 3, 2, LOAD_ZERO, STORE_ABS);
      case _ => assert false;
    }

    method Opcodes68(p0: byte, p1: byte, p2: word, nmi: bool, ghost operand: word, ghost s: Cpu)
      requires Valid() && 0x68 <= p0 <= 0x6b && !Decode(p0).Jam?
      requires Fetched(p0, p2, operand, s)
      modifies this, ram
      ensures Valid()
      ensures View() == Execute(Decode(p0), p1, operand, nmi, s)
    {
      hide Decode, And, Or, Xor, Bit6, Bit7, U8, U16, Lo, Hi, Word, SetA, SetX, SetY, SetAX, SetAXS, SetC,
           SetFlags, SetNZ, AddToA, SubtractFromA, CompareWith, BitTest, RotateAnd, SubtractToX, HighAddress,
           HighValue, ExecModifyA, ExecImplied, ExecBranch, ExecJmpInd, ExecJsr, ExecRts, ExecRti, ExecPush,
           ExecPla, ExecPlp, EnterHandler, StatusByte, Interrupt, ExecModify, Modified, ApplyModify, ModifyCycles,
           LoadAddress, LoadClk, StoreAddress, ModifyAt, ExecWrite, Stored, WriteCycles, ExecHigh, HighSource,
           HighBase, HighIndex, AfterHigh, ZpWord, Holds;
      Row6High();
      match p0
      case 0x68 => PlaOp(s);
      case 0x69 => AdcOp(p1, 0, 2);
      case 0x6a => RorA(s);
      case 0x6b => ArrOp(p1, 2);
      case _ => assert false;
    }

    method Opcodes6C(p0: byte, p1: byte, p2: word, nmi: bool, ghost operand: word, ghost s: Cpu)
      requires Valid() && 0x6c <= p0 <= 0x6f && !Decode(p0).Jam?
      requires Fetched(p0, p2, operand, s)
      modifies this, ram
      ensures Valid()
      ensures View() == Execute(Decode(p0), p1, operand, nmi, s)
    {
      hide Decode, Modified, ApplyModify, And, Or, Xor, Bit6, Bit7, U8, U16, Lo, Hi, Word, SetA, SetX, SetY, SetAX, SetAXS, SetC,
           SetFlags, SetNZ, AddToA, SubtractFromA, CompareWith, BitTest, RotateAnd, SubtractToX, HighAddress,
           HighValue, ExecModifyA, ExecImplied, ExecBranch, ExecJmpInd, ExecJsr, ExecRts, ExecRti, ExecPush,
           ExecPla, ExecPlp, EnterHandler, StatusByte, Interrupt, ExecWrite, Stored, WriteCycles, ExecHigh,
           HighSource, HighBase, HighIndex, AfterHigh, ZpWord, Holds;
      Row6High();
      match p0
      case 0x6c => JmpIndOp(p2, s);
      case 0x6d => AdcOp(Load(p2), 1, 3);
      case 0x6e => RorOp(p2, 3, 3, LOAD_ABS, STORE_ABS);
      case 0x6f => RraOp(p2, 0, 3, 3, LOAD_ABS, STORE_ABS);
      case _ => assert false;
    }

    method Opcodes70(p0: byte, p1: byte, p2: word, nmi: bool, ghost operand: word, ghost s: Cpu)
      requires Valid() && 0x70 <= p0 <= 0x71 && !Decode(p0).Jam?
      requires Fetched(p0, p2, operand, s)
      modifies this, ram
      ensures Valid()
      ensures View() == Execute(Decode(p0), p1, operand, nmi, s)
    {
      hide Decode, And, Or, Xor, Bit6, Bit7, U8, U16, Lo, Hi, Word, SetA, SetX, SetY, SetAX, SetAXS, SetC,
           SetFlags, SetNZ, AddToA, SubtractFromA, CompareWith, BitTest, RotateAnd, SubtractToX, HighAddress,
           HighValue, ExecModifyA, ExecImplied, ExecBranch, ExecJmpInd, ExecJsr, ExecRts, ExecRti, ExecPush,
           ExecPla, ExecPlp, EnterHandler, StatusByte, Interrupt, ExecModify, Modified, ApplyModify, ModifyCycles,
           LoadAddress, LoadClk, StoreAddress, ModifyAt, ExecWrite, Stored, WriteCycles, ExecHigh, HighSource,
           HighBase, HighIndex, AfterHigh;
      Row7Low();
      match p0
      case 0x70 => BranchOp(regP.v, p1, VS, s);
      case 0x71 => var v := LoadIndY(p1); AdcOp(v, 1, 2);
      case _ => assert false;
    }

    method Opcodes72(p0: byte, p1: byte, p2: word, nmi: bool, ghost operand: word, ghost s: Cpu)
      requires Valid() && 0x72 <= p0 <= 0x73 && !Decode(p0).Jam?
      requires Fetched(p0, p2, operand, s)
      modifies this, ram
      ensures Valid()
      ensures View() == Execute(Decode(p0), p1, operand, nmi, s)
    {
      hide Decode, Modified, ApplyModify, And, Or, Xor, Bit6, Bit7, U8, U16, Lo, Hi, Word, SetA, SetX, SetY, SetAX, SetAXS, SetC,
           SetFlags, SetNZ, AddToA, SubtractFromA, CompareWith, BitTest, RotateAnd, SubtractToX, HighAddress,
           HighValue, ExecModifyA, ExecImplied, ExecBranch, ExecJmpInd, ExecJsr, ExecRts, ExecRti, ExecPush,
           ExecPla, ExecPlp, EnterHandler, StatusByte, Interrupt, ExecRead, ApplyRead, ReadCycles, CrossesPage,
           Operand, ExecWrite, Stored, WriteCycles, ExecHigh, HighSource, HighBase, HighIndex, AfterHigh, Holds;
      Row7Low();
      match p0
      case 0x73 => var ea := RmwIndY(p1); RraOp(ea, 0, 3, 2, LOAD_ABS, STORE_ABS);
      case _ => assert false;
    }

    method Opcodes74(p0: byte, p1: byte, p2: word, nmi: bool, ghost operand: word, ghost s: Cpu)
      requires Valid() && 0x74 <= p0 <= 0x75 && !Decode(p0).Jam?
      requires Fetched(p0, p2, operand, s)
      modifies this, ram
      ensures Valid()
      ensures View() == Execute(Decode(p0), p1, operand, nmi, s)
    {
      hide Decode, And, Or, Xor, Bit6, Bit7, U8, U16, Lo, Hi, Word, SetA, SetX, SetY, SetAX, SetAXS, SetC,
           SetFlags, SetNZ, AddToA, SubtractFromA, CompareWith, BitTest, RotateAnd, SubtractToX, HighAddress,
           HighValue, ExecModifyA, ExecImplied, ExecBranch, ExecJmpInd, ExecJsr, ExecRts, ExecRti, ExecPush,
           ExecPla, ExecPlp, EnterHandler, StatusByte, Interrupt, ExecModify, Modified, ApplyModify, ModifyCycles,
           LoadAddress, LoadClk, StoreAddress, ModifyAt, ExecWrite, Stored, WriteCycles, ExecHigh, HighSource,
           HighBase, HighIndex, AfterHigh, ZpWord, Holds;
      Row7Low();
      match p0
      case 0x74 => Noop(2, 2);
      case 0x75 => AdcOp(LoadZero(p1 + regX), 2, 2);
      case _ => assert false;
    }

    method Opcodes76(p0: byte, p1: byte, p2: word, nmi: bool, ghost operand: word, ghost s: Cpu)
      requires Valid() && 0x76 <= p0 <= 0x77 && !Decode(p0).Jam?
      requires Fetched(p0, p2, operand, s)
      modifies this, ram
      ensures Valid()
      ensures View() == Execute(Decode(p0), p1, operand, nmi, s)
    {
      hide Decode, Modified, ApplyModify, And, Or, Xor, Bit6, Bit7, U8, U16, Lo, Hi, Word, SetA, SetX, SetY, SetAX, SetAXS, SetC,
           SetFlags, SetNZ, AddToA, SubtractFromA, CompareWith, BitTest, RotateAnd, SubtractToX, HighAddress,
           HighValue, ExecModifyA, ExecImplied, ExecBranch, ExecJmpInd, ExecJsr, ExecRts, ExecRti, ExecPush,
           ExecPla, ExecPlp, EnterHandler, StatusByte, Interrupt, ExecRead, ApplyRead, ReadCycles, CrossesPage,
           Operand, ExecWrite, Stored, WriteCycles, ExecHigh, HighSource, HighBase, HighIndex, AfterHigh, ZpWord,
           Holds;
      Row7Low();
      match p0
      case 0x76 => RorOp(U8(p1 + regX), 4, 2, LOAD_ZERO, STORE_ABS);
      case 0x77 => RraOp(U8(p1 + regX), 0, 4, 2, LOAD_ZERO, STORE_ABS);
      case _ => assert false;
    }

    method Opcodes78(p0: byte, p1: byte, p2: word, nmi: bool, ghost operand: word, ghost s: Cpu)
      requires Valid() && 0x78 <= p0 <= 0x79 && !Decode(p0).Jam?
      requires Fetched(p0, p2, operand, s)
      modifies this, ram
      ensures Valid()
      ensures View() == Execute(Decode(p0), p1, operand, nmi, s)
    {
      hide Decode, Modified, ApplyModify, And, Or, Xor, Bit6, Bit7, U8, U16, Lo, Hi, Word, SetA, SetX, SetY, SetAX, SetAXS, SetC,
           SetFlags, SetNZ, AddToA, SubtractFromA, CompareWith, BitTest, RotateAnd, SubtractToX, HighAddress,
           HighValue, ExecModifyA, ExecImplied, ExecBranch, ExecJmpInd, ExecJsr, ExecRts, ExecRti, ExecPush,
           ExecPla, ExecPlp, EnterHandler, StatusByte, Interrupt, ExecWrite, Stored, WriteCycles, ExecHigh,
           HighSource, HighBase, HighIndex, AfterHigh, ZpWord, Holds;
      Row7High();
      match p0
      case 0x78 => InterruptFlagOpcode(SEI, s);
      case 0x79 => var v := LoadAbsY(p2); AdcOp(v, 1, 3);
      case _ => assert false;
    }

    method Opcodes7A(p0: byte, p1: byte, p2: word, nmi: bool, ghost operand: word, ghost s: Cpu)
      requires Valid() && 0x7a <= p0 <= 0x7b && !Decode(p0).Jam?
      requires Fetched(p0, p2, operand, s)
      modifies this, ram
      ensures Valid()
      ensures View() == Execute(Decode(p0), p1, operand, nmi, s)
    {
      hide Decode, Modified, ApplyModify, And, Or, Xor, Bit6, Bit7, U8, U16, Lo, Hi, Word, SetA, SetX, SetY, SetAX, SetAXS, SetC,
           SetFlags, SetNZ, AddToA, SubtractFromA, CompareWith, BitTest, RotateAnd, SubtractToX, HighAddress,
           HighValue, ExecModifyA, ExecImplied, ExecBranch, ExecJmpInd, ExecJsr, ExecRts, ExecRti, ExecPush,
           ExecPla, ExecPlp, EnterHandler, StatusByte, Interrupt, ExecWrite, Stored, WriteCycles, ExecHigh,
           HighSource, HighBase, HighIndex, AfterHigh, ZpWord, Holds;
      Row7High();
      match p0
      case 0x7a => CountOpcode(NOP, s);
      case 0x7b => RraOp(p2, 0, 3, 3, LOAD_ABS_Y_RMW, STORE_ABS_Y_RMW);
      case _ => assert false;
    }

    method Opcodes7C(p0: byte, p1: byte, p2: word, nmi: bool, ghost operand: word, ghost s: Cpu)
      requires Valid() && 0x7c <= p0 <= 0x7d && !Decode(p0).Jam?
      requires Fetched(p0, p2, operand, s)
      modifies this, ram
      ensures Valid()
      ensures View() == Execute(Decode(p0), p1, operand, nmi, s)
    {
      hide Decode, And, Or, Xor, Bit6, Bit7, U8, U16, Lo, Hi, Word, SetA, SetX, SetY, SetAX, SetAXS, SetC,
           SetFlags, SetNZ, AddToA, SubtractFromA, CompareWith, BitTest, RotateAnd, SubtractToX, HighAddress,
           HighValue, ExecModifyA, ExecImplied, ExecBranch, ExecJmpInd, ExecJsr, ExecRts, ExecRti, ExecPush,
           ExecPla, ExecPlp, EnterHandler, StatusByte, Interrupt, ExecModify, Modified, ApplyModify, ModifyCycles,
           LoadAddress, LoadClk, StoreAddress, ModifyAt, ExecWrite, Stored, WriteCycles, ExecHigh, HighSource,
           HighBase, HighIndex, AfterHigh, ZpWord, Holds;
      Row7High();
      match p0
      case 0x7c => NoopAbsX(p2);
      case 0x7d => var v := LoadAbsX(p2); AdcOp(v, 1, 3);
      case _ => assert false;
    }

    method Opcodes7E(p0: byte, p1: byte, p2: word, nmi: bool, ghost operand: word, ghost s: Cpu)
      requires Valid() && 0x7e <= p0 <= 0x7f && !Decode(p0).Jam?
      requires Fetched(p0, p2, operand, s)
      modifies this, ram
      ensures Valid()
      ensures View() == Execute(Decode(p0), p1, operand, nmi, s)
    {
      hide Decode, Modified, ApplyModify, And, Or, Xor, Bit6, Bit7, U8, U16, Lo, Hi, Word, SetA, SetX, SetY, SetAX, SetAXS, SetC,
           SetFlags, SetNZ, AddToA, SubtractFromA, CompareWith, BitTest, RotateAnd, SubtractToX, HighAddress,
           HighValue, ExecModifyA, ExecImplied, ExecBranch, ExecJmpInd, ExecJsr, ExecRts, ExecRti, ExecPush,
           ExecPla, ExecPlp, EnterHandler, StatusByte, Interrupt, ExecRead, ApplyRead, ReadCycles, CrossesPage,
           Operand, ExecWrite, Stored, WriteCycles, ExecHigh, HighSource, HighBase, HighIndex, AfterHigh, ZpWord,
           Holds;
      Row7High();
      match p0
      case 0x7e => RorOp(p2, 3, 3, LOAD_ABS_X_RMW, STORE_ABS_X_RMW);
      case 0x7f => RraOp(p2, 0, 3, 3, LOAD_ABS_X_RMW, STORE_ABS_X_RMW);
      case _ => assert false;
    }

    method Opcodes80(p0: byte, p1: byte, p2: word, nmi: bool, ghost operand: word, ghost s: Cpu)
      requires Valid() && 0x80 <= p0 <= 0x81 && !Decode(p0).Jam?
      requires Fetched(p0, p2, operand, s)
      modifies this, ram
      ensures Valid()
      ensures View() == Execute(Decode(p0), p1, operand, nmi, s)
    {
      hide Decode, And, Or, Xor, Bit6, Bit7, U8, U16, Lo, Hi, Word, SetA, SetX, SetY, SetAX, SetAXS, SetC,
           SetFlags, SetNZ, AddToA, SubtractFromA, CompareWith, BitTest, RotateAnd, SubtractToX, HighAddress,
           HighValue, ExecModifyA, ExecImplied, ExecBranch, ExecJmpInd, ExecJsr, ExecRts, ExecRti, ExecPush,
           ExecPla, ExecPlp, EnterHandler, StatusByte, Interrupt, ExecModify, Modified, ApplyModify, ModifyCycles,
           LoadAddress, LoadClk, ModifyAt, ExecHigh, HighSource, HighBase, HighIndex, AfterHigh, Holds;
      Row8Low();
      match p0
      case 0x80 => Noop(0, 2);
      case 0x81 => StOp(LoadZeroAddr(p1 + regX), regA, 4, 2, STORE_ABS);
      case _ => assert false;
    }

    method Opcodes82(p0: byte, p1: byte, p2: word, nmi: bool, ghost operand: word, ghost s: Cpu)
      requires Valid() && 0x82 <= p0 <= 0x83 && !Decode(p0).Jam?
      requires Fetched(p0, p2, operand, s)
      modifies this, ram
      ensures Valid()
      ensures View() == Execute(Decode(p0), p1, operand, nmi, s)
    {
      hide Decode, And, Or, Xor, Bit6, Bit7, U8, U16, Lo, Hi, Word, SetA, SetX, SetY, SetAX, SetAXS, SetC,
           SetFlags, SetNZ, AddToA, SubtractFromA, CompareWith, BitTest, RotateAnd, SubtractToX, HighAddress,
           HighValue, ExecModifyA, ExecImplied, ExecBranch, ExecJmpInd, ExecJsr, ExecRts, ExecRti, ExecPush,
           ExecPla, ExecPlp, EnterHandler, StatusByte, Interrupt, ExecModify, Modified, ApplyModify, ModifyCycles,
           LoadAddress, LoadClk, ModifyAt, ExecHigh, HighSource, HighBase, HighIndex, AfterHigh, Holds;
      Row8Low();
      match p0
      case 0x82 => Noop(0, 2);
      case 0x83 => StOp(LoadZeroAddr(p1 + regX), And(regA, regX), 4, 2, STORE_ABS);
      case _ => assert false;
    }

    method Opcodes84(p0: byte, p1: byte, p2: word, nmi: bool, ghost operand: word, ghost s: Cpu)
      requires Valid() && 0x84 <= p0 <= 0x87 && !Decode(p0).Jam?
      requires Fetched(p0, p2, operand, s)
      modifies this, ram
      ensures Valid()
      ensures View() == Execute(Decode(p0), p1, operand, nmi, s)
    {
      hide Decode, And, Or, Xor, Bit6, Bit7, U8, U16, Lo, Hi, Word, SetA, SetX, SetY, SetAX, SetAXS, SetC,
           SetFlags, SetNZ, AddToA, SubtractFromA, CompareWith, BitTest, RotateAnd, SubtractToX, HighAddress,
           HighValue, ExecModifyA, ExecImplied, ExecBranch, ExecJmpInd, ExecJsr, ExecRts, ExecRti, ExecPush,
           ExecPla, ExecPlp, EnterHandler, StatusByte, Interrupt, ExecRead, ApplyRead, ReadCycles, CrossesPage,
           Operand, ExecModify, Modified, ApplyModify, ModifyCycles, LoadAddress, LoadClk, ModifyAt, ExecHigh,
           HighSource, HighBase, HighIndex, AfterHigh, ZpWord, Holds;
      Row8Low();
      match p0
      case 0x84 => StOp(p1, regY, 1, 2, STORE_ZERO);
      case 0x85 => StOp(p1, regA, 1, 2, STORE_ZERO);
      case 0x86 => StOp(p1, regX, 1, 2, STORE_ZERO);
      case 0x87 => StOp(p1, And(regA, regX), 1, 2, STORE_ZERO);
      case _ => assert false;
    }

    method Opcodes88(p0: byte, p1: byte, p2: word, nmi: bool, ghost operand: word, ghost s: Cpu)
      requires Valid() && 0x88 <= p0 <= 0x89 && !Decode(p0).Jam?
      requires Fetched(p0, p2, operand, s)
      modifies this, ram
      ensures Valid()
      ensures View() == Execute(Decode(p0), p1, operand, nmi, s)
    {
      hide Decode, And, Or, Xor, Bit6, Bit7, U8, U16, Lo, Hi, Word, SetA, SetX, SetY, SetAX, SetAXS, SetC,
           SetFlags, SetNZ, AddToA, SubtractFromA, CompareWith, BitTest, RotateAnd, SubtractToX, HighAddress,
           HighValue, ExecModifyA, ExecImplied, ExecBranch, ExecJmpInd, ExecJsr, ExecRts, ExecRti, ExecPush,
           ExecPla, ExecPlp, EnterHandler, StatusByte, Interrupt, ExecModify, Modified, ApplyModify, ModifyCycles,
           LoadAddress, LoadClk, StoreAddress, ModifyAt, ExecWrite, Stored, WriteCycles, ExecHigh, HighSource,
           HighBase, HighIndex, AfterHigh, ZpWord, Holds;
      Row8High();
      match p0
      case 0x88 => CountYOpcode(DEY, s);
      case 0x89 => Noop(0, 2);
      case _ => assert false;
    }

    method Opcodes8A(p0: byte, p1: byte, p2: word, nmi: bool, ghost operand: word, ghost s: Cpu)
      requires Valid() && 0x8a <= p0 <= 0x8b && !Decode(p0).Jam?
      requires Fetched(p0, p2, operand, s)
      modifies this, ram
      ensures Valid()
      ensures View() == Execute(Decode(p0), p1, operand, nmi, s)
    {
      hide Decode, And, Or, Xor, Bit6, Bit7, U8, U16, Lo, Hi, Word, SetA, SetX, SetY, SetAX, SetAXS, SetC,
           SetFlags, SetNZ, AddToA, SubtractFromA, CompareWith, BitTest, RotateAnd, SubtractToX, HighAddress,
           HighValue, ExecModifyA, ExecImplied, ExecBranch, ExecJmpInd, ExecJsr, ExecRts, ExecRti, ExecPush,
           ExecPla, ExecPlp, EnterHandler, StatusByte, Interrupt, ExecModify, Modified, ApplyModify, ModifyCycles,
           LoadAddress, LoadClk, StoreAddress, ModifyAt, ExecWrite, Stored, WriteCycles, ExecHigh, HighSource,
           HighBase, HighIndex, AfterHigh, ZpWord, Holds;
      Row8High();
      match p0
      case 0x8a => TransferOpcode(TXA, s);
      case 0x8b => AneOp(p1, 2);
      case _ => assert false;
    }

    method Opcodes8C(p0: byte, p1: byte, p2: word, nmi: bool, ghost operand: word, ghost s: Cpu)
      requires Valid() && 0x8c <= p0 <= 0x8f && !Decode(p0).Jam?
      requires Fetched(p0, p2, operand, s)
      modifies this, ram
      ensures Valid()
      ensures View() == Execute(Decode(p0), p1, operand, nmi, s)
    {
      hide Decode, And, Or, Xor, Bit6, Bit7, U8, U16, Lo, Hi, Word, SetA, SetX, SetY, SetAX, SetAXS, SetC,
           SetFlags, SetNZ, AddToA, SubtractFromA, CompareWith, BitTest, RotateAnd, SubtractToX, HighAddress,
           HighValue, ExecModifyA, ExecImplied, ExecBranch, ExecJmpInd, ExecJsr, ExecRts, ExecRti, ExecPush,
           ExecPla, ExecPlp, EnterHandler, StatusByte, Interrupt, ExecRead, ApplyRead, ReadCycles, CrossesPage,
           Operand, ExecModify, Modified, ApplyModify, ModifyCycles, LoadAddress, LoadClk, ModifyAt, ExecHigh,
           HighSource, HighBase, HighIndex, AfterHigh, ZpWord, Holds;
      Row8High();
      match p0
      case 0x8c => StOp(p2, regY, 1, 3, STORE_ABS);
      case 0x8d => StOp(p2, regA, 1, 3, STORE_ABS);
      case 0x8e => StOp(p2, regX, 1, 3, STORE_ABS);
      case 0x8f => StOp(p2, And(regA, regX), 1, 3, STORE_ABS);
      case _ => assert false;
    }

    method Opcodes90(p0: byte, p1: byte, p2: word, nmi: bool, ghost operand: word, ghost s: Cpu)
      requires Valid() && 0x90 <= p0 <= 0x93 && !Decode(p0).Jam?
      requires Fetched(p0, p2, operand, s)
      modifies this, ram
      ensures Valid()
      ensures View() == Execute(Decode(p0), p1, operand, nmi, s)
    {
      hide Decode, And, Or, Xor, Bit6, Bit7, U8, U16, Lo, Hi, Word, SetA, SetX, SetY, SetAX, SetAXS, SetC,
           SetFlags, SetNZ, AddToA, SubtractFromA, CompareWith, BitTest, RotateAnd, SubtractToX, HighAddress,
           HighValue, ExecModifyA, ExecImplied, ExecBranch, ExecJmpInd, ExecJsr, ExecRts, ExecRti, ExecPush,
           ExecPla, ExecPlp, EnterHandler, StatusByte, Interrupt, ExecRead, ApplyRead, ReadCycles, CrossesPage,
           Operand, ExecModify, Modified, ApplyModify, ModifyCycles, LoadAddress, LoadClk, ModifyAt;
      Row9Low();
      match p0
      case 0x90 => BranchOp(!regP.c, p1, CC, s);
      case 0x91 => StaIndY(p1);
      case 0x93 => ShaIndY(p1);
      case _ => assert false;
    }

    method Opcodes94(p0: byte, p1: byte, p2: word, nmi: bool, ghost operand: word, ghost s: Cpu)
      requires Valid() && 0x94 <= p0 <= 0x97 && !Decode(p0).Jam?
      requires Fetched(p0, p2, operand, s)
      modifies this, ram
      ensures Valid()
      ensures View() == Execute(Decode(p0), p1, operand, nmi, s)
    {
      hide Decode, And, Or, Xor, Bit6, Bit7, U8, U16, Lo, Hi, Word, SetA, SetX, SetY, SetAX, SetAXS, SetC,
           SetFlags, SetNZ, AddToA, SubtractFromA, CompareWith, BitTest, RotateAnd, SubtractToX, HighAddress,
           HighValue, ExecModifyA, ExecImplied, ExecBranch, ExecJmpInd, ExecJsr, ExecRts, ExecRti, ExecPush,
           ExecPla, ExecPlp, EnterHandler, StatusByte, Interrupt, ExecRead, ApplyRead, ReadCycles, CrossesPage,
           Operand, ExecModify, Modified, ApplyModify, ModifyCycles, LoadAddress, LoadClk, ModifyAt, ExecHigh,
           HighSource, HighBase, HighIndex, AfterHigh, ZpWord, Holds;
      Row9Low();
      match p0
      case 0x94 => StOp(p1 + regX, regY, 2, 2, STORE_ZERO);
      case 0x95 => StOp(p1 + regX, regA, 2, 2, STORE_ZERO);
      case 0x96 => StOp(p1 + regY, regX, 2, 2, STORE_ZERO);
      case 0x97 => StOp(U8(p1 + regY), And(regA, regX), 2, 2, STORE_ABS);
      case _ => assert false;
    }

    method Opcodes98(p0: byte, p1: byte, p2: word, nmi: bool, ghost operand: word, ghost s: Cpu)
      requires Valid() && 0x98 <= p0 <= 0x9b && !Decode(p0).Jam?
      requires Fetched(p0, p2, operand, s)
      modifies this, ram
      ensures Valid()
      ensures View() == Execute(Decode(p0), p1, operand, nmi, s)
    {
      hide Decode, And, Or, Xor, Bit6, Bit7, U8, U16, Lo, Hi, Word, SetA, SetX, SetY, SetAX, SetAXS, SetC,
           SetFlags, SetNZ, AddToA, SubtractFromA, CompareWith, BitTest, RotateAnd, SubtractToX, HighAddress,
           HighValue, ExecModifyA, ExecImplied, ExecBranch, ExecJmpInd, ExecJsr, ExecRts, ExecRti, ExecPush,
           ExecPla, ExecPlp, EnterHandler, StatusByte, Interrupt, ExecRead, ApplyRead, ReadCycles, CrossesPage,
           Operand, ExecModify, Modified, ApplyModify, ModifyCycles, LoadAddress, LoadClk, ModifyAt, ZpWord,
           Holds;
      Row9High();
      match p0
      case 0x98 => TransferOpcode(TYA, s);
      case 0x99 => StOp(p2, regA, 2, 3, STORE_ABS_Y);
      case 0x9a => StackTransferOpcode(TXS, s);
      case 0x9b => ShsAbsY(p2);
      case _ => assert false;
    }

    method Opcodes9C(p0: byte, p1: byte, p2: word, nmi: bool, ghost operand: word, ghost s: Cpu)
      requires Valid() && 0x9c <= p0 <= 0x9f && !Decode(p0).Jam?
      requires Fetched(p0, p2, operand, s)
      modifies this, ram
      ensures Valid()
      ensures View() == Execute(Decode(p0), p1, operand, nmi, s)
    {
      hide Decode, And, Or, Xor, Bit6, Bit7, U8, U16, Lo, Hi, Word, SetA, SetX, SetY, SetAX, SetAXS, SetC,
           SetFlags, SetNZ, AddToA, SubtractFromA, CompareWith, BitTest, RotateAnd, SubtractToX, HighAddress,
           HighValue, ExecModifyA, ExecImplied, ExecBranch, ExecJmpInd, ExecJsr, ExecRts, ExecRti, ExecPush,
           ExecPla, ExecPlp, EnterHandler, StatusByte, Interrupt, ExecRead, ApplyRead, ReadCycles, CrossesPage,
           Operand, ExecModify, Modified, ApplyModify, ModifyCycles, LoadAddress, LoadClk, ModifyAt, ZpWord,
           Holds;
      Row9High();
      match p0
      case 0x9c => ShyAbsX(p2);
      case 0x9d => StOp(p2, regA, 2, 3, STORE_ABS_X);
      case 0x9e => ShxAbsY(p2);
      case 0x9f => ShaAbsY(p2);
      case _ => assert false;
    }

    method OpcodesA0(p0: byte, p1: byte, p2: word, nmi: bool, ghost operand: word, ghost s: Cpu)
      requires Valid() && 0xa0 <= p0 <= 0xa0 && !Decode(p0).Jam?
      requires Fetched(p0, p2, operand, s)
      modifies this, ram
      ensures Valid()
      ensures View() == Execute(Decode(p0), p1, operand, nmi, s)
    {
      hide Decode, And, Or, Xor, Bit6, Bit7, U8, U16, Lo, Hi, Word, SetA, SetX, SetY, SetAX, SetAXS, SetC,
           SetFlags, SetNZ, AddToA, SubtractFromA, CompareWith, BitTest, RotateAnd, SubtractToX, HighAddress,
           HighValue, ExecModifyA, ExecImplied, ExecBranch, ExecJmpInd, ExecJsr, ExecRts, ExecRti, ExecPush,
           ExecPla, ExecPlp, EnterHandler, StatusByte, Interrupt, ExecModify, Modified, ApplyModify, ModifyCycles,
           LoadAddress, LoadClk, StoreAddress, ModifyAt, ExecWrite, Stored, WriteCycles, ExecHigh, HighSource,
           HighBase, HighIndex, AfterHigh, Holds;
      RowALow();
      match p0
      case 0xa0 => LdyOp(p1, 0, 2);
      case _ => assert false;
    }

    method OpcodesA1(p0: byte, p1: byte, p2: word, nmi: bool, ghost operand: word, ghost s: Cpu)
      requires Valid() && 0xa1 <= p0 <= 0xa1 && !Decode(p0).Jam?
      requires Fetched(p0, p2, operand, s)
      modifies this, ram
      ensures Valid()
      ensures View() == Execute(Decode(p0), p1, operand, nmi, s)
    {
      hide Decode, And, Or, Xor, Bit6, Bit7, U8, U16, Lo, Hi, Word, SetA, SetX, SetY, SetAX, SetAXS, SetC,
           SetFlags, SetNZ, AddToA, SubtractFromA, CompareWith, BitTest, RotateAnd, SubtractToX, HighAddress,
           HighValue, ExecModifyA, ExecImplied, ExecBranch, ExecJmpInd, ExecJsr, ExecRts, ExecRti, ExecPush,
           ExecPla, ExecPlp, EnterHandler, StatusByte, Interrupt, ExecModify, Modified, ApplyModify, ModifyCycles,
           LoadAddress, LoadClk, StoreAddress, ModifyAt, ExecWrite, Stored, WriteCycles, ExecHigh, HighSource,
           HighBase, HighIndex, AfterHigh, Holds;
      RowALow();
      match p0
      case 0xa1 => var v := LoadIndX(p1); LdaOp(v, 1, 2);
      case _ => assert false;
    }

    method OpcodesA2(p0: byte, p1: byte, p2: word, nmi: bool, ghost operand: word, ghost s: Cpu)
      requires Valid() && 0xa2 <= p0 <= 0xa2 && !Decode(p0).Jam?
      requires Fetched(p0, p2, operand, s)
      modifies this, ram
      ensures Valid()
      ensures View() == Execute(Decode(p0), p1, operand, nmi, s)
    {
      hide Decode, And, Or, Xor, Bit6, Bit7, U8, U16, Lo, Hi, Word, SetA, SetX, SetY, SetAX, SetAXS, SetC,
           SetFlags, SetNZ, AddToA, SubtractFromA, CompareWith, BitTest, RotateAnd, SubtractToX, HighAddress,
           HighValue, ExecModifyA, ExecImplied, ExecBranch, ExecJmpInd, ExecJsr, ExecRts, ExecRti, ExecPush,
           ExecPla, ExecPlp, EnterHandler, StatusByte, Interrupt, ExecModify, Modified, ApplyModify, ModifyCycles,
           LoadAddress, LoadClk, StoreAddress, ModifyAt, ExecWrite, Stored, WriteCycles, ExecHigh, HighSource,
           HighBase, HighIndex, AfterHigh, Holds;
      RowALow();
      match p0
      case 0xa2 => LdxOp(p1, 0, 2);
      case _ => assert false;
    }

    method OpcodesA3(p0: byte, p1: byte, p2: word, nmi: bool, ghost operand: word, ghost s: Cpu)
      requires Valid() && 0xa3 <= p0 <= 0xa3 && !Decode(p0).Jam?
      requires Fetched(p0, p2, operand, s)
      modifies this, ram
      ensures Valid()
      ensures View() == Execute(Decode(p0), p1, operand, nmi, s)
    {
      hide Decode, And, Or, Xor, Bit6, Bit7, U8, U16, Lo, Hi, Word, SetA, SetX, SetY, SetAX, SetAXS, SetC,
           SetFlags, SetNZ, AddToA, SubtractFromA, CompareWith, BitTest, RotateAnd, SubtractToX, HighAddress,
           HighValue, ExecModifyA, ExecImplied, ExecBranch, ExecJmpInd, ExecJsr, ExecRts, ExecRti, ExecPush,
           ExecPla, ExecPlp, EnterHandler, StatusByte, Interrupt, ExecModify, Modified, ApplyModify, ModifyCycles,
           LoadAddress, LoadClk, StoreAddress, ModifyAt, ExecWrite, Stored, WriteCycles, ExecHigh, HighSource,
           HighBase, HighIndex, AfterHigh, Holds;
      RowALow();
      match p0
      case 0xa3 => var v := LoadIndX(p1); LaxOp(v, 1, 2);
      case _ => assert false;
    }

    method OpcodesA4(p0: byte, p1: byte, p2: word, nmi: bool, ghost operand: word, ghost s: Cpu)
      requires Valid() && 0xa4 <= p0 <= 0xa5 && !Decode(p0).Jam?
      requires Fetched(p0, p2, operand, s)
      modifies this, ram
      ensures Valid()
      ensures View() == Execute(Decode(p0), p1, operand, nmi, s)
    {
      hide Decode, And, Or, Xor, Bit6, Bit7, U8, U16, Lo, Hi, Word, SetA, SetX, SetY, SetAX, SetAXS, SetC,
           SetFlags, SetNZ, AddToA, SubtractFromA, CompareWith, BitTest, RotateAnd, SubtractToX, HighAddress,
           HighValue, ExecModifyA, ExecImplied, ExecBranch, ExecJmpInd, ExecJsr, ExecRts, ExecRti, ExecPush,
           ExecPla, ExecPlp, EnterHandler, StatusByte, Interrupt, ExecModify, Modified, ApplyModify, ModifyCycles,
           LoadAddress, LoadClk, StoreAddress, ModifyAt, ExecWrite, Stored, WriteCycles, ExecHigh, HighSource,
           HighBase, HighIndex, AfterHigh, ZpWord, Holds;
      RowALow();
      match p0
      case 0xa4 => LdyOp(LoadZero(p1), 1, 2);
      case 0xa5 => LdaOp(LoadZero(p1), 1, 2);
      case _ => assert false;
    }

    method OpcodesA6(p0: byte, p1: byte, p2: word, nmi: bool, ghost operand: word, ghost s: Cpu)
      requires Valid() && 0xa6 <= p0 <= 0xa7 && !Decode(p0).Jam?
      requires Fetched(p0, p2, operand, s)
      modifies this, ram
      ensures Valid()
      ensures View() == Execute(Decode(p0), p1, operand, nmi, s)
    {
      hide Decode, And, Or, Xor, Bit6, Bit7, U8, U16, Lo, Hi, Word, SetA, SetX, SetY, SetAX, SetAXS, SetC,
           SetFlags, SetNZ, AddToA, SubtractFromA, CompareWith, BitTest, RotateAnd, SubtractToX, HighAddress,
           HighValue, ExecModifyA, ExecImplied, ExecBranch, ExecJmpInd, ExecJsr, ExecRts, ExecRti, ExecPush,
           ExecPla, ExecPlp, EnterHandler, StatusByte, Interrupt, ExecModify, Modified, ApplyModify, ModifyCycles,
           LoadAddress, LoadClk, StoreAddress, ModifyAt, ExecWrite, Stored, WriteCycles, ExecHigh, HighSource,
           HighBase, HighIndex, AfterHigh, ZpWord, Holds;
      RowALow();
      match p0
      case 0xa6 => LdxOp(LoadZero(p1), 1, 2);
      case 0xa7 => LaxOp(LoadZero(p1), 1, 2);
      case _ => assert false;
    }

    method OpcodesA8(p0: byte, p1: byte, p2: word, nmi: bool, ghost operand: word, ghost s: Cpu)
      requires Valid() && 0xa8 <= p0 <= 0xab && !Decode(p0).Jam?
      requires Fetched(p0, p2, operand, s)
      modifies this, ram
      ensures Valid()
      ensures View() == Execute(Decode(p0), p1, operand, nmi, s)
    {
      hide Decode, And, Or, Xor, Bit6, Bit7, U8, U16, Lo, Hi, Word, SetA, SetX, SetY, SetAX, SetAXS, SetC,
           SetFlags, SetNZ, AddToA, SubtractFromA, CompareWith, BitTest, RotateAnd, SubtractToX, HighAddress,
           HighValue, ExecModifyA, ExecImplied, ExecBranch, ExecJmpInd, ExecJsr, ExecRts, ExecRti, ExecPush,
           ExecPla, ExecPlp, EnterHandler, StatusByte, Interrupt, ExecModify, Modified, ApplyModify, ModifyCycles,
           LoadAddress, LoadClk, StoreAddress, ModifyAt, ExecWrite, Stored, WriteCycles, ExecHigh, HighSource,
           HighBase, HighIndex, AfterHigh, ZpWord, Holds;
      RowAHigh();
      match p0
      case 0xa8 => TransferOpcode(TAY, s);
      case 0xa9 => LdaOp(p1, 0, 2);
      case 0xaa => TransferOpcode(TAX, s);
      case 0xab => LxaOp(p1, 2);
      case _ => assert false;
    }

    method OpcodesAC(p0: byte, p1: byte, p2: word, nmi: bool, ghost operand: word, ghost s: Cpu)
      requires Valid() && 0xac <= p0 <= 0xad && !Decode(p0).Jam?
      requires Fetched(p0, p2, operand, s)
      modifies this, ram
      ensures Valid()
      ensures View() == Execute(Decode(p0), p1, operand, nmi, s)
    {
      hide Decode, And, Or, Xor, Bit6, Bit7, U8, U16, Lo, Hi, Word, SetA, SetX, SetY, SetAX, SetAXS, SetC,
           SetFlags, SetNZ, AddToA, SubtractFromA, CompareWith, BitTest, RotateAnd, SubtractToX, HighAddress,
           HighValue, ExecModifyA, ExecImplied, ExecBranch, ExecJmpInd, ExecJsr, ExecRts, ExecRti, ExecPush,
           ExecPla, ExecPlp, EnterHandler, StatusByte, Interrupt, ExecModify, Modified, ApplyModify, ModifyCycles,
           LoadAddress, LoadClk, StoreAddress, ModifyAt, ExecWrite, Stored, WriteCycles, ExecHigh, HighSource,
           HighBase, HighIndex, AfterHigh, ZpWord, Holds;
      RowAHigh();
      match p0
      case 0xac => LdyOp(Load(p2), 1, 3);
      case 0xad => LdaOp(Load(p2), 1, 3);
      case _ => assert false;
    }

    method OpcodesAE(p0: byte, p1: byte, p2: word, nmi: bool, ghost operand: word, ghost s: Cpu)
      requires Valid() && 0xae <= p0 <= 0xaf && !Decode(p0).Jam?
      requires Fetched(p0, p2, operand, s)
      modifies this, ram
      ensures Valid()
      ensures View() == Execute(Decode(p0), p1, operand, nmi, s)
    {
      hide Decode, And, Or, Xor, Bit6, Bit7, U8, U16, Lo, Hi, Word, SetA, SetX, SetY, SetAX, SetAXS, SetC,
           SetFlags, SetNZ, AddToA, SubtractFromA, CompareWith, BitTest, RotateAnd, SubtractToX, HighAddress,
           HighValue, ExecModifyA, ExecImplied, ExecBranch, ExecJmpInd, ExecJsr, ExecRts, ExecRti, ExecPush,
           ExecPla, ExecPlp, EnterHandler, StatusByte, Interrupt, ExecModify, Modified, ApplyModify, ModifyCycles,
           LoadAddress, LoadClk, StoreAddress, ModifyAt, ExecWrite, Stored, WriteCycles, ExecHigh, HighSource,
           HighBase, HighIndex, AfterHigh, ZpWord, Holds;
      RowAHigh();
      match p0
      case 0xae => LdxOp(Load(p2), 1, 3);
      case 0xaf => LaxOp(Load(p2), 1, 3);
      case _ => assert false;
    }

    method OpcodesB0(p0: byte, p1: byte, p2: word, nmi: bool, ghost operand: word, ghost s: Cpu)
      requires Valid() && 0xb0 <= p0 <= 0xb0 && !Decode(p0).Jam?
      requires Fetched(p0, p2, operand, s)
      modifies this, ram
      ensures Valid()
      ensures View() == Execute(Decode(p0), p1, operand, nmi, s)
    {
      hide Decode, And, Or, Xor, Bit6, Bit7, U8, U16, Lo, Hi, Word, SetA, SetX, SetY, SetAX, SetAXS, SetC,
           SetFlags, SetNZ, AddToA, SubtractFromA, CompareWith, BitTest, RotateAnd, SubtractToX, HighAddress,
           HighValue, ExecModifyA, ExecImplied, ExecBranch, ExecJmpInd, ExecJsr, ExecRts, ExecRti, ExecPush,
           ExecPla, ExecPlp, EnterHandler, StatusByte, Interrupt, ExecModify, Modified, ApplyModify, ModifyCycles,
           LoadAddress, LoadClk, StoreAddress, ModifyAt, ExecWrite, Stored, WriteCycles, ExecHigh, HighSource,
           HighBase, HighIndex, AfterHigh;
      RowBLow();
      match p0
      case 0xb0 => BranchOp(regP.c, p1, CS, s);
      case _ => assert false;
    }

    method OpcodesB1(p0: byte, p1: byte, p2: word, nmi: bool, ghost operand: word, ghost s: Cpu)
      requires Valid() && 0xb1 <= p0 <= 0xb1 && !Decode(p0).Jam?
      requires Fetched(p0, p2, operand, s)
      modifies this, ram
      ensures Valid()
      ensures View() == Execute(Decode(p0), p1, operand, nmi, s)
    {
      hide Decode, And, Or, Xor, Bit6, Bit7, U8, U16, Lo, Hi, Word, SetA, SetX, SetY, SetAX, SetAXS, SetC,
           SetFlags, SetNZ, AddToA, SubtractFromA, CompareWith, BitTest, RotateAnd, SubtractToX, HighAddress,
           HighValue, ExecModifyA, ExecImplied, ExecBranch, ExecJmpInd, ExecJsr, ExecRts, ExecRti, ExecPush,
           ExecPla, ExecPlp, EnterHandler, StatusByte, Interrupt, ExecModify, Modified, ApplyModify, ModifyCycles,
           LoadAddress, LoadClk, StoreAddress, ModifyAt, ExecWrite, Stored, WriteCycles, ExecHigh, HighSource,
           HighBase, HighIndex, AfterHigh;
      RowBLow();
      match p0
      case 0xb1 => var v := LoadIndY(p1); LdaOp(v, 1, 2);
      case _ => assert false;
    }

    method OpcodesB2(p0: byte, p1: byte, p2: word, nmi: bool, ghost operand: word, ghost s: Cpu)
      requires Valid() && 0xb2 <= p0 <= 0xb3 && !Decode(p0).Jam?
      requires Fetched(p0, p2, operand, s)
      modifies this, ram
      ensures Valid()
      ensures View() == Execute(Decode(p0), p1, operand, nmi, s)
    {
      hide Decode, And, Or, Xor, Bit6, Bit7, U8, U16, Lo, Hi, Word, SetA, SetX, SetY, SetAX, SetAXS, SetC,
           SetFlags, SetNZ, AddToA, SubtractFromA, CompareWith, BitTest, RotateAnd, SubtractToX, HighAddress,
           HighValue, ExecModifyA, ExecImplied, ExecBranch, ExecJmpInd, ExecJsr, ExecRts, ExecRti, ExecPush,
           ExecPla, ExecPlp, EnterHandler, StatusByte, Interrupt, ExecModify, Modified, ApplyModify, ModifyCycles,
           LoadAddress, LoadClk, StoreAddress, ModifyAt, ExecWrite, Stored, WriteCycles, ExecHigh, HighSource,
           HighBase, HighIndex, AfterHigh, Holds;
      RowBLow();
      match p0
      case 0xb3 => var v := LoadIndY(p1); LaxOp(v, 1, 2);
      case _ => assert false;
    }

    method OpcodesB4(p0: byte, p1: byte, p2: word, nmi: bool, ghost operand: word, ghost s: Cpu)
      requires Valid() && 0xb4 <= p0 <= 0xb5 && !Decode(p0).Jam?
      requires Fetched(p0, p2, operand, s)
      modifies this, ram
      ensures Valid()
      ensures View() == Execute(Decode(p0), p1, operand, nmi, s)
    {
      hide Decode, And, Or, Xor, Bit6, Bit7, U8, U16, Lo, Hi, Word, SetA, SetX, SetY, SetAX, SetAXS, SetC,
           SetFlags, SetNZ, AddToA, SubtractFromA, CompareWith, BitTest, RotateAnd, SubtractToX, HighAddress,
           HighValue, ExecModifyA, ExecImplied, ExecBranch, ExecJmpInd, ExecJsr, ExecRts, ExecRti, ExecPush,
           ExecPla, ExecPlp, EnterHandler, StatusByte, Interrupt, ExecModify, Modified, ApplyModify, ModifyCycles,
           LoadAddress, LoadClk, StoreAddress, ModifyAt, ExecWrite, Stored, WriteCycles, ExecHigh, HighSource,
           HighBase, HighIndex, AfterHigh, ZpWord, Holds;
      RowBLow();
      match p0
      case 0xb4 => LdyOp(LoadZero(p1 + regX), 2, 2);
      case 0xb5 => LdaOp(LoadZero(p1 + regX), 2, 2);
      case _ => assert false;
    }

    method OpcodesB6(p0: byte, p1: byte, p2: word, nmi: bool, ghost operand: word, ghost s: Cpu)
      requires Valid() && 0xb6 <= p0 <= 0xb7 && !Decode(p0).Jam?
      requires Fetched(p0, p2, operand, s)
      modifies this, ram
      ensures Valid()
      ensures View() == Execute(Decode(p0), p1, operand, nmi, s)
    {
      hide Decode, And, Or, Xor, Bit6, Bit7, U8, U16, Lo, Hi, Word, SetA, SetX, SetY, SetAX, SetAXS, SetC,
           SetFlags, SetNZ, AddToA, SubtractFromA, CompareWith, BitTest, RotateAnd, SubtractToX, HighAddress,
           HighValue, ExecModifyA, ExecImplied, ExecBranch, ExecJmpInd, ExecJsr, ExecRts, ExecRti, ExecPush,
           ExecPla, ExecPlp, EnterHandler, StatusByte, Interrupt, ExecModify, Modified, ApplyModify, ModifyCycles,
           LoadAddress, LoadClk, StoreAddress, ModifyAt, ExecWrite, Stored, WriteCycles, ExecHigh, HighSource,
           HighBase, HighIndex, AfterHigh, ZpWord, Holds;
      RowBLow();
      match p0
      case 0xb6 => LdxOp(LoadZero(p1 + regY), 2, 2);
      case 0xb7 => LaxOp(LoadZero(p1 + regY), 2, 2);
      case _ => assert false;
    }

    method OpcodesB8(p0: byte, p1: byte, p2: word, nmi: bool, ghost operand: word, ghost s: Cpu)
      requires Valid() && 0xb8 <= p0 <= 0xb9 && !Decode(p0).Jam?
      requires Fetched(p0, p2, operand, s)
      modifies this, ram
      ensures Valid()
      ensures View() == Execute(Decode(p0), p1, operand, nmi, s)
    {
      hide Decode, And, Or, Xor, Bit6, Bit7, U8, U16, Lo, Hi, Word, SetA, SetX, SetY, SetAX, SetAXS, SetC,
           SetFlags, SetNZ, AddToA, SubtractFromA, CompareWith, BitTest, RotateAnd, SubtractToX, HighAddress,
           HighValue, ExecModifyA, ExecImplied, ExecBranch, ExecJmpInd, ExecJsr, ExecRts, ExecRti, ExecPush,
           ExecPla, ExecPlp, EnterHandler, StatusByte, Interrupt, ExecModify, Modified, ApplyModify, ModifyCycles,
           LoadAddress, LoadClk, StoreAddress, ModifyAt, ExecWrite, Stored, WriteCycles, ExecHigh, HighSource,
           HighBase, HighIndex, AfterHigh, ZpWord, Holds;
      RowBHigh();
      match p0
      case 0xb8 => FlagOpcode(CLV, s);
      case 0xb9 => var v := LoadAbsY(p2); LdaOp(v, 1, 3);
      case _ => assert false;
    }

    method OpcodesBA(p0: byte, p1: byte, p2: word, nmi: bool, ghost operand: word, ghost s: Cpu)
      requires Valid() && 0xba <= p0 <= 0xbb && !Decode(p0).Jam?
      requires Fetched(p0, p2, operand, s)
      modifies this, ram
      ensures Valid()
      ensures View() == Execute(Decode(p0), p1, operand, nmi, s)
    {
      hide Decode, And, Or, Xor, Bit6, Bit7, U8, U16, Lo, Hi, Word, SetA, SetX, SetY, SetAX, SetAXS, SetC,
           SetFlags, SetNZ, AddToA, SubtractFromA, CompareWith, BitTest, RotateAnd, SubtractToX, HighAddress,
           HighValue, ExecModifyA, ExecImplied, ExecBranch, ExecJmpInd, ExecJsr, ExecRts, ExecRti, ExecPush,
           ExecPla, ExecPlp, EnterHandler, StatusByte, Interrupt, ExecModify, Modified, ApplyModify, ModifyCycles,
           LoadAddress, LoadClk, StoreAddress, ModifyAt, ExecWrite, Stored, WriteCycles, ExecHigh, HighSource,
           HighBase, HighIndex, AfterHigh, ZpWord, Holds;
      RowBHigh();
      match p0
      case 0xba => StackTransferOpcode(TSX, s);
      case 0xbb => var v := LoadAbsY(p2); LasOp(v, 1, 3);
      case _ => assert false;
    }

    method OpcodesBC(p0: byte, p1: byte, p2: word, nmi: bool, ghost operand: word, ghost s: Cpu)
      requires Valid() && 0xbc <= p0 <= 0xbc && !Decode(p0).Jam?
      requires Fetched(p0, p2, operand, s)
      modifies this, ram
      ensures Valid()
      ensures View() == Execute(Decode(p0), p1, operand, nmi, s)
    {
      hide Decode, And, Or, Xor, Bit6, Bit7, U8, U16, Lo, Hi, Word, SetA, SetX, SetY, SetAX, SetAXS, SetC,
           SetFlags, SetNZ, AddToA, SubtractFromA, CompareWith, BitTest, RotateAnd, SubtractToX, HighAddress,
           HighValue, ExecModifyA, ExecImplied, ExecBranch, ExecJmpInd, ExecJsr, ExecRts, ExecRti, ExecPush,
           ExecPla, ExecPlp, EnterHandler, StatusByte, Interrupt, ExecModify, Modified, ApplyModify, ModifyCycles,
           LoadAddress, LoadClk, StoreAddress, ModifyAt, ExecWrite, Stored, WriteCycles, ExecHigh, HighSource,
           HighBase, HighIndex, AfterHigh, ZpWord, Holds;
      RowBHigh();
      match p0
      case 0xbc => var v := LoadAbsX(p2); LdyOp(v, 1, 3);
      case _ => assert false;
    }

    method OpcodesBD(p0: byte, p1: byte, p2: word, nmi: bool, ghost operand: word, ghost s: Cpu)
      requires Valid() && 0xbd <= p0 <= 0xbd && !Decode(p0).Jam?
      requires Fetched(p0, p2, operand, s)
      modifies this, ram
      ensures Valid()
      ensures View() == Execute(Decode(p0), p1, operand, nmi, s)
    {
      hide Decode, And, Or, Xor, Bit6, Bit7, U8, U16, Lo, Hi, Word, SetA, SetX, SetY, SetAX, SetAXS, SetC,
           SetFlags, SetNZ, AddToA, SubtractFromA, CompareWith, BitTest, RotateAnd, SubtractToX, HighAddress,
           HighValue, ExecModifyA, ExecImplied, ExecBranch, ExecJmpInd, ExecJsr, ExecRts, ExecRti, ExecPush,
           ExecPla, ExecPlp, EnterHandler, StatusByte, Interrupt, ExecModify, Modified, ApplyModify, ModifyCycles,
           LoadAddress, LoadClk, StoreAddress, ModifyAt, ExecWrite, Stored, WriteCycles, ExecHigh, HighSource,
           HighBase, HighIndex, AfterHigh, ZpWord, Holds;
      RowBHigh();
      match p0
      case 0xbd => var v := LoadAbsX(p2); LdaOp(v, 1, 3);
      case _ => assert false;
    }

    method OpcodesBE(p0: byte, p1: byte, p2: word, nmi: bool, ghost operand: word, ghost s: Cpu)
      requires Valid() && 0xbe <= p0 <= 0xbe && !Decode(p0).Jam?
      requires Fetched(p0, p2, operand, s)
      modifies this, ram
      ensures Valid()
      ensures View() == Execute(Decode(p0), p1, operand, nmi, s)
    {
      hide Decode, And, Or, Xor, Bit6, Bit7, U8, U16, Lo, Hi, Word, SetA, SetX, SetY, SetAX, SetAXS, SetC,
           SetFlags, SetNZ, AddToA, SubtractFromA, CompareWith, BitTest, RotateAnd, SubtractToX, HighAddress,
           HighValue, ExecModifyA, ExecImplied, ExecBranch, ExecJmpInd, ExecJsr, ExecRts, ExecRti, ExecPush,
           ExecPla, ExecPlp, EnterHandler, StatusByte, Interrupt, ExecModify, Modified, ApplyModify, ModifyCycles,
           LoadAddress, LoadClk, StoreAddress, ModifyAt, ExecWrite, Stored, WriteCycles, ExecHigh, HighSource,
           HighBase, HighIndex, AfterHigh, ZpWord, Holds;
      RowBHigh();
      match p0
      case 0xbe => var v := LoadAbsY(p2); LdxOp(v, 1, 3);
      case _ => assert false;
    }

    method OpcodesBF(p0: byte, p1: byte, p2: word, nmi: bool, ghost operand: word, ghost s: Cpu)
      requires Valid() && 0xbf <= p0 <= 0xbf && !Decode(p0).Jam?
      requires Fetched(p0, p2, operand, s)
      modifies this, ram
      ensures Valid()
      ensures View() == Execute(Decode(p0), p1, operand, nmi, s)
    {
      hide Decode, And, Or, Xor, Bit6, Bit7, U8, U16, Lo, Hi, Word, SetA, SetX, SetY, SetAX, SetAXS, SetC,
           SetFlags, SetNZ, AddToA, SubtractFromA, CompareWith, BitTest, RotateAnd, SubtractToX, HighAddress,
           HighValue, ExecModifyA, ExecImplied, ExecBranch, ExecJmpInd, ExecJsr, ExecRts, ExecRti, ExecPush,
           ExecPla, ExecPlp, EnterHandler, StatusByte, Interrupt, ExecModify, Modified, ApplyModify, ModifyCycles,
           LoadAddress, LoadClk, StoreAddress, ModifyAt, ExecWrite, Stored, WriteCycles, ExecHigh, HighSource,
           HighBase, HighIndex, AfterHigh, ZpWord, Holds;
      RowBHigh();
      match p0
      case 0xbf => var v := LoadAbsY(p2); LaxOp(v, 1, 3);
      case _ => assert false;
    }

    method OpcodesC0(p0: byte, p1: byte, p2: word, nmi: bool, ghost operand: word, ghost s: Cpu)
      requires Valid() && 0xc0 <= p0 <= 0xc1 && !Decode(p0).Jam?
      requires Fetched(p0, p2, operand, s)
      modifies this, ram
      ensures Valid()
      ensures View() == Execute(Decode(p0), p1, operand, nmi, s)
    {
      hide Decode, And, Or, Xor, Bit6, Bit7, U8, U16, Lo, Hi, Word, SetA, SetX, SetY, SetAX, SetAXS, SetC,
           SetFlags, SetNZ, AddToA, SubtractFromA, CompareWith, BitTest, RotateAnd, SubtractToX, HighAddress,
           HighValue, ExecModifyA, ExecImplied, ExecBranch, ExecJmpInd, ExecJsr, ExecRts, ExecRti, ExecPush,
           ExecPla, ExecPlp, EnterHandler, StatusByte, Interrupt, ExecModify, Modified, ApplyModify, ModifyCycles,
           LoadAddress, LoadClk, StoreAddress, ModifyAt, ExecWrite, Stored, WriteCycles, ExecHigh, HighSource,
           HighBase, HighIndex, AfterHigh, Holds;
      RowCLow();
      match p0
      case 0xc0 => CompareOp(regY, p1, 0, 2);
      case 0xc1 => var v := LoadIndX(p1); CompareOp(regA, v, 1, 2);
      case _ => assert false;
    }

    method OpcodesC2(p0: byte, p1: byte, p2: word, nmi: bool, ghost operand: word, ghost s: Cpu)
      requires Valid() && 0xc2 <= p0 <= 0xc2 && !Decode(p0).Jam?
      requires Fetched(p0, p2, operand, s)
      modifies this, ram
      ensures Valid()
      ensures View() == Execute(Decode(p0), p1, operand, nmi, s)
    {
      hide Decode, Modified, ApplyModify, And, Or, Xor, Bit6, Bit7, U8, U16, Lo, Hi, Word, SetA, SetX, SetY, SetAX, SetAXS, SetC,
           SetFlags, SetNZ, AddToA, SubtractFromA, CompareWith, BitTest, RotateAnd, SubtractToX, HighAddress,
           HighValue, ExecModifyA, ExecImplied, ExecBranch, ExecJmpInd, ExecJsr, ExecRts, ExecRti, ExecPush,
           ExecPla, ExecPlp, EnterHandler, StatusByte, Interrupt, ExecWrite, Stored, WriteCycles, ExecHigh,
           HighSource, HighBase, HighIndex, AfterHigh, Holds;
      RowCLow();
      match p0
      case 0xc2 => Noop(0, 2);
      case _ => assert false;
    }

    method OpcodesC3(p0: byte, p1: byte, p2: word, nmi: bool, ghost operand: word, ghost s: Cpu)
      requires Valid() && 0xc3 <= p0 <= 0xc3 && !Decode(p0).Jam?
      requires Fetched(p0, p2, operand, s)
      modifies this, ram
      ensures Valid()
      ensures View() == Execute(Decode(p0), p1, operand, nmi, s)
    {
      hide Decode, Modified, ApplyModify, And, Or, Xor, Bit6, Bit7, U8, U16, Lo, Hi, Word, SetA, SetX, SetY, SetAX, SetAXS, SetC,
           SetFlags, SetNZ, AddToA, SubtractFromA, CompareWith, BitTest, RotateAnd, SubtractToX, HighAddress,
           HighValue, ExecModifyA, ExecImplied, ExecBranch, ExecJmpInd, ExecJsr, ExecRts, ExecRti, ExecPush,
           ExecPla, ExecPlp, EnterHandler, StatusByte, Interrupt, ExecWrite, Stored, WriteCycles, ExecHigh,
           HighSource, HighBase, HighIndex, AfterHigh, Holds;
      RowCLow();
      match p0
      case 0xc3 => DcpOp(LoadZeroAddr(p1 + regX), 3, 3, 2, LOAD_ABS, STORE_ABS);
      case _ => assert false;
    }

    method OpcodesC4(p0: byte, p1: byte, p2: word, nmi: bool, ghost operand: word, ghost s: Cpu)
      requires Valid() && 0xc4 <= p0 <= 0xc5 && !Decode(p0).Jam?
      requires Fetched(p0, p2, operand, s)
      modifies this, ram
      ensures Valid()
      ensures View() == Execute(Decode(p0), p1, operand, nmi, s)
    {
      hide Decode, Modified, ApplyModify, And, Or, Xor, Bit6, Bit7, U8, U16, Lo, Hi, Word, SetA, SetX, SetY, SetAX, SetAXS, SetC,
           SetFlags, SetNZ, AddToA, SubtractFromA, CompareWith, BitTest, RotateAnd, SubtractToX, HighAddress,
           HighValue, ExecModifyA, ExecImplied, ExecBranch, ExecJmpInd, ExecJsr, ExecRts, ExecRti, ExecPush,
           ExecPla, ExecPlp, EnterHandler, StatusByte, Interrupt, ExecWrite, Stored, WriteCycles, ExecHigh,
           HighSource, HighBase, HighIndex, AfterHigh, ZpWord, Holds;
      RowCLow();
      match p0
      case 0xc4 => CompareOp(regY, LoadZero(p1), 1, 2);
      case 0xc5 => CompareOp(regA, LoadZero(p1), 1, 2);
      case _ => assert false;
    }

    method OpcodesC6(p0: byte, p1: byte, p2: word, nmi: bool, ghost operand: word, ghost s: Cpu)
      requires Valid() && 0xc6 <= p0 <= 0xc7 && !Decode(p0).Jam?
      requires Fetched(p0, p2, operand, s)
      modifies this, ram
      ensures Valid()
      ensures View() == Execute(Decode(p0), p1, operand, nmi, s)
    {
      hide Decode, Modified, ApplyModify, And, Or, Xor, Bit6, Bit7, U8, U16, Lo, Hi, Word, SetA, SetX, SetY, SetAX, SetAXS, SetC,
           SetFlags, SetNZ, AddToA, SubtractFromA, CompareWith, BitTest, RotateAnd, SubtractToX, HighAddress,
           HighValue, ExecModifyA, ExecImplied, ExecBranch, ExecJmpInd, ExecJsr, ExecRts, ExecRti, ExecPush,
           ExecPla, ExecPlp, EnterHandler, StatusByte, Interrupt, ExecWrite, Stored, WriteCycles, ExecHigh,
           HighSource, HighBase, HighIndex, AfterHigh, ZpWord, Holds;
      RowCLow();
      match p0
      case 0xc6 => DecOp(p1, 3, 2, LOAD_ZERO, STORE_ABS);
      case 0xc7 => DcpOp(p1, 0, 3, 2, LOAD_ZERO, STORE_ABS);
      case _ => assert false;
    }

    method OpcodesC8(p0: byte, p1: byte, p2: word, nmi: bool, ghost operand: word, ghost s: Cpu)
      requires Valid() && 0xc8 <= p0 <= 0xcb && !Decode(p0).Jam?
      requires Fetched(p0, p2, operand, s)
      modifies this, ram
      ensures Valid()
      ensures View() == Execute(Decode(p0), p1, operand, nmi, s)
    {
      hide Decode, And, Or, Xor, Bit6, Bit7, U8, U16, Lo, Hi, Word, SetA, SetX, SetY, SetAX, SetAXS, SetC,
           SetFlags, SetNZ, AddToA, SubtractFromA, CompareWith, BitTest, RotateAnd, SubtractToX, HighAddress,
           HighValue, ExecModifyA, ExecImplied, ExecBranch, ExecJmpInd, ExecJsr, ExecRts, ExecRti, ExecPush,
           ExecPla, ExecPlp, EnterHandler, StatusByte, Interrupt, ExecModify, Modified, ApplyModify, ModifyCycles,
           LoadAddress, LoadClk, StoreAddress, ModifyAt, ExecWrite, Stored, WriteCycles, ExecHigh, HighSource,
           HighBase, HighIndex, AfterHigh, ZpWord, Holds;
      RowCHigh();
      match p0
      case 0xc8 => CountYOpcode(INY, s);
      case 0xc9 => CompareOp(regA, p1, 0, 2);
      case 0xca => CountOpcode(DEX, s);
      case 0xcb => SbxOp(p1, 2);
      case _ => assert false;
    }

    method OpcodesCC(p0: byte, p1: byte, p2: word, nmi: bool, ghost operand: word, ghost s: Cpu)
      requires Valid() && 0xcc <= p0 <= 0xcd && !Decode(p0).Jam?
      requires Fetched(p0, p2, operand, s)
      modifies this, ram
      ensures Valid()
      ensures View() == Execute(Decode(p0), p1, operand, nmi, s)
    {
      hide Decode, Modified, ApplyModify, And, Or, Xor, Bit6, Bit7, U8, U16, Lo, Hi, Word, SetA, SetX, SetY, SetAX, SetAXS, SetC,
           SetFlags, SetNZ, AddToA, SubtractFromA, CompareWith, BitTest, RotateAnd, SubtractToX, HighAddress,
           HighValue, ExecModifyA, ExecImplied, ExecBranch, ExecJmpInd, ExecJsr, ExecRts, ExecRti, ExecPush,
           ExecPla, ExecPlp, EnterHandler, StatusByte, Interrupt, ExecWrite, Stored, WriteCycles, ExecHigh,
           HighSource, HighBase, HighIndex, AfterHigh, ZpWord, Holds;
      RowCHigh();
      match p0
      case 0xcc => CompareOp(regY, Load(p2), 1, 3);
      case 0xcd => CompareOp(regA, Load(p2), 1, 3);
      case _ => assert false;
    }

    method OpcodesCE(p0: byte, p1: byte, p2: word, nmi: bool, ghost operand: word, ghost s: Cpu)
      requires Valid() && 0xce <= p0 <= 0xcf && !Decode(p0).Jam?
      requires Fetched(p0, p2, operand, s)
      modifies this, ram
      ensures Valid()
      ensures View() == Execute(Decode(p0), p1, operand, nmi, s)
    {
      hide Decode, Modified, ApplyModify, And, Or, Xor, Bit6, Bit7, U8, U16, Lo, Hi, Word, SetA, SetX, SetY, SetAX, SetAXS, SetC,
           SetFlags, SetNZ, AddToA, SubtractFromA, CompareWith, BitTest, RotateAnd, SubtractToX, HighAddress,
           HighValue, ExecModifyA, ExecImplied, ExecBranch, ExecJmpInd, ExecJsr, ExecRts, ExecRti, ExecPush,
           ExecPla, ExecPlp, EnterHandler, StatusByte, Interrupt, ExecWrite, Stored, WriteCycles, ExecHigh,
           HighSource, HighBase, HighIndex, AfterHigh, ZpWord, Holds;
      RowCHigh();
      match p0
      case 0xce => DecOp(p2, 3, 3, LOAD_ABS, STORE_ABS);
      case 0xcf => DcpOp(p2, 0, 3, 3, LOAD_ABS, STORE_ABS);
      case _ => assert false;
    }

    method OpcodesD0(p0: byte, p1: byte, p2: word, nmi: bool, ghost operand: word, ghost s: Cpu)
      requires Valid() && 0xd0 <= p0 <= 0xd1 && !Decode(p0).Jam?
      requires Fetched(p0, p2, operand, s)
      modifies this, ram
      ensures Valid()
      ensures View() == Execute(Decode(p0), p1, operand, nmi, s)
    {
      hide Decode, And, Or, Xor, Bit6, Bit7, U8, U16, Lo, Hi, Word, SetA, SetX, SetY, SetAX, SetAXS, SetC,
           SetFlags, SetNZ, AddToA, SubtractFromA, CompareWith, BitTest, RotateAnd, SubtractToX, HighAddress,
           HighValue, ExecModifyA, ExecImplied, ExecBranch, ExecJmpInd, ExecJsr, ExecRts, ExecRti, ExecPush,
           ExecPla, ExecPlp, EnterHandler, StatusByte, Interrupt, ExecModify, Modified, ApplyModify, ModifyCycles,
           LoadAddress, LoadClk, StoreAddress, ModifyAt, ExecWrite, Stored, WriteCycles, ExecHigh, HighSource,
           HighBase, HighIndex, AfterHigh;
      RowDLow();
      match p0
      case 0xd0 => BranchOp(flagZ != 0, p1, NE, s);
      case 0xd1 => var v := LoadIndY(p1); CompareOp(regA, v, 1, 2);
      case _ => assert false;
    }

    method OpcodesD2(p0: byte, p1: byte, p2: word, nmi: bool, ghost operand: word, ghost s: Cpu)
      requires Valid() && 0xd2 <= p0 <= 0xd3 && !Decode(p0).Jam?
      requires Fetched(p0, p2, operand, s)
      modifies this, ram
      ensures Valid()
      ensures View() == Execute(Decode(p0), p1, operand, nmi, s)
    {
      hide Decode, Modified, ApplyModify, And, Or, Xor, Bit6, Bit7, U8, U16, Lo, Hi, Word, SetA, SetX, SetY, SetAX, SetAXS, SetC,
           SetFlags, SetNZ, AddToA, SubtractFromA, CompareWith, BitTest, RotateAnd, SubtractToX, HighAddress,
           HighValue, ExecModifyA, ExecImplied, ExecBranch, ExecJmpInd, ExecJsr, ExecRts, ExecRti, ExecPush,
           ExecPla, ExecPlp, EnterHandler, StatusByte, Interrupt, ExecRead, ApplyRead, ReadCycles, CrossesPage,
           Operand, ExecWrite, Stored, WriteCycles, ExecHigh, HighSource, HighBase, HighIndex, AfterHigh, Holds;
      RowDLow();
      match p0
      case 0xd3 => var ea := RmwIndY(p1); DcpOp(ea, 0, 3, 2, LOAD_ABS, STORE_ABS);
      case _ => assert false;
    }

    method OpcodesD4(p0: byte, p1: byte, p2: word, nmi: bool, ghost operand: word, ghost s: Cpu)
      requires Valid() && 0xd4 <= p0 <= 0xd5 && !Decode(p0).Jam?
      requires Fetched(p0, p2, operand, s)
      modifies this, ram
      ensures Valid()
      ensures View() == Execute(Decode(p0), p1, operand, nmi, s)
    {
      hide Decode, And, Or, Xor, Bit6, Bit7, U8, U16, Lo, Hi, Word, SetA, SetX, SetY, SetAX, SetAXS, SetC,
           SetFlags, SetNZ, AddToA, SubtractFromA, CompareWith, BitTest, RotateAnd, SubtractToX, HighAddress,
           HighValue, ExecModifyA, ExecImplied, ExecBranch, ExecJmpInd, ExecJsr, ExecRts, ExecRti, ExecPush,
           ExecPla, ExecPlp, EnterHandler, StatusByte, Interrupt, ExecModify, Modified, ApplyModify, ModifyCycles,
           LoadAddress, LoadClk, StoreAddress, ModifyAt, ExecWrite, Stored, WriteCycles, ExecHigh, HighSource,
           HighBase, HighIndex, AfterHigh, ZpWord, Holds;
      RowDLow();
      match p0
      case 0xd4 => Noop(2, 2);
      case 0xd5 => CompareOp(regA, LoadZero(p1 + regX), 2, 2);
      case _ => assert false;
    }

    method OpcodesD6(p0: byte, p1: byte, p2: word, nmi: bool, ghost operand: word, ghost s: Cpu)
      requires Valid() && 0xd6 <= p0 <= 0xd7 && !Decode(p0).Jam?
      requires Fetched(p0, p2, operand, s)
      modifies this, ram
      ensures Valid()
      ensures View() == Execute(Decode(p0), p1, operand, nmi, s)
    {
      hide Decode, Modified, ApplyModify, And, Or, Xor, Bit6, Bit7, U8, U16, Lo, Hi, Word, SetA, SetX, SetY, SetAX, SetAXS, SetC,
           SetFlags, SetNZ, AddToA, SubtractFromA, CompareWith, BitTest, RotateAnd, SubtractToX, HighAddress,
           HighValue, ExecModifyA, ExecImplied, ExecBranch, ExecJmpInd, ExecJsr, ExecRts, ExecRti, ExecPush,
           ExecPla, ExecPlp, EnterHandler, StatusByte, Interrupt, ExecRead, ApplyRead, ReadCycles, CrossesPage,
           Operand, ExecWrite, Stored, WriteCycles, ExecHigh, HighSource, HighBase, HighIndex, AfterHigh, ZpWord,
           Holds;
      RowDLow();
      match p0
      case 0xd6 => DecOp(U8(p1 + regX), 4, 2, LOAD_ABS, STORE_ABS);
      case 0xd7 => DcpOp(U8(p1 + regX), 0, 4, 2, LOAD_ABS, STORE_ABS);
      case _ => assert false;
    }

    method OpcodesD8(p0: byte, p1: byte, p2: word, nmi: bool, ghost operand: word, ghost s: Cpu)
      requires Valid() && 0xd8 <= p0 <= 0xd9 && !Decode(p0).Jam?
      requires Fetched(p0, p2, operand, s)
      modifies this, ram
      ensures Valid()
      ensures View() == Execute(Decode(p0), p1, operand, nmi, s)
    {
      hide Decode, And, Or, Xor, Bit6, Bit7, U8, U16, Lo, Hi, Word, SetA, SetX, SetY, SetAX, SetAXS, SetC,
           SetFlags, SetNZ, AddToA, SubtractFromA, CompareWith, BitTest, RotateAnd, SubtractToX, HighAddress,
           HighValue, ExecModifyA, ExecImplied, ExecBranch, ExecJmpInd, ExecJsr, ExecRts, ExecRti, ExecPush,
           ExecPla, ExecPlp, EnterHandler, StatusByte, Interrupt, ExecModify, Modified, ApplyModify, ModifyCycles,
           LoadAddress, LoadClk, StoreAddress, ModifyAt, ExecWrite, Stored, WriteCycles, ExecHigh, HighSource,
           HighBase, HighIndex, AfterHigh, ZpWord, Holds;
      RowDHigh();
      match p0
      case 0xd8 => FlagOpcode(CLD, s);
      case 0xd9 => var v := LoadAbsY(p2); CompareOp(regA, v, 1, 3);
      case _ => assert false;
    }

    method OpcodesDA(p0: byte, p1: byte, p2: word, nmi: bool, ghost operand: word, ghost s: Cpu)
      requires Valid() && 0xda <= p0 <= 0xdb && !Decode(p0).Jam?
      requires Fetched(p0, p2, operand, s)
      modifies this, ram
      ensures Valid()
      ensures View() == Execute(Decode(p0), p1, operand, nmi, s)
    {
      hide Decode, Modified, ApplyModify, And, Or, Xor, Bit6, Bit7, U8, U16, Lo, Hi, Word, SetA, SetX, SetY, SetAX, SetAXS, SetC,
           SetFlags, SetNZ, AddToA, SubtractFromA, CompareWith, BitTest, RotateAnd, SubtractToX, HighAddress,
           HighValue, ExecModifyA, ExecImplied, ExecBranch, ExecJmpInd, ExecJsr, ExecRts, ExecRti, ExecPush,
           ExecPla, ExecPlp, EnterHandler, StatusByte, Interrupt, ExecRead, ApplyRead, ReadCycles, CrossesPage,
           Operand, ExecWrite, Stored, WriteCycles, ExecHigh, HighSource, HighBase, HighIndex, AfterHigh, ZpWord,
           Holds;
      RowDHigh();
      match p0
      case 0xda => CountOpcode(NOP, s);
      case 0xdb => DcpOp(p2, 0, 3, 3, LOAD_ABS_Y_RMW, STORE_ABS_Y_RMW);
      case _ => assert false;
    }

    method OpcodesDC(p0: byte, p1: byte, p2: word, nmi: bool, ghost operand: word, ghost s: Cpu)
      requires Valid() && 0xdc <= p0 <= 0xdd && !Decode(p0).Jam?
      requires Fetched(p0, p2, operand, s)
      modifies this, ram
      ensures Valid()
      ensures View() == Execute(Decode(p0), p1, operand, nmi, s)
    {
      hide Decode, And, Or, Xor, Bit6, Bit7, U8, U16, Lo, Hi, Word, SetA, SetX, SetY, SetAX, SetAXS, SetC,
           SetFlags, SetNZ, AddToA, SubtractFromA, CompareWith, BitTest, RotateAnd, SubtractToX, HighAddress,
           HighValue, ExecModifyA, ExecImplied, ExecBranch, ExecJmpInd, ExecJsr, ExecRts, ExecRti, ExecPush,
           ExecPla, ExecPlp, EnterHandler, StatusByte, Interrupt, ExecModify, Modified, ApplyModify, ModifyCycles,
           LoadAddress, LoadClk, StoreAddress, ModifyAt, ExecWrite, Stored, WriteCycles, ExecHigh, HighSource,
           HighBase, HighIndex, AfterHigh, ZpWord, Holds;
      RowDHigh();
      match p0
      case 0xdc => NoopAbsX(p2);
      case 0xdd => var v := LoadAbsX(p2); CompareOp(regA, v, 1, 3);
      case _ => assert false;
    }

    method OpcodesDE(p0: byte, p1: byte, p2: word, nmi: bool, ghost operand: word, ghost s: Cpu)
      requires Valid() && 0xde <= p0 <= 0xdf && !Decode(p0).Jam?
      requires Fetched(p0, p2, operand, s)
      modifies this, ram
      ensures Valid()
      ensures View() == Execute(Decode(p0), p1, operand, nmi, s)
    {
      hide Decode, Modified, ApplyModify, And, Or, Xor, Bit6, Bit7, U8, U16, Lo, Hi, Word, SetA, SetX, SetY, SetAX, SetAXS, SetC,
           SetFlags, SetNZ, AddToA, SubtractFromA, CompareWith, BitTest, RotateAnd, SubtractToX, HighAddress,
           HighValue, ExecModifyA, ExecImplied, ExecBranch, ExecJmpInd, ExecJsr, ExecRts, ExecRti, ExecPush,
           ExecPla, ExecPlp, EnterHandler, StatusByte, Interrupt, ExecRead, ApplyRead, ReadCycles, CrossesPage,
           Operand, ExecWrite, Stored, WriteCycles, ExecHigh, HighSource, HighBase, HighIndex, AfterHigh, ZpWord,
           Holds;
      RowDHigh();
      match p0
      case 0xde => DecOp(p2, 3, 3, LOAD_ABS_X_RMW, STORE_ABS_X_RMW);
      case 0xdf => DcpOp(p2, 0, 3, 3, LOAD_ABS_X_RMW, STORE_ABS_X_RMW);
      case _ => assert false;
    }

    method OpcodesE0(p0: byte, p1: byte, p2: word, nmi: bool, ghost operand: word, ghost s: Cpu)
      requires Valid() && 0xe0 <= p0 <= 0xe1 && !Decode(p0).Jam?
      requires Fetched(p0, p2, operand, s)
      modifies this, ram
      ensures Valid()
      ensures View() == Execute(Decode(p0), p1, operand, nmi, s)
    {
      hide Decode, And, Or, Xor, Bit6, Bit7, U8, U16, Lo, Hi, Word, SetA, SetX, SetY, SetAX, SetAXS, SetC,
           SetFlags, SetNZ, AddToA, SubtractFromA, CompareWith, BitTest, RotateAnd, SubtractToX, HighAddress,
           HighValue, ExecModifyA, ExecImplied, ExecBranch, ExecJmpInd, ExecJsr, ExecRts, ExecRti, ExecPush,
           ExecPla, ExecPlp, EnterHandler, StatusByte, Interrupt, ExecModify, Modified, ApplyModify, ModifyCycles,
           LoadAddress, LoadClk, StoreAddress, ModifyAt, ExecWrite, Stored, WriteCycles, ExecHigh, HighSource,
           HighBase, HighIndex, AfterHigh, Holds;
      RowELow();
      match p0
      case 0xe0 => CompareOp(regX, p1, 0, 2);
      case 0xe1 => var v := LoadIndX(p1); SbcOp(v, 1, 2);
      case _ => assert false;
    }

    method OpcodesE2(p0: byte, p1: byte, p2: word, nmi: bool, ghost operand: word, ghost s: Cpu)
      requires Valid() && 0xe2 <= p0 <= 0xe2 && !Decode(p0).Jam?
      requires Fetched(p0, p2, operand, s)
      modifies this, ram
      ensures Valid()
      ensures View() == Execute(Decode(p0), p1, operand, nmi, s)
    {
      hide Decode, Modified, ApplyModify, And, Or, Xor, Bit6, Bit7, U8, U16, Lo, Hi, Word, SetA, SetX, SetY, SetAX, SetAXS, SetC,
           SetFlags, SetNZ, AddToA, SubtractFromA, CompareWith, BitTest, RotateAnd, SubtractToX, HighAddress,
           HighValue, ExecModifyA, ExecImplied, ExecBranch, ExecJmpInd, ExecJsr, ExecRts, ExecRti, ExecPush,
           ExecPla, ExecPlp, EnterHandler, StatusByte, Interrupt, ExecWrite, Stored, WriteCycles, ExecHigh,
           HighSource, HighBase, HighIndex, AfterHigh, Holds;
      RowELow();
      match p0
      case 0xe2 => Noop(0, 2);
      case _ => assert false;
    }

    method OpcodesE3(p0: byte, p1: byte, p2: word, nmi: bool, ghost operand: word, ghost s: Cpu)
      requires Valid() && 0xe3 <= p0 <= 0xe3 && !Decode(p0).Jam?
      requires Fetched(p0, p2, operand, s)
      modifies this, ram
      ensures Valid()
      ensures View() == Execute(Decode(p0), p1, operand, nmi, s)
    {
      hide Decode, Modified, ApplyModify, And, Or, Xor, Bit6, Bit7, U8, U16, Lo, Hi, Word, SetA, SetX, SetY, SetAX, SetAXS, SetC,
           SetFlags, SetNZ, AddToA, SubtractFromA, CompareWith, BitTest, RotateAnd, SubtractToX, HighAddress,
           HighValue, ExecModifyA, ExecImplied, ExecBranch, ExecJmpInd, ExecJsr, ExecRts, ExecRti, ExecPush,
           ExecPla, ExecPlp, EnterHandler, StatusByte, Interrupt, ExecWrite, Stored, WriteCycles, ExecHigh,
           HighSource, HighBase, HighIndex, AfterHigh, Holds;
      RowELow();
      match p0
      case 0xe3 => IsbOp(LoadZeroAddr(p1 + regX), 3, 3, 2, LOAD_ABS, STORE_ABS);
      case _ => assert false;
    }

    method OpcodesE4(p0: byte, p1: byte, p2: word, nmi: bool, ghost operand: word, ghost s: Cpu)
      requires Valid() && 0xe4 <= p0 <= 0xe5 && !Decode(p0).Jam?
      requires Fetched(p0, p2, operand, s)
      modifies this, ram
      ensures Valid()
      ensures View() == Execute(Decode(p0), p1, operand, nmi, s)
    {
      hide Decode, Modified, ApplyModify, And, Or, Xor, Bit6, Bit7, U8, U16, Lo, Hi, Word, SetA, SetX, SetY, SetAX, SetAXS, SetC,
           SetFlags, SetNZ, AddToA, SubtractFromA, CompareWith, BitTest, RotateAnd, SubtractToX, HighAddress,
           HighValue, ExecModifyA, ExecImplied, ExecBranch, ExecJmpInd, ExecJsr, ExecRts, ExecRti, ExecPush,
           ExecPla, ExecPlp, EnterHandler, StatusByte, Interrupt, ExecWrite, Stored, WriteCycles, ExecHigh,
           HighSource, HighBase, HighIndex, AfterHigh, ZpWord, Holds;
      RowELow();
      match p0
      case 0xe4 => CompareOp(regX, LoadZero(p1), 1, 2);
      case 0xe5 => SbcOp(LoadZero(p1), 1, 2);
      case _ => assert false;
    }

    method OpcodesE6(p0: byte, p1: byte, p2: word, nmi: bool, ghost operand: word, ghost s: Cpu)
      requires Valid() && 0xe6 <= p0 <= 0xe7 && !Decode(p0).Jam?
      requires Fetched(p0, p2, operand, s)
      modifies this, ram
      ensures Valid()
      ensures View() == Execute(Decode(p0), p1, operand, nmi, s)
    {
      hide Decode, Modified, ApplyModify, And, Or, Xor, Bit6, Bit7, U8, U16, Lo, Hi, Word, SetA, SetX, SetY, SetAX, SetAXS, SetC,
           SetFlags, SetNZ, AddToA, SubtractFromA, CompareWith, BitTest, RotateAnd, SubtractToX, HighAddress,
           HighValue, ExecModifyA, ExecImplied, ExecBranch, ExecJmpInd, ExecJsr, ExecRts, ExecRti, ExecPush,
           ExecPla, ExecPlp, EnterHandler, StatusByte, Interrupt, ExecWrite, Stored, WriteCycles, ExecHigh,
           HighSource, HighBase, HighIndex, AfterHigh, ZpWord, Holds;
      RowELow();
      match p0
      case 0xe6 => IncOp(p1, 3, 2, LOAD_ZERO, STORE_ABS);
      case 0xe7 => IsbOp(p1, 0, 3, 2, LOAD_ZERO, STORE_ABS);
      case _ => assert false;
    }

    method OpcodesE8(p0: byte, p1: byte, p2: word, nmi: bool, ghost operand: word, ghost s: Cpu)
      requires Valid() && 0xe8 <= p0 <= 0xeb && !Decode(p0).Jam?
      requires Fetched(p0, p2, operand, s)
      modifies this, ram
      ensures Valid()
      ensures View() == Execute(Decode(p0), p1, operand, nmi, s)
    {
      hide Decode, And, Or, Xor, Bit6, Bit7, U8, U16, Lo, Hi, Word, SetA, SetX, SetY, SetAX, SetAXS, SetC,
           SetFlags, SetNZ, AddToA, SubtractFromA, CompareWith, BitTest, RotateAnd, SubtractToX, HighAddress,
           HighValue, ExecModifyA, ExecImplied, ExecBranch, ExecJmpInd, ExecJsr, ExecRts, ExecRti, ExecPush,
           ExecPla, ExecPlp, EnterHandler, StatusByte, Interrupt, ExecModify, Modified, ApplyModify, ModifyCycles,
           LoadAddress, LoadClk, StoreAddress, ModifyAt, ExecWrite, Stored, WriteCycles, ExecHigh, HighSource,
           HighBase, HighIndex, AfterHigh, ZpWord, Holds;
      RowEHigh();
      match p0
      case 0xe8 => CountOpcode(INX, s);
      case 0xe9 => SbcOp(p1, 0, 2);
      case 0xea => CountOpcode(NOP, s);
      case 0xeb => SbcOp(p1, 0, 2);
      case _ => assert false;
    }

    method OpcodesEC(p0: byte, p1: byte, p2: word, nmi: bool, ghost operand: word, ghost s: Cpu)
      requires Valid() && 0xec <= p0 <= 0xed && !Decode(p0).Jam?
      requires Fetched(p0, p2, operand, s)
      modifies this, ram
      ensures Valid()
      ensures View() == Execute(Decode(p0), p1, operand, nmi, s)
    {
      hide Decode, Modified, ApplyModify, And, Or, Xor, Bit6, Bit7, U8, U16, Lo, Hi, Word, SetA, SetX, SetY, SetAX, SetAXS, SetC,
           SetFlags, SetNZ, AddToA, SubtractFromA, CompareWith, BitTest, RotateAnd, SubtractToX, HighAddress,
           HighValue, ExecModifyA, ExecImplied, ExecBranch, ExecJmpInd, ExecJsr, ExecRts, ExecRti, ExecPush,
           ExecPla, ExecPlp, EnterHandler, StatusByte, Interrupt, ExecWrite, Stored, WriteCycles, ExecHigh,
           HighSource, HighBase, HighIndex, AfterHigh, ZpWord, Holds;
      RowEHigh();
      match p0
      case 0xec => CompareOp(regX, Load(p2), 1, 3);
      case 0xed => SbcOp(Load(p2), 1, 3);
      case _ => assert false;
    }

    method OpcodesEE(p0: byte, p1: byte, p2: word, nmi: bool, ghost operand: word, ghost s: Cpu)
      requires Valid() && 0xee <= p0 <= 0xef && !Decode(p0).Jam?
      requires Fetched(p0, p2, operand, s)
      modifies this, ram
      ensures Valid()
      ensures View() == Execute(Decode(p0), p1, operand, nmi, s)
    {
      hide Decode, Modified, ApplyModify, And, Or, Xor, Bit6, Bit7, U8, U16, Lo, Hi, Word, SetA, SetX, SetY, SetAX, SetAXS, SetC,
           SetFlags, SetNZ, AddToA, SubtractFromA, CompareWith, BitTest, RotateAnd, SubtractToX, HighAddress,
           HighValue, ExecModifyA, ExecImplied, ExecBranch, ExecJmpInd, ExecJsr, ExecRts, ExecRti, ExecPush,
           ExecPla, ExecPlp, EnterHandler, StatusByte, Interrupt, ExecWrite, Stored, WriteCycles, ExecHigh,
           HighSource, HighBase, HighIndex, AfterHigh, ZpWord, Holds;
      RowEHigh();
      match p0
      case 0xee => IncOp(p2, 3, 3, LOAD_ABS, STORE_ABS);
      case 0xef => IsbOp(p2, 0, 3, 3, LOAD_ABS, STORE_ABS);
      case _ => assert false;
    }

    method OpcodesF0(p0: byte, p1: byte, p2: word, nmi: bool, ghost operand: word, ghost s: Cpu)
      requires Valid() && 0xf0 <= p0 <= 0xf1 && !Decode(p0).Jam?
      requires Fetched(p0, p2, operand, s)
      modifies this, ram
      ensures Valid()
      ensures View() == Execute(Decode(p0), p1, operand, nmi, s)
    {
      hide Decode, And, Or, Xor, Bit6, Bit7, U8, U16, Lo, Hi, Word, SetA, SetX, SetY, SetAX, SetAXS, SetC,
           SetFlags, SetNZ, AddToA, SubtractFromA, CompareWith, BitTest, RotateAnd, SubtractToX, HighAddress,
           HighValue, ExecModifyA, ExecImplied, ExecBranch, ExecJmpInd, ExecJsr, ExecRts, ExecRti, ExecPush,
           ExecPla, ExecPlp, EnterHandler, StatusByte, Interrupt, ExecModify, Modified, ApplyModify, ModifyCycles,
           LoadAddress, LoadClk, StoreAddress, ModifyAt, ExecWrite, Stored, WriteCycles, ExecHigh, HighSource,
           HighBase, HighIndex, AfterHigh;
      RowFLow();
      match p0
      case 0xf0 => BranchOp(flagZ == 0, p1, EQ, s);
      case 0xf1 => var v := LoadIndY(p1); SbcOp(v, 1, 2);
      case _ => assert false;
    }

    method OpcodesF2(p0: byte, p1: byte, p2: word, nmi: bool, ghost operand: word, ghost s: Cpu)
      requires Valid() && 0xf2 <= p0 <= 0xf3 && !Decode(p0).Jam?
      requires Fetched(p0, p2, operand, s)
      modifies this, ram
      ensures Valid()
      ensures View() == Execute(Decode(p0), p1, operand, nmi, s)
    {
      hide Decode, Modified, ApplyModify, And, Or, Xor, Bit6, Bit7, U8, U16, Lo, Hi, Word, SetA, SetX, SetY, SetAX, SetAXS, SetC,
           SetFlags, SetNZ, AddToA, SubtractFromA, CompareWith, BitTest, RotateAnd, SubtractToX, HighAddress,
           HighValue, ExecModifyA, ExecImplied, ExecBranch, ExecJmpInd, ExecJsr, ExecRts, ExecRti, ExecPush,
           ExecPla, ExecPlp, EnterHandler, StatusByte, Interrupt, ExecRead, ApplyRead, ReadCycles, CrossesPage,
           Operand, ExecWrite, Stored, WriteCycles, ExecHigh, HighSource, HighBase, HighIndex, AfterHigh, Holds;
      RowFLow();
      match p0
      case 0xf3 => var ea := RmwIndY(p1); IsbOp(ea, 0, 3, 2, LOAD_ABS, STORE_ABS);
      case _ => assert false;
    }

    method OpcodesF4(p0: byte, p1: byte, p2: word, nmi: bool, ghost operand: word, ghost s: Cpu)
      requires Valid() && 0xf4 <= p0 <= 0xf5 && !Decode(p0).Jam?
      requires Fetched(p0, p2, operand, s)
      modifies this, ram
      ensures Valid()
      ensures View() == Execute(Decode(p0), p1, operand, nmi, s)
    {
      hide Decode, And, Or, Xor, Bit6, Bit7, U8, U16, Lo, Hi, Word, SetA, SetX, SetY, SetAX, SetAXS, SetC,
           SetFlags, SetNZ, AddToA, SubtractFromA, CompareWith, BitTest, RotateAnd, SubtractToX, HighAddress,
           HighValue, ExecModifyA, ExecImplied, ExecBranch, ExecJmpInd, ExecJsr, ExecRts, ExecRti, ExecPush,
           ExecPla, ExecPlp, EnterHandler, StatusByte, Interrupt, ExecModify, Modified, ApplyModify, ModifyCycles,
           LoadAddress, LoadClk, StoreAddress, ModifyAt, ExecWrite, Stored, WriteCycles, ExecHigh, HighSource,
           HighBase, HighIndex, AfterHigh, ZpWord, Holds;
      RowFLow();
      match p0
      case 0xf4 => Noop(2, 2);
      case 0xf5 => SbcOp(LoadZero(p1 + regX), 2, 2);
      case _ => assert false;
    }

    method OpcodesF6(p0: byte, p1: byte, p2: word, nmi: bool, ghost operand: word, ghost s: Cpu)
      requires Valid() && 0xf6 <= p0 <= 0xf7 && !Decode(p0).Jam?
      requires Fetched(p0, p2, operand, s)
      modifies this, ram
      ensures Valid()
      ensures View() == Execute(Decode(p0), p1, operand, nmi, s)
    {
      hide Decode, Modified, ApplyModify, And, Or, Xor, Bit6, Bit7, U8, U16, Lo, Hi, Word, SetA, SetX, SetY, SetAX, SetAXS, SetC,
           SetFlags, SetNZ, AddToA, SubtractFromA, CompareWith, BitTest, RotateAnd, SubtractToX, HighAddress,
           HighValue, ExecModifyA, ExecImplied, ExecBranch, ExecJmpInd, ExecJsr, ExecRts, ExecRti, ExecPush,
           ExecPla, ExecPlp, EnterHandler, StatusByte, Interrupt, ExecRead, ApplyRead, ReadCycles, CrossesPage,
           Operand, ExecWrite, Stored, WriteCycles, ExecHigh, HighSource, HighBase, HighIndex, AfterHigh, ZpWord,
           Holds;
      RowFLow();
      match p0
      case 0xf6 => IncOp(U8(p1 + regX), 4, 2, LOAD_ZERO, STORE_ABS);
      case 0xf7 => IsbOp(U8(p1 + regX), 0, 4, 2, LOAD_ZERO, STORE_ABS);
      case _ => assert false;
    }

    method OpcodesF8(p0: byte, p1: byte, p2: word, nmi: bool, ghost operand: word, ghost s: Cpu)
      requires Valid() && 0xf8 <= p0 <= 0xf9 && !Decode(p0).Jam?
      requires Fetched(p0, p2, operand, s)
      modifies this, ram
      ensures Valid()
      ensures View() == Execute(Decode(p0), p1, operand, nmi, s)
    {
      hide Decode, And, Or, Xor, Bit6, Bit7, U8, U16, Lo, Hi, Word, SetA, SetX, SetY, SetAX, SetAXS, SetC,
           SetFlags, SetNZ, AddToA, SubtractFromA, CompareWith, BitTest, RotateAnd, SubtractToX, HighAddress,
           HighValue, ExecModifyA, ExecImplied, ExecBranch, ExecJmpInd, ExecJsr, ExecRts, ExecRti, ExecPush,
           ExecPla, ExecPlp, EnterHandler, StatusByte, Interrupt, ExecModify, Modified, ApplyModify, ModifyCycles,
           LoadAddress, LoadClk, StoreAddress, ModifyAt, ExecWrite, Stored, WriteCycles, ExecHigh, HighSource,
           HighBase, HighIndex, AfterHigh, ZpWord, Holds;
      RowFHigh();
      match p0
      case 0xf8 => FlagOpcode(SED, s);
      case 0xf9 => var v := LoadAbsY(p2); SbcOp(v, 1, 3);
      case _ => assert false;
    }

    method OpcodesFA(p0: byte, p1: byte, p2: word, nmi: bool, ghost operand: word, ghost s: Cpu)
      requires Valid() && 0xfa <= p0 <= 0xfb && !Decode(p0).Jam?
      requires Fetched(p0, p2, operand, s)
      modifies this, ram
      ensures Valid()
      ensures View() == Execute(Decode(p0), p1, operand, nmi, s)
    {
      hide Decode, Modified, ApplyModify, And, Or, Xor, Bit6, Bit7, U8, U16, Lo, Hi, Word, SetA, SetX, SetY, SetAX, SetAXS, SetC,
           SetFlags, SetNZ, AddToA, SubtractFromA, CompareWith, BitTest, RotateAnd, SubtractToX, HighAddress,
           HighValue, ExecModifyA, ExecImplied, ExecBranch, ExecJmpInd, ExecJsr, ExecRts, ExecRti, ExecPush,
           ExecPla, ExecPlp, EnterHandler, StatusByte, Interrupt, ExecRead, ApplyRead, ReadCycles, CrossesPage,
           Operand, ExecWrite, Stored, WriteCycles, ExecHigh, HighSource, HighBase, HighIndex, AfterHigh, ZpWord,
           Holds;
      RowFHigh();
      match p0
      case 0xfa => CountOpcode(NOP, s);
      case 0xfb => IsbOp(p2, 0, 3, 3, LOAD_ABS_Y_RMW, STORE_ABS_Y_RMW);
      case _ => assert false;
    }

    method OpcodesFC(p0: byte, p1: byte, p2: word, nmi: bool, ghost operand: word, ghost s: Cpu)
      requires Valid() && 0xfc <= p0 <= 0xfd && !Decode(p0).Jam?
      requires Fetched(p0, p2, operand, s)
      modifies this, ram
      ensures Valid()
      ensures View() == Execute(Decode(p0), p1, operand, nmi, s)
    {
      hide Decode, And, Or, Xor, Bit6, Bit7, U8, U16, Lo, Hi, Word, SetA, SetX, SetY, SetAX, SetAXS, SetC,
           SetFlags, SetNZ, AddToA, SubtractFromA, CompareWith, BitTest, RotateAnd, SubtractToX, HighAddress,
           HighValue, ExecModifyA, ExecImplied, ExecBranch, ExecJmpInd, ExecJsr, ExecRts, ExecRti, ExecPush,
           ExecPla, ExecPlp, EnterHandler, StatusByte, Interrupt, ExecModify, Modified, ApplyModify, ModifyCycles,
           LoadAddress, LoadClk, StoreAddress, ModifyAt, ExecWrite, Stored, WriteCycles, ExecHigh, HighSource,
           HighBase, HighIndex, AfterHigh, ZpWord, Holds;
      RowFHigh();
      match p0
      case 0xfc => NoopAbsX(p2);
      case 0xfd => var v := LoadAbsX(p2); SbcOp(v, 1, 3);
      case _ => assert false;
    }

    method OpcodesFE(p0: byte, p1: byte, p2: word, nmi: bool, ghost operand: word, ghost s: Cpu)
      requires Valid() && 0xfe <= p0 <= 0xff && !Decode(p0).Jam?
      requires Fetched(p0, p2, operand, s)
      modifies this, ram
      ensures Valid()
      ensures View() == Execute(Decode(p0), p1, operand, nmi, s)
    {
      hide Decode, Modified, ApplyModify, And, Or, Xor, Bit6, Bit7, U8, U16, Lo, Hi, Word, SetA, SetX, SetY, SetAX, SetAXS, SetC,
           SetFlags, SetNZ, AddToA, SubtractFromA, CompareWith, BitTest, RotateAnd, SubtractToX, HighAddress,
           HighValue, ExecModifyA, ExecImplied, ExecBranch, ExecJmpInd, ExecJsr, ExecRts, ExecRti, ExecPush,
           ExecPla, ExecPlp, EnterHandler, StatusByte, Interrupt, ExecRead, ApplyRead, ReadCycles, CrossesPage,
           Operand, ExecWrite, Stored, WriteCycles, ExecHigh, HighSource, HighBase, HighIndex, AfterHigh, ZpWord,
           Holds;
      RowFHigh();
      match p0
      case 0xfe => IncOp(p2, 3, 3, LOAD_ABS_X_RMW, STORE_ABS_X_RMW);
      case 0xff => IsbOp(p2, 0, 3, 3, LOAD_ABS_X_RMW, STORE_ABS_X_RMW);
      case _ => assert false;
    }

    method OpcodeRow0(p0: byte, p1: byte, p2: word, nmi: bool, ghost operand: word, ghost s: Cpu)
      requires Valid() && 0x00 <= p0 <= 0x0f && !Decode(p0).Jam?
      requires Fetched(p0, p2, operand, s)
      modifies this, ram
      ensures Valid()
      ensures View() == Execute(Decode(p0), p1, operand, nmi, s)
    {
      hide Execute, Fetched;
      if p0 <= 0x03 {
        Opcodes00(p0, p1, p2, nmi, operand, s);
      } else if p0 <= 0x07 {
        Opcodes04(p0, p1, p2, nmi, operand, s);
      } else if p0 <= 0x0b {
        Opcodes08(p0, p1, p2, nmi, operand, s);
      } else if p0 <= 0x0d {
        Opcodes0C(p0, p1, p2, nmi, operand, s);
      } else {
        Opcodes0E(p0, p1, p2, nmi, operand, s);
      }
    }

    method OpcodeRow1(p0: byte, p1: byte, p2: word, nmi: bool, ghost operand: word, ghost s: Cpu)
      requires Valid() && 0x10 <= p0 <= 0x1f && !Decode(p0).Jam?
      requires Fetched(p0, p2, operand, s)
      modifies this, ram
      ensures Valid()
      ensures View() == Execute(Decode(p0), p1, operand, nmi, s)
    {
      hide Execute, Fetched;
      if p0 <= 0x10 {
        Opcodes10(p0, p1, p2, nmi, operand, s);
      } else if p0 <= 0x12 {
        Opcodes11(p0, p1, p2, nmi, operand, s);
      } else if p0 <= 0x13 {
        Opcodes13(p0, p1, p2, nmi, operand, s);
      } else if p0 <= 0x15 {
        Opcodes14(p0, p1, p2, nmi, operand, s);
      } else if p0 <= 0x17 {
        Opcodes16(p0, p1, p2, nmi, operand, s);
      } else if p0 <= 0x19 {
        Opcodes18(p0, p1, p2, nmi, operand, s);
      } else if p0 <= 0x1b {
        Opcodes1A(p0, p1, p2, nmi, operand, s);
      } else if p0 <= 0x1d {
        Opcodes1C(p0, p1, p2, nmi, operand, s);
      } else {
        Opcodes1E(p0, p1, p2, nmi, operand, s);
      }
    }

    method OpcodeRow2(p0: byte, p1: byte, p2: word, nmi: bool, ghost operand: word, ghost s: Cpu)
      requires Valid() && (p0 == 0x20 ==> CallAgrees(s)) && 0x20 <= p0 <= 0x2f && !Decode(p0).Jam?
      requires Fetched(p0, p2, operand, s)
      modifies this, ram
      ensures Valid()
      ensures View() == Execute(Decode(p0), p1, operand, nmi, s)
    {
      hide Execute, Fetched, CallAgrees;
      if p0 <= 0x20 {
        Opcodes20(p0, p1, p2, nmi, operand, s);
      } else if p0 <= 0x22 {
        Opcodes21(p0, p1, p2, nmi, operand, s);
      } else if p0 <= 0x23 {
        Opcodes23(p0, p1, p2, nmi, operand, s);
      } else if p0 <= 0x25 {
        Opcodes24(p0, p1, p2, nmi, operand, s);
      } else if p0 <= 0x27 {
        Opcodes26(p0, p1, p2, nmi, operand, s);
      } else if p0 <= 0x2b {
        Opcodes28(p0, p1, p2, nmi, operand, s);
      } else if p0 <= 0x2d {
        Opcodes2C(p0, p1, p2, nmi, operand, s);
      } else {
        Opcodes2E(p0, p1, p2, nmi, operand, s);
      }
    }

    method OpcodeRow3(p0: byte, p1: byte, p2: word, nmi: bool, ghost operand: word, ghost s: Cpu)
      requires Valid() && 0x30 <= p0 <= 0x3f && !Decode(p0).Jam?
      requires Fetched(p0, p2, operand, s)
      modifies this, ram
      ensures Valid()
      ensures View() == Execute(Decode(p0), p1, operand, nmi, s)
    {
      hide Execute, Fetched;
      if p0 <= 0x30 {
        Opcodes30(p0, p1, p2, nmi, operand, s);
      } else if p0 <= 0x32 {
        Opcodes31(p0, p1, p2, nmi, operand, s);
      } else if p0 <= 0x33 {
        Opcodes33(p0, p1, p2, nmi, operand, s);
      } else if p0 <= 0x35 {
        Opcodes34(p0, p1, p2, nmi, operand, s);
      } else if p0 <= 0x37 {
        Opcodes36(p0, p1, p2, nmi, operand, s);
      } else if p0 <= 0x39 {
        Opcodes38(p0, p1, p2, nmi, operand, s);
      } else if p0 <= 0x3b {
        Opcodes3A(p0, p1, p2, nmi, operand, s);
      } else if p0 <= 0x3d {
        Opcodes3C(p0, p1, p2, nmi, operand, s);
      } else {
        Opcodes3E(p0, p1, p2, nmi, operand, s);
      }
    }

    method OpcodeRow4(p0: byte, p1: byte, p2: word, nmi: bool, ghost operand: word, ghost s: Cpu)
      requires Valid() && 0x40 <= p0 <= 0x4f && !Decode(p0).Jam?
      requires Fetched(p0, p2, operand, s)
      modifies this, ram
      ensures Valid()
      ensures View() == Execute(Decode(p0), p1, operand, nmi, s)
    {
      hide Execute, Fetched;
      if p0 <= 0x40 {
        Opcodes40(p0, p1, p2, nmi, operand, s);
      } else if p0 <= 0x43 {
        Opcodes41(p0, p1, p2, nmi, operand, s);
      } else if p0 <= 0x47 {
        Opcodes44(p0, p1, p2, nmi, operand, s);
      } else if p0 <= 0x4b {
        Opcodes48(p0, p1, p2, nmi, operand, s);
      } else {
        Opcodes4C(p0, p1, p2, nmi, operand, s);
      }
    }

    method OpcodeRow5(p0: byte, p1: byte, p2: word, nmi: bool, ghost operand: word, ghost s: Cpu)
      requires Valid() && 0x50 <= p0 <= 0x5f && !Decode(p0).Jam?
      requires Fetched(p0, p2, operand, s)
      modifies this, ram
      ensures Valid()
      ensures View() == Execute(Decode(p0), p1, operand, nmi, s)
    {
      hide Execute, Fetched;
      if p0 <= 0x50 {
        Opcodes50(p0, p1, p2, nmi, operand, s);
      } else if p0 <= 0x52 {
        Opcodes51(p0, p1, p2, nmi, operand, s);
      } else if p0 <= 0x53 {
        Opcodes53(p0, p1, p2, nmi, operand, s);
      } else if p0 <= 0x55 {
        Opcodes54(p0, p1, p2, nmi, operand, s);
      } else if p0 <= 0x57 {
        Opcodes56(p0, p1, p2, nmi, operand, s);
      } else if p0 <= 0x59 {
        Opcodes58(p0, p1, p2, nmi, operand, s);
      } else if p0 <= 0x5b {
        Opcodes5A(p0, p1, p2, nmi, operand, s);
      } else if p0 <= 0x5d {
        Opcodes5C(p0, p1, p2, nmi, operand, s);
      } else {
        Opcodes5E(p0, p1, p2, nmi, operand, s);
      }
    }

    method OpcodeRow6(p0: byte, p1: byte, p2: word, nmi: bool, ghost operand: word, ghost s: Cpu)
      requires Valid() && 0x60 <= p0 <= 0x6f && !Decode(p0).Jam?
      requires Fetched(p0, p2, operand, s)
      modifies this, ram
      ensures Valid()
      ensures View() == Execute(Decode(p0), p1, operand, nmi, s)
    {
      hide Execute, Fetched;
      if p0 <= 0x61 {
        Opcodes60(p0, p1, p2, nmi, operand, s);
      } else if p0 <= 0x63 {
        Opcodes62(p0, p1, p2, nmi, operand, s);
      } else if p0 <= 0x65 {
        Opcodes64(p0, p1, p2, nmi, operand, s);
      } else if p0 <= 0x67 {
        Opcodes66(p0, p1, p2, nmi, operand, s);
      } else if p0 <= 0x6b {
        Opcodes68(p0, p1, p2, nmi, operand, s);
      } else {
        Opcodes6C(p0, p1, p2, nmi, operand, s);
      }
    }

    method OpcodeRow7(p0: byte, p1: byte, p2: word, nmi: bool, ghost operand: word, ghost s: Cpu)
      requires Valid() && 0x70 <= p0 <= 0x7f && !Decode(p0).Jam?
      requires Fetched(p0, p2, operand, s)
      modifies this, ram
      ensures Valid()
      ensures View() == Execute(Decode(p0), p1, operand, nmi, s)
    {
      hide Execute, Fetched;
      if p0 <= 0x71 {
        Opcodes70(p0, p1, p2, nmi, operand, s);
      } else if p0 <= 0x73 {
        Opcodes72(p0, p1, p2, nmi, operand, s);
      } else if p0 <= 0x75 {
        Opcodes74(p0, p1, p2, nmi, operand, s);
      } else if p0 <= 0x77 {
        Opcodes76(p0, p1, p2, nmi, operand, s);
      } else if p0 <= 0x79 {
        Opcodes78(p0, p1, p2, nmi, operand, s);
      } else if p0 <= 0x7b {
        Opcodes7A(p0, p1, p2, nmi, operand, s);
      } else if p0 <= 0x7d {
        Opcodes7C(p0, p1, p2, nmi, operand, s);
      } else {
        Opcodes7E(p0, p1, p2, nmi, operand, s);
      }
    }

    method OpcodeRow8(p0: byte, p1: byte, p2: word, nmi: bool, ghost operand: word, ghost s: Cpu)
      requires Valid() && 0x80 <= p0 <= 0x8f && !Decode(p0).Jam?
      requires Fetched(p0, p2, operand, s)
      modifies this, ram
      ensures Valid()
      ensures View() == Execute(Decode(p0), p1, operand, nmi, s)
    {
      hide Execute, Fetched;
      if p0 <= 0x81 {
        Opcodes80(p0, p1, p2, nmi, operand, s);
      } else if p0 <= 0x83 {
        Opcodes82(p0, p1, p2, nmi, operand, s);
      } else if p0 <= 0x87 {
        Opcodes84(p0, p1, p2, nmi, operand, s);
      } else if p0 <= 0x89 {
        Opcodes88(p0, p1, p2, nmi, operand, s);
      } else if p0 <= 0x8b {
        Opcodes8A(p0, p1, p2, nmi, operand, s);
      } else {
        Opcodes8C(p0, p1, p2, nmi, operand, s);
      }
    }

    method OpcodeRow9(p0: byte, p1: byte, p2: word, nmi: bool, ghost operand: word, ghost s: Cpu)
      requires Valid() && 0x90 <= p0 <= 0x9f && !Decode(p0).Jam?
      requires Fetched(p0, p2, operand, s)
      modifies this, ram
      ensures Valid()
      ensures View() == Execute(Decode(p0), p1, operand, nmi, s)
    {
      hide Execute, Fetched;
      if p0 <= 0x93 {
        Opcodes90(p0, p1, p2, nmi, operand, s);
      } else if p0 <= 0x97 {
        Opcodes94(p0, p1, p2, nmi, operand, s);
      } else if p0 <= 0x9b {
        Opcodes98(p0, p1, p2, nmi, operand, s);
      } else {
        Opcodes9C(p0, p1, p2, nmi, operand, s);
      }
    }

    method OpcodeRowA(p0: byte, p1: byte, p2: word, nmi: bool, ghost operand: word, ghost s: Cpu)
      requires Valid() && 0xa0 <= p0 <= 0xaf && !Decode(p0).Jam?
      requires Fetched(p0, p2, operand, s)
      modifies this, ram
      ensures Valid()
      ensures View() == Execute(Decode(p0), p1, operand, nmi, s)
    {
      hide Execute, Fetched;
      if p0 <= 0xa0 {
        OpcodesA0(p0, p1, p2, nmi, operand, s);
      } else if p0 <= 0xa1 {
        OpcodesA1(p0, p1, p2, nmi, operand, s);
      } else if p0 <= 0xa2 {
        OpcodesA2(p0, p1, p2, nmi, operand, s);
      } else if p0 <= 0xa3 {
        OpcodesA3(p0, p1, p2, nmi, operand, s);
      } else if p0 <= 0xa5 {
        OpcodesA4(p0, p1, p2, nmi, operand, s);
      } else if p0 <= 0xa7 {
        OpcodesA6(p0, p1, p2, nmi, operand, s);
      } else if p0 <= 0xab {
        OpcodesA8(p0, p1, p2, nmi, operand, s);
      } else if p0 <= 0xad {
        OpcodesAC(p0, p1, p2, nmi, operand, s);
      } else {
        OpcodesAE(p0, p1, p2, nmi, operand, s);
      }
    }

    method OpcodeRowB(p0: byte, p1: byte, p2: word, nmi: bool, ghost operand: word, ghost s: Cpu)
      requires Valid() && 0xb0 <= p0 <= 0xbf && !Decode(p0).Jam?
      requires Fetched(p0, p2, operand, s)
      modifies this, ram
      ensures Valid()
      ensures View() == Execute(Decode(p0), p1, operand, nmi, s)
    {
      hide Execute, Fetched;
      if p0 <= 0xb0 {
        OpcodesB0(p0, p1, p2, nmi, operand, s);
      } else if p0 <= 0xb1 {
        OpcodesB1(p0, p1, p2, nmi, operand, s);
      } else if p0 <= 0xb3 {
        OpcodesB2(p0, p1, p2, nmi, operand, s);
      } else if p0 <= 0xb5 {
        OpcodesB4(p0, p1, p2, nmi, operand, s);
      } else if p0 <= 0xb7 {
        OpcodesB6(p0, p1, p2, nmi, operand, s);
      } else if p0 <= 0xb9 {
        OpcodesB8(p0, p1, p2, nmi, operand, s);
      } else if p0 <= 0xbb {
        OpcodesBA(p0, p1, p2, nmi, operand, s);
      } else if p0 <= 0xbc {
        OpcodesBC(p0, p1, p2, nmi, operand, s);
      } else if p0 <= 0xbd {
        OpcodesBD(p0, p1, p2, nmi, operand, s);
      } else if p0 <= 0xbe {
        OpcodesBE(p0, p1, p2, nmi, operand, s);
      } else {
        OpcodesBF(p0, p1, p2, nmi, operand, s);
      }
    }

    method OpcodeRowC(p0: byte, p1: byte, p2: word, nmi: bool, ghost operand: word, ghost s: Cpu)
      requires Valid() && 0xc0 <= p0 <= 0xcf && !Decode(p0).Jam?
      requires Fetched(p0, p2, operand, s)
      modifies this, ram
      ensures Valid()
      ensures View() == Execute(Decode(p0), p1, operand, nmi, s)
    {
      hide Execute, Fetched;
      if p0 <= 0xc1 {
        OpcodesC0(p0, p1, p2, nmi, operand, s);
      } else if p0 <= 0xc2 {
        OpcodesC2(p0, p1, p2, nmi, operand, s);
      } else if p0 <= 0xc3 {
        OpcodesC3(p0, p1, p2, nmi, operand, s);
      } else if p0 <= 0xc5 {
        OpcodesC4(p0, p1, p2, nmi, operand, s);
      } else if p0 <= 0xc7 {
        OpcodesC6(p0, p1, p2, nmi, operand, s);
      } else if p0 <= 0xcb {
        OpcodesC8(p0, p1, p2, nmi, operand, s);
      } else if p0 <= 0xcd {
        OpcodesCC(p0, p1, p2, nmi, operand, s);
      } else {
        OpcodesCE(p0, p1, p2, nmi, operand, s);
      }
    }

    method OpcodeRowD(p0: byte, p1: byte, p2: word, nmi: bool, ghost operand: word, ghost s: Cpu)
      requires Valid() && 0xd0 <= p0 <= 0xdf && !Decode(p0).Jam?
      requires Fetched(p0, p2, operand, s)
      modifies this, ram
      ensures Valid()
      ensures View() == Execute(Decode(p0), p1, operand, nmi, s)
    {
      hide Execute, Fetched;
      if p0 <= 0xd1 {
        OpcodesD0(p0, p1, p2, nmi, operand, s);
      } else if p0 <= 0xd3 {
        OpcodesD2(p0, p1, p2, nmi, operand, s);
      } else if p0 <= 0xd5 {
        OpcodesD4(p0, p1, p2, nmi, operand, s);
      } else if p0 <= 0xd7 {
        OpcodesD6(p0, p1, p2, nmi, operand, s);
      } else if p0 <= 0xd9 {
        OpcodesD8(p0, p1, p2, nmi, operand, s);
      } else if p0 <= 0xdb {
        OpcodesDA(p0, p1, p2, nmi, operand, s);
      } else if p0 <= 0xdd {
        OpcodesDC(p0, p1, p2, nmi, operand, s);
      } else {
        OpcodesDE(p0, p1, p2, nmi, operand, s);
      }
    }

    method OpcodeRowE(p0: byte, p1: byte, p2: word, nmi: bool, ghost operand: word, ghost s: Cpu)
      requires Valid() && 0xe0 <= p0 <= 0xef && !Decode(p0).Jam?
      requires Fetched(p0, p2, operand, s)
      modifies this, ram
      ensures Valid()
      ensures View() == Execute(Decode(p0), p1, operand, nmi, s)
    {
      hide Execute, Fetched;
      if p0 <= 0xe1 {
        OpcodesE0(p0, p1, p2, nmi, operand, s);
      } else if p0 <= 0xe2 {
        OpcodesE2(p0, p1, p2, nmi, operand, s);
      } else if p0 <= 0xe3 {
        OpcodesE3(p0, p1, p2, nmi, operand, s);
      } else if p0 <= 0xe5 {
        OpcodesE4(p0, p1, p2, nmi, operand, s);
      } else if p0 <= 0xe7 {
        OpcodesE6(p0, p1, p2, nmi, operand, s);
      } else if p0 <= 0xeb {
        OpcodesE8(p0, p1, p2, nmi, operand, s);
      } else if p0 <= 0xed {
        OpcodesEC(p0, p1, p2, nmi, operand, s);
      } else {
        OpcodesEE(p0, p1, p2, nmi, operand, s);
      }
    }

    method OpcodeRowF(p0: byte, p1: byte, p2: word, nmi: bool, ghost operand: word, ghost s: Cpu)
      requires Valid() && 0xf0 <= p0 <= 0xff && !Decode(p0).Jam?
      requires Fetched(p0, p2, operand, s)
      modifies this, ram
      ensures Valid()
      ensures View() == Execute(Decode(p0), p1, operand, nmi, s)
    {
      hide Execute, Fetched;
      if p0 <= 0xf1 {
        OpcodesF0(p0, p1, p2, nmi, operand, s);
      } else if p0 <= 0xf3 {
        OpcodesF2(p0, p1, p2, nmi, operand, s);
      } else if p0 <= 0xf5 {
        OpcodesF4(p0, p1, p2, nmi, operand, s);
      } else if p0 <= 0xf7 {
        OpcodesF6(p0, p1, p2, nmi, operand, s);
      } else if p0 <= 0xf9 {
        OpcodesF8(p0, p1, p2, nmi, operand, s);
      } else if p0 <= 0xfb {
        OpcodesFA(p0, p1, p2, nmi, operand, s);
      } else if p0 <= 0xfd {
        OpcodesFC(p0, p1, p2, nmi, operand, s);
      } else {
        OpcodesFE(p0, p1, p2, nmi, operand, s);
      }
    }

    /** The whole opcode switch. */
    method Opcode(p0: byte, p1: byte, p2: word, nmi: bool, ghost operand: word, ghost s: Cpu)
      requires Valid() && (p0 == 0x20 ==> CallAgrees(s)) && !Decode(p0).Jam?
      requires Fetched(p0, p2, operand, s)
      modifies this, ram
      ensures Valid()
      ensures View() == Execute(Decode(p0), p1, operand, nmi, s)
    {
      hide Execute, Decode, Fetched, CallAgrees;
      if p0 <= 0x0f {
        OpcodeRow0(p0, p1, p2, nmi, operand, s);
      } else if p0 <= 0x1f {
        OpcodeRow1(p0, p1, p2, nmi, operand, s);
      } else if p0 <= 0x2f {
        OpcodeRow2(p0, p1, p2, nmi, operand, s);
      } else if p0 <= 0x3f {
        OpcodeRow3(p0, p1, p2, nmi, operand, s);
      } else if p0 <= 0x4f {
        OpcodeRow4(p0, p1, p2, nmi, operand, s);
      } else if p0 <= 0x5f {
        OpcodeRow5(p0, p1, p2, nmi, operand, s);
      } else if p0 <= 0x6f {
        OpcodeRow6(p0, p1, p2, nmi, operand, s);
      } else if p0 <= 0x7f {
        OpcodeRow7(p0, p1, p2, nmi, operand, s);
      } else if p0 <= 0x8f {
        OpcodeRow8(p0, p1, p2, nmi, operand, s);
      } else if p0 <= 0x9f {
        OpcodeRow9(p0, p1, p2, nmi, operand, s);
      } else if p0 <= 0xaf {
        OpcodeRowA(p0, p1, p2, nmi, operand, s);
      } else if p0 <= 0xbf {
        OpcodeRowB(p0, p1, p2, nmi, operand, s);
      } else if p0 <= 0xcf {
        OpcodeRowC(p0, p1, p2, nmi, operand, s);
      } else if p0 <= 0xdf {
        OpcodeRowD(p0, p1, p2, nmi, operand, s);
      } else if p0 <= 0xef {
        OpcodeRowE(p0, p1, p2, nmi, operand, s);
      } else {
        OpcodeRowF(p0, p1, p2, nmi, operand, s);
      }
    }

    // ----- Fetch, interrupts, main loop -----

    /** FETCH_OPCODE.  Below the bank limit the bytes come through the bank pointer and always
        three of them; above it they are loaded one by one and the third only if the opcode
        has a 16-bit operand.  The contract does not say which path was taken. */
    method FetchOpcode() returns (p0: byte, p1: byte, p2: word)
      requires Valid() && FetchAgrees()
      modifies this`clk
      ensures Valid()
      ensures var s := old(View());
              && p0 == Isa6510.Opcode(s) && p1 == s.mem[U16(s.pc + 1)] && p1 == Lo(p2)
              && (FetchTab(p0) ==> p2 == Word(p1, s.mem[U16(s.pc + 2)]))
              && View() == s.(clk := s.clk + if FetchTab(p0) then 3 else 2)
    {
      hide FetchTab, Lo, Hi, Word, U16;
      U16Add(regPc, 1);
      U16Add(regPc, 2);
      if regPc < bankLimit {
        p0 := bankBase[regPc];
        p1 := bankBase[regPc + 1];
        p2 := Word(p1, bankBase[regPc + 2]);
        clk := clk + 2;
        if FetchTab(p0) {
          clk := clk + 1;
        }
      } else {
        p0 := Load(regPc);
        clk := clk + 1;
        p1 := Load(regPc + 1);
        p2 := Word(p1, 0);
        clk := clk + 1;
        if FetchTab(p0) {
          p2 := Word(p1, Load(regPc + 2));
          clk := clk + 1;
        }
      }
    }

    /** The note about the last opcode plays no part in a call. */
    static lemma SameCall(s: Cpu, info: OpInfo)
      ensures CallMemory(s.(info := info)) == CallMemory(s)
    {
    }

    /** Fetch and execute one opcode. */
    method Step(nmi: bool)
      requires Valid() && FetchAgrees() && !Jammed(View())
      modifies this, ram
      ensures Valid()
      ensures View() == Isa6510.Step(old(View()), nmi)
    {
      hide Execute, Decode, FetchTab, Lo, Hi, Word, U16;
      hide CallMemory;
      ghost var s := View();
      var p0, p1, p2 := FetchOpcode();
      opInfo := OpInfo(p0, false, false, false);
      SameCall(s, opInfo);
      Opcode(p0, p1, p2, nmi, Word(p1, s.mem[U16(s.pc + 2)]), s.(info := opInfo));
    }

    /** DO_INTERRUPT once an IRQ or NMI is accepted; `nmi` is the outcome of its late test. */
    method DoInterrupt(nmi: bool)
      requires Valid()
      modifies this, ram
      ensures Valid()
      ensures View() == Interrupt(old(View()), nmi)
    {
      hide PushFrame, StatusByte, WordAt, U16, U8;
      var dummy := FetchParam(regPc);
      clk := clk + 1;
      dummy := FetchParam(regPc);
      clk := clk + 1;
      regP := regP.(b := false);
      EnterVector(nmi);
      opInfo := OpInfo(0, false, false, false);
    }

    /** The main loop over what the outside decides. */
    method Run(es: seq<Event>)
      requires Valid() && RunAgrees(es) && Runnable(View(), es)
      modifies this, ram
      ensures Valid()
      ensures View() == Isa6510.Run(old(View()), es)
    {
      hide Isa6510.Step, Interrupt, Jammed, Shows;
      var k := 0;
      ghost var start := View();
      while k < |es|
        invariant 0 <= k <= |es| && Valid() && RunAgrees(es[k..])
        invariant Runnable(View(), es[k..])
        invariant Isa6510.Run(View(), es[k..]) == Isa6510.Run(start, es)
      {
        match es[k] {
          case TakeInterrupt(nmi) => DoInterrupt(nmi);
          case TakeOpcode(nmi) => Step(nmi);
        }
        assert es[k..][1..] == es[k + 1..];
        k := k + 1;
      }
    }
  }
}
