/** The cycle-level 6510 core (vice/src/6510dtvcore.c): every memory access is followed by
    its own clock tick, page-crossing and dummy reads are performed, and a
    read-modify-write opcode stores the old byte before the new one.

    The macros take an addressing mode as a pair of GET and SET functions.  Each is proved
    to have the effect the reference instruction set gives the whole instruction. */
module CycleCore {
  import opened Bytes
  import opened Isa6510
  import opened LazyFlags
  import opened AluMacros
  import opened OpcodeMatrix

  datatype GetFn =
    | GET_IMM | GET_ABS | GET_ABS_X | GET_ABS_Y | GET_ABS_X_RMW | GET_ABS_Y_RMW
    | GET_ZERO | GET_ZERO_X | GET_ZERO_Y | GET_IND_X | GET_IND_Y | GET_IND_Y_RMW

  datatype SetFn =
    | SET_ABS | SET_ABS_X | SET_ABS_Y | SET_ZERO | SET_ZERO_X | SET_ZERO_Y | SET_IND_X | SET_IND_Y

  datatype RmwFn = SET_ABS_RMW | SET_ABS_X_RMW | SET_ABS_Y_RMW | SET_ZERO_RMW | SET_ZERO_X_RMW | SET_IND_RMW

  function GetMode(get: GetFn): Mode {
    match get
    case GET_IMM => Imm
    case GET_ABS => Abs
    case GET_ABS_X => AbsX
    case GET_ABS_Y => AbsY
    case GET_ABS_X_RMW => AbsX
    case GET_ABS_Y_RMW => AbsY
    case GET_ZERO => Zp
    case GET_ZERO_X => ZpX
    case GET_ZERO_Y => ZpY
    case GET_IND_X => IndX
    case GET_IND_Y => IndY
    case GET_IND_Y_RMW => IndY
  }

  function SetMode(put: SetFn): Mode {
    match put
    case SET_ABS => Abs
    case SET_ABS_X => AbsX
    case SET_ABS_Y => AbsY
    case SET_ZERO => Zp
    case SET_ZERO_X => ZpX
    case SET_ZERO_Y => ZpY
    case SET_IND_X => IndX
    case SET_IND_Y => IndY
  }

  /** The GET functions that stand in plain reads, and those that open a read-modify-write. */
  predicate ForRead(get: GetFn) {
    get !in {GET_ABS_X_RMW, GET_ABS_Y_RMW, GET_IND_Y_RMW}
  }

  predicate ForModify(get: GetFn) {
    get in {GET_ABS, GET_ABS_X_RMW, GET_ABS_Y_RMW, GET_ZERO, GET_ZERO_X, GET_IND_X, GET_IND_Y_RMW}
  }

  /** The SET function that closes the read-modify-write a GET function opened. */
  predicate Paired(get: GetFn, put: RmwFn) {
    match get
    case GET_ABS => put == SET_ABS_RMW
    case GET_ABS_X_RMW => put == SET_ABS_X_RMW
    case GET_ABS_Y_RMW => put == SET_ABS_Y_RMW
    case GET_ZERO => put == SET_ZERO_RMW
    case GET_ZERO_X => put == SET_ZERO_X_RMW
    case GET_IND_X => put == SET_IND_RMW
    case GET_IND_Y_RMW => put == SET_IND_RMW
    case _ => false
  }

  /** Where a read-modify-write SET stores; `addr` is what an indirect GET left behind. */
  function RmwAddress(put: RmwFn, p1: byte, p2: word, addr: word, x: byte, y: byte): word {
    match put
    case SET_ABS_RMW => p2
    case SET_ABS_X_RMW => U16(p2 + x)
    case SET_ABS_Y_RMW => U16(p2 + y)
    case SET_ZERO_RMW => p1
    case SET_ZERO_X_RMW => U8(p1 + x)
    case SET_IND_RMW => addr
  }

  /** One opcode of this core.  The only trace of the difference between the cores is what ANE
      reports as the last opcode. */
  function CycleExecute(op: byte, p1: byte, p2: word, nmi: bool, s: Cpu): Cpu
    requires !Decode(op).Jam?
  {
    var t := Execute(Decode(op), p1, p2, nmi, s);
    if op == 0x8b then t.(info := OpInfo(0x80, false, false, false)) else t
  }

  function CycleStep(s: Cpu, nmi: bool): Cpu
    requires !Jammed(s)
  {
    var p1 := s.mem[U16(s.pc + 1)];
    CycleExecute(Opcode(s), p1, Word(p1, s.mem[U16(s.pc + 2)]), nmi, s.(info := OpInfo(Opcode(s), false, false, false)))
  }

  /** An accepted NMI goes straight to its vector; an IRQ may still be taken over by one. */
  datatype CycleEvent = TakeNmi | TakeIrq(hijack: bool) | RunOpcode(nmi: bool)

  function CycleReact(s: Cpu, e: CycleEvent): Cpu {
    match e
    case TakeNmi => Interrupt(s, true)
    case TakeIrq(hijack) => Interrupt(s, hijack)
    case RunOpcode(nmi) => if Jammed(s) then s else CycleStep(s, nmi)
  }

  predicate CycleRunnable(s: Cpu, es: seq<CycleEvent>)
    decreases |es|
  {
    es != [] ==>
      (es[0].RunOpcode? ==> !Jammed(s)) &&
      CycleRunnable(CycleReact(s, es[0]), es[1..])
  }

  function CycleRun(s: Cpu, es: seq<CycleEvent>): Cpu
    decreases |es|
  {
    if es == [] then s else CycleRun(CycleReact(s, es[0]), es[1..])
  }

  class Core {
    var regA: byte
    var regX: byte
    var regY: byte
    var regSp: byte
    var regP: RegP
    var flagN: byte
    var flagZ: byte
    var regPc: nat
    var clk: nat
    var opInfo: OpInfo
    const ram: array<byte>
    var bankStart: int
    var bankLimit: int

    ghost predicate Valid()
      reads this
    {
      ram.Length == 0x1_0000 && bankLimit <= 0xfffe
    }

    ghost function View(): Cpu
      requires Valid()
      reads this, ram
    {
      Cpu(Regs(regA, regX, regY, regSp, Lazy(regP, flagN, flagZ)), U16(regPc), ram[..], clk, opInfo)
    }

    constructor (memory: array<byte>)
      requires memory.Length == 0x1_0000
      ensures Valid() && ram == memory
      ensures View() == Cpu(Regs(0, 0, 0, 0, Flags(false, false, false, false, false, true, false)), 0, memory[..], 0,
                            OpInfo(0, false, false, false))
    {
      regA, regX, regY, regSp, flagN, flagZ := 0, 0, 0, 0, 0, 0;
      regP := RegP(false, false, false, false, false);
      regPc, clk, opInfo := 0, 0, OpInfo(0, false, false, false);
      ram := memory;
      bankStart, bankLimit := 0, 0;
    }

    /** FETCH_OPCODE has run for an opcode of mode `m`, begun in state `s`. */
    ghost predicate Ready(m: Mode, pcInc: nat, p2: word, operand: word, s: Cpu)
      requires Valid()
      reads this, ram
    {
      View() == s.(clk := s.clk + Length(m)) && pcInc == Length(m) && (Length(m) == 3 ==> p2 == operand)
    }

    // ----- Memory, stack, program counter -----

    function Load(addr: nat): byte
      requires Valid()
      reads this, ram
    {
      ram[U16(addr)]
    }

    function LoadZero(addr: nat): byte
      requires Valid()
      reads this, ram
    {
      ram[U8(addr)]
    }

    method Store(addr: nat, value: int)
      requires Valid()
      modifies ram
      ensures Valid()
      ensures View() == old(View()).(mem := old(View()).mem[U16(addr) := U8(value)])
    {
      ram[U16(addr)] := U8(value);
    }

    method PushByte(value: int)
      requires Valid()
      modifies this`regSp, ram
      ensures Valid()
      ensures var s := old(View());
              View() == s.(r := s.r.(sp := U8(s.r.sp - 1)), mem := Push(s.mem, s.r.sp, U8(value)))
    {
      ram[0x100 + regSp] := U8(value);
      regSp := U8(regSp - 1);
    }

    method Pull() returns (v: byte)
      requires Valid()
      modifies this`regSp
      ensures Valid()
      ensures var s := old(View());
              View() == s.(r := s.r.(sp := U8(s.r.sp + 1))) && v == s.mem[0x100 + U8(s.r.sp + 1)]
    {
      regSp := U8(regSp + 1);
      v := ram[0x100 + regSp];
    }

    function StackPeek(): byte
      requires Valid()
      reads this, ram
    {
      ram[0x100 + regSp]
    }

    /** JUMP: the memory map decides where the fast fetch window lies, anywhere in range. */
    method Jump(addr: nat)
      requires Valid()
      modifies this`regPc, this`bankStart, this`bankLimit
      ensures Valid()
      ensures View() == old(View()).(pc := U16(addr))
    {
      regPc := addr;
      if regPc >= bankLimit || regPc < bankStart {
        var start, limit :| start <= limit <= 0xfffe;
        bankStart, bankLimit := start, limit;
      }
    }

    method IncPc(n: nat)
      requires Valid()
      modifies this`regPc
      ensures Valid()
      ensures View() == old(View()).(pc := U16(old(View()).pc + n))
    {
      U16Add(regPc, n);
      regPc := regPc + n;
    }

    // ----- Addressing modes, cycle by cycle -----

    /** INT_ABS_I_R: a read through the unfixed address only when the page is crossed. */
    method IntAbsIR(p2: word, regI: byte)
      requires Valid()
      modifies this`clk
      ensures Valid()
      ensures View() == old(View()).(clk := old(clk) + if Lo(p2) + regI > 0xff then 1 else 0)
    {
      if Lo(p2) + regI > 0xff {
        var dummy := Load(Word(Lo(p2 + regI), Hi(p2)));
        clk := clk + 1;
      }
    }

    /** INT_ABS_I_W: the same read, always. */
    method IntAbsIW(p2: word, regI: byte)
      requires Valid()
      modifies this`clk
      ensures Valid()
      ensures View() == old(View()).(clk := old(clk) + 1)
    {
      var dummy := Load(Word(Lo(p2 + regI), Hi(p2)));
      clk := clk + 1;
    }

    /** INT_ZERO_I. */
    method IntZeroI(p1: byte)
      requires Valid()
      modifies this`clk
      ensures Valid()
      ensures View() == old(View()).(clk := old(clk) + 1)
    {
      var dummy := LoadZero(p1);
      clk := clk + 1;
    }

    /** INT_IND_X. */
    method IntIndX(p1: byte) returns (addr: word)
      requires Valid()
      modifies this`clk
      ensures Valid()
      ensures View() == old(View()).(clk := old(clk) + 3)
      ensures var s := old(View()); addr == ZpWord(s.mem, U8(p1 + s.r.x))
    {
      hide Word, U16;
      var dummy := LoadZero(p1);
      clk := clk + 1;
      var tmpa: int := U8(p1 + regX);
      var lo := LoadZero(tmpa);
      clk := clk + 1;
      tmpa := U8(tmpa + 1);
      var hi := LoadZero(tmpa);
      clk := clk + 1;
      addr := Word(lo, hi);
    }

    /** The pointer read INT_IND_Y_R, INT_IND_Y_W and INT_IND_Y_W_NOADDR begin with. */
    method IndYPointer(p1: byte) returns (tmpa: word)
      requires Valid()
      modifies this`clk
      ensures Valid()
      ensures View() == old(View()).(clk := old(clk) + 2)
      ensures var s := old(View()); tmpa == ZpWord(s.mem, p1)
    {
      hide Word, U16;
      var lo := LoadZero(p1);
      clk := clk + 1;
      var hi := LoadZero(p1 + 1);
      clk := clk + 1;
      tmpa := Word(lo, hi);
    }

    /** INT_IND_Y_R. */
    method IntIndYR(p1: byte) returns (addr: word)
      requires Valid()
      modifies this`clk
      ensures Valid()
      ensures var s := old(View());
              && addr == U16(ZpWord(s.mem, p1) + s.r.y)
              && View() == s.(clk := s.clk + if s.mem[p1] + s.r.y > 0xff then 3 else 2)
    {
      hide Lo, Hi, Word, U16;
      var tmpa := IndYPointer(p1);
      IntAbsIR(tmpa, regY);
      addr := U16(tmpa + regY);
    }

    /** INT_IND_Y_W. */
    method IntIndYW(p1: byte) returns (addr: word)
      requires Valid()
      modifies this`clk
      ensures Valid()
      ensures var s := old(View());
              addr == U16(ZpWord(s.mem, p1) + s.r.y) && View() == s.(clk := s.clk + 3)
    {
      hide Lo, Hi, Word, U16, ZpWord;
      var tmpa := IndYPointer(p1);
      IntAbsIW(tmpa, regY);
      addr := U16(tmpa + regY);
    }

    /** The GET functions: the operand, and the address an indirect one leaves for its SET. */
    method Get(get: GetFn, p1: byte, p2: word, ghost operand: word, ghost s: Cpu) returns (v: byte, addr: word)
      requires Valid() && Ready(GetMode(get), Length(GetMode(get)), p2, operand, s)
      modifies this`clk
      ensures Valid()
      ensures v == Operand(GetMode(get), s.r, s.mem, p1, operand)
      ensures View() == s.(clk := clk)
      ensures ForRead(get) ==> clk == s.clk + ReadCycles(GetMode(get), CrossesPage(GetMode(get), s.r, s.mem, p1, operand))
      ensures ForModify(get) ==> clk + 2 == s.clk + ModifyCycles(GetMode(get))
      ensures GetMode(get) in {IndX, IndY} ==> addr == EffectiveAddress(GetMode(get), s.r, s.mem, p1, operand)
    {
      hide Operand, ReadCycles, ModifyCycles, CrossesPage, EffectiveAddress, Length;
      addr := 0;
      if get in {GET_IMM, GET_ZERO, GET_ZERO_X, GET_ZERO_Y} {
        v := GetNear(get, p1, p2, operand, s);
      } else if get in {GET_IND_X, GET_IND_Y, GET_IND_Y_RMW} {
        v, addr := GetIndirect(get, p1, p2, operand, s);
      } else {
        v := GetAbsolute(get, p1, p2, operand, s);
      }
    }

    /** The immediate operand and those in page zero. */
    method GetNear(get: GetFn, p1: byte, p2: word, ghost operand: word, ghost s: Cpu) returns (v: byte)
      requires Valid() && Ready(GetMode(get), Length(GetMode(get)), p2, operand, s)
      requires get in {GET_IMM, GET_ZERO, GET_ZERO_X, GET_ZERO_Y}
      modifies this`clk
      ensures Valid()
      ensures v == Operand(GetMode(get), s.r, s.mem, p1, operand)
      ensures View() == s.(clk := clk)
      ensures ForRead(get) ==> clk == s.clk + ReadCycles(GetMode(get), CrossesPage(GetMode(get), s.r, s.mem, p1, operand))
      ensures ForModify(get) ==> clk + 2 == s.clk + ModifyCycles(GetMode(get))
    {
      hide Lo, Hi, Word, U16, U8, ZpWord;
      match get {
        case GET_IMM => v := p1; return;
        case GET_ZERO => v := LoadZero(p1);
        case GET_ZERO_X => IntZeroI(p1); v := LoadZero(p1 + regX);
        case GET_ZERO_Y => IntZeroI(p1); v := LoadZero(p1 + regY);
        case _ => assert false;
      }
      clk := clk + 1;
    }

    method GetAbsolute(get: GetFn, p1: byte, p2: word, ghost operand: word, ghost s: Cpu) returns (v: byte)
      requires Valid() && Ready(GetMode(get), Length(GetMode(get)), p2, operand, s)
      requires get in {GET_ABS, GET_ABS_X, GET_ABS_Y, GET_ABS_X_RMW, GET_ABS_Y_RMW}
      modifies this`clk
      ensures Valid()
      ensures v == Operand(GetMode(get), s.r, s.mem, p1, operand)
      ensures View() == s.(clk := clk)
      ensures ForRead(get) ==> clk == s.clk + ReadCycles(GetMode(get), CrossesPage(GetMode(get), s.r, s.mem, p1, operand))
      ensures ForModify(get) ==> clk + 2 == s.clk + ModifyCycles(GetMode(get))
    {
      hide Lo, Hi, Word, U16, U8, ZpWord;
      match get {
        case GET_ABS => v := Load(p2);
        case GET_ABS_X => IntAbsIR(p2, regX); v := Load(p2 + regX);
        case GET_ABS_Y => IntAbsIR(p2, regY); v := Load(p2 + regY);
        case GET_ABS_X_RMW => IntAbsIW(p2, regX); v := Load(p2 + regX);
        case GET_ABS_Y_RMW => IntAbsIW(p2, regY); v := Load(p2 + regY);
        case _ => assert false;
      }
      clk := clk + 1;
    }

    method GetIndirect(get: GetFn, p1: byte, p2: word, ghost operand: word, ghost s: Cpu) returns (v: byte, addr: word)
      requires Valid() && Ready(GetMode(get), Length(GetMode(get)), p2, operand, s)
      requires get in {GET_IND_X, GET_IND_Y, GET_IND_Y_RMW}
      modifies this`clk
      ensures Valid()
      ensures v == Operand(GetMode(get), s.r, s.mem, p1, operand)
      ensures View() == s.(clk := clk)
      ensures ForRead(get) ==> clk == s.clk + ReadCycles(GetMode(get), CrossesPage(GetMode(get), s.r, s.mem, p1, operand))
      ensures ForModify(get) ==> clk + 2 == s.clk + ModifyCycles(GetMode(get))
      ensures addr == EffectiveAddress(GetMode(get), s.r, s.mem, p1, operand)
    {
      hide Lo, Hi, Word, U16, U8, ZpWord;
      match get {
        case GET_IND_X => addr := IntIndX(p1);
        case GET_IND_Y => addr := IntIndYR(p1);
        case GET_IND_Y_RMW => addr := IntIndYW(p1);
        case _ => assert false;
      }
      v := Load(addr);
      clk := clk + 1;
    }

    /** The SET functions of the plain stores. */
    method Set(put: SetFn, value: byte, p1: byte, p2: word, ghost operand: word)
      requires Valid() && (Length(SetMode(put)) == 3 ==> p2 == operand)
      modifies this`clk, ram
      ensures Valid()
      ensures var s := old(View()); var m := SetMode(put);
              View() == s.(mem := s.mem[EffectiveAddress(m, s.r, s.mem, p1, operand) := value],
                           clk := s.clk + WriteCycles(m) - Length(m))
    {
      hide Lo, Hi, Word, U16, U8, ZpWord;
      match put {
        case SET_ABS => Store(p2, value);
        case SET_ABS_X => IntAbsIW(p2, regX); Store(p2 + regX, value);
        case SET_ABS_Y => IntAbsIW(p2, regY); Store(p2 + regY, value);
        case SET_ZERO => Store(p1, value);
        case SET_ZERO_X => IntZeroI(p1); Store(U8(p1 + regX), value);
        case SET_ZERO_Y => IntZeroI(p1); Store(U8(p1 + regY), value);
        case SET_IND_X => var addr := IntIndX(p1); Store(addr, value);
        case SET_IND_Y => var addr := IntIndYW(p1); Store(addr, value);
      }
      clk := clk + 1;
    }

    /** The SET functions of the read-modify-write opcodes: the old value is stored first. */
    method SetRmw(put: RmwFn, p1: byte, p2: word, addr: word, oldValue: int, newValue: int, ghost ea: word)
      requires Valid() && ea == RmwAddress(put, p1, p2, addr, regX, regY)
      modifies this`clk, ram
      ensures Valid()
      ensures View() == old(View()).(mem := old(View()).mem[ea := U8(newValue)], clk := old(clk) + 2)
    {
      hide U16, U8;
      var at := addr;
      match put {
        case SET_ABS_RMW => at := p2;
        case SET_ABS_X_RMW => at := U16(p2 + regX);
        case SET_ABS_Y_RMW => at := U16(p2 + regY);
        case SET_ZERO_RMW => at := p1;
        case SET_ZERO_X_RMW => at := U8(p1 + regX);
        case SET_IND_RMW =>
      }
      ghost var before := View().mem;
      Store(at, oldValue);
      clk := clk + 1;
      Store(at, newValue);
      clk := clk + 1;
      assert before[ea := U8(oldValue)][ea := U8(newValue)] == before[ea := U8(newValue)];
    }

    /** A matching pair works on the effective address. */
    ghost function Target(get: GetFn, put: RmwFn, p1: byte, p2: word, addr: word, operand: word, s: Cpu): (ea: word)
      requires Paired(get, put) && (Length(GetMode(get)) == 3 ==> p2 == operand)
      requires GetMode(get) in {IndX, IndY} ==> addr == EffectiveAddress(GetMode(get), s.r, s.mem, p1, operand)
      ensures ForModify(get) && ea == RmwAddress(put, p1, p2, addr, s.r.x, s.r.y)
      ensures ea == EffectiveAddress(GetMode(get), s.r, s.mem, p1, operand)
      ensures s.mem[ea] == Operand(GetMode(get), s.r, s.mem, p1, operand)
    {
      RmwAddress(put, p1, p2, addr, s.r.x, s.r.y)
    }

    // ----- Assignments shared by several opcodes -----

    method AssignSum(sum: Sum)
      requires Valid()
      modifies this`regA, this`regP, this`flagN, this`flagZ
      ensures Valid()
      ensures View() == old(View()).(r := WithSum(old(View()).r, sum))
    {
      flagZ := if sum.z then 0 else 1;
      flagN := if sum.n then 0x80 else 0;
      regP := regP.(v := sum.v, c := sum.c);
      regA := sum.r;
    }

    /** ADC and SBC of a value at hand: the part after GET, and the whole with GET_TEMP. */
    method AdcTemp(value: byte)
      requires Valid()
      modifies this`regA, this`regP, this`flagN, this`flagZ
      ensures Valid()
      ensures View() == old(View()).(r := AddToA(old(View()).r, value))
    {
      hide Adc;
      var sum := AdcMacro(regP.d, regA, value, regP.c);
      AssignSum(sum);
    }

    method SbcTemp(value: byte)
      requires Valid()
      modifies this`regA, this`regP, this`flagN, this`flagZ
      ensures Valid()
      ensures View() == old(View()).(r := SubtractFromA(old(View()).r, value))
    {
      hide Sbc;
      var sum := SbcMacro(regP.d, regA, value, regP.c);
      AssignSum(sum);
    }

    method CompareFlags(reg: byte, value: byte)
      requires Valid()
      modifies this`regP, this`flagN, this`flagZ
      ensures Valid()
      ensures View() == old(View()).(r := CompareWith(old(View()).r, reg, value))
    {
      hide U8, U32;
      var tmp := U32(reg - value);
      U8OfU32(reg - value);
      regP := regP.(c := tmp < 0x100);
      flagZ, flagN := U8(tmp), U8(tmp);
    }

    method BitFlags(value: byte)
      requires Valid()
      modifies this`regP, this`flagN, this`flagZ
      ensures Valid()
      ensures View() == old(View()).(r := BitTest(old(View()).r, value))
    {
      hide And, Bit6, Bit7;
      flagN := if Bit7(value) then 0x80 else 0;
      regP := regP.(v := Bit6(value));
      flagZ := if And(value, regA) == 0 then 0 else 1;
    }

    // ----- Opcodes: reads -----

    method OraOp(get: GetFn, pcInc: nat, p1: byte, p2: word, ghost operand: word, ghost s: Cpu)
      requires Valid()
      requires ForRead(get) && Ready(GetMode(get), pcInc, p2, operand, s)
      modifies this
      ensures Valid()
      ensures View() == ExecRead(ORA, GetMode(get), p1, operand, s)
    {
      hide GetMode, ForRead, ForModify, Operand, CrossesPage, ReadCycles, Length, And, Or, Xor, Bit6, Bit7, U8,
           U16, Lo, Hi, Word;
      var value, _ := Get(get, p1, p2, operand, s);
      regA := Or(regA, value);
      flagZ, flagN := regA, regA;
      IncPc(pcInc);
    }

    method AndOp(get: GetFn, pcInc: nat, p1: byte, p2: word, ghost operand: word, ghost s: Cpu)
      requires Valid()
      requires ForRead(get) && Ready(GetMode(get), pcInc, p2, operand, s)
      modifies this
      ensures Valid()
      ensures View() == ExecRead(AND, GetMode(get), p1, operand, s)
    {
      hide GetMode, ForRead, ForModify, Operand, CrossesPage, ReadCycles, Length, And, Or, Xor, Bit6, Bit7, U8,
           U16, Lo, Hi, Word;
      var value, _ := Get(get, p1, p2, operand, s);
      regA := And(regA, value);
      flagZ, flagN := regA, regA;
      IncPc(pcInc);
    }

    method EorOp(get: GetFn, pcInc: nat, p1: byte, p2: word, ghost operand: word, ghost s: Cpu)
      requires Valid()
      requires ForRead(get) && Ready(GetMode(get), pcInc, p2, operand, s)
      modifies this
      ensures Valid()
      ensures View() == ExecRead(EOR, GetMode(get), p1, operand, s)
    {
      hide GetMode, ForRead, ForModify, Operand, CrossesPage, ReadCycles, Length, And, Or, Xor, Bit6, Bit7, U8,
           U16, Lo, Hi, Word;
      var value, _ := Get(get, p1, p2, operand, s);
      regA := Xor(regA, value);
      flagZ, flagN := regA, regA;
      IncPc(pcInc);
    }

    method AdcOp(get: GetFn, pcInc: nat, p1: byte, p2: word, ghost operand: word, ghost s: Cpu)
      requires Valid()
      requires ForRead(get) && Ready(GetMode(get), pcInc, p2, operand, s)
      modifies this
      ensures Valid()
      ensures View() == ExecRead(ADC, GetMode(get), p1, operand, s)
    {
      hide GetMode, ForRead, ForModify, Operand, CrossesPage, ReadCycles, Length, AddToA, And, Or, Xor, Bit6,
           Bit7, U8, U16, Lo, Hi, Word;
      var value, _ := Get(get, p1, p2, operand, s);
      AdcTemp(value);
      IncPc(pcInc);
    }

    method SbcOp(get: GetFn, pcInc: nat, p1: byte, p2: word, ghost operand: word, ghost s: Cpu)
      requires Valid()
      requires ForRead(get) && Ready(GetMode(get), pcInc, p2, operand, s)
      modifies this
      ensures Valid()
      ensures View() == ExecRead(SBC, GetMode(get), p1, operand, s)
    {
      hide GetMode, ForRead, ForModify, Operand, CrossesPage, ReadCycles, Length, SubtractFromA, And, Or, Xor,
           Bit6, Bit7, U8, U16, Lo, Hi, Word;
      var value, _ := Get(get, p1, p2, operand, s);
      SbcTemp(value);
      IncPc(pcInc);
    }

    /** CP: an unsigned subtraction that borrows iff it leaves the byte range. */
    method CpOp(op: ReadOp, reg: byte, get: GetFn, pcInc: nat, p1: byte, p2: word, ghost operand: word, ghost s: Cpu)
      requires Valid()
      requires ForRead(get) && Ready(GetMode(get), pcInc, p2, operand, s)
      requires (op, reg) in {(CMP, s.r.a), (CPX, s.r.x), (CPY, s.r.y)}
      modifies this
      ensures Valid()
      ensures View() == ExecRead(op, GetMode(get), p1, operand, s)
    {
      hide GetMode, ForRead, ForModify, Operand, CrossesPage, ReadCycles, Length, CompareWith, And, Or, Xor,
           Bit6, Bit7, U8, U16, Lo, Hi, Word;
      var value, _ := Get(get, p1, p2, operand, s);
      CompareFlags(reg, value);
      IncPc(pcInc);
    }

    method BitOp(get: GetFn, pcInc: nat, p1: byte, p2: word, ghost operand: word, ghost s: Cpu)
      requires Valid()
      requires ForRead(get) && Ready(GetMode(get), pcInc, p2, operand, s)
      modifies this
      ensures Valid()
      ensures View() == ExecRead(BIT, GetMode(get), p1, operand, s)
    {
      hide GetMode, ForRead, ForModify, Operand, CrossesPage, ReadCycles, Length, BitTest, And, Or, Xor, Bit6,
           Bit7, U8, U16, Lo, Hi, Word;
      var value, _ := Get(get, p1, p2, operand, s);
      BitFlags(value);
      IncPc(pcInc);
    }

    /** LD into the three registers. */
    method LdaOp(get: GetFn, pcInc: nat, p1: byte, p2: word, ghost operand: word, ghost s: Cpu)
      requires Valid()
      requires ForRead(get) && Ready(GetMode(get), pcInc, p2, operand, s)
      modifies this
      ensures Valid()
      ensures View() == ExecRead(LDA, GetMode(get), p1, operand, s)
    {
      hide GetMode, ForRead, ForModify, Operand, CrossesPage, ReadCycles, Length, And, Or, Xor, Bit6, Bit7, U8,
           U16, Lo, Hi, Word;
      var value, _ := Get(get, p1, p2, operand, s);
      regA := value;
      flagZ, flagN := value, value;
      IncPc(pcInc);
    }

    method LdxOp(get: GetFn, pcInc: nat, p1: byte, p2: word, ghost operand: word, ghost s: Cpu)
      requires Valid()
      requires ForRead(get) && Ready(GetMode(get), pcInc, p2, operand, s)
      modifies this
      ensures Valid()
      ensures View() == ExecRead(LDX, GetMode(get), p1, operand, s)
    {
      hide GetMode, ForRead, ForModify, Operand, CrossesPage, ReadCycles, Length, And, Or, Xor, Bit6, Bit7, U8,
           U16, Lo, Hi, Word;
      var value, _ := Get(get, p1, p2, operand, s);
      regX := value;
      flagZ, flagN := value, value;
      IncPc(pcInc);
    }

    method LdyOp(get: GetFn, pcInc: nat, p1: byte, p2: word, ghost operand: word, ghost s: Cpu)
      requires Valid()
      requires ForRead(get) && Ready(GetMode(get), pcInc, p2, operand, s)
      modifies this
      ensures Valid()
      ensures View() == ExecRead(LDY, GetMode(get), p1, operand, s)
    {
      hide GetMode, ForRead, ForModify, Operand, CrossesPage, ReadCycles, Length, And, Or, Xor, Bit6, Bit7, U8,
           U16, Lo, Hi, Word;
      var value, _ := Get(get, p1, p2, operand, s);
      regY := value;
      flagZ, flagN := value, value;
      IncPc(pcInc);
    }

    method LaxOp(get: GetFn, pcInc: nat, p1: byte, p2: word, ghost operand: word, ghost s: Cpu)
      requires Valid()
      requires ForRead(get) && Ready(GetMode(get), pcInc, p2, operand, s)
      modifies this
      ensures Valid()
      ensures View() == ExecRead(LAX, GetMode(get), p1, operand, s)
    {
      hide GetMode, ForRead, ForModify, Operand, CrossesPage, ReadCycles, Length, And, Or, Xor, Bit6, Bit7, U8,
           U16, Lo, Hi, Word;
      var value, _ := Get(get, p1, p2, operand, s);
      regX := value;
      regA := regX;
      flagZ, flagN := regA, regA;
      IncPc(pcInc);
    }

    /** NOOP, whose GET discards the value. */
    method NoopOp(get: GetFn, pcInc: nat, p1: byte, p2: word, ghost operand: word, ghost s: Cpu)
      requires Valid()
      requires ForRead(get) && Ready(GetMode(get), pcInc, p2, operand, s)
      modifies this
      ensures Valid()
      ensures View() == ExecRead(SKIP, GetMode(get), p1, operand, s)
    {
      hide GetMode, ForRead, ForModify, Operand, CrossesPage, ReadCycles, Length, And, Or, Xor, Bit6, Bit7, U8,
           U16, Lo, Hi, Word;
      var _, _ := Get(get, p1, p2, operand, s);
      IncPc(pcInc);
    }

    method LasOp(p1: byte, p2: word, ghost operand: word, ghost s: Cpu)
      requires Valid()
      requires Ready(AbsY, 3, p2, operand, s)
      modifies this
      ensures Valid()
      ensures View() == ExecRead(LAS, AbsY, p1, operand, s)
    {
      hide EffectiveAddress, Operand, CrossesPage, And, Or, Xor, Bit6, Bit7, U8, U16, Lo, Hi, Word, SetAXS;
      var value, _ := Get(GET_ABS_Y, p1, p2, operand, s);
      AssignAxs(And(regSp, value));
      IncPc(3);
    }

    /** SP, X and A together, with N and Z. */
    method AssignAxs(v: byte)
      requires Valid()
      modifies this`regSp, this`regX, this`regA, this`flagZ, this`flagN
      ensures Valid() && View() == old(View()).(r := SetAXS(old(View()).r, v))
    {
      regSp := v;
      regX := regSp;
      regA := regX;
      flagZ, flagN := regA, regA;
    }

    // ----- Opcodes: undocumented immediates -----

    method AncOp(p1: byte, ghost operand: word, ghost s: Cpu)
      requires Valid()
      requires Ready(Imm, 2, operand, operand, s)
      modifies this
      ensures Valid()
      ensures View() == ExecRead(ANC, Imm, p1, operand, s)
    {
      hide And, Or, Xor, Bit6, Bit7, U8, U16, Lo, Hi, Word;
      regA := And(regA, p1);
      flagZ, flagN := regA, regA;
      regP := regP.(c := Bit7(flagN));
      IncPc(2);
    }

    method AsrOp(p1: byte, ghost operand: word, ghost s: Cpu)
      requires Valid()
      requires Ready(Imm, 2, operand, operand, s)
      modifies this
      ensures Valid()
      ensures View() == ExecRead(ASR, Imm, p1, operand, s)
    {
      hide And, Or, Xor, Bit6, Bit7, U8, U16, Lo, Hi, Word;
      var tmp := And(regA, p1);
      regP := regP.(c := tmp % 2 == 1);
      regA := tmp / 2;
      flagZ, flagN := regA, regA;
      IncPc(2);
    }

    method ArrOp(p1: byte, ghost operand: word, ghost s: Cpu)
      requires Valid()
      requires Ready(Imm, 2, operand, operand, s)
      modifies this
      ensures Valid()
      ensures View() == ExecRead(ARR, Imm, p1, operand, s)
    {
      hide ArrSum, And, Or, Xor, Bit6, Bit7, U8, U16, Lo, Hi, Word;
      var sum := ArrMacro(regP.d, And(regA, p1), regP.c);
      AssignSum(sum);
      IncPc(2);
    }

    method LxaOp(p1: byte, ghost operand: word, ghost s: Cpu)
      requires Valid()
      requires Ready(Imm, 2, operand, operand, s)
      modifies this
      ensures Valid()
      ensures View() == ExecRead(LXA, Imm, p1, operand, s)
    {
      hide And, Or, Xor, Bit6, Bit7, U8, U16, Lo, Hi, Word;
      regX := And(Or(regA, 0xee), p1);
      regA := regX;
      flagZ, flagN := regA, regA;
      IncPc(2);
    }

    method SbxOp(p1: byte, ghost operand: word, ghost s: Cpu)
      requires Valid()
      requires Ready(Imm, 2, operand, operand, s)
      modifies this
      ensures Valid()
      ensures View() == ExecRead(SBX, Imm, p1, operand, s)
    {
      hide And, Or, Xor, Bit6, Bit7, U8, U16, Lo, Hi, Word, U32, SubtractToX;
      IncPc(2);
      SubtractX(p1);
    }

    method SubtractX(p1: byte)
      requires Valid()
      modifies this`regP, this`regX, this`flagN, this`flagZ
      ensures Valid() && View() == old(View()).(r := SubtractToX(old(View()).r, p1))
    {
      hide And, U8, U32;
      var tmp := U32(And(regA, regX) - p1);
      U8OfU32(And(regA, regX) - p1);
      regP := regP.(c := tmp < 0x100);
      regX := U8(tmp);
      flagZ, flagN := regX, regX;
    }

    /** ANE passes itself off as opcode 0x80 to the interrupt logic. */
    method AneOp(p1: byte, ghost operand: word, ghost s: Cpu)
      requires Valid()
      requires Ready(Imm, 2, operand, operand, s)
      modifies this
      ensures Valid()
      ensures View() == ExecRead(ANE, Imm, p1, operand, s).(info := OpInfo(0x80, false, false, false))
    {
      hide And, Or, Xor, Bit6, Bit7, U8, U16, Lo, Hi, Word;
      if opInfo.enablesIrq {
        // a steal signal after the first fetch is consumed; the value is the same
        opInfo := opInfo.(enablesIrq := false);
      }
      AssignA(And(And(Or(regA, 0xff), regX), p1));
      IncPc(2);
      opInfo := OpInfo(0x80, false, false, false);
    }

    // ----- Opcodes: read-modify-write -----

    method AssignA(v: byte)
      requires Valid()
      modifies this`regA, this`flagN, this`flagZ
      ensures Valid() && View() == old(View()).(r := SetA(old(View()).r, v))
    {
      regA := v;
      flagZ, flagN := v, v;
    }

    /** The result and the flags of ASL on `v`. */
    method Asl(v: byte) returns (w: byte)
      requires Valid()
      modifies this`regP, this`flagN, this`flagZ
      ensures Valid() && w == Modified(ASL, v, old(regP.c))
      ensures View() == old(View()).(r := ApplyModify(ASL, v, w, old(View()).r))
    {
      hide And, Or, Xor, U8, U16, U32, Lo, Hi;
      regP := regP.(c := Bit7(v));
      w := U8(v * 2);
      flagZ, flagN := w, w;
    }

    method AslOp(pcInc: nat, get: GetFn, put: RmwFn, p1: byte, p2: word, ghost operand: word, ghost s: Cpu)
      requires Valid()
      requires Paired(get, put) && Ready(GetMode(get), pcInc, p2, operand, s)
      modifies this, ram
      ensures Valid()
      ensures View() == ExecModify(ASL, GetMode(get), p1, operand, s)
    {
      hide GetMode, ForRead, ForModify, Paired, EffectiveAddress, Operand, CrossesPage, ReadCycles, ModifyCycles, Length,
           RmwAddress, Modified, U8, U16, ApplyModify;
      var oldValue, addr := Get(get, p1, p2, operand, s);
      ghost var ea := Target(get, put, p1, p2, addr, operand, s);
      var newValue := Asl(oldValue);
      IncPc(pcInc);
      SetRmw(put, p1, p2, addr, oldValue, newValue, ea);
    }

    /** The result and the flags of LSR on `v`. */
    method Lsr(v: byte) returns (w: byte)
      requires Valid()
      modifies this`regP, this`flagN, this`flagZ
      ensures Valid() && w == Modified(LSR, v, old(regP.c))
      ensures View() == old(View()).(r := ApplyModify(LSR, v, w, old(View()).r))
    {
      hide And, Or, Xor, U8, U16, U32, Lo, Hi;
      regP := regP.(c := v % 2 == 1);
      w := v / 2;
      flagZ, flagN := w, w;
    }

    method LsrOp(pcInc: nat, get: GetFn, put: RmwFn, p1: byte, p2: word, ghost operand: word, ghost s: Cpu)
      requires Valid()
      requires Paired(get, put) && Ready(GetMode(get), pcInc, p2, operand, s)
      modifies this, ram
      ensures Valid()
      ensures View() == ExecModify(LSR, GetMode(get), p1, operand, s)
    {
      hide GetMode, ForRead, ForModify, Paired, EffectiveAddress, Operand, CrossesPage, ReadCycles, ModifyCycles, Length,
           RmwAddress, Modified, U8, U16, ApplyModify;
      var oldValue, addr := Get(get, p1, p2, operand, s);
      ghost var ea := Target(get, put, p1, p2, addr, operand, s);
      var newValue := Lsr(oldValue);
      IncPc(pcInc);
      SetRmw(put, p1, p2, addr, oldValue, newValue, ea);
    }

    /** The result and the flags of ROL on `v`. */
    method Rol(v: byte) returns (w: byte)
      requires Valid()
      modifies this`regP, this`flagN, this`flagZ
      ensures Valid() && w == Modified(ROL, v, old(regP.c))
      ensures View() == old(View()).(r := ApplyModify(ROL, v, w, old(View()).r))
    {
      hide And, Or, Xor, U8, U16, U32, Lo, Hi;
      var tmp := v * 2 + (if regP.c then 1 else 0);
      regP := regP.(c := Bit8(tmp));
      w := U8(tmp);
      flagZ, flagN := w, w;
    }

    method RolOp(pcInc: nat, get: GetFn, put: RmwFn, p1: byte, p2: word, ghost operand: word, ghost s: Cpu)
      requires Valid()
      requires Paired(get, put) && Ready(GetMode(get), pcInc, p2, operand, s)
      modifies this, ram
      ensures Valid()
      ensures View() == ExecModify(ROL, GetMode(get), p1, operand, s)
    {
      hide GetMode, ForRead, ForModify, Paired, EffectiveAddress, Operand, CrossesPage, ReadCycles, ModifyCycles, Length,
           RmwAddress, Modified, U8, U16, ApplyModify;
      var oldValue, addr := Get(get, p1, p2, operand, s);
      ghost var ea := Target(get, put, p1, p2, addr, operand, s);
      var newValue := Rol(oldValue);
      IncPc(pcInc);
      SetRmw(put, p1, p2, addr, oldValue, newValue, ea);
    }

    /** The result and the flags of ROR on `v`. */
    method Ror(v: byte) returns (w: byte)
      requires Valid()
      modifies this`regP, this`flagN, this`flagZ
      ensures Valid() && w == Modified(ROR, v, old(regP.c))
      ensures View() == old(View()).(r := ApplyModify(ROR, v, w, old(View()).r))
    {
      hide And, Or, Xor, U8, U16, U32, Lo, Hi;
      var src := v + (if regP.c then 0x100 else 0);
      regP := regP.(c := src % 2 == 1);
      w := src / 2;
      flagZ, flagN := w, w;
    }

    method RorOp(pcInc: nat, get: GetFn, put: RmwFn, p1: byte, p2: word, ghost operand: word, ghost s: Cpu)
      requires Valid()
      requires Paired(get, put) && Ready(GetMode(get), pcInc, p2, operand, s)
      modifies this, ram
      ensures Valid()
      ensures View() == ExecModify(ROR, GetMode(get), p1, operand, s)
    {
      hide GetMode, ForRead, ForModify, Paired, EffectiveAddress, Operand, CrossesPage, ReadCycles, ModifyCycles, Length,
           RmwAddress, Modified, U8, U16, ApplyModify;
      var oldValue, addr := Get(get, p1, p2, operand, s);
      ghost var ea := Target(get, put, p1, p2, addr, operand, s);
      var newValue := Ror(oldValue);
      IncPc(pcInc);
      SetRmw(put, p1, p2, addr, oldValue, newValue, ea);
    }

    /** The result and the flags of INC on `v`. */
    method Inc(v: byte) returns (w: byte)
      requires Valid()
      modifies this`flagN, this`flagZ
      ensures Valid() && w == Modified(INC, v, old(regP.c))
      ensures View() == old(View()).(r := ApplyModify(INC, v, w, old(View()).r))
    {
      hide And, Or, Xor, U8, U16, U32, Lo, Hi;
      w := U8(v + 1);
      flagZ, flagN := w, w;
    }

    method IncOp(pcInc: nat, get: GetFn, put: RmwFn, p1: byte, p2: word, ghost operand: word, ghost s: Cpu)
      requires Valid()
      requires Paired(get, put) && Ready(GetMode(get), pcInc, p2, operand, s)
      modifies this, ram
      ensures Valid()
      ensures View() == ExecModify(INC, GetMode(get), p1, operand, s)
    {
      hide GetMode, ForRead, ForModify, Paired, EffectiveAddress, Operand, CrossesPage, ReadCycles, ModifyCycles, Length,
           RmwAddress, Modified, U8, U16, ApplyModify;
      var oldValue, addr := Get(get, p1, p2, operand, s);
      ghost var ea := Target(get, put, p1, p2, addr, operand, s);
      var newValue := Inc(oldValue);
      IncPc(pcInc);
      SetRmw(put, p1, p2, addr, oldValue, newValue, ea);
    }

    /** The result and the flags of DEC on `v`. */
    method Dec(v: byte) returns (w: byte)
      requires Valid()
      modifies this`flagN, this`flagZ
      ensures Valid() && w == Modified(DEC, v, old(regP.c))
      ensures View() == old(View()).(r := ApplyModify(DEC, v, w, old(View()).r))
    {
      hide And, Or, Xor, U8, U16, U32, Lo, Hi;
      w := U8(v - 1);
      flagZ, flagN := w, w;
    }

    method DecOp(pcInc: nat, get: GetFn, put: RmwFn, p1: byte, p2: word, ghost operand: word, ghost s: Cpu)
      requires Valid()
      requires Paired(get, put) && Ready(GetMode(get), pcInc, p2, operand, s)
      modifies this, ram
      ensures Valid()
      ensures View() == ExecModify(DEC, GetMode(get), p1, operand, s)
    {
      hide GetMode, ForRead, ForModify, Paired, EffectiveAddress, Operand, CrossesPage, ReadCycles, ModifyCycles, Length,
           RmwAddress, Modified, U8, U16, ApplyModify;
      var oldValue, addr := Get(get, p1, p2, operand, s);
      ghost var ea := Target(get, put, p1, p2, addr, operand, s);
      var newValue := Dec(oldValue);
      IncPc(pcInc);
      SetRmw(put, p1, p2, addr, oldValue, newValue, ea);
    }

    /** The result and the flags of SLO on `v`. */
    method Slo(v: byte) returns (w: byte)
      requires Valid()
      modifies this`regA, this`regP, this`flagN, this`flagZ
      ensures Valid() && w == Modified(SLO, v, old(regP.c))
      ensures View() == old(View()).(r := ApplyModify(SLO, v, w, old(View()).r))
    {
      hide And, Or, Xor, U8, U16, U32, Lo, Hi;
      regP := regP.(c := Bit7(v));
      w := U8(v * 2);
      AssignA(Or(regA, w));
    }

    method SloOp(pcInc: nat, get: GetFn, put: RmwFn, p1: byte, p2: word, ghost operand: word, ghost s: Cpu)
      requires Valid()
      requires Paired(get, put) && Ready(GetMode(get), pcInc, p2, operand, s)
      modifies this, ram
      ensures Valid()
      ensures View() == ExecModify(SLO, GetMode(get), p1, operand, s)
    {
      hide GetMode, ForRead, ForModify, Paired, EffectiveAddress, Operand, CrossesPage, ReadCycles, ModifyCycles, Length,
           RmwAddress, Modified, U8, U16, ApplyModify;
      var oldValue, addr := Get(get, p1, p2, operand, s);
      ghost var ea := Target(get, put, p1, p2, addr, operand, s);
      var newValue := Slo(oldValue);
      IncPc(pcInc);
      SetRmw(put, p1, p2, addr, oldValue, newValue, ea);
    }

    /** The result and the flags of RLA on `v`. */
    method Rla(v: byte) returns (w: byte)
      requires Valid()
      modifies this`regA, this`regP, this`flagN, this`flagZ
      ensures Valid() && w == Modified(RLA, v, old(regP.c))
      ensures View() == old(View()).(r := ApplyModify(RLA, v, w, old(View()).r))
    {
      hide And, Or, Xor, U8, U16, U32, Lo, Hi;
      var tmp := v * 2 + (if regP.c then 1 else 0);
      regP := regP.(c := Bit8(tmp));
      w := U8(tmp);
      AssignA(And(regA, w));
    }

    method RlaOp(pcInc: nat, get: GetFn, put: RmwFn, p1: byte, p2: word, ghost operand: word, ghost s: Cpu)
      requires Valid()
      requires Paired(get, put) && Ready(GetMode(get), pcInc, p2, operand, s)
      modifies this, ram
      ensures Valid()
      ensures View() == ExecModify(RLA, GetMode(get), p1, operand, s)
    {
      hide GetMode, ForRead, ForModify, Paired, EffectiveAddress, Operand, CrossesPage, ReadCycles, ModifyCycles, Length,
           RmwAddress, Modified, U8, U16, ApplyModify;
      var oldValue, addr := Get(get, p1, p2, operand, s);
      ghost var ea := Target(get, put, p1, p2, addr, operand, s);
      var newValue := Rla(oldValue);
      IncPc(pcInc);
      SetRmw(put, p1, p2, addr, oldValue, newValue, ea);
    }

    /** The result and the flags of SRE on `v`. */
    method Sre(v: byte) returns (w: byte)
      requires Valid()
      modifies this`regA, this`regP, this`flagN, this`flagZ
      ensures Valid() && w == Modified(SRE, v, old(regP.c))
      ensures View() == old(View()).(r := ApplyModify(SRE, v, w, old(View()).r))
    {
      hide And, Or, Xor, U8, U16, U32, Lo, Hi;
      regP := regP.(c := v % 2 == 1);
      w := v / 2;
      AssignA(Xor(regA, w));
    }

    method SreOp(pcInc: nat, get: GetFn, put: RmwFn, p1: byte, p2: word, ghost operand: word, ghost s: Cpu)
      requires Valid()
      requires Paired(get, put) && Ready(GetMode(get), pcInc, p2, operand, s)
      modifies this, ram
      ensures Valid()
      ensures View() == ExecModify(SRE, GetMode(get), p1, operand, s)
    {
      hide GetMode, ForRead, ForModify, Paired, EffectiveAddress, Operand, CrossesPage, ReadCycles, ModifyCycles, Length,
           RmwAddress, Modified, U8, U16, ApplyModify;
      var oldValue, addr := Get(get, p1, p2, operand, s);
      ghost var ea := Target(get, put, p1, p2, addr, operand, s);
      var newValue := Sre(oldValue);
      IncPc(pcInc);
      SetRmw(put, p1, p2, addr, oldValue, newValue, ea);
    }

    /** LOCAL_SET_CARRY by the bit rotated out. */
    method Rra(v: byte) returns (w: byte)
      requires Valid()
      modifies this`regP
      ensures Valid() && w == Modified(RRA, v, old(regP.c))
      ensures View() == old(View()).(r := SetC(old(View()).r, v % 2 == 1))
    {
      w := v / 2 + (if regP.c then 0x80 else 0);
      regP := regP.(c := v % 2 == 1);
    }

    method RraOp(pcInc: nat, get: GetFn, put: RmwFn, p1: byte, p2: word, ghost operand: word, ghost s: Cpu)
      requires Valid()
      requires Paired(get, put) && Ready(GetMode(get), pcInc, p2, operand, s)
      modifies this, ram
      ensures Valid()
      ensures View() == ExecModify(RRA, GetMode(get), p1, operand, s)
    {
      hide GetMode, ForRead, ForModify, Paired, EffectiveAddress, Operand, CrossesPage, ReadCycles, ModifyCycles, Length,
           RmwAddress, Modified, U8, U16, AddToA;
      var oldValue, addr := Get(get, p1, p2, operand, s);
      ghost var ea := Target(get, put, p1, p2, addr, operand, s);
      var newValue := Rra(oldValue);
      IncPc(pcInc);
      AdcTemp(newValue);
      SetRmw(put, p1, p2, addr, oldValue, newValue, ea);
    }

    method DcpOp(pcInc: nat, get: GetFn, put: RmwFn, p1: byte, p2: word, ghost operand: word, ghost s: Cpu)
      requires Valid()
      requires Paired(get, put) && Ready(GetMode(get), pcInc, p2, operand, s)
      modifies this, ram
      ensures Valid()
      ensures View() == ExecModify(DCP, GetMode(get), p1, operand, s)
    {
      hide GetMode, ForRead, ForModify, Paired, EffectiveAddress, Operand, CrossesPage, ReadCycles, ModifyCycles, Length,
           RmwAddress, U8, U16, CompareWith;
      var oldValue, addr := Get(get, p1, p2, operand, s);
      ghost var ea := Target(get, put, p1, p2, addr, operand, s);
      var v: int := oldValue;
      var newValue := U8(v - 1);
      CompareFlags(regA, newValue);
      IncPc(pcInc);
      SetRmw(put, p1, p2, addr, oldValue, newValue, ea);
    }

    method IsbOp(pcInc: nat, get: GetFn, put: RmwFn, p1: byte, p2: word, ghost operand: word, ghost s: Cpu)
      requires Valid()
      requires Paired(get, put) && Ready(GetMode(get), pcInc, p2, operand, s)
      modifies this, ram
      ensures Valid()
      ensures View() == ExecModify(ISB, GetMode(get), p1, operand, s)
    {
      hide GetMode, ForRead, ForModify, Paired, EffectiveAddress, Operand, CrossesPage, ReadCycles, ModifyCycles, Length,
           RmwAddress, U8, U16, SubtractFromA;
      var oldValue, addr := Get(get, p1, p2, operand, s);
      ghost var ea := Target(get, put, p1, p2, addr, operand, s);
      var v: int := oldValue;
      var newValue := U8(v + 1);
      SbcTemp(newValue);
      IncPc(pcInc);
      SetRmw(put, p1, p2, addr, oldValue, newValue, ea);
    }

    method AslA(ghost s: Cpu)
      requires Valid()
      requires View() == s.(clk := s.clk + 2)
      modifies this
      ensures Valid()
      ensures View() == ExecModifyA(ASL, s)
    {
      hide Bit7, U8, U16;
      regP := regP.(c := Bit7(regA));
      regA := U8(regA * 2);
      flagZ, flagN := regA, regA;
      IncPc(1);
    }

    method LsrA(ghost s: Cpu)
      requires Valid()
      requires View() == s.(clk := s.clk + 2)
      modifies this
      ensures Valid()
      ensures View() == ExecModifyA(LSR, s)
    {
      hide U16;
      regP := regP.(c := regA % 2 == 1);
      regA := regA / 2;
      flagZ, flagN := regA, regA;
      IncPc(1);
    }

    method RolA(ghost s: Cpu)
      requires Valid()
      requires View() == s.(clk := s.clk + 2)
      modifies this
      ensures Valid()
      ensures View() == ExecModifyA(ROL, s)
    {
      hide Bit8, U8, U16;
      var tmp: int := regA * 2;
      regA := U8(tmp + (if regP.c then 1 else 0));
      regP := regP.(c := Bit8(tmp));
      flagZ, flagN := regA, regA;
      IncPc(1);
    }

    /** `reg_p << 7` leaves only the carry in a byte. */
    method RorA(ghost s: Cpu)
      requires Valid()
      requires View() == s.(clk := s.clk + 2)
      modifies this
      ensures Valid()
      ensures View() == ExecModifyA(ROR, s)
    {
      hide U16;
      var tmp := regA;
      regA := tmp / 2 + (if regP.c then 0x80 else 0);
      regP := regP.(c := tmp % 2 == 1);
      flagZ, flagN := regA, regA;
      IncPc(1);
    }

    // ----- Opcodes: stores -----

    /** ST. */
    method StOp(op: WriteOp, value: byte, put: SetFn, pcInc: nat, p1: byte, p2: word, ghost operand: word, ghost s: Cpu)
      requires Valid()
      requires Ready(SetMode(put), pcInc, p2, operand, s) && value == Stored(op, s.r)
      modifies this, ram
      ensures Valid()
      ensures View() == ExecWrite(op, SetMode(put), p1, operand, s)
    {
      hide SetMode, WriteCycles, Stored, U8, U16;
      IncPc(pcInc);
      Set(put, value, p1, p2, operand);
    }

    /** SET_ABS_SH_I.  A steal signal is taken back and leaves the value unANDed. */
    method SetAbsShI(addr: word, regAnd: byte, regI: byte)
      requires Valid()
      modifies this`clk, this`opInfo, ram
      ensures Valid()
      ensures var s := old(View());
              var masked := And(regAnd, U8(addr / 0x100 + 1));
              var at := if Lo(addr) + regI > 0xff then Word(Lo(addr + regI), masked) else U16(addr + regI);
              View() == s.(clk := s.clk + 1, info := s.info.(enablesIrq := false),
                           mem := s.mem[at := if s.info.enablesIrq then regAnd else masked])
    {
      hide And, U8;
      var tmp3 := And(regAnd, U8(addr / 0x100 + 1));
      var value: byte := tmp3;
      if opInfo.enablesIrq {
        opInfo := opInfo.(enablesIrq := false);
        value := regAnd;
      }
      var tmp2: int := addr + regI;
      if Lo(addr) + regI > 0xff {
        tmp2 := Lo(tmp2) + 0x100 * (tmp3 as int);
      }
      hide U16;
      Store(tmp2, value);
      clk := clk + 1;
    }

    method ShaIndY(p1: byte, p2: word, ghost operand: word, ghost s: Cpu)
      requires Valid() && Ready(IndY, 2, p2, operand, s) && !opInfo.enablesIrq
      modifies this, ram
      ensures Valid()
      ensures View() == ExecHigh(SHA, IndY, p1, operand, s)
    {
      hide And, U8, U16, Lo, Hi, Word, ZpWord;
      var tmpa := IndYPointer(p1);
      IntAbsIW(tmpa, regY);
      SetAbsShI(tmpa, And(regA, regX), regY);
      IncPc(2);
    }

    method ShAbsI(op: HighOp, ghost m: Mode, regAnd: byte, regI: byte, p1: byte, p2: word, ghost operand: word, ghost s: Cpu)
      requires Valid() && m in {AbsX, AbsY} && Ready(m, 3, p2, operand, s) && !opInfo.enablesIrq
      requires op != SHS && regAnd == HighSource(op, s.r) && regI == HighIndex(m, s.r)
      modifies this, ram
      ensures Valid()
      ensures View() == ExecHigh(op, m, p1, operand, s)
    {
      hide And, U8, U16, Lo, Hi, Word;
      IntAbsIW(p2, regI);
      SetAbsShI(p2, regAnd, regI);
      IncPc(3);
    }

    method ShsAbsY(p1: byte, p2: word, ghost operand: word, ghost s: Cpu)
      requires Valid() && Ready(AbsY, 3, p2, operand, s) && !opInfo.enablesIrq
      modifies this, ram
      ensures Valid()
      ensures View() == ExecHigh(SHS, AbsY, p1, operand, s)
    {
      hide And, U8, U16, Lo, Hi, Word;
      ShAbsI(SHA, AbsY, And(regA, regX), regY, p1, p2, operand, s);
      regSp := And(regA, regX);
    }

    // ----- Opcodes: registers and flags -----

    /** CLC, SEC, CLV, CLD and SED. */
    method FlagOpcode(op: ImpliedOp, ghost s: Cpu)
      requires Valid() && op in {CLC, SEC, CLV, CLD, SED}
      requires View() == s.(clk := s.clk + 2)
      modifies this`regP, this`regPc
      ensures Valid()
      ensures View() == ExecImplied(op, s)
    {
      hide U16;
      IncPc(1);
      if op == CLV {
        regP := regP.(v := false);
      } else if op in {CLD, SED} {
        regP := regP.(d := op == SED);
      } else {
        regP := regP.(c := op == SEC);
      }
    }

    /** CLI and SEI, with their note for the interrupt logic. */
    method InterruptFlagOpcode(op: ImpliedOp, ghost s: Cpu)
      requires Valid() && op in {CLI, SEI}
      requires View() == s.(clk := s.clk + 2)
      modifies this`regP, this`regPc, this`opInfo
      ensures Valid()
      ensures View() == ExecImplied(op, s)
    {
      hide U16;
      IncPc(1);
      if op == CLI {
        if regP.i {
          opInfo := opInfo.(enablesIrq := true);
        }
        regP := regP.(i := false);
      } else {
        if !regP.i {
          opInfo := opInfo.(disablesIrq := true);
        }
        regP := regP.(i := true);
      }
    }

    /** The transfers to and from the accumulator. */
    method TransferOpcode(op: ImpliedOp, ghost s: Cpu)
      requires Valid() && op in {TAX, TXA, TAY, TYA}
      requires View() == s.(clk := s.clk + 2)
      modifies this`regA, this`regX, this`regY, this`flagN, this`flagZ, this`regPc
      ensures Valid()
      ensures View() == ExecImplied(op, s)
    {
      hide U16, U8;
      IncPc(1);
      match op
      case TAX => regX := regA; flagZ, flagN := regX, regX;
      case TXA => regA := regX; flagZ, flagN := regX, regX;
      case TAY => regY := regA; flagZ, flagN := regY, regY;
      case TYA => regA := regY; flagZ, flagN := regY, regY;
      case _ => assert false;
    }

    /** The transfers to and from the stack pointer. */
    method StackTransferOpcode(op: ImpliedOp, ghost s: Cpu)
      requires Valid() && op in {TSX, TXS}
      requires View() == s.(clk := s.clk + 2)
      modifies this`regX, this`regSp, this`flagN, this`flagZ, this`regPc
      ensures Valid()
      ensures View() == ExecImplied(op, s)
    {
      hide U16, U8;
      IncPc(1);
      if op == TSX {
        regX := regSp;
        flagZ, flagN := regSp, regSp;
      } else {
        regSp := regX;
      }
    }

    /** INX, DEX and NOP. */
    method CountOpcode(op: ImpliedOp, ghost s: Cpu)
      requires Valid() && op in {INX, DEX, NOP}
      requires View() == s.(clk := s.clk + 2)
      modifies this`regX, this`flagN, this`flagZ, this`regPc
      ensures Valid()
      ensures View() == ExecImplied(op, s)
    {
      hide U16, U8;
      IncPc(1);
      if op != NOP {
        regX := if op == INX then U8(regX + 1) else U8(regX - 1);
        flagZ, flagN := regX, regX;
      }
    }

    /** INY and DEY. */
    method CountYOpcode(op: ImpliedOp, ghost s: Cpu)
      requires Valid() && op in {INY, DEY}
      requires View() == s.(clk := s.clk + 2)
      modifies this`regY, this`flagN, this`flagZ, this`regPc
      ensures Valid()
      ensures View() == ExecImplied(op, s)
    {
      hide U16, U8;
      IncPc(1);
      regY := if op == INY then U8(regY + 1) else U8(regY - 1);
      flagZ, flagN := regY, regY;
    }

    // ----- Opcodes: control flow and stack -----

    method BranchOp(cond: bool, p1: byte, ghost t: Test, ghost s: Cpu)
      requires Valid() && cond == Holds(t, s.r.f)
      requires View() == s.(clk := s.clk + 2)
      modifies this
      ensures Valid()
      ensures View() == ExecBranch(t, p1, s)
    {
      hide Holds, U16, U32, Hi, Lo, Word;
      IncPc(2);
      if cond {
        var destAddr := U32(regPc + Signed(p1));
        BranchTarget(regPc, Signed(p1));
        var dummy := Load(regPc);
        clk := clk + 1;
        if Hi(regPc) != Hi(destAddr) {
          dummy := Load(Word(Lo(destAddr), Hi(regPc)));
          clk := clk + 1;
        } else {
          opInfo := opInfo.(delaysInterrupt := true);
        }
        Jump(U16(destAddr));
      }
    }

    method JmpIndOp(p2: word, ghost s: Cpu)
      requires Valid()
      requires View() == s.(clk := s.clk + 3)
      modifies this
      ensures Valid()
      ensures View() == ExecJmpInd(p2, s)
    {
      hide Lo, Hi, U8, U16, Word;
      var lo := Load(p2);
      clk := clk + 1;
      var hi := Load(Word(Lo(p2 + 1), Hi(p2)));
      clk := clk + 1;
      Jump(Word(lo, hi));
    }

    method JsrOp(p1: byte, ghost s: Cpu)
      requires Valid()
      requires View() == s.(clk := s.clk + 2)
      modifies this, ram
      ensures Valid()
      ensures View() == ExecJsr(p1, s)
    {
      hide U8, U16, Lo, Hi, Word;
      var dummy := StackPeek();
      clk := clk + 1;
      IncPc(2);
      HiLoOfU16(regPc);
      PushByte(Hi(regPc));
      clk := clk + 1;
      PushByte(Lo(regPc));
      clk := clk + 1;
      var addrMsb := Load(regPc);
      clk := clk + 1;
      Jump(Word(p1, addrMsb));
    }

    method RtsOp(ghost s: Cpu)
      requires Valid()
      requires View() == s.(clk := s.clk + 2)
      modifies this
      ensures Valid()
      ensures View() == ExecRts(s)
    {
      hide U16, U8, Word;
      var dummy := StackPeek();
      clk := clk + 1;
      U8Add(regSp + 1, 1);
      var lo := Pull();
      clk := clk + 1;
      var hi := Pull();
      clk := clk + 1;
      var tmp: int := Word(lo, hi);
      dummy := Load(tmp);
      clk := clk + 1;
      U16Add(tmp + 1, 0);
      Jump(U16(tmp + 1));
    }

    method RtiOp(ghost s: Cpu)
      requires Valid()
      requires View() == s.(clk := s.clk + 2)
      modifies this
      ensures Valid()
      ensures View() == ExecRti(s)
    {
      hide U16, U8, Word, FlagsOf;
      var dummy := StackPeek();
      clk := clk + 1;
      U8Add(regSp + 1, 1);
      U8Add(regSp + 1, 2);
      var status := Pull();
      clk := clk + 1;
      SetStatus(status);
      var lo, hi := PullAddress();
      Jump(Word(lo, hi));
    }

    /** Two bytes from the stack, a cycle each. */
    method PullAddress() returns (lo: byte, hi: byte)
      requires Valid()
      modifies this`regSp, this`clk
      ensures Valid()
      ensures var s := old(View());
              && View() == s.(r := s.r.(sp := U8(s.r.sp + 2)), clk := s.clk + 2) && lo == Pulled(s, 1) && hi == Pulled(s, 2)
    {
      hide U8;
      U8Add(regSp + 1, 1);
      lo := Pull();
      clk := clk + 1;
      hi := Pull();
      clk := clk + 1;
    }

    /** LOCAL_SET_STATUS. */
    method SetStatus(status: byte)
      requires Valid()
      modifies this`regP, this`flagN, this`flagZ
      ensures Valid()
      ensures var s := old(View()); View() == s.(r := s.r.(f := FlagsOf(status)))
    {
      SetStatusLoads(status);
      regP := StatusToP(status);
      flagZ := StatusToZ(status);
      flagN := status;
    }

    method BrkOp(nmi: bool, ghost s: Cpu)
      requires Valid()
      requires View() == s.(clk := s.clk + 2)
      modifies this, ram
      ensures Valid()
      ensures View() == EnterHandler(s, U16(s.pc + 2), true, nmi)
    {
      hide U16, U8, Hi, Lo, StatusByte, WordAt, PushFrame;
      IncPc(2);
      regP := regP.(b := true);
      DoIrqBrk(nmi);
    }

    /** Return address and status onto the stack, a cycle each. */
    method PushState()
      requires Valid()
      modifies this`regSp, this`clk, ram
      ensures Valid()
      ensures var s := old(View());
              View() == s.(r := s.r.(sp := U8(s.r.sp - 3)), mem := PushFrame(s.mem, s.r.sp, s.pc, StatusByte(s.r.f)), clk := s.clk + 3)
    {
      hide U8, U16, Hi, Lo, StatusByte;
      HiLoOfU16(regPc);
      U8Add(regSp - 1, -1);
      U8Add(regSp - 2, -1);
      PushByte(Hi(regPc));
      clk := clk + 1;
      PushByte(Lo(regPc));
      clk := clk + 1;
      PushByte(LocalStatus(regP, flagN, flagZ));
      clk := clk + 1;
    }

    /** The vector read at the end of every interrupt sequence. */
    method JumpThrough(vector: word)
      requires Valid() && vector in {0xfffa, 0xfffe}
      modifies this`regPc, this`bankStart, this`bankLimit, this`clk
      ensures Valid()
      ensures var s := old(View()); View() == s.(pc := WordAt(s.mem, vector), clk := s.clk + 2)
    {
      hide Word;
      var lo := Load(vector);
      clk := clk + 1;
      var hi := Load(vector + 1);
      clk := clk + 1;
      Jump(Word(lo, hi));
    }

    /** DO_IRQBRK, with the NMI take-over; alarms due are processed between the two parts. */
    method DoIrqBrk(nmi: bool)
      requires Valid()
      modifies this, ram
      ensures Valid()
      ensures var s := old(View()); View() == EnterHandler(s, s.pc, s.r.f.b, nmi).(clk := s.clk + 5)
    {
      hide U8, PushFrame, StatusByte, WordAt;
      var handlerVector := 0xfffe;
      PushState();
      if nmi {
        handlerVector := 0xfffa;
      }
      regP := regP.(i := true);
      JumpThrough(handlerVector);
    }

    method PhaOp(ghost s: Cpu)
      requires Valid()
      requires View() == s.(clk := s.clk + 2)
      modifies this, ram
      ensures Valid()
      ensures View() == ExecPush(s.r.a, s)
    {
      hide U16;
      PushByte(regA);
      clk := clk + 1;
      IncPc(1);
    }

    method PhpOp(ghost s: Cpu)
      requires Valid()
      requires View() == s.(clk := s.clk + 2)
      modifies this, ram
      ensures Valid()
      ensures View() == ExecPush(StatusByte(s.r.f.(b := true)), s)
    {
      hide U16, StatusByte;
      PushByte(LocalStatus(regP.(b := true), flagN, flagZ));
      clk := clk + 1;
      IncPc(1);
    }

    method PlaOp(ghost s: Cpu)
      requires Valid()
      requires View() == s.(clk := s.clk + 2)
      modifies this
      ensures Valid()
      ensures View() == ExecPla(s)
    {
      hide U16;
      var dummy := StackPeek();
      clk := clk + 1;
      regA := Pull();
      clk := clk + 1;
      flagZ, flagN := regA, regA;
      IncPc(1);
    }

    method PlpOp(ghost s: Cpu)
      requires Valid()
      requires View() == s.(clk := s.clk + 2)
      modifies this
      ensures Valid()
      ensures View() == ExecPlp(s)
    {
      hide U16;
      var dummy := StackPeek();
      clk := clk + 1;
      var status := Pull();
      clk := clk + 1;
      var newI := (status / 4) % 2 == 1;
      if !newI && regP.i {
        opInfo := opInfo.(enablesIrq := true);
      } else if newI && !regP.i {
        opInfo := opInfo.(disablesIrq := true);
      }
      SetStatus(status);
      IncPc(1);
    }

    /** The state after FETCH_OPCODE has read opcode `p0` at the start of an instruction in state `s`. */
    ghost predicate Fetched(p0: byte, p2: word, operand: word, s: Cpu)
      requires Valid()
      reads this, ram
    {
      && View() == s.(clk := s.clk + if FetchTab(p0) then 3 else 2)
      && (FetchTab(p0) ==> p2 == operand)
      && !opInfo.enablesIrq
    }

    // ----- The opcode switch -----

    method Opcodes00(p0: byte, p1: byte, p2: word, nmi: bool, ghost operand: word, ghost s: Cpu)
      requires Valid() && 0x00 <= p0 <= 0x07 && !Decode(p0).Jam?
      requires Fetched(p0, p2, operand, s)
      modifies this, ram
      ensures Valid()
      ensures View() == CycleExecute(p0, p1, operand, nmi, s)
    {
      hide Decode, ExecRead, ExecModify, ExecWrite, ExecHigh, ExecModifyA, ExecImplied, ExecBranch, ExecJmpInd,
           ExecJsr, ExecRts, ExecRti, ExecPush, ExecPla, ExecPlp, EnterHandler, StatusByte, And, U16;
      Row0Low();
      match p0
      case 0x00 => BrkOp(nmi, s);
      case 0x01 => OraOp(GET_IND_X, 2, p1, p2, operand, s);
      case 0x03 => SloOp(2, GET_IND_X, SET_IND_RMW, p1, p2, operand, s);
      case 0x04 => NoopOp(GET_ZERO, 2, p1, p2, operand, s);
      case 0x05 => OraOp(GET_ZERO, 2, p1, p2, operand, s);
      case 0x06 => AslOp(2, GET_ZERO, SET_ZERO_RMW, p1, p2, operand, s);
      case 0x07 => SloOp(2, GET_ZERO, SET_ZERO_RMW, p1, p2, operand, s);
      case _ => assert false;
    }

    method Opcodes08(p0: byte, p1: byte, p2: word, nmi: bool, ghost operand: word, ghost s: Cpu)
      requires Valid() && 0x08 <= p0 <= 0x0f && !Decode(p0).Jam?
      requires Fetched(p0, p2, operand, s)
      modifies this, ram
      ensures Valid()
      ensures View() == CycleExecute(p0, p1, operand, nmi, s)
    {
      hide Decode, ExecRead, ExecModify, ExecWrite, ExecHigh, ExecModifyA, ExecImplied, ExecBranch, ExecJmpInd,
           ExecJsr, ExecRts, ExecRti, ExecPush, ExecPla, ExecPlp, EnterHandler, StatusByte, And, U16;
      Row0High();
      match p0
      case 0x08 => PhpOp(s);
      case 0x09 => OraOp(GET_IMM, 2, p1, p2, operand, s);
      case 0x0a => AslA(s);
      case 0x0b => AncOp(p1, operand, s);
      case 0x0c => NoopOp(GET_ABS, 3, p1, p2, operand, s);
      case 0x0d => OraOp(GET_ABS, 3, p1, p2, operand, s);
      case 0x0e => AslOp(3, GET_ABS, SET_ABS_RMW, p1, p2, operand, s);
      case 0x0f => SloOp(3, GET_ABS, SET_ABS_RMW, p1, p2, operand, s);
      case _ => assert false;
    }

    method Opcodes10(p0: byte, p1: byte, p2: word, nmi: bool, ghost operand: word, ghost s: Cpu)
      requires Valid() && 0x10 <= p0 <= 0x17 && !Decode(p0).Jam?
      requires Fetched(p0, p2, operand, s)
      modifies this, ram
      ensures Valid()
      ensures View() == CycleExecute(p0, p1, operand, nmi, s)
    {
      hide Decode, ExecRead, ExecModify, ExecWrite, ExecHigh, ExecModifyA, ExecImplied, ExecBranch, ExecJmpInd,
           ExecJsr, ExecRts, ExecRti, ExecPush, ExecPla, ExecPlp, EnterHandler, StatusByte, And, U16;
      Row1Low();
      match p0
      case 0x10 => BranchOp(flagN < 0x80, p1, PL, s);
      case 0x11 => OraOp(GET_IND_Y, 2, p1, p2, operand, s);
      case 0x13 => SloOp(2, GET_IND_Y_RMW, SET_IND_RMW, p1, p2, operand, s);
      case 0x14 => NoopOp(GET_ZERO_X, 2, p1, p2, operand, s);
      case 0x15 => OraOp(GET_ZERO_X, 2, p1, p2, operand, s);
      case 0x16 => AslOp(2, GET_ZERO_X, SET_ZERO_X_RMW, p1, p2, operand, s);
      case 0x17 => SloOp(2, GET_ZERO_X, SET_ZERO_X_RMW, p1, p2, operand, s);
      case _ => assert false;
    }

    method Opcodes18(p0: byte, p1: byte, p2: word, nmi: bool, ghost operand: word, ghost s: Cpu)
      requires Valid() && 0x18 <= p0 <= 0x1f && !Decode(p0).Jam?
      requires Fetched(p0, p2, operand, s)
      modifies this, ram
      ensures Valid()
      ensures View() == CycleExecute(p0, p1, operand, nmi, s)
    {
      hide Decode, ExecRead, ExecModify, ExecWrite, ExecHigh, ExecModifyA, ExecImplied, ExecBranch, ExecJmpInd,
           ExecJsr, ExecRts, ExecRti, ExecPush, ExecPla, ExecPlp, EnterHandler, StatusByte, And, U16;
      Row1High();
      match p0
      case 0x18 => FlagOpcode(CLC, s);
      case 0x19 => OraOp(GET_ABS_Y, 3, p1, p2, operand, s);
      case 0x1a => CountOpcode(NOP, s);
      case 0x1b => SloOp(3, GET_ABS_Y_RMW, SET_ABS_Y_RMW, p1, p2, operand, s);
      case 0x1c => NoopOp(GET_ABS_X, 3, p1, p2, operand, s);
      case 0x1d => OraOp(GET_ABS_X, 3, p1, p2, operand, s);
      case 0x1e => AslOp(3, GET_ABS_X_RMW, SET_ABS_X_RMW, p1, p2, operand, s);
      case 0x1f => SloOp(3, GET_ABS_X_RMW, SET_ABS_X_RMW, p1, p2, operand, s);
      case _ => assert false;
    }

    method Opcodes20(p0: byte, p1: byte, p2: word, nmi: bool, ghost operand: word, ghost s: Cpu)
      requires Valid() && 0x20 <= p0 <= 0x27 && !Decode(p0).Jam?
      requires Fetched(p0, p2, operand, s)
      modifies this, ram
      ensures Valid()
      ensures View() == CycleExecute(p0, p1, operand, nmi, s)
    {
      hide Decode, ExecRead, ExecModify, ExecWrite, ExecHigh, ExecModifyA, ExecImplied, ExecBranch, ExecJmpInd,
           ExecJsr, ExecRts, ExecRti, ExecPush, ExecPla, ExecPlp, EnterHandler, StatusByte, And, U16;
      Row2Low();
      match p0
      case 0x20 => JsrOp(p1, s);
      case 0x21 => AndOp(GET_IND_X, 2, p1, p2, operand, s);
      case 0x23 => RlaOp(2, GET_IND_X, SET_IND_RMW, p1, p2, operand, s);
      case 0x24 => BitOp(GET_ZERO, 2, p1, p2, operand, s);
      case 0x25 => AndOp(GET_ZERO, 2, p1, p2, operand, s);
      case 0x26 => RolOp(2, GET_ZERO, SET_ZERO_RMW, p1, p2, operand, s);
      case 0x27 => RlaOp(2, GET_ZERO, SET_ZERO_RMW, p1, p2, operand, s);
      case _ => assert false;
    }

    method Opcodes28(p0: byte, p1: byte, p2: word, nmi: bool, ghost operand: word, ghost s: Cpu)
      requires Valid() && 0x28 <= p0 <= 0x2f && !Decode(p0).Jam?
      requires Fetched(p0, p2, operand, s)
      modifies this, ram
      ensures Valid()
      ensures View() == CycleExecute(p0, p1, operand, nmi, s)
    {
      hide Decode, ExecRead, ExecModify, ExecWrite, ExecHigh, ExecModifyA, ExecImplied, ExecBranch, ExecJmpInd,
           ExecJsr, ExecRts, ExecRti, ExecPush, ExecPla, ExecPlp, EnterHandler, StatusByte, And, U16;
      Row2High();
      match p0
      case 0x28 => PlpOp(s);
      case 0x29 => AndOp(GET_IMM, 2, p1, p2, operand, s);
      case 0x2a => RolA(s);
      case 0x2b => AncOp(p1, operand, s);
      case 0x2c => BitOp(GET_ABS, 3, p1, p2, operand, s);
      case 0x2d => AndOp(GET_ABS, 3, p1, p2, operand, s);
      case 0x2e => RolOp(3, GET_ABS, SET_ABS_RMW, p1, p2, operand, s);
      case 0x2f => RlaOp(3, GET_ABS, SET_ABS_RMW, p1, p2, operand, s);
      case _ => assert false;
    }

    method Opcodes30(p0: byte, p1: byte, p2: word, nmi: bool, ghost operand: word, ghost s: Cpu)
      requires Valid() && 0x30 <= p0 <= 0x37 && !Decode(p0).Jam?
      requires Fetched(p0, p2, operand, s)
      modifies this, ram
      ensures Valid()
      ensures View() == CycleExecute(p0, p1, operand, nmi, s)
    {
      hide Decode, ExecRead, ExecModify, ExecWrite, ExecHigh, ExecModifyA, ExecImplied, ExecBranch, ExecJmpInd,
           ExecJsr, ExecRts, ExecRti, ExecPush, ExecPla, ExecPlp, EnterHandler, StatusByte, And, U16;
      Row3Low();
      match p0
      case 0x30 => BranchOp(flagN >= 0x80, p1, MI, s);
      case 0x31 => AndOp(GET_IND_Y, 2, p1, p2, operand, s);
      case 0x33 => RlaOp(2, GET_IND_Y_RMW, SET_IND_RMW, p1, p2, operand, s);
      case 0x34 => NoopOp(GET_ZERO_X, 2, p1, p2, operand, s);
      case 0x35 => AndOp(GET_ZERO_X, 2, p1, p2, operand, s);
      case 0x36 => RolOp(2, GET_ZERO_X, SET_ZERO_X_RMW, p1, p2, operand, s);
      case 0x37 => RlaOp(2, GET_ZERO_X, SET_ZERO_X_RMW, p1, p2, operand, s);
      case _ => assert false;
    }

    method Opcodes38(p0: byte, p1: byte, p2: word, nmi: bool, ghost operand: word, ghost s: Cpu)
      requires Valid() && 0x38 <= p0 <= 0x3f && !Decode(p0).Jam?
      requires Fetched(p0, p2, operand, s)
      modifies this, ram
      ensures Valid()
      ensures View() == CycleExecute(p0, p1, operand, nmi, s)
    {
      hide Decode, ExecRead, ExecModify, ExecWrite, ExecHigh, ExecModifyA, ExecImplied, ExecBranch, ExecJmpInd,
           ExecJsr, ExecRts, ExecRti, ExecPush, ExecPla, ExecPlp, EnterHandler, StatusByte, And, U16;
      Row3High();
      match p0
      case 0x38 => FlagOpcode(SEC, s);
      case 0x39 => AndOp(GET_ABS_Y, 3, p1, p2, operand, s);
      case 0x3a => CountOpcode(NOP, s);
      case 0x3b => RlaOp(3, GET_ABS_Y_RMW, SET_ABS_Y_RMW, p1, p2, operand, s);
      case 0x3c => NoopOp(GET_ABS_X, 3, p1, p2, operand, s);
      case 0x3d => AndOp(GET_ABS_X, 3, p1, p2, operand, s);
      case 0x3e => RolOp(3, GET_ABS_X_RMW, SET_ABS_X_RMW, p1, p2, operand, s);
      case 0x3f => RlaOp(3, GET_ABS_X_RMW, SET_ABS_X_RMW, p1, p2, operand, s);
      case _ => assert false;
    }

    method Opcodes40(p0: byte, p1: byte, p2: word, nmi: bool, ghost operand: word, ghost s: Cpu)
      requires Valid() && 0x40 <= p0 <= 0x47 && !Decode(p0).Jam?
      requires Fetched(p0, p2, operand, s)
      modifies this, ram
      ensures Valid()
      ensures View() == CycleExecute(p0, p1, operand, nmi, s)
    {
      hide Decode, ExecRead, ExecModify, ExecWrite, ExecHigh, ExecModifyA, ExecImplied, ExecBranch, ExecJmpInd,
           ExecJsr, ExecRts, ExecRti, ExecPush, ExecPla, ExecPlp, EnterHandler, StatusByte, And, U16;
      Row4Low();
      match p0
      case 0x40 => RtiOp(s);
      case 0x41 => EorOp(GET_IND_X, 2, p1, p2, operand, s);
      case 0x43 => SreOp(2, GET_IND_X, SET_IND_RMW, p1, p2, operand, s);
      case 0x44 => NoopOp(GET_ZERO, 2, p1, p2, operand, s);
      case 0x45 => EorOp(GET_ZERO, 2, p1, p2, operand, s);
      case 0x46 => LsrOp(2, GET_ZERO, SET_ZERO_RMW, p1, p2, operand, s);
      case 0x47 => SreOp(2, GET_ZERO, SET_ZERO_RMW, p1, p2, operand, s);
      case _ => assert false;
    }

    method Opcodes48(p0: byte, p1: byte, p2: word, nmi: bool, ghost operand: word, ghost s: Cpu)
      requires Valid() && 0x48 <= p0 <= 0x4f && !Decode(p0).Jam?
      requires Fetched(p0, p2, operand, s)
      modifies this, ram
      ensures Valid()
      ensures View() == CycleExecute(p0, p1, operand, nmi, s)
    {
      hide Decode, ExecRead, ExecModify, ExecWrite, ExecHigh, ExecModifyA, ExecImplied, ExecBranch, ExecJmpInd,
           ExecJsr, ExecRts, ExecRti, ExecPush, ExecPla, ExecPlp, EnterHandler, StatusByte, And, U16;
      Row4High();
      match p0
      case 0x48 => PhaOp(s);
      case 0x49 => EorOp(GET_IMM, 2, p1, p2, operand, s);
      case 0x4a => LsrA(s);
      case 0x4b => AsrOp(p1, operand, s);
      case 0x4c => Jump(p2);
      case 0x4d => EorOp(GET_ABS, 3, p1, p2, operand, s);
      case 0x4e => LsrOp(3, GET_ABS, SET_ABS_RMW, p1, p2, operand, s);
      case 0x4f => SreOp(3, GET_ABS, SET_ABS_RMW, p1, p2, operand, s);
      case _ => assert false;
    }

    method Opcodes50(p0: byte, p1: byte, p2: word, nmi: bool, ghost operand: word, ghost s: Cpu)
      requires Valid() && 0x50 <= p0 <= 0x57 && !Decode(p0).Jam?
      requires Fetched(p0, p2, operand, s)
      modifies this, ram
      ensures Valid()
      ensures View() == CycleExecute(p0, p1, operand, nmi, s)
    {
      hide Decode, ExecRead, ExecModify, ExecWrite, ExecHigh, ExecModifyA, ExecImplied, ExecBranch, ExecJmpInd,
           ExecJsr, ExecRts, ExecRti, ExecPush, ExecPla, ExecPlp, EnterHandler, StatusByte, And, U16;
      Row5Low();
      match p0
      case 0x50 => BranchOp(!regP.v, p1, VC, s);
      case 0x51 => EorOp(GET_IND_Y, 2, p1, p2, operand, s);
      case 0x53 => SreOp(2, GET_IND_Y_RMW, SET_IND_RMW, p1, p2, operand, s);
      case 0x54 => NoopOp(GET_ZERO_X, 2, p1, p2, operand, s);
      case 0x55 => EorOp(GET_ZERO_X, 2, p1, p2, operand, s);
      case 0x56 => LsrOp(2, GET_ZERO_X, SET_ZERO_X_RMW, p1, p2, operand, s);
      case 0x57 => SreOp(2, GET_ZERO_X, SET_ZERO_X_RMW, p1, p2, operand, s);
      case _ => assert false;
    }

    method Opcodes58(p0: byte, p1: byte, p2: word, nmi: bool, ghost operand: word, ghost s: Cpu)
      requires Valid() && 0x58 <= p0 <= 0x5f && !Decode(p0).Jam?
      requires Fetched(p0, p2, operand, s)
      modifies this, ram
      ensures Valid()
      ensures View() == CycleExecute(p0, p1, operand, nmi, s)
    {
      hide Decode, ExecRead, ExecModify, ExecWrite, ExecHigh, ExecModifyA, ExecImplied, ExecBranch, ExecJmpInd,
           ExecJsr, ExecRts, ExecRti, ExecPush, ExecPla, ExecPlp, EnterHandler, StatusByte, And, U16;
      Row5High();
      match p0
      case 0x58 => InterruptFlagOpcode(CLI, s);
      case 0x59 => EorOp(GET_ABS_Y, 3, p1, p2, operand, s);
      case 0x5a => CountOpcode(NOP, s);
      case 0x5b => SreOp(3, GET_ABS_Y_RMW, SET_ABS_Y_RMW, p1, p2, operand, s);
      case 0x5c => NoopOp(GET_ABS_X, 3, p1, p2, operand, s);
      case 0x5d => EorOp(GET_ABS_X, 3, p1, p2, operand, s);
      case 0x5e => LsrOp(3, GET_ABS_X_RMW, SET_ABS_X_RMW, p1, p2, operand, s);
      case 0x5f => SreOp(3, GET_ABS_X_RMW, SET_ABS_X_RMW, p1, p2, operand, s);
      case _ => assert false;
    }

    method Opcodes60(p0: byte, p1: byte, p2: word, nmi: bool, ghost operand: word, ghost s: Cpu)
      requires Valid() && 0x60 <= p0 <= 0x67 && !Decode(p0).Jam?
      requires Fetched(p0, p2, operand, s)
      modifies this, ram
      ensures Valid()
      ensures View() == CycleExecute(p0, p1, operand, nmi, s)
    {
      hide Decode, ExecRead, ExecModify, ExecWrite, ExecHigh, ExecModifyA, ExecImplied, ExecBranch, ExecJmpInd,
           ExecJsr, ExecRts, ExecRti, ExecPush, ExecPla, ExecPlp, EnterHandler, StatusByte, And, U16;
      Row6Low();
      match p0
      case 0x60 => RtsOp(s);
      case 0x61 => AdcOp(GET_IND_X, 2, p1, p2, operand, s);
      case 0x63 => RraOp(2, GET_IND_X, SET_IND_RMW, p1, p2, operand, s);
      case 0x64 => NoopOp(GET_ZERO, 2, p1, p2, operand, s);
      case 0x65 => AdcOp(GET_ZERO, 2, p1, p2, operand, s);
      case 0x66 => RorOp(2, GET_ZERO, SET_ZERO_RMW, p1, p2, operand, s);
      case 0x67 => RraOp(2, GET_ZERO, SET_ZERO_RMW, p1, p2, operand, s);
      case _ => assert false;
    }

    method Opcodes68(p0: byte, p1: byte, p2: word, nmi: bool, ghost operand: word, ghost s: Cpu)
      requires Valid() && 0x68 <= p0 <= 0x6f && !Decode(p0).Jam?
      requires Fetched(p0, p2, operand, s)
      modifies this, ram
      ensures Valid()
      ensures View() == CycleExecute(p0, p1, operand, nmi, s)
    {
      hide Decode, ExecRead, ExecModify, ExecWrite, ExecHigh, ExecModifyA, ExecImplied, ExecBranch, ExecJmpInd,
           ExecJsr, ExecRts, ExecRti, ExecPush, ExecPla, ExecPlp, EnterHandler, StatusByte, And, U16;
      Row6High();
      match p0
      case 0x68 => PlaOp(s);
      case 0x69 => AdcOp(GET_IMM, 2, p1, p2, operand, s);
      case 0x6a => RorA(s);
      case 0x6b => ArrOp(p1, operand, s);
      case 0x6c => JmpIndOp(p2, s);
      case 0x6d => AdcOp(GET_ABS, 3, p1, p2, operand, s);
      case 0x6e => RorOp(3, GET_ABS, SET_ABS_RMW, p1, p2, operand, s);
      case 0x6f => RraOp(3, GET_ABS, SET_ABS_RMW, p1, p2, operand, s);
      case _ => assert false;
    }

    method Opcodes70(p0: byte, p1: byte, p2: word, nmi: bool, ghost operand: word, ghost s: Cpu)
      requires Valid() && 0x70 <= p0 <= 0x77 && !Decode(p0).Jam?
      requires Fetched(p0, p2, operand, s)
      modifies this, ram
      ensures Valid()
      ensures View() == CycleExecute(p0, p1, operand, nmi, s)
    {
      hide Decode, ExecRead, ExecModify, ExecWrite, ExecHigh, ExecModifyA, ExecImplied, ExecBranch, ExecJmpInd,
           ExecJsr, ExecRts, ExecRti, ExecPush, ExecPla, ExecPlp, EnterHandler, StatusByte, And, U16;
      Row7Low();
      match p0
      case 0x70 => BranchOp(regP.v, p1, VS, s);
      case 0x71 => AdcOp(GET_IND_Y, 2, p1, p2, operand, s);
      case 0x73 => RraOp(2, GET_IND_Y_RMW, SET_IND_RMW, p1, p2, operand, s);
      case 0x74 => NoopOp(GET_ZERO_X, 2, p1, p2, operand, s);
      case 0x75 => AdcOp(GET_ZERO_X, 2, p1, p2, operand, s);
      case 0x76 => RorOp(2, GET_ZERO_X, SET_ZERO_X_RMW, p1, p2, operand, s);
      case 0x77 => RraOp(2, GET_ZERO_X, SET_ZERO_X_RMW, p1, p2, operand, s);
      case _ => assert false;
    }

    method Opcodes78(p0: byte, p1: byte, p2: word, nmi: bool, ghost operand: word, ghost s: Cpu)
      requires Valid() && 0x78 <= p0 <= 0x7f && !Decode(p0).Jam?
      requires Fetched(p0, p2, operand, s)
      modifies this, ram
      ensures Valid()
      ensures View() == CycleExecute(p0, p1, operand, nmi, s)
    {
      hide Decode, ExecRead, ExecModify, ExecWrite, ExecHigh, ExecModifyA, ExecImplied, ExecBranch, ExecJmpInd,
           ExecJsr, ExecRts, ExecRti, ExecPush, ExecPla, ExecPlp, EnterHandler, StatusByte, And, U16;
      Row7High();
      match p0
      case 0x78 => InterruptFlagOpcode(SEI, s);
      case 0x79 => AdcOp(GET_ABS_Y, 3, p1, p2, operand, s);
      case 0x7a => CountOpcode(NOP, s);
      case 0x7b => RraOp(3, GET_ABS_Y_RMW, SET_ABS_Y_RMW, p1, p2, operand, s);
      case 0x7c => NoopOp(GET_ABS_X, 3, p1, p2, operand, s);
      case 0x7d => AdcOp(GET_ABS_X, 3, p1, p2, operand, s);
      case 0x7e => RorOp(3, GET_ABS_X_RMW, SET_ABS_X_RMW, p1, p2, operand, s);
      case 0x7f => RraOp(3, GET_ABS_X_RMW, SET_ABS_X_RMW, p1, p2, operand, s);
      case _ => assert false;
    }

    method Opcodes80(p0: byte, p1: byte, p2: word, nmi: bool, ghost operand: word, ghost s: Cpu)
      requires Valid() && 0x80 <= p0 <= 0x87 && !Decode(p0).Jam?
      requires Fetched(p0, p2, operand, s)
      modifies this, ram
      ensures Valid()
      ensures View() == CycleExecute(p0, p1, operand, nmi, s)
    {
      hide Decode, ExecRead, ExecModify, ExecWrite, ExecHigh, ExecModifyA, ExecImplied, ExecBranch, ExecJmpInd,
           ExecJsr, ExecRts, ExecRti, ExecPush, ExecPla, ExecPlp, EnterHandler, StatusByte, And, U16;
      Row8Low();
      match p0
      case 0x80 => NoopOp(GET_IMM, 2, p1, p2, operand, s);
      case 0x81 => StOp(STA, regA, SET_IND_X, 2, p1, p2, operand, s);
      case 0x82 => NoopOp(GET_IMM, 2, p1, p2, operand, s);
      case 0x83 => StOp(SAX, And(regA, regX), SET_IND_X, 2, p1, p2, operand, s);
      case 0x84 => StOp(STY, regY, SET_ZERO, 2, p1, p2, operand, s);
      case 0x85 => StOp(STA, regA, SET_ZERO, 2, p1, p2, operand, s);
      case 0x86 => StOp(STX, regX, SET_ZERO, 2, p1, p2, operand, s);
      case 0x87 => StOp(SAX, And(regA, regX), SET_ZERO, 2, p1, p2, operand, s);
      case _ => assert false;
    }

    method Opcodes88(p0: byte, p1: byte, p2: word, nmi: bool, ghost operand: word, ghost s: Cpu)
      requires Valid() && 0x88 <= p0 <= 0x8f && !Decode(p0).Jam?
      requires Fetched(p0, p2, operand, s)
      modifies this, ram
      ensures Valid()
      ensures View() == CycleExecute(p0, p1, operand, nmi, s)
    {
      hide Decode, ExecRead, ExecModify, ExecWrite, ExecHigh, ExecModifyA, ExecImplied, ExecBranch, ExecJmpInd,
           ExecJsr, ExecRts, ExecRti, ExecPush, ExecPla, ExecPlp, EnterHandler, StatusByte, And, U16;
      Row8High();
      match p0
      case 0x88 => CountYOpcode(DEY, s);
      case 0x89 => NoopOp(GET_IMM, 2, p1, p2, operand, s);
      case 0x8a => TransferOpcode(TXA, s);
      case 0x8b => AneOp(p1, operand, s);
      case 0x8c => StOp(STY, regY, SET_ABS, 3, p1, p2, operand, s);
      case 0x8d => StOp(STA, regA, SET_ABS, 3, p1, p2, operand, s);
      case 0x8e => StOp(STX, regX, SET_ABS, 3, p1, p2, operand, s);
      case 0x8f => StOp(SAX, And(regA, regX), SET_ABS, 3, p1, p2, operand, s);
      case _ => assert false;
    }

    method Opcodes90(p0: byte, p1: byte, p2: word, nmi: bool, ghost operand: word, ghost s: Cpu)
      requires Valid() && 0x90 <= p0 <= 0x97 && !Decode(p0).Jam?
      requires Fetched(p0, p2, operand, s)
      modifies this, ram
      ensures Valid()
      ensures View() == CycleExecute(p0, p1, operand, nmi, s)
    {
      hide Decode, ExecRead, ExecModify, ExecWrite, ExecHigh, ExecModifyA, ExecImplied, ExecBranch, ExecJmpInd,
           ExecJsr, ExecRts, ExecRti, ExecPush, ExecPla, ExecPlp, EnterHandler, StatusByte, And, U16;
      Row9Low();
      match p0
      case 0x90 => BranchOp(!regP.c, p1, CC, s);
      case 0x91 => StOp(STA, regA, SET_IND_Y, 2, p1, p2, operand, s);
      case 0x93 => ShaIndY(p1, p2, operand, s);
      case 0x94 => StOp(STY, regY, SET_ZERO_X, 2, p1, p2, operand, s);
      case 0x95 => StOp(STA, regA, SET_ZERO_X, 2, p1, p2, operand, s);
      case 0x96 => StOp(STX, regX, SET_ZERO_Y, 2, p1, p2, operand, s);
      case 0x97 => StOp(SAX, And(regA, regX), SET_ZERO_Y, 2, p1, p2, operand, s);
      case _ => assert false;
    }

    method Opcodes98(p0: byte, p1: byte, p2: word, nmi: bool, ghost operand: word, ghost s: Cpu)
      requires Valid() && 0x98 <= p0 <= 0x9f && !Decode(p0).Jam?
      requires Fetched(p0, p2, operand, s)
      modifies this, ram
      ensures Valid()
      ensures View() == CycleExecute(p0, p1, operand, nmi, s)
    {
      hide Decode, ExecRead, ExecModify, ExecWrite, ExecHigh, ExecModifyA, ExecImplied, ExecBranch, ExecJmpInd,
           ExecJsr, ExecRts, ExecRti, ExecPush, ExecPla, ExecPlp, EnterHandler, StatusByte, And, U16;
      Row9High();
      match p0
      case 0x98 => TransferOpcode(TYA, s);
      case 0x99 => StOp(STA, regA, SET_ABS_Y, 3, p1, p2, operand, s);
      case 0x9a => StackTransferOpcode(TXS, s);
      case 0x9b => ShsAbsY(p1, p2, operand, s);
      case 0x9c => ShAbsI(SHY, AbsX, regY, regX, p1, p2, operand, s);
      case 0x9d => StOp(STA, regA, SET_ABS_X, 3, p1, p2, operand, s);
      case 0x9e => ShAbsI(SHX, AbsY, regX, regY, p1, p2, operand, s);
      case 0x9f => ShAbsI(SHA, AbsY, And(regA, regX), regY, p1, p2, operand, s);
      case _ => assert false;
    }

    method OpcodesA0(p0: byte, p1: byte, p2: word, nmi: bool, ghost operand: word, ghost s: Cpu)
      requires Valid() && 0xa0 <= p0 <= 0xa7 && !Decode(p0).Jam?
      requires Fetched(p0, p2, operand, s)
      modifies this, ram
      ensures Valid()
      ensures View() == CycleExecute(p0, p1, operand, nmi, s)
    {
      hide Decode, ExecRead, ExecModify, ExecWrite, ExecHigh, ExecModifyA, ExecImplied, ExecBranch, ExecJmpInd,
           ExecJsr, ExecRts, ExecRti, ExecPush, ExecPla, ExecPlp, EnterHandler, StatusByte, And, U16;
      RowALow();
      match p0
      case 0xa0 => LdyOp(GET_IMM, 2, p1, p2, operand, s);
      case 0xa1 => LdaOp(GET_IND_X, 2, p1, p2, operand, s);
      case 0xa2 => LdxOp(GET_IMM, 2, p1, p2, operand, s);
      case 0xa3 => LaxOp(GET_IND_X, 2, p1, p2, operand, s);
      case 0xa4 => LdyOp(GET_ZERO, 2, p1, p2, operand, s);
      case 0xa5 => LdaOp(GET_ZERO, 2, p1, p2, operand, s);
      case 0xa6 => LdxOp(GET_ZERO, 2, p1, p2, operand, s);
      case 0xa7 => LaxOp(GET_ZERO, 2, p1, p2, operand, s);
      case _ => assert false;
    }

    method OpcodesA8(p0: byte, p1: byte, p2: word, nmi: bool, ghost operand: word, ghost s: Cpu)
      requires Valid() && 0xa8 <= p0 <= 0xaf && !Decode(p0).Jam?
      requires Fetched(p0, p2, operand, s)
      modifies this, ram
      ensures Valid()
      ensures View() == CycleExecute(p0, p1, operand, nmi, s)
    {
      hide Decode, ExecRead, ExecModify, ExecWrite, ExecHigh, ExecModifyA, ExecImplied, ExecBranch, ExecJmpInd,
           ExecJsr, ExecRts, ExecRti, ExecPush, ExecPla, ExecPlp, EnterHandler, StatusByte, And, U16;
      RowAHigh();
      match p0
      case 0xa8 => TransferOpcode(TAY, s);
      case 0xa9 => LdaOp(GET_IMM, 2, p1, p2, operand, s);
      case 0xaa => TransferOpcode(TAX, s);
      case 0xab => LxaOp(p1, operand, s);
      case 0xac => LdyOp(GET_ABS, 3, p1, p2, operand, s);
      case 0xad => LdaOp(GET_ABS, 3, p1, p2, operand, s);
      case 0xae => LdxOp(GET_ABS, 3, p1, p2, operand, s);
      case 0xaf => LaxOp(GET_ABS, 3, p1, p2, operand, s);
      case _ => assert false;
    }

    method OpcodesB0(p0: byte, p1: byte, p2: word, nmi: bool, ghost operand: word, ghost s: Cpu)
      requires Valid() && 0xb0 <= p0 <= 0xb7 && !Decode(p0).Jam?
      requires Fetched(p0, p2, operand, s)
      modifies this, ram
      ensures Valid()
      ensures View() == CycleExecute(p0, p1, operand, nmi, s)
    {
      hide Decode, ExecRead, ExecModify, ExecWrite, ExecHigh, ExecModifyA, ExecImplied, ExecBranch, ExecJmpInd,
           ExecJsr, ExecRts, ExecRti, ExecPush, ExecPla, ExecPlp, EnterHandler, StatusByte, And, U16;
      RowBLow();
      match p0
      case 0xb0 => BranchOp(regP.c, p1, CS, s);
      case 0xb1 => LdaOp(GET_IND_Y, 2, p1, p2, operand, s);
      case 0xb3 => LaxOp(GET_IND_Y, 2, p1, p2, operand, s);
      case 0xb4 => LdyOp(GET_ZERO_X, 2, p1, p2, operand, s);
      case 0xb5 => LdaOp(GET_ZERO_X, 2, p1, p2, operand, s);
      case 0xb6 => LdxOp(GET_ZERO_Y, 2, p1, p2, operand, s);
      case 0xb7 => LaxOp(GET_ZERO_Y, 2, p1, p2, operand, s);
      case _ => assert false;
    }

    method OpcodesB8(p0: byte, p1: byte, p2: word, nmi: bool, ghost operand: word, ghost s: Cpu)
      requires Valid() && 0xb8 <= p0 <= 0xbf && !Decode(p0).Jam?
      requires Fetched(p0, p2, operand, s)
      modifies this, ram
      ensures Valid()
      ensures View() == CycleExecute(p0, p1, operand, nmi, s)
    {
      hide Decode, ExecRead, ExecModify, ExecWrite, ExecHigh, ExecModifyA, ExecImplied, ExecBranch, ExecJmpInd,
           ExecJsr, ExecRts, ExecRti, ExecPush, ExecPla, ExecPlp, EnterHandler, StatusByte, And, U16;
      RowBHigh();
      match p0
      case 0xb8 => FlagOpcode(CLV, s);
      case 0xb9 => LdaOp(GET_ABS_Y, 3, p1, p2, operand, s);
      case 0xba => StackTransferOpcode(TSX, s);
      case 0xbb => LasOp(p1, p2, operand, s);
      case 0xbc => LdyOp(GET_ABS_X, 3, p1, p2, operand, s);
      case 0xbd => LdaOp(GET_ABS_X, 3, p1, p2, operand, s);
      case 0xbe => LdxOp(GET_ABS_Y, 3, p1, p2, operand, s);
      case 0xbf => LaxOp(GET_ABS_Y, 3, p1, p2, operand, s);
      case _ => assert false;
    }

    method OpcodesC0(p0: byte, p1: byte, p2: word, nmi: bool, ghost operand: word, ghost s: Cpu)
      requires Valid() && 0xc0 <= p0 <= 0xc7 && !Decode(p0).Jam?
      requires Fetched(p0, p2, operand, s)
      modifies this, ram
      ensures Valid()
      ensures View() == CycleExecute(p0, p1, operand, nmi, s)
    {
      hide Decode, ExecRead, ExecModify, ExecWrite, ExecHigh, ExecModifyA, ExecImplied, ExecBranch, ExecJmpInd,
           ExecJsr, ExecRts, ExecRti, ExecPush, ExecPla, ExecPlp, EnterHandler, StatusByte, And, U16;
      RowCLow();
      match p0
      case 0xc0 => CpOp(CPY, regY, GET_IMM, 2, p1, p2, operand, s);
      case 0xc1 => CpOp(CMP, regA, GET_IND_X, 2, p1, p2, operand, s);
      case 0xc2 => NoopOp(GET_IMM, 2, p1, p2, operand, s);
      case 0xc3 => DcpOp(2, GET_IND_X, SET_IND_RMW, p1, p2, operand, s);
      case 0xc4 => CpOp(CPY, regY, GET_ZERO, 2, p1, p2, operand, s);
      case 0xc5 => CpOp(CMP, regA, GET_ZERO, 2, p1, p2, operand, s);
      case 0xc6 => DecOp(2, GET_ZERO, SET_ZERO_RMW, p1, p2, operand, s);
      case 0xc7 => DcpOp(2, GET_ZERO, SET_ZERO_RMW, p1, p2, operand, s);
      case _ => assert false;
    }

    method OpcodesC8(p0: byte, p1: byte, p2: word, nmi: bool, ghost operand: word, ghost s: Cpu)
      requires Valid() && 0xc8 <= p0 <= 0xcf && !Decode(p0).Jam?
      requires Fetched(p0, p2, operand, s)
      modifies this, ram
      ensures Valid()
      ensures View() == CycleExecute(p0, p1, operand, nmi, s)
    {
      hide Decode, ExecRead, ExecModify, ExecWrite, ExecHigh, ExecModifyA, ExecImplied, ExecBranch, ExecJmpInd,
           ExecJsr, ExecRts, ExecRti, ExecPush, ExecPla, ExecPlp, EnterHandler, StatusByte, And, U16;
      RowCHigh();
      match p0
      case 0xc8 => CountYOpcode(INY, s);
      case 0xc9 => CpOp(CMP, regA, GET_IMM, 2, p1, p2, operand, s);
      case 0xca => CountOpcode(DEX, s);
      case 0xcb => SbxOp(p1, operand, s);
      case 0xcc => CpOp(CPY, regY, GET_ABS, 3, p1, p2, operand, s);
      case 0xcd => CpOp(CMP, regA, GET_ABS, 3, p1, p2, operand, s);
      case 0xce => DecOp(3, GET_ABS, SET_ABS_RMW, p1, p2, operand, s);
      case 0xcf => DcpOp(3, GET_ABS, SET_ABS_RMW, p1, p2, operand, s);
      case _ => assert false;
    }

    method OpcodesD0(p0: byte, p1: byte, p2: word, nmi: bool, ghost operand: word, ghost s: Cpu)
      requires Valid() && 0xd0 <= p0 <= 0xd7 && !Decode(p0).Jam?
      requires Fetched(p0, p2, operand, s)
      modifies this, ram
      ensures Valid()
      ensures View() == CycleExecute(p0, p1, operand, nmi, s)
    {
      hide Decode, ExecRead, ExecModify, ExecWrite, ExecHigh, ExecModifyA, ExecImplied, ExecBranch, ExecJmpInd,
           ExecJsr, ExecRts, ExecRti, ExecPush, ExecPla, ExecPlp, EnterHandler, StatusByte, And, U16;
      RowDLow();
      match p0
      case 0xd0 => BranchOp(flagZ != 0, p1, NE, s);
      case 0xd1 => CpOp(CMP, regA, GET_IND_Y, 2, p1, p2, operand, s);
      case 0xd3 => DcpOp(2, GET_IND_Y_RMW, SET_IND_RMW, p1, p2, operand, s);
      case 0xd4 => NoopOp(GET_ZERO_X, 2, p1, p2, operand, s);
      case 0xd5 => CpOp(CMP, regA, GET_ZERO_X, 2, p1, p2, operand, s);
      case 0xd6 => DecOp(2, GET_ZERO_X, SET_ZERO_X_RMW, p1, p2, operand, s);
      case 0xd7 => DcpOp(2, GET_ZERO_X, SET_ZERO_X_RMW, p1, p2, operand, s);
      case _ => assert false;
    }

    method OpcodesD8(p0: byte, p1: byte, p2: word, nmi: bool, ghost operand: word, ghost s: Cpu)
      requires Valid() && 0xd8 <= p0 <= 0xdf && !Decode(p0).Jam?
      requires Fetched(p0, p2, operand, s)
      modifies this, ram
      ensures Valid()
      ensures View() == CycleExecute(p0, p1, operand, nmi, s)
    {
      hide Decode, ExecRead, ExecModify, ExecWrite, ExecHigh, ExecModifyA, ExecImplied, ExecBranch, ExecJmpInd,
           ExecJsr, ExecRts, ExecRti, ExecPush, ExecPla, ExecPlp, EnterHandler, StatusByte, And, U16;
      RowDHigh();
      match p0
      case 0xd8 => FlagOpcode(CLD, s);
      case 0xd9 => CpOp(CMP, regA, GET_ABS_Y, 3, p1, p2, operand, s);
      case 0xda => CountOpcode(NOP, s);
      case 0xdb => DcpOp(3, GET_ABS_Y_RMW, SET_ABS_Y_RMW, p1, p2, operand, s);
      case 0xdc => NoopOp(GET_ABS_X, 3, p1, p2, operand, s);
      case 0xdd => CpOp(CMP, regA, GET_ABS_X, 3, p1, p2, operand, s);
      case 0xde => DecOp(3, GET_ABS_X_RMW, SET_ABS_X_RMW, p1, p2, operand, s);
      case 0xdf => DcpOp(3, GET_ABS_X_RMW, SET_ABS_X_RMW, p1, p2, operand, s);
      case _ => assert false;
    }

    method OpcodesE0(p0: byte, p1: byte, p2: word, nmi: bool, ghost operand: word, ghost s: Cpu)
      requires Valid() && 0xe0 <= p0 <= 0xe7 && !Decode(p0).Jam?
      requires Fetched(p0, p2, operand, s)
      modifies this, ram
      ensures Valid()
      ensures View() == CycleExecute(p0, p1, operand, nmi, s)
    {
      hide Decode, ExecRead, ExecModify, ExecWrite, ExecHigh, ExecModifyA, ExecImplied, ExecBranch, ExecJmpInd,
           ExecJsr, ExecRts, ExecRti, ExecPush, ExecPla, ExecPlp, EnterHandler, StatusByte, And, U16;
      RowELow();
      match p0
      case 0xe0 => CpOp(CPX, regX, GET_IMM, 2, p1, p2, operand, s);
      case 0xe1 => SbcOp(GET_IND_X, 2, p1, p2, operand, s);
      case 0xe2 => NoopOp(GET_IMM, 2, p1, p2, operand, s);
      case 0xe3 => IsbOp(2, GET_IND_X, SET_IND_RMW, p1, p2, operand, s);
      case 0xe4 => CpOp(CPX, regX, GET_ZERO, 2, p1, p2, operand, s);
      case 0xe5 => SbcOp(GET_ZERO, 2, p1, p2, operand, s);
      case 0xe6 => IncOp(2, GET_ZERO, SET_ZERO_RMW, p1, p2, operand, s);
      case 0xe7 => IsbOp(2, GET_ZERO, SET_ZERO_RMW, p1, p2, operand, s);
      case _ => assert false;
    }

    method OpcodesE8(p0: byte, p1: byte, p2: word, nmi: bool, ghost operand: word, ghost s: Cpu)
      requires Valid() && 0xe8 <= p0 <= 0xef && !Decode(p0).Jam?
      requires Fetched(p0, p2, operand, s)
      modifies this, ram
      ensures Valid()
      ensures View() == CycleExecute(p0, p1, operand, nmi, s)
    {
      hide Decode, ExecRead, ExecModify, ExecWrite, ExecHigh, ExecModifyA, ExecImplied, ExecBranch, ExecJmpInd,
           ExecJsr, ExecRts, ExecRti, ExecPush, ExecPla, ExecPlp, EnterHandler, StatusByte, And, U16;
      RowEHigh();
      match p0
      case 0xe8 => CountOpcode(INX, s);
      case 0xe9 => SbcOp(GET_IMM, 2, p1, p2, operand, s);
      case 0xea => CountOpcode(NOP, s);
      case 0xeb => SbcOp(GET_IMM, 2, p1, p2, operand, s);
      case 0xec => CpOp(CPX, regX, GET_ABS, 3, p1, p2, operand, s);
      case 0xed => SbcOp(GET_ABS, 3, p1, p2, operand, s);
      case 0xee => IncOp(3, GET_ABS, SET_ABS_RMW, p1, p2, operand, s);
      case 0xef => IsbOp(3, GET_ABS, SET_ABS_RMW, p1, p2, operand, s);
      case _ => assert false;
    }

    method OpcodesF0(p0: byte, p1: byte, p2: word, nmi: bool, ghost operand: word, ghost s: Cpu)
      requires Valid() && 0xf0 <= p0 <= 0xf7 && !Decode(p0).Jam?
      requires Fetched(p0, p2, operand, s)
      modifies this, ram
      ensures Valid()
      ensures View() == CycleExecute(p0, p1, operand, nmi, s)
    {
      hide Decode, ExecRead, ExecModify, ExecWrite, ExecHigh, ExecModifyA, ExecImplied, ExecBranch, ExecJmpInd,
           ExecJsr, ExecRts, ExecRti, ExecPush, ExecPla, ExecPlp, EnterHandler, StatusByte, And, U16;
      RowFLow();
      match p0
      case 0xf0 => BranchOp(flagZ == 0, p1, EQ, s);
      case 0xf1 => SbcOp(GET_IND_Y, 2, p1, p2, operand, s);
      case 0xf3 => IsbOp(2, GET_IND_Y_RMW, SET_IND_RMW, p1, p2, operand, s);
      case 0xf4 => NoopOp(GET_ZERO_X, 2, p1, p2, operand, s);
      case 0xf5 => SbcOp(GET_ZERO_X, 2, p1, p2, operand, s);
      case 0xf6 => IncOp(2, GET_ZERO_X, SET_ZERO_X_RMW, p1, p2, operand, s);
      case 0xf7 => IsbOp(2, GET_ZERO_X, SET_ZERO_X_RMW, p1, p2, operand, s);
      case _ => assert false;
    }

    method OpcodesF8(p0: byte, p1: byte, p2: word, nmi: bool, ghost operand: word, ghost s: Cpu)
      requires Valid() && 0xf8 <= p0 <= 0xff && !Decode(p0).Jam?
      requires Fetched(p0, p2, operand, s)
      modifies this, ram
      ensures Valid()
      ensures View() == CycleExecute(p0, p1, operand, nmi, s)
    {
      hide Decode, ExecRead, ExecModify, ExecWrite, ExecHigh, ExecModifyA, ExecImplied, ExecBranch, ExecJmpInd,
           ExecJsr, ExecRts, ExecRti, ExecPush, ExecPla, ExecPlp, EnterHandler, StatusByte, And, U16;
      RowFHigh();
      match p0
      case 0xf8 => FlagOpcode(SED, s);
      case 0xf9 => SbcOp(GET_ABS_Y, 3, p1, p2, operand, s);
      case 0xfa => CountOpcode(NOP, s);
      case 0xfb => IsbOp(3, GET_ABS_Y_RMW, SET_ABS_Y_RMW, p1, p2, operand, s);
      case 0xfc => NoopOp(GET_ABS_X, 3, p1, p2, operand, s);
      case 0xfd => SbcOp(GET_ABS_X, 3, p1, p2, operand, s);
      case 0xfe => IncOp(3, GET_ABS_X_RMW, SET_ABS_X_RMW, p1, p2, operand, s);
      case 0xff => IsbOp(3, GET_ABS_X_RMW, SET_ABS_X_RMW, p1, p2, operand, s);
      case _ => assert false;
    }

    method OpcodeRow0(p0: byte, p1: byte, p2: word, nmi: bool, ghost operand: word, ghost s: Cpu)
      requires Valid() && 0x00 <= p0 <= 0x0f && !Decode(p0).Jam?
      requires Fetched(p0, p2, operand, s)
      modifies this, ram
      ensures Valid()
      ensures View() == CycleExecute(p0, p1, operand, nmi, s)
    {
      hide CycleExecute, Fetched;
      if p0 <= 0x07 {
        Opcodes00(p0, p1, p2, nmi, operand, s);
      } else {
        Opcodes08(p0, p1, p2, nmi, operand, s);
      }
    }

    method OpcodeRow1(p0: byte, p1: byte, p2: word, nmi: bool, ghost operand: word, ghost s: Cpu)
      requires Valid() && 0x10 <= p0 <= 0x1f && !Decode(p0).Jam?
      requires Fetched(p0, p2, operand, s)
      modifies this, ram
      ensures Valid()
      ensures View() == CycleExecute(p0, p1, operand, nmi, s)
    {
      hide CycleExecute, Fetched;
      if p0 <= 0x17 {
        Opcodes10(p0, p1, p2, nmi, operand, s);
      } else {
        Opcodes18(p0, p1, p2, nmi, operand, s);
      }
    }

    method OpcodeRow2(p0: byte, p1: byte, p2: word, nmi: bool, ghost operand: word, ghost s: Cpu)
      requires Valid() && 0x20 <= p0 <= 0x2f && !Decode(p0).Jam?
      requires Fetched(p0, p2, operand, s)
      modifies this, ram
      ensures Valid()
      ensures View() == CycleExecute(p0, p1, operand, nmi, s)
    {
      hide CycleExecute, Fetched;
      if p0 <= 0x27 {
        Opcodes20(p0, p1, p2, nmi, operand, s);
      } else {
        Opcodes28(p0, p1, p2, nmi, operand, s);
      }
    }

    method OpcodeRow3(p0: byte, p1: byte, p2: word, nmi: bool, ghost operand: word, ghost s: Cpu)
      requires Valid() && 0x30 <= p0 <= 0x3f && !Decode(p0).Jam?
      requires Fetched(p0, p2, operand, s)
      modifies this, ram
      ensures Valid()
      ensures View() == CycleExecute(p0, p1, operand, nmi, s)
    {
      hide CycleExecute, Fetched;
      if p0 <= 0x37 {
        Opcodes30(p0, p1, p2, nmi, operand, s);
      } else {
        Opcodes38(p0, p1, p2, nmi, operand, s);
      }
    }

    method OpcodeRow4(p0: byte, p1: byte, p2: word, nmi: bool, ghost operand: word, ghost s: Cpu)
      requires Valid() && 0x40 <= p0 <= 0x4f && !Decode(p0).Jam?
      requires Fetched(p0, p2, operand, s)
      modifies this, ram
      ensures Valid()
      ensures View() == CycleExecute(p0, p1, operand, nmi, s)
    {
      hide CycleExecute, Fetched;
      if p0 <= 0x47 {
        Opcodes40(p0, p1, p2, nmi, operand, s);
      } else {
        Opcodes48(p0, p1, p2, nmi, operand, s);
      }
    }

    method OpcodeRow5(p0: byte, p1: byte, p2: word, nmi: bool, ghost operand: word, ghost s: Cpu)
      requires Valid() && 0x50 <= p0 <= 0x5f && !Decode(p0).Jam?
      requires Fetched(p0, p2, operand, s)
      modifies this, ram
      ensures Valid()
      ensures View() == CycleExecute(p0, p1, operand, nmi, s)
    {
      hide CycleExecute, Fetched;
      if p0 <= 0x57 {
        Opcodes50(p0, p1, p2, nmi, operand, s);
      } else {
        Opcodes58(p0, p1, p2, nmi, operand, s);
      }
    }

    method OpcodeRow6(p0: byte, p1: byte, p2: word, nmi: bool, ghost operand: word, ghost s: Cpu)
      requires Valid() && 0x60 <= p0 <= 0x6f && !Decode(p0).Jam?
      requires Fetched(p0, p2, operand, s)
      modifies this, ram
      ensures Valid()
      ensures View() == CycleExecute(p0, p1, operand, nmi, s)
    {
      hide CycleExecute, Fetched;
      if p0 <= 0x67 {
        Opcodes60(p0, p1, p2, nmi, operand, s);
      } else {
        Opcodes68(p0, p1, p2, nmi, operand, s);
      }
    }

    method OpcodeRow7(p0: byte, p1: byte, p2: word, nmi: bool, ghost operand: word, ghost s: Cpu)
      requires Valid() && 0x70 <= p0 <= 0x7f && !Decode(p0).Jam?
      requires Fetched(p0, p2, operand, s)
      modifies this, ram
      ensures Valid()
      ensures View() == CycleExecute(p0, p1, operand, nmi, s)
    {
      hide CycleExecute, Fetched;
      if p0 <= 0x77 {
        Opcodes70(p0, p1, p2, nmi, operand, s);
      } else {
        Opcodes78(p0, p1, p2, nmi, operand, s);
      }
    }

    method OpcodeRow8(p0: byte, p1: byte, p2: word, nmi: bool, ghost operand: word, ghost s: Cpu)
      requires Valid() && 0x80 <= p0 <= 0x8f && !Decode(p0).Jam?
      requires Fetched(p0, p2, operand, s)
      modifies this, ram
      ensures Valid()
      ensures View() == CycleExecute(p0, p1, operand, nmi, s)
    {
      hide CycleExecute, Fetched;
      if p0 <= 0x87 {
        Opcodes80(p0, p1, p2, nmi, operand, s);
      } else {
        Opcodes88(p0, p1, p2, nmi, operand, s);
      }
    }

    method OpcodeRow9(p0: byte, p1: byte, p2: word, nmi: bool, ghost operand: word, ghost s: Cpu)
      requires Valid() && 0x90 <= p0 <= 0x9f && !Decode(p0).Jam?
      requires Fetched(p0, p2, operand, s)
      modifies this, ram
      ensures Valid()
      ensures View() == CycleExecute(p0, p1, operand, nmi, s)
    {
      hide CycleExecute, Fetched;
      if p0 <= 0x97 {
        Opcodes90(p0, p1, p2, nmi, operand, s);
      } else {
        Opcodes98(p0, p1, p2, nmi, operand, s);
      }
    }

    method OpcodeRowA(p0: byte, p1: byte, p2: word, nmi: bool, ghost operand: word, ghost s: Cpu)
      requires Valid() && 0xa0 <= p0 <= 0xaf && !Decode(p0).Jam?
      requires Fetched(p0, p2, operand, s)
      modifies this, ram
      ensures Valid()
      ensures View() == CycleExecute(p0, p1, operand, nmi, s)
    {
      hide CycleExecute, Fetched;
      if p0 <= 0xa7 {
        OpcodesA0(p0, p1, p2, nmi, operand, s);
      } else {
        OpcodesA8(p0, p1, p2, nmi, operand, s);
      }
    }

    method OpcodeRowB(p0: byte, p1: byte, p2: word, nmi: bool, ghost operand: word, ghost s: Cpu)
      requires Valid() && 0xb0 <= p0 <= 0xbf && !Decode(p0).Jam?
      requires Fetched(p0, p2, operand, s)
      modifies this, ram
      ensures Valid()
      ensures View() == CycleExecute(p0, p1, operand, nmi, s)
    {
      hide CycleExecute, Fetched;
      if p0 <= 0xb7 {
        OpcodesB0(p0, p1, p2, nmi, operand, s);
      } else {
        OpcodesB8(p0, p1, p2, nmi, operand, s);
      }
    }

    method OpcodeRowC(p0: byte, p1: byte, p2: word, nmi: bool, ghost operand: word, ghost s: Cpu)
      requires Valid() && 0xc0 <= p0 <= 0xcf && !Decode(p0).Jam?
      requires Fetched(p0, p2, operand, s)
      modifies this, ram
      ensures Valid()
      ensures View() == CycleExecute(p0, p1, operand, nmi, s)
    {
      hide CycleExecute, Fetched;
      if p0 <= 0xc7 {
        OpcodesC0(p0, p1, p2, nmi, operand, s);
      } else {
        OpcodesC8(p0, p1, p2, nmi, operand, s);
      }
    }

    method OpcodeRowD(p0: byte, p1: byte, p2: word, nmi: bool, ghost operand: word, ghost s: Cpu)
      requires Valid() && 0xd0 <= p0 <= 0xdf && !Decode(p0).Jam?
      requires Fetched(p0, p2, operand, s)
      modifies this, ram
      ensures Valid()
      ensures View() == CycleExecute(p0, p1, operand, nmi, s)
    {
      hide CycleExecute, Fetched;
      if p0 <= 0xd7 {
        OpcodesD0(p0, p1, p2, nmi, operand, s);
      } else {
        OpcodesD8(p0, p1, p2, nmi, operand, s);
      }
    }

    method OpcodeRowE(p0: byte, p1: byte, p2: word, nmi: bool, ghost operand: word, ghost s: Cpu)
      requires Valid() && 0xe0 <= p0 <= 0xef && !Decode(p0).Jam?
      requires Fetched(p0, p2, operand, s)
      modifies this, ram
      ensures Valid()
      ensures View() == CycleExecute(p0, p1, operand, nmi, s)
    {
      hide CycleExecute, Fetched;
      if p0 <= 0xe7 {
        OpcodesE0(p0, p1, p2, nmi, operand, s);
      } else {
        OpcodesE8(p0, p1, p2, nmi, operand, s);
      }
    }

    method OpcodeRowF(p0: byte, p1: byte, p2: word, nmi: bool, ghost operand: word, ghost s: Cpu)
      requires Valid() && 0xf0 <= p0 <= 0xff && !Decode(p0).Jam?
      requires Fetched(p0, p2, operand, s)
      modifies this, ram
      ensures Valid()
      ensures View() == CycleExecute(p0, p1, operand, nmi, s)
    {
      hide CycleExecute, Fetched;
      if p0 <= 0xf7 {
        OpcodesF0(p0, p1, p2, nmi, operand, s);
      } else {
        OpcodesF8(p0, p1, p2, nmi, operand, s);
      }
    }

    /** The whole opcode switch. */
    method Opcode(p0: byte, p1: byte, p2: word, nmi: bool, ghost operand: word, ghost s: Cpu)
      requires Valid() && !Decode(p0).Jam?
      requires Fetched(p0, p2, operand, s)
      modifies this, ram
      ensures Valid()
      ensures View() == CycleExecute(p0, p1, operand, nmi, s)
    {
      hide CycleExecute, Decode, Fetched;
      if p0 <= 0x0f {
        OpcodeRow0(p0, p1, p2, nmi, operand, s);
      } else if p0 <= 0x1f {
        OpcodeRow1(p0, p1, p2, nmi, operand, s);
      } else if p0 <= 0x2f {
        OpcodeRow2(p0, p1, p2, nmi, operand, s);
      } else if p0 <= 0x3f {
        OpcodeRow3(p0, p1, p2, nmi, operand, s);
      } else if p0 <= 0x4f {
        OpcodeRow4(p0, p1, p2, nmi, operand, s);
      } else if p0 <= 0x5f {
        OpcodeRow5(p0, p1, p2, nmi, operand, s);
      } else if p0 <= 0x6f {
        OpcodeRow6(p0, p1, p2, nmi, operand, s);
      } else if p0 <= 0x7f {
        OpcodeRow7(p0, p1, p2, nmi, operand, s);
      } else if p0 <= 0x8f {
        OpcodeRow8(p0, p1, p2, nmi, operand, s);
      } else if p0 <= 0x9f {
        OpcodeRow9(p0, p1, p2, nmi, operand, s);
      } else if p0 <= 0xaf {
        OpcodeRowA(p0, p1, p2, nmi, operand, s);
      } else if p0 <= 0xbf {
        OpcodeRowB(p0, p1, p2, nmi, operand, s);
      } else if p0 <= 0xcf {
        OpcodeRowC(p0, p1, p2, nmi, operand, s);
      } else if p0 <= 0xdf {
        OpcodeRowD(p0, p1, p2, nmi, operand, s);
      } else if p0 <= 0xef {
        OpcodeRowE(p0, p1, p2, nmi, operand, s);
      } else {
        OpcodeRowF(p0, p1, p2, nmi, operand, s);
      }
    }

    // ----- Fetch, interrupts, main loop -----

    /** FETCH_OPCODE of the machine this core serves: through the bank pointer below the bank
        limit, through LOAD above it, the third byte only for a 16-bit operand. */
    method FetchOpcode() returns (p0: byte, p1: byte, p2: word)
      requires Valid()
      modifies this`clk
      ensures Valid()
      ensures var s := old(View());
              && p0 == Isa6510.Opcode(s) && p1 == s.mem[U16(s.pc + 1)] && p1 == Lo(p2)
              && (FetchTab(p0) ==> p2 == Word(p1, s.mem[U16(s.pc + 2)]))
              && View() == s.(clk := s.clk + if FetchTab(p0) then 3 else 2)
    {
      hide FetchTab, Lo, Hi, Word, U16;
      U16Add(regPc, 1);
      U16Add(regPc, 2);
      if regPc < bankLimit {
        p0 := ram[regPc];
        clk := clk + 1;
        p1 := ram[regPc + 1];
        p2 := Word(p1, 0);
        clk := clk + 1;
        if FetchTab(p0) {
          p2 := Word(p1, ram[regPc + 2]);
          clk := clk + 1;
        }
      } else {
        p0 := Load(regPc);
        clk := clk + 1;
        p1 := Load(regPc + 1);
        p2 := Word(p1, 0);
        clk := clk + 1;
        if FetchTab(p0) {
          p2 := Word(p1, Load(regPc + 2));
          clk := clk + 1;
        }
      }
    }

    /** Fetch and execute one opcode. */
    method Step(nmi: bool)
      requires Valid() && !Jammed(View())
      modifies this, ram
      ensures Valid()
      ensures View() == CycleStep(old(View()), nmi)
    {
      hide CycleExecute, Decode, FetchTab, Lo, Hi, Word, U16;
      ghost var s := View();
      var p0, p1, p2 := FetchOpcode();
      opInfo := OpInfo(p0, false, false, false);
      Opcode(p0, p1, p2, nmi, Word(p1, s.mem[U16(s.pc + 2)]), s.(info := opInfo));
    }

    /** DO_INTERRUPT once an NMI is accepted: no take-over, the vector is fixed. */
    method DoNmi()
      requires Valid()
      modifies this, ram
      ensures Valid()
      ensures View() == Interrupt(old(View()), true)
    {
      hide PushFrame, StatusByte, WordAt, U16, U8;
      var dummy := Load(regPc);
      clk := clk + 1;
      dummy := Load(regPc);
      clk := clk + 1;
      regP := regP.(b := false);
      PushState();
      JumpThrough(0xfffa);
      regP := regP.(i := true);
      opInfo := OpInfo(0, false, false, false);
    }

    /** DO_INTERRUPT once an IRQ is accepted. */
    method DoIrq(hijack: bool)
      requires Valid()
      modifies this, ram
      ensures Valid()
      ensures View() == Interrupt(old(View()), hijack)
    {
      hide PushFrame, StatusByte, WordAt, U16, U8;
      var dummy := Load(regPc);
      clk := clk + 1;
      dummy := Load(regPc);
      clk := clk + 1;
      regP := regP.(b := false);
      DoIrqBrk(hijack);
      opInfo := OpInfo(0, false, false, false);
    }

    /** The main loop over what the outside decides. */
    method Run(es: seq<CycleEvent>)
      requires Valid() && CycleRunnable(View(), es)
      modifies this, ram
      ensures Valid()
      ensures View() == CycleRun(old(View()), es)
    {
      hide CycleStep, Interrupt, Jammed;
      var k := 0;
      ghost var start := View();
      while k < |es|
        invariant 0 <= k <= |es| && Valid()
        invariant CycleRunnable(View(), es[k..])
        invariant CycleRun(View(), es[k..]) == CycleRun(start, es)
      {
        match es[k] {
          case TakeNmi => DoNmi();
          case TakeIrq(hijack) => DoIrq(hijack);
          case RunOpcode(nmi) => Step(nmi);
        }
        assert es[k..][1..] == es[k + 1..];
        k := k + 1;
      }
    }
  }
}
