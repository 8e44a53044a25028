/** The 6510 instruction set, as a programmer's manual states it.

    This is the common reference for the two processor cores: registers with plain
    Boolean flags, effective addresses, whole-instruction cycle counts, and an opcode
    matrix decoded by its bit fields instead of by a 256-way table.  Nothing here
    mentions lazy flags, unmasked program counters or intermediate clock values. */
module Isa6510 {
  import opened Bytes

  type Ram = m: seq<byte> | |m| == 0x1_0000 witness seq(0x1_0000, _ => 0)

  datatype Flags = Flags(n: bool, v: bool, b: bool, d: bool, i: bool, z: bool, c: bool)

  datatype Regs = Regs(a: byte, x: byte, y: byte, sp: byte, f: Flags)

  /** What the interrupt logic remembers about the last opcode. */
  datatype OpInfo = OpInfo(number: byte, delaysInterrupt: bool, disablesIrq: bool, enablesIrq: bool)

  datatype Cpu = Cpu(r: Regs, pc: word, mem: Ram, clk: nat, info: OpInfo)

  // ----- Status register -----

  /** The byte the processor pushes for its status: bit 5 always reads as one. */
  function StatusByte(f: Flags): byte {
    (if f.n then 0x80 else 0) + (if f.v then 0x40 else 0) + 0x20 + (if f.b then 0x10 else 0)
    + (if f.d then 0x08 else 0) + (if f.i then 0x04 else 0) + (if f.z then 0x02 else 0) + (if f.c then 0x01 else 0)
  }

  function FlagsOf(s: byte): Flags {
    Flags(s >= 0x80, Bit6(s), (s / 0x10) % 2 == 1, (s / 0x08) % 2 == 1, (s / 0x04) % 2 == 1, (s / 0x02) % 2 == 1, s % 2 == 1)
  }

  function SetNZ(f: Flags, v: byte): Flags {
    f.(n := v >= 0x80, z := v == 0)
  }

  // ----- Addressing -----

  datatype Mode = Imm | Zp | ZpX | ZpY | Abs | AbsX | AbsY | IndX | IndY

  /** A pointer in page zero; its high byte wraps inside the page. */
  function ZpWord(mem: Ram, z: byte): word {
    Word(mem[z], mem[U8(z + 1)])
  }

  function EffectiveAddress(m: Mode, r: Regs, mem: Ram, p1: byte, p2: word): word {
    match m
    case Imm => p1
    case Zp => p1
    case ZpX => U8(p1 + r.x)
    case ZpY => U8(p1 + r.y)
    case Abs => p2
    case AbsX => U16(p2 + r.x)
    case AbsY => U16(p2 + r.y)
    case IndX => ZpWord(mem, U8(p1 + r.x))
    case IndY => U16(ZpWord(mem, p1) + r.y)
  }

  predicate CrossesPage(m: Mode, r: Regs, mem: Ram, p1: byte, p2: word) {
    match m
    case AbsX => Lo(p2) + r.x > 0xff
    case AbsY => Lo(p2) + r.y > 0xff
    case IndY => mem[p1] + r.y > 0xff
    case _ => false
  }

  function Operand(m: Mode, r: Regs, mem: Ram, p1: byte, p2: word): byte {
    if m.Imm? then p1 else mem[EffectiveAddress(m, r, mem, p1, p2)]
  }

  function Length(m: Mode): nat {
    if m in {Abs, AbsX, AbsY} then 3 else 2
  }

  // ----- Cycle counts of whole instructions -----

  function ReadCycles(m: Mode, crosses: bool): nat {
    match m
    case Imm => 2
    case Zp => 3
    case ZpX => 4
    case ZpY => 4
    case Abs => 4
    case AbsX => if crosses then 5 else 4
    case AbsY => if crosses then 5 else 4
    case IndX => 6
    case IndY => if crosses then 6 else 5
  }

  function WriteCycles(m: Mode): nat {
    match m
    case Imm => 2
    case Zp => 3
    case ZpX => 4
    case ZpY => 4
    case Abs => 4
    case AbsX => 5
    case AbsY => 5
    case IndX => 6
    case IndY => 6
  }

  function ModifyCycles(m: Mode): nat {
    match m
    case Imm => 2
    case Zp => 5
    case ZpX => 6
    case ZpY => 6
    case Abs => 6
    case AbsX => 7
    case AbsY => 7
    case IndX => 8
    case IndY => 8
  }

  // ----- Arithmetic -----

  datatype Sum = Sum(r: byte, n: bool, v: bool, z: bool, c: bool)

  function Bit(b: bool): nat {
    if b then 1 else 0
  }

  /** The digit sums of an addition, each with the carry into it. */
  function LowSum(a: byte, v: byte, c: bool): nat {
    U4(a) + U4(v) + Bit(c)
  }

  function HighSum(a: byte, v: byte, c: bool): nat {
    HighDigit(a) + HighDigit(v) + Bit(LowSum(a, v, c) > 9)
  }

  function AdjustUp(sum: nat): nat {
    if sum > 9 then U4(sum + 6) else sum
  }

  /** Decimal addition, digit by digit, with the NMOS part's flags: Z is that of the binary
      sum, N and V come from the high digit before its adjustment. */
  function AdcDecimal(a: byte, v: byte, c: bool): Sum {
    Sum(16 * AdjustUp(HighSum(a, v, c)) + AdjustUp(LowSum(a, v, c)),
        U4(HighSum(a, v, c)) >= 8,
        (a >= 0x80) == (v >= 0x80) && (a >= 0x80) != (U4(HighSum(a, v, c)) >= 8),
        U8(a + v + Bit(c)) == 0,
        HighSum(a, v, c) > 9)
  }

  function AdcBinary(a: byte, v: byte, c: bool): Sum {
    var r := U8(a + v + Bit(c));
    Sum(r, r >= 0x80, (a >= 0x80) == (v >= 0x80) && (a >= 0x80) != (r >= 0x80), r == 0, a + v + Bit(c) > 0xff)
  }

  function Adc(d: bool, a: byte, v: byte, c: bool): Sum {
    if d then AdcDecimal(a, v, c) else AdcBinary(a, v, c)
  }

  /** The digit differences of a subtraction, each with the borrow from it. */
  function LowDifference(a: byte, v: byte, c: bool): int {
    U4(a) - U4(v) - Bit(!c)
  }

  function HighDifference(a: byte, v: byte, c: bool): int {
    HighDigit(a) - HighDigit(v) - Bit(LowDifference(a, v, c) < 0)
  }

  function AdjustDown(difference: int): nat {
    if difference < 0 then U4(difference - 6) else difference
  }

  function SbcBinary(a: byte, v: byte, c: bool): Sum {
    var r := U8(a - v - Bit(!c));
    Sum(r, r >= 0x80, (a >= 0x80) != (v >= 0x80) && (a >= 0x80) != (r >= 0x80), r == 0, a - v - Bit(!c) >= 0)
  }

  /** Subtraction; the flags are those of the binary difference in both modes. */
  function Sbc(d: bool, a: byte, v: byte, c: bool): Sum {
    if d then
      SbcBinary(a, v, c).(r := U8(16 * AdjustDown(HighDifference(a, v, c)) + AdjustDown(LowDifference(a, v, c))))
    else
      SbcBinary(a, v, c)
  }

  function WithSum(r: Regs, s: Sum): Regs {
    r.(a := s.r, f := r.f.(n := s.n, v := s.v, z := s.z, c := s.c))
  }

  // ----- What the instructions do to the registers -----

  /** Put `t` in A and set N and Z by it; likewise for the other registers. */
  function SetA(r: Regs, t: byte): Regs {
    r.(a := t, f := SetNZ(r.f, t))
  }

  function SetX(r: Regs, t: byte): Regs {
    r.(x := t, f := SetNZ(r.f, t))
  }

  function SetY(r: Regs, t: byte): Regs {
    r.(y := t, f := SetNZ(r.f, t))
  }

  function SetAX(r: Regs, t: byte): Regs {
    r.(a := t, x := t, f := SetNZ(r.f, t))
  }

  function SetAXS(r: Regs, t: byte): Regs {
    r.(a := t, x := t, sp := t, f := SetNZ(r.f, t))
  }

  function SetC(r: Regs, c: bool): Regs {
    r.(f := r.f.(c := c))
  }

  function AddToA(r: Regs, v: byte): (q: Regs)
    ensures q.x == r.x && q.y == r.y && q.sp == r.sp
  {
    WithSum(r, Adc(r.f.d, r.a, v, r.f.c))
  }

  function SubtractFromA(r: Regs, v: byte): (q: Regs)
    ensures q.x == r.x && q.y == r.y && q.sp == r.sp
  {
    WithSum(r, Sbc(r.f.d, r.a, v, r.f.c))
  }

  /** Compare: the flags of `reg - v`, nothing stored. */
  function CompareWith(r: Regs, reg: byte, v: byte): Regs {
    r.(f := SetNZ(r.f, U8(reg - v)).(c := reg >= v))
  }

  function BitTest(r: Regs, v: byte): Regs {
    r.(f := r.f.(n := v >= 0x80, v := Bit6(v), z := And(v, r.a) == 0))
  }

  /** X becomes (A AND X) minus the operand; the carry is that of a compare. */
  function SubtractToX(r: Regs, v: byte): Regs {
    var t := And(r.a, r.x);
    SetC(SetX(r, U8(t - v)), t >= v)
  }

  /** ARR: a rotate right of `t` (A AND operand) with flag rules of its own and a decimal fix-up. */
  function ArrRotated(t: byte, c: bool): byte {
    t / 2 + (if c then 0x80 else 0)
  }

  function ArrSum(d: bool, t: byte, c: bool): Sum {
    var u := ArrRotated(t, c);
    if d then
      var fix := HighDigit(t) + HighDigit(t) % 2 > 5;
      Sum(16 * (if fix then U4(HighDigit(u) + 6) else HighDigit(u)) + (if U4(t) + t % 2 > 5 then U4(u + 6) else U4(u)),
          c, Bit6(u) != Bit6(t), u == 0, fix)
    else
      Sum(u, u >= 0x80, Bit6(u) != Bit5(u), u == 0, Bit6(u))
  }

  function RotateAnd(r: Regs, v: byte): Regs {
    WithSum(r, ArrSum(r.f.d, And(r.a, v), r.f.c))
  }

  // ----- Instructions that read an operand -----

  datatype ReadOp =
    | ORA | AND | EOR | ADC | SBC | CMP | CPX | CPY | BIT
    | LDA | LDX | LDY | LAX | LAS | SKIP
    | ANC | ASR | ARR | ANE | LXA | SBX

  function ApplyRead(op: ReadOp, v: byte, r: Regs): Regs {
    match op
    case ORA => SetA(r, Or(r.a, v))
    case AND => SetA(r, And(r.a, v))
    case EOR => SetA(r, Xor(r.a, v))
    case ADC => AddToA(r, v)
    case SBC => SubtractFromA(r, v)
    case CMP => CompareWith(r, r.a, v)
    case CPX => CompareWith(r, r.x, v)
    case CPY => CompareWith(r, r.y, v)
    case BIT => BitTest(r, v)
    case LDA => SetA(r, v)
    case LDX => SetX(r, v)
    case LDY => SetY(r, v)
    case LAX => SetAX(r, v)
    case LAS => SetAXS(r, And(r.sp, v))
    case SKIP => r
    case ANC => SetC(SetA(r, And(r.a, v)), And(r.a, v) >= 0x80)
    case ASR => SetC(SetA(r, And(r.a, v) / 2), And(r.a, v) % 2 == 1)
    case ARR => RotateAnd(r, v)
    case ANE => SetA(r, And(And(Or(r.a, 0xff), r.x), v))
    case LXA => SetAX(r, And(Or(r.a, 0xee), v))
    case SBX => SubtractToX(r, v)
  }

  // ----- Instructions that modify a byte -----

  datatype ModifyOp = ASL | LSR | ROL | ROR | INC | DEC | SLO | RLA | SRE | RRA | DCP | ISB

  /** The byte written back. */
  function Modified(op: ModifyOp, v: byte, c: bool): byte {
    match op
    case ASL => U8(2 * v)
    case SLO => U8(2 * v)
    case ROL => U8(2 * v + Bit(c))
    case RLA => U8(2 * v + Bit(c))
    case LSR => v / 2
    case SRE => v / 2
    case ROR => v / 2 + (if c then 0x80 else 0)
    case RRA => v / 2 + (if c then 0x80 else 0)
    case INC => U8(v + 1)
    case ISB => U8(v + 1)
    case DEC => U8(v - 1)
    case DCP => U8(v - 1)
  }

  /** Flags of a plain modification whose result is `w`. */
  function SetFlags(r: Regs, w: byte): Regs {
    r.(f := SetNZ(r.f, w))
  }

  /** The registers afterwards, for operand `v` and result `w`; the undocumented forms also combine with A. */
  function ApplyModify(op: ModifyOp, v: byte, w: byte, r: Regs): Regs {
    match op
    case ASL => SetC(SetFlags(r, w), v >= 0x80)
    case ROL => SetC(SetFlags(r, w), v >= 0x80)
    case LSR => SetC(SetFlags(r, w), v % 2 == 1)
    case ROR => SetC(SetFlags(r, w), v % 2 == 1)
    case INC => SetFlags(r, w)
    case DEC => SetFlags(r, w)
    case SLO => SetC(SetA(r, Or(r.a, w)), v >= 0x80)
    case RLA => SetC(SetA(r, And(r.a, w)), v >= 0x80)
    case SRE => SetC(SetA(r, Xor(r.a, w)), v % 2 == 1)
    case RRA => AddToA(SetC(r, v % 2 == 1), w)
    case DCP => CompareWith(r, r.a, w)
    case ISB => SubtractFromA(r, w)
  }

  // ----- Instructions that store -----

  datatype WriteOp = STA | STX | STY | SAX

  function Stored(op: WriteOp, r: Regs): byte {
    match op
    case STA => r.a
    case STX => r.x
    case STY => r.y
    case SAX => And(r.a, r.x)
  }

  /** The unstable stores, which AND the source with the high address byte plus one. */
  datatype HighOp = SHA | SHX | SHY | SHS

  function HighSource(op: HighOp, r: Regs): byte {
    match op
    case SHA => And(r.a, r.x)
    case SHS => And(r.a, r.x)
    case SHX => r.x
    case SHY => r.y
  }

  /** The pointer an unstable store starts from, before its index is added. */
  function HighBase(m: Mode, mem: Ram, p1: byte, p2: word): word {
    if m.IndY? then ZpWord(mem, p1) else p2
  }

  function HighIndex(m: Mode, r: Regs): byte {
    if m.AbsX? then r.x else r.y
  }

  function HighValue(op: HighOp, r: Regs, base: word): byte {
    And(HighSource(op, r), U8(base / 0x100 + 1))
  }

  /** On a page crossing the stored value also replaces the high address byte. */
  function HighAddress(op: HighOp, r: Regs, base: word, index: byte): word {
    if Lo(base) + index > 0xff then Word(Lo(base + index), HighValue(op, r, base)) else base + index
  }

  // ----- Implied instructions -----

  datatype ImpliedOp =
    | CLC | SEC | CLI | SEI | CLV | CLD | SED
    | TAX | TXA | TAY | TYA | TSX | TXS | INX | DEX | INY | DEY | NOP

  function ApplyImplied(op: ImpliedOp, r: Regs): Regs {
    match op
    case CLC => r.(f := r.f.(c := false))
    case SEC => r.(f := r.f.(c := true))
    case CLI => r.(f := r.f.(i := false))
    case SEI => r.(f := r.f.(i := true))
    case CLV => r.(f := r.f.(v := false))
    case CLD => r.(f := r.f.(d := false))
    case SED => r.(f := r.f.(d := true))
    case TAX => r.(x := r.a, f := SetNZ(r.f, r.a))
    case TXA => r.(a := r.x, f := SetNZ(r.f, r.x))
    case TAY => r.(y := r.a, f := SetNZ(r.f, r.a))
    case TYA => r.(a := r.y, f := SetNZ(r.f, r.y))
    case TSX => r.(x := r.sp, f := SetNZ(r.f, r.sp))
    case TXS => r.(sp := r.x)
    case INX => r.(x := U8(r.x + 1), f := SetNZ(r.f, U8(r.x + 1)))
    case DEX => r.(x := U8(r.x - 1), f := SetNZ(r.f, U8(r.x - 1)))
    case INY => r.(y := U8(r.y + 1), f := SetNZ(r.f, U8(r.y + 1)))
    case DEY => r.(y := U8(r.y - 1), f := SetNZ(r.f, U8(r.y - 1)))
    case NOP => r
  }

  /** A change of I is reported to the interrupt logic. */
  function NoteI(info: OpInfo, was: bool, now: bool): OpInfo {
    if was && !now then info.(enablesIrq := true)
    else if !was && now then info.(disablesIrq := true)
    else info
  }

  // ----- Decoding -----

  datatype Test = PL | MI | VC | VS | CC | CS | NE | EQ

  predicate Holds(t: Test, f: Flags) {
    match t
    case PL => !f.n
    case MI => f.n
    case VC => !f.v
    case VS => f.v
    case CC => !f.c
    case CS => f.c
    case NE => !f.z
    case EQ => f.z
  }

  datatype Instr =
    | Read(rop: ReadOp, mode: Mode)
    | Modify(mop: ModifyOp, mode: Mode)
    | ModifyA(mop: ModifyOp)
    | Write(wop: WriteOp, mode: Mode)
    | High(hop: HighOp, mode: Mode)
    | Implied(iop: ImpliedOp)
    | Branch(test: Test)
    | Jmp | JmpInd | Jsr | Rts | Rti | Brk
    | Pha | Php | Pla | Plp
    | Jam

  function StepOp(a: int): ImpliedOp {
    match a
    case 4 => DEY
    case 5 => TAY
    case 6 => INY
    case _ => INX
  }

  function TestOf(a: int): Test {
    match a
    case 0 => PL
    case 1 => MI
    case 2 => VC
    case 3 => VS
    case 4 => CC
    case 5 => CS
    case 6 => NE
    case _ => EQ
  }

  function FlagOp(a: int): ImpliedOp {
    match a
    case 0 => CLC
    case 1 => SEC
    case 2 => CLI
    case 3 => SEI
    case 4 => TYA
    case 5 => CLV
    case 6 => CLD
    case _ => SED
  }

  function ModeOf(b: int): Mode {
    match b
    case 0 => IndX
    case 1 => Zp
    case 2 => Imm
    case 3 => Abs
    case 4 => IndY
    case 5 => ZpX
    case 6 => AbsY
    case _ => AbsX
  }

  function AluOp(a: int): ReadOp {
    match a
    case 0 => ORA
    case 1 => AND
    case 2 => EOR
    case 3 => ADC
    case 5 => LDA
    case 6 => CMP
    case _ => SBC
  }

  function ShiftOp(a: int): ModifyOp {
    match a
    case 0 => ASL
    case 1 => ROL
    case 2 => LSR
    case 3 => ROR
    case 6 => DEC
    case _ => INC
  }

  function TransferOp(a: int): ImpliedOp {
    match a
    case 4 => TXA
    case 5 => TAX
    case 6 => DEX
    case _ => NOP
  }

  function UndocumentedRead(a: int): ReadOp {
    match a
    case 0 => ANC
    case 1 => ANC
    case 2 => ASR
    case 3 => ARR
    case 4 => ANE
    case 5 => LXA
    case 6 => SBX
    case _ => SBC
  }

  function UndocumentedModify(a: int): ModifyOp {
    match a
    case 0 => SLO
    case 1 => RLA
    case 2 => SRE
    case 3 => RRA
    case 6 => DCP
    case _ => ISB
  }

  /** The opcode matrix, by the fields `aaabbbcc` of the opcode. */
  function Decode(op: byte): Instr {
    var a := op / 0x20;
    var b := (op / 4) % 8;
    match op % 4
    case 0 => DecodeControl(a, b)
    case 1 => DecodeAlu(a, b)
    case 2 => DecodeShift(a, b)
    case _ => DecodeUndocumented(a, b)
  }

  function DecodeControl(a: int, b: int): Instr {
    match b
    case 0 =>
      if a == 0 then Brk else if a == 1 then Jsr else if a == 2 then Rti else if a == 3 then Rts
      else if a == 4 then Read(SKIP, Imm) else Read(IndexRead(a), Imm)
    case 1 => ZeroRow(a, Zp)
    case 2 =>
      if a == 0 then Php else if a == 1 then Plp else if a == 2 then Pha else if a == 3 then Pla
      else Implied(StepOp(a))
    case 3 => if a == 2 then Jmp else if a == 3 then JmpInd else ZeroRow(a, Abs)
    case 4 => Branch(TestOf(a))
    case 5 => if a == 4 then Write(STY, ZpX) else if a == 5 then Read(LDY, ZpX) else Read(SKIP, ZpX)
    case 6 => Implied(FlagOp(a))
    case _ => if a == 4 then High(SHY, AbsX) else if a == 5 then Read(LDY, AbsX) else Read(SKIP, AbsX)
  }

  /** The index-register read of rows 5 to 7. */
  function IndexRead(a: int): ReadOp {
    if a == 5 then LDY else if a == 6 then CPY else CPX
  }

  function ZeroRow(a: int, m: Mode): Instr {
    if a == 1 then Read(BIT, m) else if a == 4 then Write(STY, m)
    else if a >= 5 then Read(IndexRead(a), m) else Read(SKIP, m)
  }

  function DecodeAlu(a: int, b: int): Instr {
    var m := ModeOf(b);
    if a == 4 then
      if m == Imm then Read(SKIP, Imm) else Write(STA, m)
    else
      Read(AluOp(a), m)
  }

  function DecodeShift(a: int, b: int): Instr {
    match b
    case 0 => if a == 5 then Read(LDX, Imm) else if a < 4 then Jam else Read(SKIP, Imm)
    case 1 => ShiftRow(a, Zp, Zp)
    case 2 =>
      if a < 4 then ModifyA(ShiftOp(a)) else Implied(TransferOp(a))
    case 3 => ShiftRow(a, Abs, Abs)
    case 4 => Jam
    case 5 => ShiftRow(a, ZpX, ZpY)
    case 6 => if a == 4 then Implied(TXS) else if a == 5 then Implied(TSX) else Implied(NOP)
    case _ => if a == 4 then High(SHX, AbsY) else ShiftRow(a, AbsX, AbsY)
  }

  /** The shifts take the first mode, the X-register row (which cannot index by X) the second. */
  function ShiftRow(a: int, m: Mode, mx: Mode): Instr {
    if a == 4 then Write(STX, mx) else if a == 5 then Read(LDX, mx)
    else Modify(ShiftOp(a), m)
  }

  function DecodeUndocumented(a: int, b: int): Instr {
    var m := ModeOf(b);
    if b == 2 then
      Read(UndocumentedRead(a), Imm)
    else if a == 4 then
      if b == 4 then High(SHA, IndY) else if b == 5 then Write(SAX, ZpY)
      else if b == 6 then High(SHS, AbsY) else if b == 7 then High(SHA, AbsY)
      else Write(SAX, m)
    else if a == 5 then
      if b == 5 then Read(LAX, ZpY) else if b == 6 then Read(LAS, AbsY)
      else if b == 7 then Read(LAX, AbsY) else Read(LAX, m)
    else
      Modify(UndocumentedModify(a), m)
  }

  // ----- Execution -----

  function Push(mem: Ram, sp: byte, v: byte): Ram {
    mem[0x100 + sp := v]
  }

  /** Memory after pushing a return address and a status byte. */
  function PushFrame(mem: Ram, sp: byte, pc: word, status: byte): Ram {
    Push(Push(Push(mem, sp, Hi(pc)), U8(sp - 1), Lo(pc)), U8(sp - 2), status)
  }

  function WordAt(mem: Ram, addr: word): word {
    Word(mem[addr], mem[U16(addr + 1)])
  }

  /** The common part of BRK and of an interrupt: push, set I, jump through the vector. */
  function EnterHandler(s: Cpu, ret: word, b: bool, nmi: bool): Cpu {
    var f := s.r.f.(b := b);
    var mem := PushFrame(s.mem, s.r.sp, ret, StatusByte(f));
    Cpu(s.r.(sp := U8(s.r.sp - 3), f := f.(i := true)), WordAt(mem, if nmi then 0xfffa else 0xfffe), mem, s.clk + 7, s.info)
  }

  /** An IRQ or NMI is taken; `nmi` says which vector the test after the pushes selects. */
  function Interrupt(s: Cpu, nmi: bool): Cpu {
    EnterHandler(s, s.pc, false, nmi).(info := OpInfo(0, false, false, false))
  }

  function ExecRead(op: ReadOp, m: Mode, p1: byte, p2: word, s: Cpu): Cpu {
    Cpu(ApplyRead(op, Operand(m, s.r, s.mem, p1, p2), s.r), U16(s.pc + Length(m)), s.mem,
        s.clk + ReadCycles(m, CrossesPage(m, s.r, s.mem, p1, p2)), s.info)
  }

  function ExecModify(op: ModifyOp, m: Mode, p1: byte, p2: word, s: Cpu): Cpu {
    var ea := EffectiveAddress(m, s.r, s.mem, p1, p2);
    var v := s.mem[ea];
    var w := Modified(op, v, s.r.f.c);
    Cpu(ApplyModify(op, v, w, s.r), U16(s.pc + Length(m)), s.mem[ea := w], s.clk + ModifyCycles(m), s.info)
  }

  function ExecModifyA(op: ModifyOp, s: Cpu): Cpu {
    var w := Modified(op, s.r.a, s.r.f.c);
    Cpu(ApplyModify(op, s.r.a, w, s.r).(a := w), U16(s.pc + 1), s.mem, s.clk + 2, s.info)
  }

  function ExecWrite(op: WriteOp, m: Mode, p1: byte, p2: word, s: Cpu): Cpu {
    Cpu(s.r, U16(s.pc + Length(m)), s.mem[EffectiveAddress(m, s.r, s.mem, p1, p2) := Stored(op, s.r)], s.clk + WriteCycles(m), s.info)
  }

  function ExecHigh(op: HighOp, m: Mode, p1: byte, p2: word, s: Cpu): Cpu {
    var base := HighBase(m, s.mem, p1, p2);
    Cpu(if op.SHS? then s.r.(sp := HighSource(op, s.r)) else s.r, U16(s.pc + Length(m)),
        s.mem[HighAddress(op, s.r, base, HighIndex(m, s.r)) := HighValue(op, s.r, base)], s.clk + WriteCycles(m), s.info)
  }

  function ExecImplied(op: ImpliedOp, s: Cpu): Cpu {
    var r' := ApplyImplied(op, s.r);
    Cpu(r', U16(s.pc + 1), s.mem, s.clk + 2, NoteI(s.info, s.r.f.i, r'.f.i))
  }

  function ExecBranch(t: Test, p1: byte, s: Cpu): Cpu {
    var next := U16(s.pc + 2);
    var dest := U16(next + Signed(p1));
    if !Holds(t, s.r.f) then s.(pc := next, clk := s.clk + 2)
    else if Hi(next) == Hi(dest) then s.(pc := dest, clk := s.clk + 3, info := s.info.(delaysInterrupt := true))
    else s.(pc := dest, clk := s.clk + 4)
  }

  /** JMP ($nnnn): the pointer's high byte is read without leaving its page. */
  function ExecJmpInd(p2: word, s: Cpu): Cpu {
    s.(pc := Word(s.mem[p2], s.mem[Word(Lo(p2 + 1), Hi(p2))]), clk := s.clk + 5)
  }

  /** JSR pushes before it reads the high byte of its target. */
  function ExecJsr(p1: byte, s: Cpu): Cpu {
    var ret := U16(s.pc + 2);
    var mem := Push(Push(s.mem, s.r.sp, Hi(ret)), U8(s.r.sp - 1), Lo(ret));
    Cpu(s.r.(sp := U8(s.r.sp - 2)), Word(p1, mem[ret]), mem, s.clk + 6, s.info)
  }

  /** The byte `k` pulls from now. */
  function Pulled(s: Cpu, k: nat): byte {
    s.mem[0x100 + U8(s.r.sp + k)]
  }

  function ExecRts(s: Cpu): Cpu {
    s.(r := s.r.(sp := U8(s.r.sp + 2)), pc := U16(Word(Pulled(s, 1), Pulled(s, 2)) + 1), clk := s.clk + 6)
  }

  function ExecRti(s: Cpu): Cpu {
    s.(r := s.r.(sp := U8(s.r.sp + 3), f := FlagsOf(Pulled(s, 1))), pc := Word(Pulled(s, 2), Pulled(s, 3)), clk := s.clk + 6)
  }

  function ExecPush(v: byte, s: Cpu): Cpu {
    s.(r := s.r.(sp := U8(s.r.sp - 1)), mem := Push(s.mem, s.r.sp, v), pc := U16(s.pc + 1), clk := s.clk + 3)
  }

  function ExecPla(s: Cpu): Cpu {
    s.(r := SetA(s.r, Pulled(s, 1)).(sp := U8(s.r.sp + 1)), pc := U16(s.pc + 1), clk := s.clk + 4)
  }

  function ExecPlp(s: Cpu): Cpu {
    var f := FlagsOf(Pulled(s, 1));
    s.(r := s.r.(sp := U8(s.r.sp + 1), f := f), pc := U16(s.pc + 1), clk := s.clk + 4, info := NoteI(s.info, s.r.f.i, f.i))
  }

  /** Registers, PC, memory and cycles after instruction `i` with operand bytes `p1`, `p2`.
      `nmi` matters to BRK alone: a pending NMI takes over its vector. */
  function Execute(i: Instr, p1: byte, p2: word, nmi: bool, s: Cpu): Cpu
    requires !i.Jam?
  {
    match i
    case Read(op, m) => ExecRead(op, m, p1, p2, s)
    case Modify(op, m) => ExecModify(op, m, p1, p2, s)
    case ModifyA(op) => ExecModifyA(op, s)
    case Write(op, m) => ExecWrite(op, m, p1, p2, s)
    case High(op, m) => ExecHigh(op, m, p1, p2, s)
    case Implied(op) => ExecImplied(op, s)
    case Branch(t) => ExecBranch(t, p1, s)
    case Jmp => s.(pc := p2, clk := s.clk + 3)
    case JmpInd => ExecJmpInd(p2, s)
    case Jsr => ExecJsr(p1, s)
    case Rts => ExecRts(s)
    case Rti => ExecRti(s)
    case Brk => EnterHandler(s, U16(s.pc + 2), true, nmi)
    case Pha => ExecPush(s.r.a, s)
    case Php => ExecPush(StatusByte(s.r.f.(b := true)), s)
    case Pla => ExecPla(s)
    case Plp => ExecPlp(s)
  }

  function Opcode(s: Cpu): byte {
    s.mem[s.pc]
  }

  predicate Jammed(s: Cpu) {
    Decode(Opcode(s)).Jam?
  }

  /** One instruction. */
  function Step(s: Cpu, nmi: bool): Cpu
    requires !Jammed(s)
  {
    var p1 := s.mem[U16(s.pc + 1)];
    Execute(Decode(Opcode(s)), p1, Word(p1, s.mem[U16(s.pc + 2)]), nmi, s.(info := OpInfo(Opcode(s), false, false, false)))
  }

  // ----- Runs -----

  /** What the outside decides: an interrupt is taken, or the next opcode executes. */
  datatype Event = TakeInterrupt(nmi: bool) | TakeOpcode(nmi: bool)

  predicate Runnable(s: Cpu, es: seq<Event>)
    decreases |es|
  {
    es != [] ==>
      (es[0].TakeOpcode? ==> !Jammed(s)) &&
      Runnable(React(s, es[0]), es[1..])
  }

  /** A jammed processor is not executed further; it keeps its state here. */
  function React(s: Cpu, e: Event): Cpu {
    match e
    case TakeInterrupt(nmi) => Interrupt(s, nmi)
    case TakeOpcode(nmi) => if Jammed(s) then s else Step(s, nmi)
  }

  function Run(s: Cpu, es: seq<Event>): Cpu
    decreases |es|
  {
    if es == [] then s else Run(React(s, es[0]), es[1..])
  }
}
