/** What every 65816 opcode does to the registers and to memory: the reference for the core
    (vice/src/65816core.c).

    The processor is a mode machine.  In emulation mode the stack lies in page one; in
    emulation mode or with the X flag set the index registers are eight bits wide.  `ModeOk`
    states both. */
module Isa65816 {
  import opened Bytes
  import Isa6510
  import CmosAlu

  /** Sixteen megabytes. */
  type Ram24 = m: seq<byte> | |m| == 0x100_0000 witness seq(0x100_0000, _ => 0)

  /** `reg_p` by its bits; bit 0x10 is X in native mode and B in emulation mode. */
  datatype P = P(v: bool, m: bool, x: bool, d: bool, i: bool, c: bool)

  /** The registers, with the flags N and Z that the core keeps in lazy form. */
  datatype Regs = Regs(c: word, x: word, y: word, sp: word, dpr: word, pbr: byte, dbr: byte, pc: word, emul: bool, p: P,
                       n: bool, z: bool)

  datatype Machine = Machine(r: Regs, mem: Ram24)

  /** A 24-bit address. */
  function Long(a: int): (r: nat)
    ensures r < 0x100_0000
    ensures 0 <= a < 0x100_0000 ==> r == a
  {
    a % 0x100_0000
  }

  /** The accumulator and memory operands are eight bits wide. */
  predicate Memory8(r: Regs) {
    r.emul || r.p.m
  }

  /** The index registers are eight bits wide. */
  predicate Index8(r: Regs) {
    r.emul || r.p.x
  }

  /** The global invariant of the mode machine. */
  predicate ModeOk(r: Regs) {
    (r.emul ==> 0x100 <= r.sp <= 0x1ff) && (Index8(r) ==> r.x < 0x100 && r.y < 0x100)
  }

  function StatusP(s: byte): P {
    P(Bit6(s), Bit5(s), (s / 0x10) % 2 == 1, (s / 8) % 2 == 1, (s / 4) % 2 == 1, s % 2 == 1)
  }

  function PValue(p: P): nat {
    (if p.v then 0x40 else 0) + (if p.x then 0x10 else 0) + (if p.d then 8 else 0) + (if p.i then 4 else 0) + (if p.c then 1 else 0)
  }

  /** The status register as it is pushed. */
  function StatusByte(r: Regs): byte {
    PValue(r.p) + (if Memory8(r) then 0x20 else 0) + (if r.n then 0x80 else 0) + (if r.z then 2 else 0)
  }

  /** A status register taken from the stack; a set X cuts the index registers. */
  function WithStatus(r: Regs, s: byte): Regs {
    var q := r.(p := StatusP(s), n := s >= 0x80, z := (s / 2) % 2 == 1);
    if Index8(q) then q.(x := U8(q.x), y := U8(q.y)) else q
  }

  // ----- Values of either width -----

  function SetNz(r: Regs, v: word, bits8: bool): Regs {
    r.(n := if bits8 then v >= 0x80 else v >= 0x8000, z := v == 0)
  }

  /** A result into the accumulator; the high byte B stays with eight bits. */
  function SetA(r: Regs, v: word, bits8: bool): Regs
    requires bits8 ==> v < 0x100
  {
    SetNz(r.(c := if bits8 then Word(v, Hi(r.c)) else v), v, bits8)
  }

  function SetX(r: Regs, v: word): Regs {
    SetNz(r.(x := v), v, Index8(r))
  }

  function SetY(r: Regs, v: word): Regs {
    SetNz(r.(y := v), v, Index8(r))
  }

  /** A value cut to eight bits or left as it is. */
  function Cut(v: word, bits8: bool): word {
    if bits8 then U8(v) else v
  }

  /** The accumulator in the current width. */
  function A(r: Regs): word {
    if Memory8(r) then Lo(r.c) else r.c
  }

  function Skip(r: Regs, k: int): Regs {
    r.(pc := U16(r.pc + k))
  }

  // ----- Operands -----

  /** An operand byte, `k` bytes after the opcode, with a 16-bit program counter. */
  function OperandAt(s: Machine, k: nat): byte {
    s.mem[U16(s.r.pc + k) + 0x1_0000 * s.r.pbr]
  }

  function OperandWord(s: Machine): word {
    Word(OperandAt(s, 1), OperandAt(s, 2))
  }

  function Bank0(mem: Ram24, a: int): byte {
    mem[U16(a)]
  }

  /** A pointer in bank 0. */
  function Word0(mem: Ram24, a: int): word {
    Word(Bank0(mem, a), Bank0(mem, a + 1))
  }

  /** The addressing modes with an operand in memory. */
  datatype AddrMode =
    | DIRECT_PAGE | DIRECT_PAGE_X | DIRECT_PAGE_Y | INDIRECT | INDIRECT_X | INDIRECT_Y | INDIRECT_LONG | INDIRECT_LONG_Y
    | ABS | ABS_X | ABS_Y | ABS_LONG | ABS_LONG_X | STACK_REL | STACK_REL_Y

  /** Operand sources of the read opcodes, and of the read-modify-write ones. */
  datatype Source = IMMEDIATE | MEMORY(mode: AddrMode)
  datatype Target = ACCU | PLACE(mode: AddrMode)

  function ModeLength(mode: AddrMode): nat {
    match mode
    case ABS_LONG | ABS_LONG_X => 4
    case ABS | ABS_X | ABS_Y => 3
    case _ => 2
  }

  /** Emulation mode keeps the wrap of the older processor in a direct page that is aligned. */
  predicate OldPage(r: Regs) {
    r.emul && r.dpr % 0x100 == 0
  }

  /** $ff,r. */
  function DirectIndexed(oldPage: bool, dpr: word, p1: byte, index: word): word {
    if oldPage then U16(U8(p1 + index) + dpr) else U16(p1 + index + dpr)
  }

  /** ($ff): the second byte wraps inside an aligned page. */
  function DirectPointer(oldPage: bool, mem: Ram24, dpr: word, p1: byte): word {
    if oldPage && p1 == 0xff then Word(Bank0(mem, p1 + dpr), mem[dpr]) else Word0(mem, p1 + dpr)
  }

  /** ($ff,x). */
  function DirectPointerX(oldPage: bool, mem: Ram24, dpr: word, p1: byte, x: word): word {
    if oldPage then Word(mem[Long(U8(p1 + x) + dpr)], mem[Long(U8(p1 + x + 1) + dpr)]) else Word0(mem, p1 + x + dpr)
  }

  /** [$ff]. */
  function LongPointer(mem: Ram24, dpr: word, p1: byte): (a: nat)
    ensures a < 0x100_0000
  {
    var bank: int := Bank0(mem, p1 + dpr + 2);
    Word0(mem, p1 + dpr) + 0x1_0000 * bank
  }

  /** The addresses of the low and the high byte of an operand. */
  datatype Place = Place(lo: nat, hi: nat)

  /** Operands in bank 0 wrap inside it; all others run on into the next bank. */
  function InBank0(a: int): Place {
    Place(U16(a), U16(a + 1))
  }

  function Anywhere(a: int): Place {
    Place(Long(a), Long(a + 1))
  }

  function Effective(mode: AddrMode, s: Machine): (p: Place)
    ensures p.lo < 0x100_0000 && p.hi < 0x100_0000
  {
    var r, p1 := s.r, OperandAt(s, 1);
    var data, wrap := 0x1_0000 * r.dbr, OldPage(r);
    match mode
    case DIRECT_PAGE => InBank0(p1 + r.dpr)
    case DIRECT_PAGE_X => InBank0(DirectIndexed(wrap, r.dpr, p1, r.x))
    case DIRECT_PAGE_Y => InBank0(DirectIndexed(wrap, r.dpr, p1, r.y))
    case INDIRECT => Anywhere(DirectPointer(wrap, s.mem, r.dpr, p1) + data)
    case INDIRECT_X => Anywhere(DirectPointerX(wrap, s.mem, r.dpr, p1, r.x) + data)
    case INDIRECT_Y => Anywhere(DirectPointer(wrap, s.mem, r.dpr, p1) + r.y + data)
    case INDIRECT_LONG => Anywhere(LongPointer(s.mem, r.dpr, p1))
    case INDIRECT_LONG_Y => Anywhere(LongPointer(s.mem, r.dpr, p1) + r.y)
    case ABS => Anywhere(OperandWord(s) + data)
    case ABS_X => Anywhere(OperandWord(s) + r.x + data)
    case ABS_Y => Anywhere(OperandWord(s) + r.y + data)
    case ABS_LONG => Anywhere(OperandWord(s) + 0x1_0000 * OperandAt(s, 3))
    case ABS_LONG_X => Anywhere(OperandWord(s) + 0x1_0000 * OperandAt(s, 3) + r.x)
    case STACK_REL => InBank0(p1 + r.sp)
    case STACK_REL_Y => Anywhere(Word0(s.mem, p1 + r.sp) + r.y + data)
  }

  function Fetched(mem: Ram24, p: Place, bits8: bool): (v: word)
    requires p.lo < 0x100_0000 && p.hi < 0x100_0000
    ensures bits8 ==> v < 0x100
  {
    if bits8 then mem[p.lo] else Word(mem[p.lo], mem[p.hi])
  }

  function Operand(source: Source, bits8: bool, s: Machine): (v: word)
    ensures bits8 ==> v < 0x100
  {
    match source
    case IMMEDIATE => if bits8 then OperandAt(s, 1) else OperandWord(s)
    case MEMORY(mode) => Fetched(s.mem, Effective(mode, s), bits8)
  }

  function Length(source: Source, bits8: bool): nat {
    match source
    case IMMEDIATE => if bits8 then 2 else 3
    case MEMORY(mode) => ModeLength(mode)
  }

  /** A store, the low byte first. */
  function Stored(mem: Ram24, p: Place, v: word, bits8: bool): Ram24
    requires p.lo < 0x100_0000 && p.hi < 0x100_0000
  {
    if bits8 then mem[p.lo := Lo(v)] else mem[p.lo := Lo(v)][p.hi := Hi(v)]
  }

  function Before(target: Target, bits8: bool, s: Machine): (v: word)
    ensures bits8 ==> v < 0x100
  {
    match target
    case ACCU => if bits8 then Lo(s.r.c) else s.r.c
    case PLACE(mode) => Fetched(s.mem, Effective(mode, s), bits8)
  }

  /** The result of a read-modify-write opcode put back; the high byte goes out first. */
  function After(target: Target, v: word, bits8: bool, s: Machine): Machine {
    match target
    case ACCU => s.(r := Skip(s.r, 1).(c := if bits8 then Word(Lo(v), Hi(s.r.c)) else v))
    case PLACE(mode) =>
      var p := Effective(mode, s);
      Machine(Skip(s.r, ModeLength(mode)), if bits8 then s.mem[p.lo := Lo(v)] else s.mem[p.hi := Hi(v)][p.lo := Lo(v)])
  }

  /** The result with its N and Z. */
  function Modified(target: Target, v: word, bits8: bool, s: Machine): (t: Machine)
    ensures t.r.p == s.r.p && t.r.emul == s.r.emul && t.r.x == s.r.x && t.r.y == s.r.y && t.r.sp == s.r.sp
  {
    var u := After(target, v, bits8, s);
    u.(r := SetNz(u.r, v, bits8))
  }

  // ----- Accumulator and memory -----

  function ExecLda(source: Source, s: Machine): (out: Machine)
    ensures ModeOk(s.r) ==> ModeOk(out.r)
  {
    var b := Memory8(s.r);
    s.(r := SetA(Skip(s.r, Length(source, b)), Operand(source, b, s), b))
  }

  /** AND, EOR and ORA, byte by byte. */
  function ExecLogical(op: (byte, byte) -> byte, source: Source, s: Machine): (out: Machine)
    ensures ModeOk(s.r) ==> ModeOk(out.r)
  {
    var b := Memory8(s.r);
    var v := Operand(source, b, s);
    var low := op(Lo(s.r.c), Lo(v));
    s.(r := SetA(Skip(s.r, Length(source, b)), if b then low else Word(low, op(Hi(s.r.c), Hi(v))), b))
  }

  function ExecAdc(source: Source, s: Machine): (out: Machine)
    ensures ModeOk(s.r) ==> ModeOk(out.r)
  {
    var b := Memory8(s.r);
    var v := Operand(source, b, s);
    var r := Skip(s.r, Length(source, b));
    if b then
      var t := CmosAlu.Cmos(Isa6510.Adc(s.r.p.d, Lo(s.r.c), v, s.r.p.c));
      s.(r := SetA(r.(p := r.p.(v := t.v, c := t.c)), t.r, true))
    else
      var t := CmosAlu.WideAdc(s.r.p.d, s.r.c, v, s.r.p.c);
      s.(r := SetA(r.(p := r.p.(v := t.v, c := t.c)), t.r, false))
  }

  function ExecSbc(source: Source, s: Machine): (out: Machine)
    ensures ModeOk(s.r) ==> ModeOk(out.r)
  {
    var b := Memory8(s.r);
    var v := Operand(source, b, s);
    var r := Skip(s.r, Length(source, b));
    if b then
      var t := CmosAlu.Cmos(Isa6510.Sbc(s.r.p.d, Lo(s.r.c), v, s.r.p.c));
      s.(r := SetA(r.(p := r.p.(v := t.v, c := t.c)), t.r, true))
    else
      var t := CmosAlu.WideSbc(s.r.p.d, s.r.c, v, s.r.p.c);
      s.(r := SetA(r.(p := r.p.(v := t.v, c := t.c)), t.r, false))
  }

  /** CMP, CPX and CPY: the flags of a subtraction. */
  function ExecCompare(reg: word, bits8: bool, source: Source, s: Machine): (out: Machine)
    ensures ModeOk(s.r) ==> ModeOk(out.r)
  {
    var v := Operand(source, bits8, s);
    var r := Skip(s.r, Length(source, bits8));
    s.(r := SetNz(r.(p := r.p.(c := reg >= v)), if bits8 then U8(reg - v) else U16(reg - v), bits8))
  }

  /** Whether a value has no bit in common with the accumulator. */
  predicate Misses(c: word, v: word, bits8: bool) {
    And(Lo(v), Lo(c)) == 0 && (bits8 || And(Hi(v), Hi(c)) == 0)
  }

  function ExecBitImm(s: Machine): (out: Machine)
    ensures ModeOk(s.r) ==> ModeOk(out.r)
  {
    var b := Memory8(s.r);
    s.(r := Skip(s.r, Length(IMMEDIATE, b)).(z := Misses(s.r.c, Operand(IMMEDIATE, b, s), b)))
  }

  /** N and V from the operand's top bits, Z from the bits in common with the accumulator. */
  function BitTested(r: Regs, v: word, bits8: bool): Regs
    requires bits8 ==> v < 0x100
  {
    var top := if bits8 then v else Hi(v);
    r.(n := top >= 0x80, p := r.p.(v := Bit6(top)), z := Misses(r.c, v, bits8))
  }

  function ExecBit(mode: AddrMode, s: Machine): (out: Machine)
    ensures ModeOk(s.r) ==> ModeOk(out.r)
  {
    var b := Memory8(s.r);
    s.(r := BitTested(Skip(s.r, ModeLength(mode)), Operand(MEMORY(mode), b, s), b))
  }

  /** ASL and ROL. */
  function ExecShiftLeft(target: Target, rotate: bool, s: Machine): (out: Machine)
    ensures ModeOk(s.r) ==> ModeOk(out.r)
  {
    var b := Memory8(s.r);
    var v := Before(target, b, s);
    var t := 2 * v + Isa6510.Bit(rotate && s.r.p.c);
    var q := Modified(target, if b then U8(t) else U16(t), b, s);
    q.(r := q.r.(p := s.r.p.(c := if b then v >= 0x80 else v >= 0x8000)))
  }

  /** LSR and ROR. */
  function ExecShiftRight(target: Target, rotate: bool, s: Machine): (out: Machine)
    ensures ModeOk(s.r) ==> ModeOk(out.r)
  {
    var b := Memory8(s.r);
    var v := Before(target, b, s);
    var q := Modified(target, v / 2 + Isa6510.Bit(rotate && s.r.p.c) * (if b then 0x80 else 0x8000), b, s);
    q.(r := q.r.(p := s.r.p.(c := v % 2 == 1)))
  }

  /** INC and DEC. */
  function ExecCount(target: Target, delta: int, s: Machine): (out: Machine)
    ensures ModeOk(s.r) ==> ModeOk(out.r)
  {
    var b := Memory8(s.r);
    var v := Before(target, b, s);
    Modified(target, if b then U8(v + delta) else U16(v + delta), b, s)
  }

  /** TSB and TRB. */
  function ExecTestAndSet(target: Target, setting: bool, s: Machine): (out: Machine)
    ensures ModeOk(s.r) ==> ModeOk(out.r)
  {
    var b := Memory8(s.r);
    var v := Before(target, b, s);
    var lo := if setting then Or(Lo(v), Lo(s.r.c)) else And(Lo(v), 0xff - Lo(s.r.c));
    var hi := if setting then Or(Hi(v), Hi(s.r.c)) else And(Hi(v), 0xff - Hi(s.r.c));
    var q := After(target, if b then lo else Word(lo, hi), b, s);
    q.(r := q.r.(z := Misses(s.r.c, v, b)))
  }

  /** STA, STX, STY and STZ. */
  function ExecStore(v: word, bits8: bool, mode: AddrMode, s: Machine): (out: Machine)
    ensures ModeOk(s.r) ==> ModeOk(out.r)
  {
    Machine(Skip(s.r, ModeLength(mode)), Stored(s.mem, Effective(mode, s), v, bits8))
  }

  // ----- Index registers and transfers -----

  function ExecLdx(source: Source, s: Machine): (out: Machine)
    ensures ModeOk(s.r) ==> ModeOk(out.r)
  {
    var b := Index8(s.r);
    s.(r := SetX(Skip(s.r, Length(source, b)), Operand(source, b, s)))
  }

  function ExecLdy(source: Source, s: Machine): (out: Machine)
    ensures ModeOk(s.r) ==> ModeOk(out.r)
  {
    var b := Index8(s.r);
    s.(r := SetY(Skip(s.r, Length(source, b)), Operand(source, b, s)))
  }

  /** TAX, TSX and, with a register of its own plus or minus one, INX and DEX. */
  function ExecToX(v: int, s: Machine): (out: Machine)
    ensures ModeOk(s.r) ==> ModeOk(out.r)
  {
    s.(r := SetX(Skip(s.r, 1), Cut(U16(v), Index8(s.r))))
  }

  function ExecToY(v: int, s: Machine): (out: Machine)
    ensures ModeOk(s.r) ==> ModeOk(out.r)
  {
    s.(r := SetY(Skip(s.r, 1), Cut(U16(v), Index8(s.r))))
  }

  /** TXA and TYA. */
  function ExecToA(v: word, s: Machine): (out: Machine)
    ensures ModeOk(s.r) ==> ModeOk(out.r)
  {
    var b := Memory8(s.r);
    s.(r := SetA(Skip(s.r, 1), Cut(v, b), b))
  }

  /** TDC and TSC. */
  function ExecToC(v: word, s: Machine): (out: Machine)
    ensures ModeOk(s.r) ==> ModeOk(out.r)
  {
    s.(r := SetA(Skip(s.r, 1), v, false))
  }

  function ExecTcd(s: Machine): (out: Machine)
    ensures ModeOk(s.r) ==> ModeOk(out.r)
  {
    s.(r := SetNz(Skip(s.r, 1).(dpr := s.r.c), s.r.c, false))
  }

  /** TCS and TXS: in emulation mode the stack stays in page one. */
  function ExecToSp(v: word, s: Machine): (out: Machine)
    ensures ModeOk(s.r) ==> ModeOk(out.r)
  {
    s.(r := Skip(s.r, 1).(sp := if s.r.emul then 0x100 + Lo(v) else v))
  }

  function ExecXba(s: Machine): (out: Machine)
    ensures ModeOk(s.r) ==> ModeOk(out.r)
  {
    s.(r := Skip(s.r, 1).(c := Word(Hi(s.r.c), Lo(s.r.c))))
  }

  // ----- Flags and modes -----

  /** CLC, SEC, CLI, SEI, CLV, CLD and SED. */
  function ExecFlag(p: P, s: Machine): (t: Machine)
    requires p.x == s.r.p.x
    ensures ModeOk(s.r) ==> ModeOk(t.r)
  {
    s.(r := Skip(s.r, 1).(p := p))
  }

  /** A flag under a mask bit that is set or not. */
  function Masked(on: bool, v: bool, kept: bool): bool {
    if on then v else kept
  }

  /** A bit of the mask. */
  predicate MaskBit(m: byte, k: nat) {
    match k
    case 0 => m % 2 == 1
    case 1 => (m / 2) % 2 == 1
    case 2 => (m / 4) % 2 == 1
    case 3 => (m / 8) % 2 == 1
    case 4 => (m / 0x10) % 2 == 1
    case 5 => (m / 0x20) % 2 == 1
    case 6 => (m / 0x40) % 2 == 1
    case _ => m >= 0x80
  }

  /** The status bits under the mask; M and X change only in native mode. */
  function MaskedP(m: byte, v: bool, wide: bool, p: P): P {
    P(Masked(MaskBit(m, 6), v, p.v), Masked(MaskBit(m, 5) && wide, v, p.m), Masked(MaskBit(m, 4) && wide, v, p.x),
      Masked(MaskBit(m, 3), v, p.d), Masked(MaskBit(m, 2), v, p.i), Masked(MaskBit(m, 0), v, p.c))
  }

  /** The registers under the mask: a newly set X cuts the index registers. */
  function UnderMask(m: byte, v: bool, r: Regs): (q: Regs)
    ensures q.pc == r.pc && q == r.(x := q.x, y := q.y, p := q.p, n := q.n, z := q.z)
    ensures ModeOk(r) ==> ModeOk(q)
  {
    var cut := v && !r.emul && MaskBit(m, 4);
    r.(p := MaskedP(m, v, !r.emul, r.p), n := Masked(MaskBit(m, 7), v, r.n), z := Masked(MaskBit(m, 1), v, r.z),
       x := Cut(r.x, cut), y := Cut(r.y, cut))
  }

  /** REP (`v` false) and SEP (`v` true). */
  function ExecRepSep(v: bool, s: Machine): (out: Machine)
    ensures ModeOk(s.r) ==> ModeOk(out.r)
  {
    s.(r := UnderMask(OperandAt(s, 1), v, Skip(s.r, 2)))
  }

  /** XCE: carry and mode change places.  Entering emulation mode cuts X, Y and SP and clears B; entering
      native mode sets M and X. */
  function ExecXce(s: Machine): (out: Machine)
    ensures ModeOk(s.r) ==> ModeOk(out.r)
  {
    var r := Skip(s.r, 1);
    if r.p.c == r.emul then s.(r := r)
    else if r.p.c then
      s.(r := r.(emul := true, p := r.p.(c := false, x := false), x := Lo(r.x), y := Lo(r.y), sp := 0x100 + Lo(r.sp)))
    else
      s.(r := r.(emul := false, p := r.p.(c := true, m := true, x := true)))
  }

  // ----- Stack -----

  /** PUSH of a byte: page one in emulation mode, anywhere in bank 0 otherwise. */
  function Pushed(s: Machine, v: byte): Machine {
    Machine(s.r.(sp := if s.r.emul then 0x100 + U8(s.r.sp - 1) else U16(s.r.sp - 1)), s.mem[s.r.sp := v])
  }

  /** The stack pointer after PULL. */
  function Popped(r: Regs): word {
    if r.emul then 0x100 + U8(r.sp + 1) else U16(r.sp + 1)
  }

  function Pulled(s: Machine): Machine {
    s.(r := s.r.(sp := Popped(s.r)))
  }

  /** The byte PULL delivers. */
  function Top(s: Machine): byte {
    s.mem[Popped(s.r)]
  }

  /** A 16-bit value, the high byte pushed first. */
  function PushedWord(s: Machine, v: word): Machine {
    Pushed(Pushed(s, Hi(v)), Lo(v))
  }

  function PulledWord(s: Machine): Machine {
    Pulled(Pulled(s))
  }

  function TopWord(s: Machine): word {
    Word(Top(s), Top(Pulled(s)))
  }

  /** A 16-bit value whose first byte goes out without the wrap of emulation mode. */
  function PushedLoose(s: Machine, v: word): Machine {
    Machine(s.r.(sp := if s.r.emul then 0x100 + U8(s.r.sp - 2) else U16(s.r.sp - 2)),
            s.mem[s.r.sp := Hi(v)][U16(s.r.sp - 1) := Lo(v)])
  }

  /** PHA, PHX, PHY, PHB, PHK and PHP. */
  function ExecPush(v: word, bits8: bool, s: Machine): (out: Machine)
    ensures ModeOk(s.r) ==> ModeOk(out.r)
  {
    var t := s.(r := Skip(s.r, 1));
    if bits8 then Pushed(t, Lo(v)) else PushedWord(t, v)
  }

  function ExecPhp(s: Machine): (out: Machine)
    ensures ModeOk(s.r) ==> ModeOk(out.r)
  {
    ExecPush(if s.r.emul then Or(StatusByte(s.r), 0x10) else StatusByte(s.r), true, s)
  }

  /** The machine and the value after a pull of either width. */
  function AfterPull(bits8: bool, s: Machine): Machine {
    var t := s.(r := Skip(s.r, 1));
    if bits8 then Pulled(t) else PulledWord(t)
  }

  function PullValue(bits8: bool, s: Machine): (v: word)
    ensures bits8 ==> v < 0x100
  {
    if bits8 then Top(s) else TopWord(s)
  }

  function ExecPla(s: Machine): (out: Machine)
    ensures ModeOk(s.r) ==> ModeOk(out.r)
  {
    var b := Memory8(s.r);
    var t := AfterPull(b, s);
    t.(r := SetA(t.r, PullValue(b, s), b))
  }

  function ExecPlx(s: Machine): (out: Machine)
    ensures ModeOk(s.r) ==> ModeOk(out.r)
  {
    var t := AfterPull(Index8(s.r), s);
    t.(r := SetX(t.r, PullValue(Index8(s.r), s)))
  }

  function ExecPly(s: Machine): (out: Machine)
    ensures ModeOk(s.r) ==> ModeOk(out.r)
  {
    var t := AfterPull(Index8(s.r), s);
    t.(r := SetY(t.r, PullValue(Index8(s.r), s)))
  }

  function ExecPlb(s: Machine): (out: Machine)
    ensures ModeOk(s.r) ==> ModeOk(out.r)
  {
    var t := AfterPull(true, s);
    t.(r := SetNz(t.r.(dbr := Top(s)), Top(s), true))
  }

  function ExecPlp(s: Machine): (out: Machine)
    ensures ModeOk(s.r) ==> ModeOk(out.r)
  {
    var t := AfterPull(true, s);
    t.(r := WithStatus(t.r, Top(s)))
  }

  function ExecPea(s: Machine): (out: Machine)
    ensures ModeOk(s.r) ==> ModeOk(out.r)
  {
    PushedLoose(s.(r := Skip(s.r, 3)), OperandWord(s))
  }

  function ExecPei(s: Machine): (out: Machine)
    ensures ModeOk(s.r) ==> ModeOk(out.r)
  {
    PushedLoose(s.(r := Skip(s.r, 2)), Word0(s.mem, OperandAt(s, 1) + s.r.dpr))
  }

  function ExecPer(s: Machine): (out: Machine)
    ensures ModeOk(s.r) ==> ModeOk(out.r)
  {
    PushedLoose(s.(r := Skip(s.r, 3)), U16(s.r.pc + 3 + OperandWord(s)))
  }

  function ExecPhd(s: Machine): (out: Machine)
    ensures ModeOk(s.r) ==> ModeOk(out.r)
  {
    PushedLoose(s.(r := Skip(s.r, 1)), s.r.dpr)
  }

  function ExecPld(s: Machine): (out: Machine)
    ensures ModeOk(s.r) ==> ModeOk(out.r)
  {
    var v := Word0(s.mem, s.r.sp + 1);
    s.(r := SetNz(Skip(s.r, 1).(dpr := v, sp := if s.r.emul then 0x100 + U8(s.r.sp + 2) else U16(s.r.sp + 2)), v, false))
  }

  // ----- Control flow -----

  function ExecBranch(cond: bool, s: Machine): (out: Machine)
    ensures ModeOk(s.r) ==> ModeOk(out.r)
  {
    s.(r := Skip(s.r, 2 + if cond then Signed(OperandAt(s, 1)) else 0))
  }

  function ExecBranchLong(s: Machine): (out: Machine)
    ensures ModeOk(s.r) ==> ModeOk(out.r)
  {
    s.(r := Skip(s.r, 3 + OperandWord(s)))
  }

  function ExecJmp(s: Machine): (out: Machine)
    ensures ModeOk(s.r) ==> ModeOk(out.r)
  {
    s.(r := s.r.(pc := OperandWord(s)))
  }

  function ExecJmpInd(s: Machine): (out: Machine)
    ensures ModeOk(s.r) ==> ModeOk(out.r)
  {
    s.(r := s.r.(pc := Word0(s.mem, OperandWord(s))))
  }

  function ExecJmpIndLong(s: Machine): (out: Machine)
    ensures ModeOk(s.r) ==> ModeOk(out.r)
  {
    s.(r := s.r.(pc := Word0(s.mem, OperandWord(s)), pbr := Bank0(s.mem, OperandWord(s) + 2)))
  }

  /** A pointer in the program bank. */
  function ProgramWord(mem: Ram24, pbr: byte, a: int): word {
    Word(mem[U16(a) + 0x1_0000 * pbr], mem[U16(a + 1) + 0x1_0000 * pbr])
  }

  function ExecJmpIndX(s: Machine): (out: Machine)
    ensures ModeOk(s.r) ==> ModeOk(out.r)
  {
    s.(r := s.r.(pc := ProgramWord(s.mem, s.r.pbr, OperandWord(s) + s.r.x)))
  }

  function ExecJmpLong(s: Machine): (out: Machine)
    ensures ModeOk(s.r) ==> ModeOk(out.r)
  {
    s.(r := s.r.(pc := OperandWord(s), pbr := OperandAt(s, 3)))
  }

  /** JSR leaves the address of its own last byte. */
  function ExecJsr(s: Machine): (out: Machine)
    ensures ModeOk(s.r) ==> ModeOk(out.r)
  {
    var t := PushedWord(s, U16(s.r.pc + 2));
    t.(r := t.r.(pc := OperandWord(s)))
  }

  /** The second operand byte is read after the return address has been stored. */
  function ExecJsrIndX(s: Machine): (out: Machine)
    ensures ModeOk(s.r) ==> ModeOk(out.r)
  {
    var t := PushedLoose(s.(r := Skip(s.r, 2)), U16(s.r.pc + 2));
    var a := Word(OperandAt(s, 1), t.mem[U16(s.r.pc + 2) + 0x1_0000 * s.r.pbr]);
    t.(r := t.r.(pc := ProgramWord(t.mem, s.r.pbr, a + s.r.x)))
  }

  function ExecRts(s: Machine): (out: Machine)
    ensures ModeOk(s.r) ==> ModeOk(out.r)
  {
    var t := PulledWord(s);
    t.(r := t.r.(pc := U16(TopWord(s) + 1)))
  }

  function ExecRti(s: Machine): (out: Machine)
    ensures ModeOk(s.r) ==> ModeOk(out.r)
  {
    var t := Pulled(s);
    var u := t.(r := WithStatus(t.r, Top(s)));
    var w := PulledWord(u);
    var x := w.(r := w.r.(pc := TopWord(u)));
    if x.r.emul then x else
      var y := Pulled(x);
      y.(r := y.r.(pbr := Top(x)))
  }

  /** The program counter and the status, after which D is clear and I set. */
  function HandlerFrame(s: Machine): (t: Machine)
    ensures t.r == s.r.(sp := t.r.sp, p := s.r.p.(d := false, i := true))
    ensures s.r.emul ==> 0x100 <= t.r.sp <= 0x1ff
  {
    var s1 := PushedWord(s, s.r.pc);
    var s2 := Pushed(s1, StatusByte(s1.r));
    s2.(r := s2.r.(p := s2.r.p.(d := false, i := true)))
  }

  /** BRK, COP, IRQ and NMI: the frame, with B told apart in emulation mode and the program bank first in
      native mode, and the vector of the mode. */
  function EnterHandler(b: bool, emulVector: word, nativeVector: word, s: Machine): (out: Machine)
    ensures ModeOk(s.r) ==> ModeOk(out.r)
  {
    var f := HandlerFrame(if s.r.emul then s.(r := s.r.(p := s.r.p.(x := b))) else Pushed(s, s.r.pbr));
    var vector := if s.r.emul then emulVector else nativeVector;
    f.(r := f.r.(pbr := 0, pc := Word(f.mem[vector], f.mem[vector + 1])))
  }

  function ExecBrk(emulVector: word, nativeVector: word, s: Machine): (out: Machine)
    ensures ModeOk(s.r) ==> ModeOk(out.r)
  {
    EnterHandler(true, emulVector, nativeVector, s.(r := Skip(s.r, 2)))
  }

  /** Three dummy pulls lower the stack pointer by three; accumulator, N, Z, V, M and C survive. */
  function ResetOf(s: Machine): (out: Machine)
    ensures ModeOk(out.r)
  {
    var r := s.r;
    s.(r := r.(emul := true, x := U8(r.x), y := U8(r.y), sp := 0x100 + U8(r.sp - 3), dpr := 0, dbr := 0, pbr := 0,
               p := r.p.(x := false, d := false, i := true), pc := Word(s.mem[0xfffc], s.mem[0xfffd])))
  }

  // ----- Far calls -----

  /** JSL: the program bank and the return address less one are stored below one another, without
      the wrap of emulation mode; only the last step brings the stack pointer back to page one.
      The target bank is read after the first store. */
  function FarCall(s: Machine): (out: Machine)
    ensures ModeOk(s.r) ==> ModeOk(out.r)
  {
    var ret := U16(s.r.pc + 3);
    var target := Word(OperandAt(s, 1), OperandAt(s, 2));
    var m1 := s.mem[s.r.sp := s.r.pbr];
    var bank := m1[ret + 0x1_0000 * s.r.pbr];
    var m2 := m1[U16(s.r.sp - 1) := Hi(ret)];
    var m3 := m2[U16(s.r.sp - 2) := Lo(ret)];
    Machine(s.r.(pc := target, pbr := bank,
                 sp := if s.r.emul then 0x100 + U8(s.r.sp - 3) else U16(s.r.sp - 3)), m3)
  }

  /** RTL: three bytes from above the stack pointer, again without the wrap. */
  function FarReturn(s: Machine): (out: Machine)
    ensures ModeOk(s.r) ==> ModeOk(out.r)
  {
    var lo, hi, bank := s.mem[U16(s.r.sp + 1)], s.mem[U16(s.r.sp + 2)], s.mem[U16(s.r.sp + 3)];
    s.(r := s.r.(pc := U16(Word(lo, hi) + 1), pbr := bank,
                 sp := if s.r.emul then 0x100 + U8(s.r.sp + 3) else U16(s.r.sp + 3)))
  }

  // ----- Block move -----

  /** The operand bytes of MVN and MVP.  All but the last round read them without advancing the
      program counter, and then the address is not cut to 16 bits. */
  function DestBank(s: Machine): byte {
    if s.r.c == 0 then OperandAt(s, 1) else s.mem[Long(s.r.pc + 1 + 0x1_0000 * s.r.pbr)]
  }

  function SourceBank(s: Machine): byte {
    if s.r.c == 0 then OperandAt(s, 2) else s.mem[Long(s.r.pc + 2 + 0x1_0000 * s.r.pbr)]
  }

  /** An index register one further, in its width. */
  function Moved(r: Regs, i: word, up: bool): word {
    if Index8(r) then U8(i + (if up then 1 else -1)) else U16(i + (if up then 1 else -1))
  }

  /** One round of MVN (`up`) or MVP. */
  function MoveStep(up: bool, s: Machine): (out: Machine)
    ensures ModeOk(s.r) ==> ModeOk(out.r)
  {
    var from := s.r.x + 0x1_0000 * SourceBank(s);
    var to := s.r.y + 0x1_0000 * DestBank(s);
    Machine(s.r.(c := U16(s.r.c - 1), x := Moved(s.r, s.r.x, up), y := Moved(s.r, s.r.y, up), dbr := DestBank(s),
                 pc := if s.r.c == 0 then U16(s.r.pc + 3) else s.r.pc),
            s.mem[to := s.mem[from]])
  }

  function ExecNop(size: nat, s: Machine): (out: Machine)
    ensures ModeOk(s.r) ==> ModeOk(out.r)
  {
    s.(r := Skip(s.r, size))
  }

  // ----- The opcode matrix -----

  function ExecuteRow0(p0: byte, s: Machine): (out: Machine)
    requires 0x00 <= p0 <= 0x0f
    ensures ModeOk(s.r) ==> ModeOk(out.r)
  {
    match p0
    case 0x00 => ExecBrk(0xfffe, 0xffe6, s)
    case 0x01 => ExecLogical(Or, MEMORY(INDIRECT_X), s)
    case 0x02 => ExecBrk(0xfff4, 0xffe4, s)
    case 0x03 => ExecLogical(Or, MEMORY(STACK_REL), s)
    case 0x04 => ExecTestAndSet(PLACE(DIRECT_PAGE), true, s)
    case 0x05 => ExecLogical(Or, MEMORY(DIRECT_PAGE), s)
    case 0x06 => ExecShiftLeft(PLACE(DIRECT_PAGE), false, s)
    case 0x07 => ExecLogical(Or, MEMORY(INDIRECT_LONG), s)
    case 0x08 => ExecPhp(s)
    case 0x09 => ExecLogical(Or, IMMEDIATE, s)
    case 0x0a => ExecShiftLeft(ACCU, false, s)
    case 0x0b => ExecPhd(s)
    case 0x0c => ExecTestAndSet(PLACE(ABS), true, s)
    case 0x0d => ExecLogical(Or, MEMORY(ABS), s)
    case 0x0e => ExecShiftLeft(PLACE(ABS), false, s)
    case _ => ExecLogical(Or, MEMORY(ABS_LONG), s)
  }

  function ExecuteRow1(p0: byte, s: Machine): (out: Machine)
    requires 0x10 <= p0 <= 0x1f
    ensures ModeOk(s.r) ==> ModeOk(out.r)
  {
    match p0
    case 0x10 => ExecBranch(!s.r.n, s)
    case 0x11 => ExecLogical(Or, MEMORY(INDIRECT_Y), s)
    case 0x12 => ExecLogical(Or, MEMORY(INDIRECT), s)
    case 0x13 => ExecLogical(Or, MEMORY(STACK_REL_Y), s)
    case 0x14 => ExecTestAndSet(PLACE(DIRECT_PAGE), false, s)
    case 0x15 => ExecLogical(Or, MEMORY(DIRECT_PAGE_X), s)
    case 0x16 => ExecShiftLeft(PLACE(DIRECT_PAGE_X), false, s)
    case 0x17 => ExecLogical(Or, MEMORY(INDIRECT_LONG_Y), s)
    case 0x18 => ExecFlag(s.r.p.(c := false), s)
    case 0x19 => ExecLogical(Or, MEMORY(ABS_Y), s)
    case 0x1a => ExecCount(ACCU, 1, s)
    case 0x1b => ExecToSp(s.r.c, s)
    case 0x1c => ExecTestAndSet(PLACE(ABS), false, s)
    case 0x1d => ExecLogical(Or, MEMORY(ABS_X), s)
    case 0x1e => ExecShiftLeft(PLACE(ABS_X), false, s)
    case _ => ExecLogical(Or, MEMORY(ABS_LONG_X), s)
  }

  function ExecuteRow2(p0: byte, s: Machine): (out: Machine)
    requires 0x20 <= p0 <= 0x2f
    ensures ModeOk(s.r) ==> ModeOk(out.r)
  {
    match p0
    case 0x20 => ExecJsr(s)
    case 0x21 => ExecLogical(And, MEMORY(INDIRECT_X), s)
    case 0x22 => FarCall(s)
    case 0x23 => ExecLogical(And, MEMORY(STACK_REL), s)
    case 0x24 => ExecBit(DIRECT_PAGE, s)
    case 0x25 => ExecLogical(And, MEMORY(DIRECT_PAGE), s)
    case 0x26 => ExecShiftLeft(PLACE(DIRECT_PAGE), true, s)
    case 0x27 => ExecLogical(And, MEMORY(INDIRECT_LONG), s)
    case 0x28 => ExecPlp(s)
    case 0x29 => ExecLogical(And, IMMEDIATE, s)
    case 0x2a => ExecShiftLeft(ACCU, true, s)
    case 0x2b => ExecPld(s)
    case 0x2c => ExecBit(ABS, s)
    case 0x2d => ExecLogical(And, MEMORY(ABS), s)
    case 0x2e => ExecShiftLeft(PLACE(ABS), true, s)
    case _ => ExecLogical(And, MEMORY(ABS_LONG), s)
  }

  function ExecuteRow3(p0: byte, s: Machine): (out: Machine)
    requires 0x30 <= p0 <= 0x3f
    ensures ModeOk(s.r) ==> ModeOk(out.r)
  {
    match p0
    case 0x30 => ExecBranch(s.r.n, s)
    case 0x31 => ExecLogical(And, MEMORY(INDIRECT_Y), s)
    case 0x32 => ExecLogical(And, MEMORY(INDIRECT), s)
    case 0x33 => ExecLogical(And, MEMORY(STACK_REL_Y), s)
    case 0x34 => ExecBit(DIRECT_PAGE_X, s)
    case 0x35 => ExecLogical(And, MEMORY(DIRECT_PAGE_X), s)
    case 0x36 => ExecShiftLeft(PLACE(DIRECT_PAGE_X), true, s)
    case 0x37 => ExecLogical(And, MEMORY(INDIRECT_LONG_Y), s)
    case 0x38 => ExecFlag(s.r.p.(c := true), s)
    case 0x39 => ExecLogical(And, MEMORY(ABS_Y), s)
    case 0x3a => ExecCount(ACCU, -1, s)
    case 0x3b => ExecToC(s.r.sp, s)
    case 0x3c => ExecBit(ABS_X, s)
    case 0x3d => ExecLogical(And, MEMORY(ABS_X), s)
    case 0x3e => ExecShiftLeft(PLACE(ABS_X), true, s)
    case _ => ExecLogical(And, MEMORY(ABS_LONG_X), s)
  }

  function ExecuteRow4(p0: byte, s: Machine): (out: Machine)
    requires 0x40 <= p0 <= 0x4f
    ensures ModeOk(s.r) ==> ModeOk(out.r)
  {
    match p0
    case 0x40 => ExecRti(s)
    case 0x41 => ExecLogical(Xor, MEMORY(INDIRECT_X), s)
    case 0x42 => ExecNop(2, s)
    case 0x43 => ExecLogical(Xor, MEMORY(STACK_REL), s)
    case 0x44 => MoveStep(false, s)
    case 0x45 => ExecLogical(Xor, MEMORY(DIRECT_PAGE), s)
    case 0x46 => ExecShiftRight(PLACE(DIRECT_PAGE), false, s)
    case 0x47 => ExecLogical(Xor, MEMORY(INDIRECT_LONG), s)
    case 0x48 => ExecPush(s.r.c, Memory8(s.r), s)
    case 0x49 => ExecLogical(Xor, IMMEDIATE, s)
    case 0x4a => ExecShiftRight(ACCU, false, s)
    case 0x4b => ExecPush(s.r.pbr, true, s)
    case 0x4c => ExecJmp(s)
    case 0x4d => ExecLogical(Xor, MEMORY(ABS), s)
    case 0x4e => ExecShiftRight(PLACE(ABS), false, s)
    case _ => ExecLogical(Xor, MEMORY(ABS_LONG), s)
  }

  function ExecuteRow5(p0: byte, s: Machine): (out: Machine)
    requires 0x50 <= p0 <= 0x5f
    ensures ModeOk(s.r) ==> ModeOk(out.r)
  {
    match p0
    case 0x50 => ExecBranch(!s.r.p.v, s)
    case 0x51 => ExecLogical(Xor, MEMORY(INDIRECT_Y), s)
    case 0x52 => ExecLogical(Xor, MEMORY(INDIRECT), s)
    case 0x53 => ExecLogical(Xor, MEMORY(STACK_REL_Y), s)
    case 0x54 => MoveStep(true, s)
    case 0x55 => ExecLogical(Xor, MEMORY(DIRECT_PAGE_X), s)
    case 0x56 => ExecShiftRight(PLACE(DIRECT_PAGE_X), false, s)
    case 0x57 => ExecLogical(Xor, MEMORY(INDIRECT_LONG_Y), s)
    case 0x58 => ExecFlag(s.r.p.(i := false), s)
    case 0x59 => ExecLogical(Xor, MEMORY(ABS_Y), s)
    case 0x5a => ExecPush(s.r.y, Index8(s.r), s)
    case 0x5b => ExecTcd(s)
    case 0x5c => ExecJmpLong(s)
    case 0x5d => ExecLogical(Xor, MEMORY(ABS_X), s)
    case 0x5e => ExecShiftRight(PLACE(ABS_X), false, s)
    case _ => ExecLogical(Xor, MEMORY(ABS_LONG_X), s)
  }

  function ExecuteRow6(p0: byte, s: Machine): (out: Machine)
    requires 0x60 <= p0 <= 0x6f
    ensures ModeOk(s.r) ==> ModeOk(out.r)
  {
    match p0
    case 0x60 => ExecRts(s)
    case 0x61 => ExecAdc(MEMORY(INDIRECT_X), s)
    case 0x62 => ExecPer(s)
    case 0x63 => ExecAdc(MEMORY(STACK_REL), s)
    case 0x64 => ExecStore(0, Memory8(s.r), DIRECT_PAGE, s)
    case 0x65 => ExecAdc(MEMORY(DIRECT_PAGE), s)
    case 0x66 => ExecShiftRight(PLACE(DIRECT_PAGE), true, s)
    case 0x67 => ExecAdc(MEMORY(INDIRECT_LONG), s)
    case 0x68 => ExecPla(s)
    case 0x69 => ExecAdc(IMMEDIATE, s)
    case 0x6a => ExecShiftRight(ACCU, true, s)
    case 0x6b => FarReturn(s)
    case 0x6c => ExecJmpInd(s)
    case 0x6d => ExecAdc(MEMORY(ABS), s)
    case 0x6e => ExecShiftRight(PLACE(ABS), true, s)
    case _ => ExecAdc(MEMORY(ABS_LONG), s)
  }

  function ExecuteRow7(p0: byte, s: Machine): (out: Machine)
    requires 0x70 <= p0 <= 0x7f
    ensures ModeOk(s.r) ==> ModeOk(out.r)
  {
    match p0
    case 0x70 => ExecBranch(s.r.p.v, s)
    case 0x71 => ExecAdc(MEMORY(INDIRECT_Y), s)
    case 0x72 => ExecAdc(MEMORY(INDIRECT), s)
    case 0x73 => ExecAdc(MEMORY(STACK_REL_Y), s)
    case 0x74 => ExecStore(0, Memory8(s.r), DIRECT_PAGE_X, s)
    case 0x75 => ExecAdc(MEMORY(DIRECT_PAGE_X), s)
    case 0x76 => ExecShiftRight(PLACE(DIRECT_PAGE_X), true, s)
    case 0x77 => ExecAdc(MEMORY(INDIRECT_LONG_Y), s)
    case 0x78 => ExecFlag(s.r.p.(i := true), s)
    case 0x79 => ExecAdc(MEMORY(ABS_Y), s)
    case 0x7a => ExecPly(s)
    case 0x7b => ExecToC(s.r.dpr, s)
    case 0x7c => ExecJmpIndX(s)
    case 0x7d => ExecAdc(MEMORY(ABS_X), s)
    case 0x7e => ExecShiftRight(PLACE(ABS_X), true, s)
    case _ => ExecAdc(MEMORY(ABS_LONG_X), s)
  }

  function ExecuteRow8(p0: byte, s: Machine): (out: Machine)
    requires 0x80 <= p0 <= 0x8f
    ensures ModeOk(s.r) ==> ModeOk(out.r)
  {
    match p0
    case 0x80 => ExecBranch(true, s)
    case 0x81 => ExecStore(s.r.c, Memory8(s.r), INDIRECT_X, s)
    case 0x82 => ExecBranchLong(s)
    case 0x83 => ExecStore(s.r.c, Memory8(s.r), STACK_REL, s)
    case 0x84 => ExecStore(s.r.y, Index8(s.r), DIRECT_PAGE, s)
    case 0x85 => ExecStore(s.r.c, Memory8(s.r), DIRECT_PAGE, s)
    case 0x86 => ExecStore(s.r.x, Index8(s.r), DIRECT_PAGE, s)
    case 0x87 => ExecStore(s.r.c, Memory8(s.r), INDIRECT_LONG, s)
    case 0x88 => ExecToY(s.r.y - 1, s)
    case 0x89 => ExecBitImm(s)
    case 0x8a => ExecToA(s.r.x, s)
    case 0x8b => ExecPush(s.r.dbr, true, s)
    case 0x8c => ExecStore(s.r.y, Index8(s.r), ABS, s)
    case 0x8d => ExecStore(s.r.c, Memory8(s.r), ABS, s)
    case 0x8e => ExecStore(s.r.x, Index8(s.r), ABS, s)
    case _ => ExecStore(s.r.c, Memory8(s.r), ABS_LONG, s)
  }

  function ExecuteRow9(p0: byte, s: Machine): (out: Machine)
    requires 0x90 <= p0 <= 0x9f
    ensures ModeOk(s.r) ==> ModeOk(out.r)
  {
    match p0
    case 0x90 => ExecBranch(!s.r.p.c, s)
    case 0x91 => ExecStore(s.r.c, Memory8(s.r), INDIRECT_Y, s)
    case 0x92 => ExecStore(s.r.c, Memory8(s.r), INDIRECT, s)
    case 0x93 => ExecStore(s.r.c, Memory8(s.r), STACK_REL_Y, s)
    case 0x94 => ExecStore(s.r.y, Index8(s.r), DIRECT_PAGE_X, s)
    case 0x95 => ExecStore(s.r.c, Memory8(s.r), DIRECT_PAGE_X, s)
    case 0x96 => ExecStore(s.r.x, Index8(s.r), DIRECT_PAGE_Y, s)
    case 0x97 => ExecStore(s.r.c, Memory8(s.r), INDIRECT_LONG_Y, s)
    case 0x98 => ExecToA(s.r.y, s)
    case 0x99 => ExecStore(s.r.c, Memory8(s.r), ABS_Y, s)
    case 0x9a => ExecToSp(s.r.x, s)
    case 0x9b => ExecToY(s.r.x, s)
    case 0x9c => ExecStore(0, Memory8(s.r), ABS, s)
    case 0x9d => ExecStore(s.r.c, Memory8(s.r), ABS_X, s)
    case 0x9e => ExecStore(0, Memory8(s.r), ABS_X, s)
    case _ => ExecStore(s.r.c, Memory8(s.r), ABS_LONG_X, s)
  }

  function ExecuteRowA(p0: byte, s: Machine): (out: Machine)
    requires 0xa0 <= p0 <= 0xaf
    ensures ModeOk(s.r) ==> ModeOk(out.r)
  {
    match p0
    case 0xa0 => ExecLdy(IMMEDIATE, s)
    case 0xa1 => ExecLda(MEMORY(INDIRECT_X), s)
    case 0xa2 => ExecLdx(IMMEDIATE, s)
    case 0xa3 => ExecLda(MEMORY(STACK_REL), s)
    case 0xa4 => ExecLdy(MEMORY(DIRECT_PAGE), s)
    case 0xa5 => ExecLda(MEMORY(DIRECT_PAGE), s)
    case 0xa6 => ExecLdx(MEMORY(DIRECT_PAGE), s)
    case 0xa7 => ExecLda(MEMORY(INDIRECT_LONG), s)
    case 0xa8 => ExecToY(s.r.c, s)
    case 0xa9 => ExecLda(IMMEDIATE, s)
    case 0xaa => ExecToX(s.r.c, s)
    case 0xab => ExecPlb(s)
    case 0xac => ExecLdy(MEMORY(ABS), s)
    case 0xad => ExecLda(MEMORY(ABS), s)
    case 0xae => ExecLdx(MEMORY(ABS), s)
    case _ => ExecLda(MEMORY(ABS_LONG), s)
  }

  function ExecuteRowB(p0: byte, s: Machine): (out: Machine)
    requires 0xb0 <= p0 <= 0xbf
    ensures ModeOk(s.r) ==> ModeOk(out.r)
  {
    match p0
    case 0xb0 => ExecBranch(s.r.p.c, s)
    case 0xb1 => ExecLda(MEMORY(INDIRECT_Y), s)
    case 0xb2 => ExecLda(MEMORY(INDIRECT), s)
    case 0xb3 => ExecLda(MEMORY(STACK_REL_Y), s)
    case 0xb4 => ExecLdy(MEMORY(DIRECT_PAGE_X), s)
    case 0xb5 => ExecLda(MEMORY(DIRECT_PAGE_X), s)
    case 0xb6 => ExecLdx(MEMORY(DIRECT_PAGE_Y), s)
    case 0xb7 => ExecLda(MEMORY(INDIRECT_LONG_Y), s)
    case 0xb8 => ExecFlag(s.r.p.(v := false), s)
    case 0xb9 => ExecLda(MEMORY(ABS_Y), s)
    case 0xba => ExecToX(s.r.sp, s)
    case 0xbb => ExecToX(s.r.y, s)
    case 0xbc => ExecLdy(MEMORY(ABS_X), s)
    case 0xbd => ExecLda(MEMORY(ABS_X), s)
    case 0xbe => ExecLdx(MEMORY(ABS_Y), s)
    case _ => ExecLda(MEMORY(ABS_LONG_X), s)
  }

  function ExecuteRowC(p0: byte, s: Machine): (out: Machine)
    requires 0xc0 <= p0 <= 0xcf
    ensures ModeOk(s.r) ==> ModeOk(out.r)
  {
    match p0
    case 0xc0 => ExecCompare(s.r.y, Index8(s.r), IMMEDIATE, s)
    case 0xc1 => ExecCompare(A(s.r), Memory8(s.r), MEMORY(INDIRECT_X), s)
    case 0xc2 => ExecRepSep(false, s)
    case 0xc3 => ExecCompare(A(s.r), Memory8(s.r), MEMORY(STACK_REL), s)
    case 0xc4 => ExecCompare(s.r.y, Index8(s.r), MEMORY(DIRECT_PAGE), s)
    case 0xc5 => ExecCompare(A(s.r), Memory8(s.r), MEMORY(DIRECT_PAGE), s)
    case 0xc6 => ExecCount(PLACE(DIRECT_PAGE), -1, s)
    case 0xc7 => ExecCompare(A(s.r), Memory8(s.r), MEMORY(INDIRECT_LONG), s)
    case 0xc8 => ExecToY(s.r.y + 1, s)
    case 0xc9 => ExecCompare(A(s.r), Memory8(s.r), IMMEDIATE, s)
    case 0xca => ExecToX(s.r.x - 1, s)
    case 0xcb => ExecNop(1, s)
    case 0xcc => ExecCompare(s.r.y, Index8(s.r), MEMORY(ABS), s)
    case 0xcd => ExecCompare(A(s.r), Memory8(s.r), MEMORY(ABS), s)
    case 0xce => ExecCount(PLACE(ABS), -1, s)
    case _ => ExecCompare(A(s.r), Memory8(s.r), MEMORY(ABS_LONG), s)
  }

  function ExecuteRowD(p0: byte, s: Machine): (out: Machine)
    requires 0xd0 <= p0 <= 0xdf
    ensures ModeOk(s.r) ==> ModeOk(out.r)
  {
    match p0
    case 0xd0 => ExecBranch(!s.r.z, s)
    case 0xd1 => ExecCompare(A(s.r), Memory8(s.r), MEMORY(INDIRECT_Y), s)
    case 0xd2 => ExecCompare(A(s.r), Memory8(s.r), MEMORY(INDIRECT), s)
    case 0xd3 => ExecCompare(A(s.r), Memory8(s.r), MEMORY(STACK_REL_Y), s)
    case 0xd4 => ExecPei(s)
    case 0xd5 => ExecCompare(A(s.r), Memory8(s.r), MEMORY(DIRECT_PAGE_X), s)
    case 0xd6 => ExecCount(PLACE(DIRECT_PAGE_X), -1, s)
    case 0xd7 => ExecCompare(A(s.r), Memory8(s.r), MEMORY(INDIRECT_LONG_Y), s)
    case 0xd8 => ExecFlag(s.r.p.(d := false), s)
    case 0xd9 => ExecCompare(A(s.r), Memory8(s.r), MEMORY(ABS_Y), s)
    case 0xda => ExecPush(s.r.x, Index8(s.r), s)
    case 0xdb => ExecNop(1, s)
    case 0xdc => ExecJmpIndLong(s)
    case 0xdd => ExecCompare(A(s.r), Memory8(s.r), MEMORY(ABS_X), s)
    case 0xde => ExecCount(PLACE(ABS_X), -1, s)
    case _ => ExecCompare(A(s.r), Memory8(s.r), MEMORY(ABS_LONG_X), s)
  }

  function ExecuteRowE(p0: byte, s: Machine): (out: Machine)
    requires 0xe0 <= p0 <= 0xef
    ensures ModeOk(s.r) ==> ModeOk(out.r)
  {
    match p0
    case 0xe0 => ExecCompare(s.r.x, Index8(s.r), IMMEDIATE, s)
    case 0xe1 => ExecSbc(MEMORY(INDIRECT_X), s)
    case 0xe2 => ExecRepSep(true, s)
    case 0xe3 => ExecSbc(MEMORY(STACK_REL), s)
    case 0xe4 => ExecCompare(s.r.x, Index8(s.r), MEMORY(DIRECT_PAGE), s)
    case 0xe5 => ExecSbc(MEMORY(DIRECT_PAGE), s)
    case 0xe6 => ExecCount(PLACE(DIRECT_PAGE), 1, s)
    case 0xe7 => ExecSbc(MEMORY(INDIRECT_LONG), s)
    case 0xe8 => ExecToX(s.r.x + 1, s)
    case 0xe9 => ExecSbc(IMMEDIATE, s)
    case 0xea => ExecNop(1, s)
    case 0xeb => ExecXba(s)
    case 0xec => ExecCompare(s.r.x, Index8(s.r), MEMORY(ABS), s)
    case 0xed => ExecSbc(MEMORY(ABS), s)
    case 0xee => ExecCount(PLACE(ABS), 1, s)
    case _ => ExecSbc(MEMORY(ABS_LONG), s)
  }

  function ExecuteRowF(p0: byte, s: Machine): (out: Machine)
    requires 0xf0 <= p0 <= 0xff
    ensures ModeOk(s.r) ==> ModeOk(out.r)
  {
    match p0
    case 0xf0 => ExecBranch(s.r.z, s)
    case 0xf1 => ExecSbc(MEMORY(INDIRECT_Y), s)
    case 0xf2 => ExecSbc(MEMORY(INDIRECT), s)
    case 0xf3 => ExecSbc(MEMORY(STACK_REL_Y), s)
    case 0xf4 => ExecPea(s)
    case 0xf5 => ExecSbc(MEMORY(DIRECT_PAGE_X), s)
    case 0xf6 => ExecCount(PLACE(DIRECT_PAGE_X), 1, s)
    case 0xf7 => ExecSbc(MEMORY(INDIRECT_LONG_Y), s)
    case 0xf8 => ExecFlag(s.r.p.(d := true), s)
    case 0xf9 => ExecSbc(MEMORY(ABS_Y), s)
    case 0xfa => ExecPlx(s)
    case 0xfb => ExecXce(s)
    case 0xfc => ExecJsrIndX(s)
    case 0xfd => ExecSbc(MEMORY(ABS_X), s)
    case 0xfe => ExecCount(PLACE(ABS_X), 1, s)
    case _ => ExecSbc(MEMORY(ABS_LONG_X), s)
  }

  /** One instruction. */
  function Execute(p0: byte, s: Machine): (out: Machine)
    ensures ModeOk(s.r) ==> ModeOk(out.r)
  {
    if p0 <= 0x0f then ExecuteRow0(p0, s)
    else if p0 <= 0x1f then ExecuteRow1(p0, s)
    else if p0 <= 0x2f then ExecuteRow2(p0, s)
    else if p0 <= 0x3f then ExecuteRow3(p0, s)
    else if p0 <= 0x4f then ExecuteRow4(p0, s)
    else if p0 <= 0x5f then ExecuteRow5(p0, s)
    else if p0 <= 0x6f then ExecuteRow6(p0, s)
    else if p0 <= 0x7f then ExecuteRow7(p0, s)
    else if p0 <= 0x8f then ExecuteRow8(p0, s)
    else if p0 <= 0x9f then ExecuteRow9(p0, s)
    else if p0 <= 0xaf then ExecuteRowA(p0, s)
    else if p0 <= 0xbf then ExecuteRowB(p0, s)
    else if p0 <= 0xcf then ExecuteRowC(p0, s)
    else if p0 <= 0xdf then ExecuteRowD(p0, s)
    else if p0 <= 0xef then ExecuteRowE(p0, s)
    else ExecuteRowF(p0, s)
  }

  /** What is pending when an opcode ends. */
  datatype Signal = NONE | IRQ_PENDING | NMI_PENDING | RESET_PENDING

  /** A pending reset, NMI or IRQ, or the next instruction. */
  function React(pending: Signal, s: Machine): (out: Machine)
    ensures ModeOk(s.r) ==> ModeOk(out.r)
  {
    match pending
    case RESET_PENDING => ResetOf(s)
    case NMI_PENDING => EnterHandler(false, 0xfffa, 0xffea, s)
    case IRQ_PENDING => EnterHandler(false, 0xfffe, 0xffee, s)
    case NONE => Execute(s.mem[s.r.pc + 0x1_0000 * s.r.pbr], s)
  }

  function ReactAll(signals: seq<Signal>, s: Machine): (out: Machine)
    ensures ModeOk(s.r) ==> ModeOk(out.r)
    decreases |signals|
  {
    if signals == [] then s else ReactAll(signals[1..], React(signals[0], s))
  }
}
