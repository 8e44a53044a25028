/** Bytes, words and the bitwise operators the processor cores apply to them.

    Registers and memory cells are integers in range; the C bitwise operators between
    two variable operands go through bit vectors, while masks with constants are written
    as the equivalent `/` and `%`. */
module Bytes {

  type byte = x: int | 0 <= x < 0x100
  type word = x: int | 0 <= x < 0x1_0000

  function And(a: byte, b: byte): byte {
    ((a as bv8) & (b as bv8)) as int
  }

  function Or(a: byte, b: byte): byte {
    ((a as bv8) | (b as bv8)) as int
  }

  function Xor(a: byte, b: byte): byte {
    ((a as bv8) ^ (b as bv8)) as int
  }

  /** Bit 7 of a value of any width. */
  predicate Bit7(v: int): (b: bool)
    ensures 0 <= v < 0x100 ==> b == (v >= 0x80)
  {
    (v / 0x80) % 2 == 1
  }

  /** Bit 6 of a value of any width. */
  predicate Bit6(v: int) {
    (v / 0x40) % 2 == 1
  }

  /** Bit 5 of a value of any width. */
  predicate Bit5(v: int) {
    (v / 0x20) % 2 == 1
  }

  /** `t & 0x10` and `t & 0x100`. */
  predicate Bit4(t: nat) {
    t / 0x10 % 2 == 1
  }

  predicate Bit8(t: nat): (b: bool)
    ensures t < 0x200 ==> b == (t >= 0x100)
  {
    t / 0x100 % 2 == 1
  }

  /** A C `unsigned int`: arithmetic wraps at 32 bits. */
  function U32(v: int): (r: nat)
    ensures r < 0x1_0000_0000
    ensures 0 <= v < 0x1_0000_0000 ==> r == v
    ensures -0x1_0000_0000 <= v < 0 ==> r == v + 0x1_0000_0000
  {
    v % 0x1_0000_0000
  }

  /** A C `uint16_t`. */
  function U16(v: int): (r: word)
    ensures 0 <= v < 0x1_0000 ==> r == v
    ensures 0x1_0000 <= v < 0x2_0000 ==> r == v - 0x1_0000
    ensures -0x1_0000 <= v < 0 ==> r == v + 0x1_0000
  {
    v % 0x1_0000
  }

  /** A C `uint8_t`. */
  function U8(v: int): (r: byte)
    ensures 0 <= v < 0x100 ==> r == v
    ensures 0x100 <= v < 0x200 ==> r == v - 0x100
    ensures -0x100 <= v < 0 ==> r == v + 0x100
  {
    v % 0x100
  }

  /** A C `signed char` made from a byte. */
  function Signed(v: byte): int {
    if v < 0x80 then v else v - 0x100
  }

  function Lo(w: int): byte {
    w % 0x100
  }

  function Hi(w: int): byte {
    (w / 0x100) % 0x100
  }

  /** The 16-bit word with the given low and high byte. */
  function Word(lo: byte, hi: byte): (w: word)
    ensures Lo(w) == lo && Hi(w) == hi
  {
    lo + 0x100 * hi
  }

  /** Wrapping early or late makes no difference to a sum. */
  lemma U16Add(v: int, n: int)
    ensures U16(U16(v) + n) == U16(v + n)
  {
  }

  lemma U8Add(v: int, n: int)
    ensures U8(U8(v) + n) == U8(v + n)
  {
  }

  /** The low two bytes do not see what lies above them. */
  lemma HiLoOfU16(v: int)
    ensures Hi(U16(v)) == Hi(v) && Lo(U16(v)) == Lo(v)
  {
    var q := v / 0x1_0000;
    assert v == 0x1_0000 * q + U16(v);
    assert v / 0x100 == 0x100 * q + U16(v) / 0x100;
  }

  /** A branch target computed with 32 bits and then cut to 16. */
  lemma BranchTarget(pc: nat, offset: int)
    requires -0x80 <= offset < 0x80
    ensures U16(U32(pc + offset)) == U16(U16(pc) + offset)
    ensures Hi(U32(pc + offset)) == Hi(U16(U16(pc) + offset)) && Hi(U16(pc)) == Hi(pc)
  {
    var t := pc + offset;
    U16Add(pc, offset);
    var q := t / 0x1_0000_0000;
    assert t == 0x1_0000_0000 * q + U32(t);
    assert U16(U32(t)) == U16(t);
    HiLoOfU16(U32(t));
    HiLoOfU16(pc);
  }

  // ----- Hexadecimal digits -----

  /** `v & 0x0f`. */
  function U4(v: int): (d: nat)
    ensures d < 0x10
    ensures 0 <= v < 0x10 ==> d == v
    ensures 0x10 <= v < 0x20 ==> d == v - 0x10
    ensures 0x20 <= v < 0x30 ==> d == v - 0x20
    ensures -0x10 <= v < 0 ==> d == v + 0x10
    ensures -0x20 <= v < -0x10 ==> d == v + 0x20
  {
    v % 0x10
  }

  /** The high digit of a byte: `v & 0xf0` is sixteen times this. */
  function HighDigit(v: byte): (d: nat)
    ensures d < 0x10 && v == 0x10 * d + U4(v)
    ensures d >= 8 <==> v >= 0x80
  {
    v / 0x10
  }

  /** Two decimal digits in a byte. */
  predicate Bcd(b: byte) {
    U4(b) <= 9 && HighDigit(b) <= 9
  }

  /** `t & 0x1f0`. */
  function Mask1F0(t: nat): nat {
    t / 0x10 % 0x20 * 0x10
  }

  /** `t & 0xff0`. */
  function MaskFF0(t: nat): nat {
    t / 0x10 % 0x100 * 0x10
  }

  /** A value put together from digits, the high one possibly with a carry. */
  lemma Digits(hi: nat, lo: nat)
    requires lo < 0x10 && hi < 0x30
    ensures var t := 0x10 * hi + lo;
            && U4(t) == lo && U8(t) == 0x10 * U4(hi) + lo
            && Bit7(t) == (U4(hi) >= 8)
            && (hi < 0x20 ==> Mask1F0(t) == 0x10 * hi) && MaskFF0(t) == 0x10 * hi
            && (t < 0x100 ==> HighDigit(t) == hi)
  {
    var t := 0x10 * hi + lo;
    assert t / 0x10 == hi && t / 0x80 == hi / 8;
  }

  lemma Bit7OfU8(v: nat)
    ensures Bit7(v) == (U8(v) >= 0x80)
  {
  }

  // ----- Differences that borrow -----

  /** A difference that borrows from 32 bits still has the right low byte. */
  lemma U8OfU32(d: int)
    requires -0x100 <= d < 0x100
    ensures U8(U32(d)) == U8(d) && (U32(d) < 0x100 <==> d >= 0)
  {
  }

  /** The same for 16 bits. */
  lemma U8OfU16(d: int)
    requires -0x100 <= d < 0x100
    ensures U8(U16(d)) == U8(d) && (U16(d) < 0x100 <==> d >= 0) && Bit7(U16(d)) == (U8(d) >= 0x80)
  {
  }

  /** Subtracting low digits: bit 4 of the wrapped difference is the borrow. */
  lemma LowBorrow(lo: int)
    requires -0x10 <= lo < 0x10
    ensures Bit4(U32(lo)) <==> lo < 0
    ensures U4(U32(lo)) == U4(lo)
    ensures lo < 0 ==> U4(U32(U32(lo) - 6)) == U4(lo - 6)
  {
  }

  lemma U8OfWrapped(x: int)
    ensures U8(x + 0x1_0000_0000) == U8(x)
  {
    assert x + 0x1_0000_0000 == x + 0x100 * 0x100_0000;
  }

  lemma ByteOfDigits(hi: int, lo: nat)
    requires -0x20 <= hi < 0x20 && lo < 0x10
    ensures U8(0x10 * hi + lo) == 0x10 * U4(hi) + lo
  {
  }

  lemma BorrowBit(x: int)
    requires -0x100 <= x < 0
    ensures Bit8(x + 0x1_0000_0000)
  {
    assert (x + 0x1_0000_0000) / 0x100 == 0xff_ffff;
  }

  /** Subtracting high digits: bit 8 of the wrapped difference is the borrow. */
  lemma HighBorrow(hi: int, lo: nat)
    requires -0x10 <= hi < 0x10 && lo < 0x10
    ensures var t := lo + U32(0x10 * hi);
            && (Bit8(t) <==> hi < 0)
            && U8(t) == 0x10 * U4(hi) + lo
            && (hi < 0 ==> U8(U32(t - 0x60)) == 0x10 * U4(hi - 6) + lo)
  {
    hide U8, U4, U32, Bit8;
    ByteOfDigits(hi, lo);
    if hi < 0 {
      ByteOfDigits(hi - 6, lo);
      U8OfWrapped(0x10 * hi + lo);
      U8OfWrapped(0x10 * (hi - 6) + lo);
      BorrowBit(0x10 * hi + lo);
    }
  }
}
