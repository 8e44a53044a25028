/** ADC and SBC of the other two processor cores: the 65C02 (vice/src/65c02core.c) and the
    65816 (vice/src/65816core.c), 8 and 16 bits wide.  They compute decimal results by other
    routes than the 6510 and are compared with it here, on all inputs. */
module CmosAlu {
  import opened Bytes
  import opened Isa6510

  /** The CMOS parts take N and Z from the final result. */
  function Cmos(s: Sum): Sum {
    s.(n := s.r >= 0x80, z := s.r == 0)
  }

  // ----- 65C02 -----

  /** ADC of the 65C02: A, C and V as on the 6510 for every input, valid BCD or not. */
  method Adc65C02(decimal: bool, regA: byte, tmpValue: byte, carryIn: bool) returns (s: Sum)
    ensures s == Cmos(Adc(decimal, regA, tmpValue, carryIn))
  {
    hide Bit7, U8, U4, HighDigit;
    var carry := if carryIn then 1 else 0;
    if decimal {
      s := Adc65C02Decimal(regA, tmpValue, carryIn);
    } else {
      var tmp := tmpValue + regA + carry;
      Bit7OfU8(tmp);
      var v := Bit7(regA) == Bit7(tmpValue) && Bit7(regA) != Bit7(tmp);
      s := Sum(U8(tmp), U8(tmp) >= 0x80, v, U8(tmp) == 0, tmp > 0xff);
    }
  }

  method Adc65C02Decimal(regA: byte, tmpValue: byte, carryIn: bool) returns (s: Sum)
    ensures s == Cmos(AdcDecimal(regA, tmpValue, carryIn))
  {
    hide Bit7, U8, LowSum, HighSum;
    var tmp, tmp2 := Adc65C02Digits(regA, tmpValue, carryIn);
    ghost var hi := HighSum(regA, tmpValue, carryIn);
    Digits(hi, 0);
    var v := Bit7(regA) == Bit7(tmpValue) && Bit7(regA) != Bit7(tmp2);
    if tmp2 > 0x90 {
      tmp2 := tmp2 + 0x60;
      Digits(hi + 6, 0);
    }
    var c := tmp2 >= 0x100;
    assert U8(tmp2) == 0x10 * AdjustUp(hi) && c == (hi > 9);
    hide AdjustUp;
    var r: byte := tmp + U8(tmp2);
    s := Sum(r, r >= 0x80, v, r == 0, c);
  }

  /** The two temporaries after the carry between the digits: the low digit, and the high sum in place. */
  method Adc65C02Digits(regA: byte, tmpValue: byte, carryIn: bool) returns (tmp: nat, tmp2: nat)
    ensures tmp == AdjustUp(LowSum(regA, tmpValue, carryIn)) < 0x10
    ensures tmp2 == 0x10 * HighSum(regA, tmpValue, carryIn) && tmp2 < 0x200
  {
    hide U4, HighDigit;
    tmp := U4(regA) + U4(tmpValue) + (if carryIn then 1 else 0);
    tmp2 := 0x10 * HighDigit(regA) + 0x10 * HighDigit(tmpValue);
    if tmp > 9 {
      tmp2 := tmp2 + 0x10;
      tmp := tmp + 6;
    }
    tmp := U4(tmp);
  }

  /** The correction of the 65C02 decimal subtraction, applied to the binary difference as a whole. */
  function CorrectedDifference(a: byte, v: byte, c: bool): byte {
    U8(a - v - Bit(!c) - 0x60 * Bit(a - v - Bit(!c) < 0) - 6 * Bit(LowDifference(a, v, c) < 0))
  }

  method Sbc65C02(decimal: bool, regA: byte, value: byte, carryIn: bool) returns (s: Sum)
    ensures s == Cmos(SbcBinary(regA, value, carryIn).(r := if decimal then CorrectedDifference(regA, value, carryIn)
                                                            else SbcBinary(regA, value, carryIn).r))
  {
    hide Bit7, U8, U16, U4;
    var carry := if carryIn then 1 else 0;
    ghost var d := regA - value - (1 - carry);
    var tmp: int := U16(regA - value + carry - 1);
    U8OfU16(d);
    var v := Bit7(regA) != Bit7(tmp) && Bit7(regA) != Bit7(value);
    var c := regA + carry - 1 >= value;
    var r := U8(tmp);
    if decimal {
      r := Sbc65C02Corrected(tmp, regA, value, carryIn);
      hide CorrectedDifference;
      s := Sum(r, r >= 0x80, v, r == 0, c);
    } else {
      s := Sum(r, r >= 0x80, v, r == 0, c);
    }
  }

  /** The two corrections of the decimal branch. */
  method Sbc65C02Corrected(binary: word, regA: byte, value: byte, carryIn: bool) returns (r: byte)
    requires binary == U16(regA - value - Bit(!carryIn))
    ensures r == CorrectedDifference(regA, value, carryIn)
  {
    hide U8, U16, U4;
    var tmp: int := binary;
    ghost var t := regA - value - Bit(!carryIn);
    LowByteOfU16(t, 0);
    if tmp > 0xff {
      tmp := U16(tmp - 0x60);
      LowByteOfU16(t, 0x60);
      t := t - 0x60;
    }
    var tmp2 := U16(U4(regA) - U4(value) - Bit(!carryIn));
    if tmp2 > 0xff {
      tmp := U16(tmp - 6);
      LowByteOfU16(t, 6);
      t := t - 6;
    }
    r := U8(tmp);
  }

  lemma LowByteOfU16(t: int, k: int)
    ensures U8(U16(U16(t) - k)) == U8(t - k) && U16(U16(t) - k) == U16(t - k)
    ensures U8(U16(t)) == U8(t)
  {
    U16Add(t, -k);
    LowByte(t);
    LowByte(t - k);
    hide U8, U16;
  }

  lemma LowByte(t: int)
    ensures U8(U16(t)) == U8(t)
  {
    assert t == 0x100 * (0x100 * (t / 0x1_0000)) + U16(t);
  }

  /** The 65C02 subtraction agrees with the 6510 exactly when the low digits differ by no more than
      ten below zero, as valid BCD digits always do. */
  lemma Sbc65C02Agrees(a: byte, v: byte, c: bool)
    ensures CorrectedDifference(a, v, c) == Sbc(true, a, v, c).r <==> LowDifference(a, v, c) >= -10
  {
    hide U8, U4, HighDigit;
    var lo, hi := LowDifference(a, v, c), HighDifference(a, v, c);
    var d := a - v - Bit(!c);
    assert d == 16 * hi + lo + 16 * Bit(lo < 0);
    DigitsOfDifference(hi, lo);
    assert Sbc(true, a, v, c).r == U8(16 * AdjustDown(hi) + AdjustDown(lo));
  }

  /** 0x00 - 0x0f - 1 in decimal mode: the low difference is -16, one of the six that differ. */
  lemma Sbc65C02Example(a: byte, v: byte)
    requires a == 0x00 && v == 0x0f
    ensures CorrectedDifference(a, v, false) != Sbc(true, a, v, false).r
  {
    hide CorrectedDifference, Sbc;
    assert LowDifference(a, v, false) == -16;
    Sbc65C02Agrees(a, v, false);
  }

  lemma DigitsOfDifference(hi: int, lo: int)
    requires -0x10 <= hi < 0x10 && -0x10 <= lo < 0x10
    ensures U8(16 * AdjustDown(hi) + AdjustDown(lo)) == 16 * AdjustDown(hi) + AdjustDown(lo)
    ensures var d := 16 * hi + lo + 16 * Bit(lo < 0);
            && (d < 0 <==> hi < 0)
            && (U8(d - 0x60 * Bit(d < 0) - 6 * Bit(lo < 0)) == 16 * AdjustDown(hi) + AdjustDown(lo) <==> lo >= -10)
  {
    hide AdjustDown, U4;
    AdjustedDigit16(hi);
    AdjustedDigit16(lo);
  }

  /** A digit adjusted down, and how far from the plain difference it is. */
  lemma AdjustedDigit16(x: int)
    requires -0x10 <= x < 0x10
    ensures AdjustDown(x) == if x >= 0 then x else if x >= -10 then x + 10 else x + 26
  {
  }

  // ----- 65816, 8-bit accumulator -----

  method Adc65816(decimal: bool, regA: byte, tmpValue: byte, carryIn: bool) returns (s: Sum)
    ensures s == Cmos(Adc(decimal, regA, tmpValue, carryIn))
  {
    hide Bit7, U8, U4, HighDigit;
    if decimal {
      s := Adc65816Decimal(regA, tmpValue, carryIn);
    } else {
      var tmp := (if carryIn then 1 else 0) + tmpValue + regA;
      Bit7OfU8(tmp);
      var v := Bit7(regA) == Bit7(tmpValue) && Bit7(regA) != Bit7(tmp);
      s := Sum(U8(tmp), U8(tmp) >= 0x80, v, U8(tmp) == 0, tmp > 0xff);
    }
  }

  method Adc65816Decimal(regA: byte, tmpValue: byte, carryIn: bool) returns (s: Sum)
    ensures s == Cmos(AdcDecimal(regA, tmpValue, carryIn))
  {
    hide Bit7, U8, U4, HighDigit;
    ghost var hi, low := HighSum(regA, tmpValue, carryIn), AdjustUp(LowSum(regA, tmpValue, carryIn));
    var tmp := Adc65816Digits(regA, tmpValue, carryIn);
    hide LowSum, HighSum;
    Digits(hi, low);
    var v := Bit7(regA) == Bit7(tmpValue) && Bit7(regA) != Bit7(tmp);
    if tmp > 0x9f {
      tmp := tmp + 0x60;
      Digits(hi + 6, low);
    }
    assert U8(tmp) == 0x10 * AdjustUp(hi) + low && (tmp > 0xff) == (hi > 9);
    hide AdjustUp;
    s := Sum(U8(tmp), U8(tmp) >= 0x80, v, U8(tmp) == 0, tmp > 0xff);
  }

  /** Both digit sums, the low one adjusted. */
  method Adc65816Digits(regA: byte, tmpValue: byte, carryIn: bool) returns (tmp: nat)
    ensures var hi, low := HighSum(regA, tmpValue, carryIn), AdjustUp(LowSum(regA, tmpValue, carryIn));
            tmp == 0x10 * hi + low && low < 0x10 && hi < 0x20
  {
    hide U4, HighDigit;
    var tmp2: nat := U4(regA) + U4(tmpValue) + (if carryIn then 1 else 0);
    tmp := 0x10 * HighDigit(regA) + 0x10 * HighDigit(tmpValue);
    if tmp2 > 0x9 {
      tmp2 := tmp2 + 0x6;
      tmp := tmp + 0x10;
    }
    tmp := tmp + U4(tmp2);
  }

  /** `a & 0xf0` of a 32-bit value: its second digit in place. */
  function Digit1(t: int): nat {
    U4(t / 0x10) * 0x10
  }

  /** SBC of the 65816 adds the complement; A, C and V as on the 6510 for every input. */
  method Sbc65816(decimal: bool, regA: byte, tmpValue: byte, carryIn: bool) returns (s: Sum)
    ensures s == Cmos(Sbc(decimal, regA, tmpValue, carryIn))
  {
    hide Bit7, U8;
    var tmp := (if carryIn then 1 else 0) + (0xff - tmpValue) + regA;
    Bit7OfU8(tmp);
    U8Add(regA - tmpValue - Bit(!carryIn), 0x100);
    var v := Bit7(regA) != Bit7(tmpValue) && Bit7(regA) != Bit7(tmp);
    var c := tmp > 0xff;
    if decimal {
      hide LowDifference, HighDifference, AdjustDown;
      tmp, c := Sbc65816Digits(regA, tmpValue, carryIn);
    }
    s := Sum(U8(tmp), U8(tmp) >= 0x80, v, U8(tmp) == 0, c);
  }

  /** The decimal branch, digit by digit. */
  method Sbc65816Digits(regA: byte, tmpValue: byte, carryIn: bool) returns (tmp: nat, c: bool)
    ensures tmp == 16 * AdjustDown(HighDifference(regA, tmpValue, carryIn)) + AdjustDown(LowDifference(regA, tmpValue, carryIn))
    ensures c == (regA - tmpValue - Bit(!carryIn) >= 0)
  {
    hide U4, HighDigit, Digit1, U32;
    var carry := if carryIn then 1 else 0;
    ghost var lo, hi := LowDifference(regA, tmpValue, carryIn), HighDifference(regA, tmpValue, carryIn);
    var tmp2 := U4(regA) + (0xf - U4(tmpValue)) + carry;
    assert tmp2 == lo + 0x10;
    ComplementLow(lo);
    tmp := U4(if tmp2 < 0x10 then U32(tmp2 - 0x6) else tmp2);
    tmp2 := regA + (0xff - tmpValue) + carry;
    assert tmp2 == 0x100 + 16 * hi + lo + 16 * Bit(lo < 0);
    ComplementHigh(hi, lo);
    tmp := tmp + Digit1(if tmp2 < 0x100 then U32(tmp2 - 0x60) else tmp2);
    c := tmp2 > 0xff;
  }

  lemma ComplementLow(lo: int)
    requires -0x10 <= lo < 0x10
    ensures U4(if lo + 0x10 < 0x10 then U32(lo + 0x10 - 6) else lo + 0x10) == AdjustDown(lo)
  {
  }

  lemma ComplementHigh(hi: int, lo: int)
    requires -0x10 <= hi < 0x10 && -0x10 <= lo < 0x10
    ensures var t := 0x100 + 16 * hi + lo + 16 * Bit(lo < 0);
            && (t < 0x100 <==> hi < 0)
            && Digit1(if t < 0x100 then U32(t - 0x60) else t) == 16 * AdjustDown(hi)
  {
    var l := lo + 16 * Bit(lo < 0);
    if hi < 0 {
      var w := U32(0x100 + 16 * hi + l - 0x60);
      assert w % 16 == l && (w / 16) % 16 == U4(hi - 6);
    } else {
      assert (0x100 + 16 * hi + l) / 16 == 16 + hi;
    }
  }

  // ----- 65816, 16-bit accumulator -----

  /** The result of a 16-bit operation. */
  datatype WideSum = WideSum(r: word, n: bool, v: bool, z: bool, c: bool)

  function Wide(r: word, v: bool, c: bool): WideSum {
    WideSum(r, r >= 0x8000, v, r == 0, c)
  }

  /** Two 8-bit additions, low byte first, the carry passed on. */
  function Chained(decimal: bool, a: word, v: word, c: bool): WideSum {
    var lo := Adc(decimal, Lo(a), Lo(v), c);
    var hi := Adc(decimal, Hi(a), Hi(v), lo.c);
    Wide(Word(lo.r, hi.r), hi.v, hi.c)
  }

  /** Two 8-bit subtractions. */
  function ChainedSub(decimal: bool, a: word, v: word, c: bool): WideSum {
    var lo := Sbc(decimal, Lo(a), Lo(v), c);
    var hi := Sbc(decimal, Hi(a), Hi(v), lo.c);
    Wide(Word(lo.r, hi.r), hi.v, hi.c)
  }

  /** Whether the uncorrected sum of the high digits has bit 15 set. */
  predicate HighSumSigned(a: word, v: word, c: bool) {
    U4(HighSum(Hi(a), Hi(v), AdcDecimal(Lo(a), Lo(v), c).c)) >= 8
  }

  /** The 16-bit ADC as it is: the decimal form computes V as if the accumulator were positive, because it
      looks for the sign in the 8-bit register. */
  function WideAdc(decimal: bool, a: word, v: word, c: bool): WideSum {
    var s := Chained(decimal, a, v, c);
    if decimal then s.(v := v < 0x8000 && HighSumSigned(a, v, c)) else s
  }

  /** The 16-bit SBC as it is: the decimal form takes its digits from the 8-bit register, as if the high
      byte of the accumulator were zero. */
  function WideSbc(decimal: bool, a: word, v: word, c: bool): WideSum {
    var s := ChainedSub(decimal, a, v, c);
    if decimal then ChainedSub(true, Lo(a), v, c).(v := s.v) else s
  }

  /** When V of a 16-bit decimal ADC is that of two chained additions. */
  lemma WideAdcOverflow(a: word, v: word, c: bool)
    ensures WideAdc(true, a, v, c) == Chained(true, a, v, c) <==> a < 0x8000 || (v >= 0x8000 <==> HighSumSigned(a, v, c))
  {
    SignOfHighByte(a);
    SignOfHighByte(v);
    hide Hi, Lo, Word, U4, HighSum, LowSum;
  }

  /** 0x8000 + 0x0000 in decimal mode: the signs differ, and V is set all the same. */
  lemma WideAdcExample(a: word, v: word)
    requires a == 0x8000 && v == 0
    ensures WideAdc(true, a, v, false).v && !Chained(true, a, v, false).v
  {
    hide Chained, AdcDecimal, HighSum, Lo, Hi;
    BytesOfExample(a, v);
    NoCarryThenSign(Hi(a), Lo(a));
    WideAdcOverflow(a, v, false);
  }

  lemma BytesOfExample(a: word, v: word)
    requires a == 0x8000 && v == 0
    ensures Hi(a) == 0x80 && Lo(a) == Lo(v) == Hi(v) == 0
  {
  }

  lemma NoCarryThenSign(hi: byte, lo: byte)
    requires 0x80 <= hi < 0x88 && lo < 2
    ensures !AdcDecimal(lo, lo, false).c && U4(HighSum(hi, lo, false)) >= 8
  {
    hide U8, U4, HighDigit, AdjustUp;
  }

  lemma SignOfHighByte(a: word)
    ensures Hi(a) >= 0x80 <==> a >= 0x8000
  {
  }

  /** A 16-bit decimal SBC is two chained subtractions, invalid BCD included, exactly if the high byte of the
      accumulator is zero. */
  lemma WideSbcAgrees(a: word, v: word, c: bool)
    ensures WideSbc(true, a, v, c) == ChainedSub(true, a, v, c) <==> Hi(a) == 0
  {
    hide Sbc, Lo, Hi, Word;
    LowAlone(a);
    var low := Sbc(true, Lo(a), Lo(v), c);
    var r, q := Sbc(true, Hi(a), Hi(v), low.c), Sbc(true, 0, Hi(v), low.c);
    if Hi(a) != 0 {
      HighByteMatters(Hi(a), Hi(v), low.c);
      BytesOfWord(low.r, r.r);
      BytesOfWord(low.r, q.r);
    }
  }

  lemma BytesOfWord(lo: byte, hi: byte)
    ensures Hi(Word(lo, hi)) == hi
  {
  }

  lemma LowAlone(a: word)
    ensures Lo(Lo(a)) == Lo(a) && Hi(Lo(a)) == 0
  {
  }

  /** A decimal difference by its digits. */
  lemma SbcByDigits(a: byte, v: byte, c: bool)
    ensures AdjustDown(HighDifference(a, v, c)) < 0x10 && AdjustDown(LowDifference(a, v, c)) < 0x10
    ensures Sbc(true, a, v, c).r == 16 * AdjustDown(HighDifference(a, v, c)) + AdjustDown(LowDifference(a, v, c))
    ensures Sbc(true, a, v, c).c == (a - v - Bit(!c) >= 0)
  {
    hide HighDigit;
  }

  /** A low digit that subtracts like zero is zero, or ten, and then it does not borrow. */
  lemma DigitMatters(h: nat, v: nat, k: nat)
    requires h < 0x10 && v < 0x10 && k <= 1
    requires AdjustDown(h - v - k) == AdjustDown(0 - v - k)
    ensures h == 0 || (h == 10 && 0 < v + k <= 10)
  {
  }

  lemma DigitsOf(b: byte)
    ensures U4(b) < 0x10 && HighDigit(b) < 0x10 && b == 0x10 * HighDigit(b) + U4(b)
  {
  }

  lemma ZeroDigits()
    ensures U4(0) == 0 && HighDigit(0) == 0
  {
  }

  /** Either the result or the carry tells a high byte from zero. */
  lemma HighByteMatters(h: byte, v: byte, b: bool)
    requires h != 0
    ensures Sbc(true, h, v, b).r != Sbc(true, 0, v, b).r || Sbc(true, h, v, b).c != Sbc(true, 0, v, b).c
  {
    hide U4, U8, HighDigit, Sbc, SbcBinary, AdjustDown;
    DigitsOf(h);
    DigitsOf(v);
    ZeroDigits();
    SbcByDigits(h, v, b);
    SbcByDigits(0, v, b);
    hide Sbc;
    if Sbc(true, h, v, b).r == Sbc(true, 0, v, b).r {
      var k := Bit(!b);
      DigitMatters(U4(h), U4(v), k);
      HighDigitsMatter(HighDigit(h), HighDigit(v), U4(h), U4(v), k);
    }
  }

  /** If the digits agree, the byte is at least the one subtracted. */
  lemma HighDigitsMatter(h1: nat, v1: nat, h0: nat, v0: nat, k: nat)
    requires h1 < 0x10 && v1 < 0x10 && h0 < 0x10 && v0 < 0x10 && k <= 1 && h1 + h0 > 0
    requires h0 == 0 || (h0 == 10 && 0 < v0 + k <= 10)
    requires AdjustDown(h1 - v1 - Bit(h0 - v0 - k < 0)) == AdjustDown(0 - v1 - Bit(0 - v0 - k < 0))
    ensures 16 * h1 + h0 >= 16 * v1 + v0 + k && 16 * v1 + v0 + k > 0
  {
  }

  /** 0x1000 - 0 is one that goes wrong. */
  lemma WideSbcExample(a: word, v: word)
    requires a == 0x1000 && v == 0
    ensures WideSbc(true, a, v, true) != ChainedSub(true, a, v, true)
  {
    hide WideSbc, ChainedSub;
    assert Hi(a) == 0x10;
    WideSbcAgrees(a, v, true);
  }

  /** The digits of `x` at bit positions 0, 4, 8 and 12, as the masks with 0x000f to 0xf000 give them. */
  function Nibble(x: word, k: nat): nat
    requires k < 4
  {
    match k
    case 0 => U4(Lo(x))
    case 1 => HighDigit(Lo(x)) * 0x10
    case 2 => U4(Hi(x)) * 0x100
    case _ => HighDigit(Hi(x)) * 0x1000
  }

  /** One 16-bit ADC of the 65816 is two chained 8-bit ones, for every input, but for V. */
  method Adc65816Wide(decimal: bool, regC: word, tmpValue: word, carryIn: bool) returns (s: WideSum)
    ensures s == WideAdc(decimal, regC, tmpValue, carryIn)
  {
    hide WideAdc;
    if decimal {
      s := Adc65816WideDecimal(regC, tmpValue, carryIn);
    } else {
      s := Adc65816WideBinary(regC, tmpValue, carryIn);
    }
  }

  method Adc65816WideBinary(regC: word, tmpValue: word, carryIn: bool) returns (s: WideSum)
    ensures s == WideAdc(false, regC, tmpValue, carryIn)
  {
    hide HighSumSigned;
    var tmp := (if carryIn then 1 else 0) + tmpValue + regC;
    ByteWise(regC, tmpValue, carryIn);
    SignOfHighByte(regC);
    SignOfHighByte(tmpValue);
    SignOfHighByte(U16(tmp));
    hide U16, Lo, Hi, U8, Word;
    var v := (regC >= 0x8000) == (tmpValue >= 0x8000) && (regC >= 0x8000) != (U16(tmp) >= 0x8000);
    s := Wide(U16(tmp), v, tmp > 0xffff);
  }

  /** A 16-bit sum by its bytes. */
  lemma ByteWise(a: word, v: word, c: bool)
    ensures var t := a + v + Bit(c); var t0 := Lo(a) + Lo(v) + Bit(c); var t1 := Hi(a) + Hi(v) + Bit(t0 > 0xff);
            U16(t) == Word(U8(t0), U8(t1)) && (t > 0xffff <==> t1 > 0xff)
  {
    var t0 := Lo(a) + Lo(v) + Bit(c);
    var t1 := Hi(a) + Hi(v) + Bit(t0 > 0xff);
    assert a == Lo(a) + 0x100 * Hi(a) && v == Lo(v) + 0x100 * Hi(v);
    hide Lo, Hi;
    assert a + v + Bit(c) == U8(t0) + 0x100 * t1;
  }

  method Adc65816WideDecimal(regC: word, tmpValue: word, carryIn: bool) returns (s: WideSum)
    ensures s == WideAdc(true, regC, tmpValue, carryIn)
  {
    hide AdcDecimal, U4, HighSum;
    var low, carry := WideLowDigits(regC, tmpValue, carryIn);
    s := WideHighDigits(regC, tmpValue, low, carry);
  }

  /** The first two digits: what is left of `tmp` in its low byte, and whether 0x100 went into `tmp2`. */
  method WideLowDigits(regC: word, tmpValue: word, carryIn: bool) returns (low: byte, carry: bool)
    ensures var lo := AdcDecimal(Lo(regC), Lo(tmpValue), carryIn); low == lo.r && carry == lo.c
  {
    hide U8, U4, Lo, Hi, HighDigit;
    ghost var al, vl := Lo(regC), Lo(tmpValue);
    ghost var h1, l1 := HighSum(al, vl, carryIn), AdjustUp(LowSum(al, vl, carryIn));
    var tmp2: nat := Nibble(regC, 0) + Nibble(tmpValue, 0) + (if carryIn then 1 else 0);
    var tmp: nat := Nibble(regC, 1) + Nibble(tmpValue, 1);
    if tmp2 > 0x9 {
      tmp2 := tmp2 + 0x6;
      tmp := tmp + 0x10;
    }
    tmp := tmp + U4(tmp2);
    assert tmp == 0x10 * h1 + l1 && l1 < 0x10 && h1 < 0x20;
    hide LowSum, HighSum;
    carry := tmp > 0x9f;
    if carry {
      tmp := tmp + 0x60;
    }
    Digits(if carry then h1 + 6 else h1, l1);
    low := U8(tmp);
  }

  /** The last two digits on top of them. */
  method WideHighDigits(regC: word, tmpValue: word, low: byte, carry: bool) returns (s: WideSum)
    ensures var hi := AdcDecimal(Hi(regC), Hi(tmpValue), carry);
            s == Wide(Word(low, hi.r), tmpValue < 0x8000 && U4(HighSum(Hi(regC), Hi(tmpValue), carry)) >= 8, hi.c)
  {
    hide U4, U8, U16, Lo, Hi, HighDigit, LowSum, HighSum, Word;
    ghost var s2, h2 := LowSum(Hi(regC), Hi(tmpValue), carry), HighSum(Hi(regC), Hi(tmpValue), carry);
    var tmp := WideHighTmp(regC, tmpValue, low, carry);
    ghost var low12 := 0x100 * AdjustUp(s2) + low;
    SignOfTmp(h2, low12);
    High16(h2, low12);
    // reg_a, an 8-bit register, stands where reg_c is meant, so its bit 15 is clear
    var v := tmpValue < 0x8000 && (tmp / 0x8000) % 2 == 1;
    if tmp > 0x9fff {
      tmp := tmp + 0x6000;
    }
    AdjustedDigit(h2);
    AdjustedDigit(s2);
    hide AdjustUp;
    WordOf(low, AdjustUp(h2), AdjustUp(s2));
    s := Wide(U16(tmp), v, tmp > 0xffff);
  }

  lemma AdjustedDigit(sum: nat)
    requires sum < 0x20
    ensures AdjustUp(sum) < 0x10
  {
  }

  /** All four digits before the last correction. */
  method WideHighTmp(regC: word, tmpValue: word, low: byte, carry: bool) returns (tmp: nat)
    ensures var s2, h2 := LowSum(Hi(regC), Hi(tmpValue), carry), HighSum(Hi(regC), Hi(tmpValue), carry);
            s2 < 0x20 && h2 < 0x20 && AdjustUp(s2) < 0x10 && tmp == 0x1000 * h2 + 0x100 * AdjustUp(s2) + low
  {
    hide U4, Lo, Hi, HighDigit;
    ghost var s2, h2 := LowSum(Hi(regC), Hi(tmpValue), carry), HighSum(Hi(regC), Hi(tmpValue), carry);
    var tmp2: nat := Nibble(regC, 2) + Nibble(tmpValue, 2) + (if carry then 0x100 else 0);
    tmp2 := tmp2 + low;
    assert tmp2 == 0x100 * s2 + low;
    tmp := Nibble(regC, 3) + Nibble(tmpValue, 3);
    if tmp2 > 0x9ff {
      tmp2 := tmp2 + 0x600;
      tmp := tmp + 0x1000;
    }
    assert tmp == 0x1000 * h2 && h2 < 0x20;
    hide LowSum, HighSum;
    Low12(tmp2, if s2 > 9 then s2 + 6 else s2, low);
    tmp := tmp + tmp2 % 0x1000;
  }

  lemma SignOfTmp(h: nat, low: nat)
    requires h < 0x20 && low < 0x1000
    ensures ((0x1000 * h + low) / 0x8000) % 2 == 1 <==> U4(h) >= 8
  {
    assert (0x1000 * h + low) / 0x8000 == h / 8;
  }

  lemma WordOf(low: byte, d3: nat, d2: nat)
    requires d3 < 0x10 && d2 < 0x10
    ensures Word(low, 16 * d3 + d2) == 0x1000 * d3 + 0x100 * d2 + low
  {
  }

  /** `t & 0xfff`. */
  lemma Low12(t: nat, d: nat, low: nat)
    requires t == 0x100 * d + low && low < 0x100 && d < 0x30
    ensures t % 0x1000 == 0x100 * U4(d) + low
  {
  }

  lemma High16(h: nat, low: nat)
    requires h < 0x20 && low < 0x1000
    ensures h > 9 ==> U16(0x1000 * (h + 6) + low) == 0x1000 * AdjustUp(h) + low
    ensures h <= 9 ==> U16(0x1000 * h + low) == 0x1000 * h + low
  {
  }

  /** One 16-bit SBC of the 65816. */
  method Sbc65816Wide(decimal: bool, regC: word, tmpValue: word, carryIn: bool) returns (s: WideSum)
    ensures s == WideSbc(decimal, regC, tmpValue, carryIn)
  {
    var tmp := (if carryIn then 1 else 0) + (0xffff - tmpValue) + regC;
    WideDifference(regC, tmpValue, carryIn);
    SignOfHighByte(regC);
    SignOfHighByte(tmpValue);
    SignOfHighByte(U16(tmp));
    hide U16, U8, Word, Lo, Hi, LowDifference, HighDifference, AdjustDown;
    var v := (regC >= 0x8000) != (tmpValue >= 0x8000) && (regC >= 0x8000) != (U16(tmp) >= 0x8000);
    if decimal {
      SbcOverflow(regC, tmpValue, carryIn);
      var r, c := Sbc65816WideDigits(Lo(regC), tmpValue, carryIn);
      s := Wide(r, v, c);
    } else {
      s := Wide(U16(tmp), v, tmp > 0xffff);
    }
  }

  /** A 16-bit difference by its bytes. */
  lemma WideDifference(a: word, v: word, c: bool)
    ensures var t := Bit(c) + (0xffff - v) + a;
            var lo := SbcBinary(Lo(a), Lo(v), c);
            var hi := SbcBinary(Hi(a), Hi(v), lo.c);
            U16(t) == Word(lo.r, hi.r) && (t > 0xffff) == hi.c && Hi(U16(t)) == hi.r
  {
    var d0 := Lo(a) - Lo(v) - Bit(!c);
    var d1 := Hi(a) - Hi(v) - Bit(d0 < 0);
    assert a == Lo(a) + 0x100 * Hi(a) && v == Lo(v) + 0x100 * Hi(v);
    hide Lo, Hi;
    assert Bit(c) + (0xffff - v) + a == 0x1_0000 + U8(d0) + 0x100 * d1;
    assert U8(d1) == if d1 < 0 then d1 + 0x100 else d1;
  }

  /** V does not depend on the decimal mode. */
  lemma SbcOverflow(a: word, v: word, c: bool)
    ensures ChainedSub(true, a, v, c).v == ChainedSub(false, a, v, c).v
  {
    hide LowDifference, HighDifference, AdjustDown;
  }

  /** `a & 0xf00` and `a & 0xf000` of a 32-bit value. */
  function Digit2(t: int): nat {
    U4(t / 0x100) * 0x100
  }

  function Digit3(t: int): nat {
    U4(t / 0x1000) * 0x1000
  }

  lemma ThirdDigit(d: int, rest: nat)
    requires -0x10 <= d <= 0 && rest < 0x100
    ensures var t := 0x1000 + 0x100 * d + rest;
            Digit2(if t < 0x1000 then U32(t - 0x600) else t) == 0x100 * AdjustDown(d)
  {
    var t := 0x1000 + 0x100 * d + rest;
    if d < 0 {
      assert U32(t - 0x600) / 0x100 == if d >= -10 then d + 10 else 0x100_0000 + d + 10;
    } else {
      assert t / 0x100 == 0x10;
    }
  }

  lemma FourthDigit(d: int, rest: nat)
    requires -0x10 <= d <= 0 && rest < 0x1000
    ensures var t := 0x1_0000 + 0x1000 * d + rest;
            Digit3(if t < 0x1_0000 then U32(t - 0x6000) else t) == 0x1000 * AdjustDown(d)
  {
    var t := 0x1_0000 + 0x1000 * d + rest;
    if d < 0 {
      assert U32(t - 0x6000) / 0x1000 == if d >= -10 then d + 10 else 0x10_0000 + d + 10;
    } else {
      assert t / 0x1000 == 0x10;
    }
  }

  /** The digit differences of zero less the high byte, after the low byte has left `d0`. */
  lemma HighFromZero(d0: int, vh: byte)
    requires -0x100 <= d0 < 0x100
    ensures var l, h := LowDifference(0, vh, d0 >= 0), HighDifference(0, vh, d0 >= 0);
            && l + U4(vh) + Bit(d0 < 0) == 0 && h + HighDigit(vh) + Bit(l < 0) == 0 && vh == 0x10 * HighDigit(vh) + U4(vh)
            && U8(d0) == d0 + 0x100 * Bit(d0 < 0) && (h < 0 <==> vh + Bit(d0 < 0) > 0)
  {
  }

  lemma LowTwelve(v: word)
    ensures v % 0x1000 == Lo(v) + 0x100 * U4(Hi(v)) && v == Lo(v) + 0x100 * Hi(v)
  {
    assert v == Lo(v) + 0x100 * Hi(v);
    assert Hi(v) == 0x10 * HighDigit(Hi(v)) + U4(Hi(v));
  }

  /** The decimal branch: all four digits from the 8-bit register. */
  method Sbc65816WideDigits(regA: byte, tmpValue: word, carryIn: bool) returns (r: word, c: bool)
    ensures var s := ChainedSub(true, regA, tmpValue, carryIn); r == s.r && c == s.c
  {
    var carry := if carryIn then 1 else 0;
    ghost var vl, vh := Lo(tmpValue), Hi(tmpValue);
    ghost var d0 := regA - vl - Bit(!carryIn);
    ghost var l, h := LowDifference(0, vh, d0 >= 0), HighDifference(0, vh, d0 >= 0);
    HighFromZero(d0, vh);
    LowTwelve(tmpValue);
    LowAlone(regA);
    hide U4, U8, U16, U32, Lo, Hi, HighDigit, Digit2, Digit3, AdjustDown, LowDifference, HighDifference;
    var tmp, _ := Sbc65816Digits(regA, Lo(tmpValue), carryIn);
    tmp := AddThirdDigit(tmp, regA + (0xfff - tmpValue % 0x1000) + carry, l, U8(d0));
    var tmp2 := regA + (0xffff - tmpValue) + carry;
    tmp := AddFourthDigit(tmp, tmp2, h, 0x100 * (l + 16 * Bit(l < 0)) + U8(d0));
    c := tmp2 > 0xffff;
    FromZero(regA, tmpValue, carryIn, tmp, AdjustDown(h), AdjustDown(l));
    r := tmp;
  }

  method AddThirdDigit(tmp: nat, tmp2: nat, ghost d: int, ghost rest: nat) returns (r: nat)
    requires -0x10 <= d <= 0 && rest < 0x100 && tmp2 == 0x1000 + 0x100 * d + rest
    ensures r == tmp + 0x100 * AdjustDown(d)
  {
    hide U4, U32, Digit2, AdjustDown;
    ThirdDigit(d, rest);
    r := tmp + Digit2(if tmp2 < 0x1000 then U32(tmp2 - 0x600) else tmp2);
  }

  method AddFourthDigit(tmp: nat, tmp2: nat, ghost d: int, ghost rest: nat) returns (r: nat)
    requires -0x10 <= d <= 0 && rest < 0x1000 && tmp2 == 0x1_0000 + 0x1000 * d + rest
    ensures r == tmp + 0x1000 * AdjustDown(d)
  {
    hide U4, U32, Digit3, AdjustDown;
    FourthDigit(d, rest);
    r := tmp + Digit3(if tmp2 < 0x1_0000 then U32(tmp2 - 0x6000) else tmp2);
  }

  /** The digits put together. */
  lemma FromZero(regA: byte, v: word, c: bool, tmp: nat, d3: nat, d2: nat)
    requires var d0 := regA - Lo(v) - Bit(!c);
             && d3 == AdjustDown(HighDifference(0, Hi(v), d0 >= 0)) && d2 == AdjustDown(LowDifference(0, Hi(v), d0 >= 0))
             && tmp == 16 * AdjustDown(HighDifference(regA, Lo(v), c)) + AdjustDown(LowDifference(regA, Lo(v), c))
                     + 0x100 * d2 + 0x1000 * d3
    ensures tmp == ChainedSub(true, regA, v, c).r
    ensures ChainedSub(true, regA, v, c).c == (0 - Hi(v) - Bit(regA - Lo(v) - Bit(!c) < 0) >= 0)
  {
    hide U4, U8, Lo, Hi, HighDigit, AdjustDown, LowDifference, HighDifference, Word, Sbc, SbcBinary;
    LowOfByte(regA);
    var borrow := regA - Lo(v) - Bit(!c) < 0;
    SbcByDigits(regA, Lo(v), c);
    SbcByDigits(0, Hi(v), !borrow);
    WordOf(Sbc(true, regA, Lo(v), c).r, d3, d2);
  }

  lemma LowOfByte(b: byte)
    ensures Lo(b) == b && Hi(b) == 0
  {
  }
}
