/** The ADC, SBC and ARR macros, whose text both 6510 cores share: nibble arithmetic in
    C integers, flags assigned as they become known.  Each is proved equal to the
    digit-wise definition of the reference instruction set. */
module AluMacros {
  import opened Bytes
  import opened Isa6510

  method AdcMacro(decimal: bool, regA: byte, tmpValue: byte, carryIn: bool) returns (s: Sum)
    ensures s == Adc(decimal, regA, tmpValue, carryIn)
  {
    if decimal {
      s := AdcDecimalBranch(regA, tmpValue, carryIn);
    } else {
      s := AdcBinaryBranch(regA, tmpValue, carryIn);
    }
  }

  method AdcDecimalBranch(regA: byte, tmpValue: byte, carryIn: bool) returns (s: Sum)
    ensures s == AdcDecimal(regA, tmpValue, carryIn)
  {
    hide Bit7, U8, U4, HighDigit, Mask1F0, MaskFF0, LowSum, HighSum;
    var tmp := AdcDecimalDigits(regA, tmpValue, carryIn);
    ghost var hi, low := HighSum(regA, tmpValue, carryIn), AdjustUp(LowSum(regA, tmpValue, carryIn));
    Digits(hi, low);
    var z := U8(regA + tmpValue + if carryIn then 1 else 0) == 0;
    var n := Bit7(tmp);
    var v := Bit7(regA) != Bit7(tmp) && Bit7(regA) == Bit7(tmpValue);
    if Mask1F0(tmp) > 0x90 {
      tmp := tmp + 0x60;
      Digits(hi + 6, low);
    }
    var c := MaskFF0(tmp) > 0xf0;
    assert c == (hi > 9) && U8(tmp) == 16 * AdjustUp(hi) + low;
    hide AdjustUp;
    s := Sum(U8(tmp), n, v, z, c);
  }

  /** Both digit sums, the low one adjusted. */
  method AdcDecimalDigits(regA: byte, tmpValue: byte, carryIn: bool) returns (tmp: nat)
    ensures var hi, low := HighSum(regA, tmpValue, carryIn), AdjustUp(LowSum(regA, tmpValue, carryIn));
            tmp == 0x10 * hi + low && hi < 0x20 && low < 0x10
  {
    hide U4, HighDigit;
    tmp := U4(regA) + U4(tmpValue) + (if carryIn then 1 else 0);
    if tmp > 0x9 {
      tmp := tmp + 0x6;
    }
    if tmp <= 0x0f {
      tmp := U4(tmp) + 0x10 * HighDigit(regA) + 0x10 * HighDigit(tmpValue);
    } else {
      tmp := U4(tmp) + 0x10 * HighDigit(regA) + 0x10 * HighDigit(tmpValue) + 0x10;
    }
  }

  method AdcBinaryBranch(regA: byte, tmpValue: byte, carryIn: bool) returns (s: Sum)
    ensures s == AdcBinary(regA, tmpValue, carryIn)
  {
    hide Bit7, U8;
    var tmp := tmpValue + regA + (if carryIn then 1 else 0);
    Bit7OfU8(tmp);
    var v := Bit7(regA) == Bit7(tmpValue) && Bit7(regA) != Bit7(tmp);
    s := Sum(U8(tmp), U8(tmp) >= 0x80, v, U8(tmp) == 0, tmp > 0xff);
  }

  method SbcMacro(decimal: bool, regA: byte, value: byte, carryIn: bool) returns (s: Sum)
    ensures s == Sbc(decimal, regA, value, carryIn)
  {
    hide Bit7, U8, U16;
    var src: word := value;
    var tmp := U16(regA - src - (if carryIn then 0 else 1));
    U8OfU16(regA - src - (if carryIn then 0 else 1));
    var v := Bit7(regA) != Bit7(tmp) && Bit7(regA) != Bit7(src);
    var r := U8(tmp);
    if decimal {
      r := SbcDecimalDigits(regA, value, carryIn);
    }
    s := Sum(r, U8(tmp) >= 0x80, v, U8(tmp) == 0, tmp < 0x100);
  }

  /** The computation of `tmp_a` in the decimal branch. */
  method SbcDecimalDigits(regA: byte, src: byte, carryIn: bool) returns (r: byte)
    ensures r == 16 * AdjustDown(HighDifference(regA, src, carryIn)) + AdjustDown(LowDifference(regA, src, carryIn))
  {
    hide U8, U4, U32, HighDigit, Bit4, Bit8;
    var tmpA := U32(U4(regA) - U4(src) - (if carryIn then 0 else 1));
    ghost var lo, hi := LowDifference(regA, src, carryIn), HighDifference(regA, src, carryIn);
    LowBorrow(lo);
    if Bit4(tmpA) {
      tmpA := U4(U32(tmpA - 6)) + U32(0x10 * HighDigit(regA) - 0x10 * HighDigit(src) - 0x10);
    } else {
      tmpA := U4(tmpA) + U32(0x10 * HighDigit(regA) - 0x10 * HighDigit(src));
    }
    assert tmpA == AdjustDown(lo) + U32(0x10 * hi);
    HighBorrow(hi, AdjustDown(lo));
    if Bit8(tmpA) {
      tmpA := U32(tmpA - 0x60);
    }
    r := U8(tmpA);
  }

  /** `tmp` starts as A AND operand. */
  method ArrMacro(decimal: bool, anded: byte, carryIn: bool) returns (s: Sum)
    ensures s == ArrSum(decimal, anded, carryIn)
  {
    hide Bit5, Bit6, U4, HighDigit;
    var tmp: nat := anded + (if carryIn then 0x100 else 0);
    assert tmp / 2 == ArrRotated(anded, carryIn);
    if decimal {
      s := ArrDecimalBranch(anded, tmp / 2, carryIn);
    } else {
      tmp := tmp / 2;
      s := Sum(tmp, tmp >= 0x80, Bit6(tmp) != Bit5(tmp), tmp == 0, Bit6(tmp));
    }
  }

  method ArrDecimalBranch(tmp: byte, rotated: byte, carryIn: bool) returns (s: Sum)
    requires rotated == ArrRotated(tmp, carryIn)
    ensures s == ArrSum(true, tmp, carryIn)
  {
    hide U4, HighDigit, Bit6, ArrRotated;
    var v, c := Bit6(rotated) != Bit6(tmp), false;
    ghost var hi := HighDigit(rotated);
    ghost var lo := if U4(tmp) + tmp % 2 > 0x5 then U4(rotated + 0x6) else U4(rotated);
    var tmp2 := ArrLowDigit(tmp, rotated);
    if 0x10 * HighDigit(tmp) + 0x10 * (HighDigit(tmp) % 2) > 0x50 {
      tmp2 := U4(tmp2) + 0x10 * U4(HighDigit(tmp2) + 6);
      c := true;
    }
    s := Sum(tmp2, carryIn, v, rotated == 0, c);
  }

  /** The fix-up of the low digit. */
  method ArrLowDigit(tmp: byte, rotated: byte) returns (tmp2: byte)
    ensures HighDigit(tmp2) == HighDigit(rotated)
    ensures U4(tmp2) == if U4(tmp) + tmp % 2 > 0x5 then U4(rotated + 0x6) else U4(rotated)
    ensures tmp2 == 0x10 * HighDigit(tmp2) + U4(tmp2)
  {
    hide U4, HighDigit;
    tmp2 := rotated;
    if U4(tmp) + tmp % 2 > 0x5 {
      Digits(HighDigit(rotated), U4(rotated + 0x6));
      tmp2 := 0x10 * HighDigit(rotated) + U4(rotated + 0x6);
    }
  }
}
