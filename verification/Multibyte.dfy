/** Multi-byte arithmetic: ADC and SBC chained through the carry, from the low byte up, compute
    sums and differences modulo 256^n in binary and modulo 100^n in decimal mode, on each of
    the processor cores. */
module Multibyte {
  import opened Bytes
  import opened Isa6510
  import opened AluMacros
  import opened CmosAlu

  predicate AllBcd(s: seq<byte>) {
    forall i :: 0 <= i < |s| ==> Bcd(s[i])
  }

  /** What one byte, and a sequence of bytes with the low one first, stands for. */
  function Value(d: bool, b: byte): nat {
    if d then 10 * HighDigit(b) + U4(b) else b
  }

  function Number(d: bool, s: seq<byte>): nat {
    if s == [] then 0 else Value(d, s[0]) + (if d then 100 * Number(d, s[1..]) else 0x100 * Number(d, s[1..]))
  }

  /** 100^n or 256^n. */
  function Modulus(d: bool, n: nat): nat {
    if n == 0 then 1 else if d then 100 * Modulus(d, n - 1) else 0x100 * Modulus(d, n - 1)
  }

  /** The remainder modulo `m`. */
  function Residue(x: int, m: nat): nat
    requires m > 0
  {
    x % m
  }

  /** The bytes and the final carry of `|a|` chained additions. */
  function ChainAdc(d: bool, a: seq<byte>, v: seq<byte>, c: bool): (r: (seq<byte>, bool))
    requires |a| == |v|
    ensures |r.0| == |a|
  {
    if a == [] then ([], c) else
      var s := Adc(d, a[0], v[0], c);
      var rest := ChainAdc(d, a[1..], v[1..], s.c);
      ([s.r] + rest.0, rest.1)
  }

  function ChainSbc(d: bool, a: seq<byte>, v: seq<byte>, c: bool): (r: (seq<byte>, bool))
    requires |a| == |v|
    ensures |r.0| == |a|
  {
    if a == [] then ([], c) else
      var s := Sbc(d, a[0], v[0], c);
      var rest := ChainSbc(d, a[1..], v[1..], s.c);
      ([s.r] + rest.0, rest.1)
  }

  // ----- One byte -----

  lemma AdcByte(d: bool, a: byte, v: byte, c: bool)
    requires d ==> Bcd(a) && Bcd(v)
    ensures var s := Adc(d, a, v, c);
            && (d ==> Bcd(s.r))
            && Value(d, s.r) + (if !s.c then 0 else if d then 100 else 0x100) == Value(d, a) + Value(d, v) + Bit(c)
  {
    hide U4, HighDigit, U8;
    if d {
      var lo, hi := AdjustUp(LowSum(a, v, c)), AdjustUp(HighSum(a, v, c));
      BcdDigits(hi, lo);
    }
  }

  lemma SbcByte(d: bool, a: byte, v: byte, c: bool)
    requires d ==> Bcd(a) && Bcd(v)
    ensures var s := Sbc(d, a, v, c);
            && (d ==> Bcd(s.r))
            && Value(d, s.r) == Value(d, a) - Value(d, v) - Bit(!c) + (if s.c then 0 else if d then 100 else 0x100)
  {
    hide U4, HighDigit, U8;
    if d {
      var lo, hi := AdjustDown(LowDifference(a, v, c)), AdjustDown(HighDifference(a, v, c));
      BcdDigits(hi, lo);
    }
  }

  lemma BcdDigits(hi: nat, lo: nat)
    requires hi < 10 && lo < 10
    ensures U8(16 * hi + lo) == 16 * hi + lo && U4(16 * hi + lo) == lo && HighDigit(16 * hi + lo) == hi
  {
  }

  // ----- n bytes -----

  lemma {:induction false} ChainAdcAdds(d: bool, a: seq<byte>, v: seq<byte>, c: bool)
    requires |a| == |v| && (d ==> AllBcd(a) && AllBcd(v))
    ensures var (r, c') := ChainAdc(d, a, v, c);
            && (d ==> AllBcd(r))
            && Number(d, r) + (if c' then Modulus(d, |a|) else 0) == Number(d, a) + Number(d, v) + Bit(c)
  {
    hide Adc, Bcd, Value;
    if a != [] {
      var s := Adc(d, a[0], v[0], c);
      AdcByte(d, a[0], v[0], c);
      ChainAdcAdds(d, a[1..], v[1..], s.c);
      var rest := ChainAdc(d, a[1..], v[1..], s.c);
      assert ([s.r] + rest.0)[1..] == rest.0;
    }
  }

  lemma {:induction false} ChainSbcSubtracts(d: bool, a: seq<byte>, v: seq<byte>, c: bool)
    requires |a| == |v| && (d ==> AllBcd(a) && AllBcd(v))
    ensures var (r, c') := ChainSbc(d, a, v, c);
            && (d ==> AllBcd(r))
            && Number(d, r) == Number(d, a) - Number(d, v) - Bit(!c) + (if c' then 0 else Modulus(d, |a|))
  {
    hide Sbc, Bcd, Value;
    if a != [] {
      var s := Sbc(d, a[0], v[0], c);
      SbcByte(d, a[0], v[0], c);
      ChainSbcSubtracts(d, a[1..], v[1..], s.c);
      var rest := ChainSbc(d, a[1..], v[1..], s.c);
      assert ([s.r] + rest.0)[1..] == rest.0;
    }
  }

  lemma {:induction false} NumberInRange(d: bool, s: seq<byte>)
    requires d ==> AllBcd(s)
    ensures Number(d, s) < Modulus(d, |s|)
  {
    hide U4, HighDigit;
    if s != [] {
      NumberInRange(d, s[1..]);
      assert d ==> Bcd(s[0]);
    }
  }

  /** The remainder of a number less than one modulus below zero or above the modulus. */
  lemma Remainder(x: int, m: nat)
    requires m > 0 && 0 <= x + m < 3 * m
    ensures Residue(x, m) == if x < 0 then x + m else if x < m then x else x - m
  {
    var q := if x < 0 then -1 else if x < m then 0 else 1;
    var r := if x < 0 then x + m else if x < m then x else x - m;
    RemainderUnique(x / m, x % m, q, r, m);
  }

  lemma RemainderUnique(q0: int, r0: int, q: int, r: int, m: nat)
    requires 0 <= r0 < m && 0 <= r < m && m * q0 + r0 == m * q + r
    ensures r0 == r
  {
    var k := q - q0;
    assert m * k == m * q - m * q0;
    Multiple(m, k);
  }

  lemma Multiple(m: nat, k: int)
    ensures k >= 1 ==> m * k >= m
    ensures k <= -1 ==> m * k + m <= 0
  {
    if k >= 1 {
      assert m * k == m * (k - 1) + m && m * (k - 1) >= 0;
    } else if k <= -1 {
      assert m * k == -(m * (-k - 1)) - m && m * (-k - 1) >= 0;
    }
  }

  /** A sum with its carry. */
  lemma CarriedSum(a: nat, v: nat, c: nat, r: nat, carry: bool, m: nat)
    requires a < m && v < m && c <= 1 && r < m && r + (if carry then m else 0) == a + v + c
    ensures r == Residue(a + v + c, m) && (carry <==> a + v + c >= m)
  {
    hide Residue;
    Remainder(a + v + c, m);
  }

  /** Chained ADC is addition modulo 256^n or 100^n with the true final carry. */
  lemma AdditionTheorem(d: bool, a: seq<byte>, v: seq<byte>, c: bool)
    requires |a| == |v| && (d ==> AllBcd(a) && AllBcd(v))
    ensures var (r, c') := ChainAdc(d, a, v, c);
            var sum := Number(d, a) + Number(d, v) + Bit(c);
            Modulus(d, |a|) > 0 && Number(d, r) == Residue(sum, Modulus(d, |a|)) && (c' <==> sum >= Modulus(d, |a|))
  {
    hide Residue, Number, Modulus, ChainAdc, AllBcd;
    ChainAdcAdds(d, a, v, c);
    NumberInRange(d, a);
    NumberInRange(d, v);
    var (r, c') := ChainAdc(d, a, v, c);
    NumberInRange(d, r);
    CarriedSum(Number(d, a), Number(d, v), Bit(c), Number(d, r), c', Modulus(d, |a|));
  }

  /** Chained SBC is subtraction modulo 256^n or 100^n; the final carry says that nothing was borrowed. */
  lemma SubtractionTheorem(d: bool, a: seq<byte>, v: seq<byte>, c: bool)
    requires |a| == |v| && (d ==> AllBcd(a) && AllBcd(v))
    ensures var (r, c') := ChainSbc(d, a, v, c);
            var difference := Number(d, a) - Number(d, v) - Bit(!c);
            Modulus(d, |a|) > 0 && Number(d, r) == Residue(difference, Modulus(d, |a|)) && (c' <==> difference >= 0)
  {
    hide Residue;
    ChainSbcSubtracts(d, a, v, c);
    NumberInRange(d, a);
    NumberInRange(d, v);
    NumberInRange(d, ChainSbc(d, a, v, c).0);
    hide Number, Modulus, ChainSbc, AllBcd, Residue;
    Remainder(Number(d, a) - Number(d, v) - Bit(!c), Modulus(d, |a|));
  }

  // ----- The cores -----

  lemma BcdAt(d: bool, s: seq<byte>, i: nat)
    requires i < |s| && (d ==> AllBcd(s))
    ensures d ==> Bcd(s[i])
  {
  }

  datatype Alu = Nmos6510 | Cmos65C02 | Wdc65816

  /** One ADC on a core, A and C as the program sees them. */
  method AdcOn(alu: Alu, d: bool, a: byte, v: byte, c: bool) returns (r: byte, c': bool)
    ensures r == Adc(d, a, v, c).r && c' == Adc(d, a, v, c).c
  {
    hide Adc;
    var s;
    match alu {
      case Nmos6510 => s := AdcMacro(d, a, v, c);
      case Cmos65C02 => s := Adc65C02(d, a, v, c);
      case Wdc65816 => s := Adc65816(d, a, v, c);
    }
    r, c' := s.r, s.c;
  }

  method SbcOn(alu: Alu, d: bool, a: byte, v: byte, c: bool) returns (r: byte, c': bool)
    requires d ==> Bcd(a) && Bcd(v)
    ensures r == Sbc(d, a, v, c).r && c' == Sbc(d, a, v, c).c
  {
    hide SbcBinary, U4, HighDigit;
    var s;
    match alu {
      case Nmos6510 => s := SbcMacro(d, a, v, c);
      case Cmos65C02 => s := Sbc65C02(d, a, v, c); Sbc65C02Agrees(a, v, c);
      case Wdc65816 => s := Sbc65816(d, a, v, c);
    }
    r, c' := s.r, s.c;
  }

  /** The outcome with the first `i` bytes done: `r` and the carry `c` so far. */
  function Adding(d: bool, a: seq<byte>, v: seq<byte>, i: nat, r: seq<byte>, c: bool): (seq<byte>, bool)
    requires i <= |a| == |v|
  {
    var rest := ChainAdc(d, a[i..], v[i..], c);
    (r + rest.0, rest.1)
  }

  lemma AddingStart(d: bool, a: seq<byte>, v: seq<byte>, c: bool)
    requires |a| == |v|
    ensures Adding(d, a, v, 0, [], c) == ChainAdc(d, a, v, c)
  {
    assert a[0..] == a && v[0..] == v;
    assert [] + ChainAdc(d, a, v, c).0 == ChainAdc(d, a, v, c).0;
  }

  lemma AddingStep(d: bool, a: seq<byte>, v: seq<byte>, i: nat, r: seq<byte>, c: bool)
    requires i < |a| == |v|
    ensures var s := Adc(d, a[i], v[i], c); Adding(d, a, v, i, r, c) == Adding(d, a, v, i + 1, r + [s.r], s.c)
  {
    hide Adc;
    var s := Adc(d, a[i], v[i], c);
    assert a[i..][1..] == a[i + 1..] && v[i..][1..] == v[i + 1..];
    var rest := ChainAdc(d, a[i + 1..], v[i + 1..], s.c).0;
    assert r + ([s.r] + rest) == (r + [s.r]) + rest;
  }

  lemma AddingDone(d: bool, a: seq<byte>, v: seq<byte>, r: seq<byte>, c: bool)
    requires |a| == |v|
    ensures Adding(d, a, v, |a|, r, c) == (r, c)
  {
    assert a[|a|..] == [] && v[|a|..] == [] && r + [] == r;
  }

  /** A multi-byte addition on any core. */
  method Add(alu: Alu, d: bool, a: seq<byte>, v: seq<byte>, carryIn: bool) returns (r: seq<byte>, c: bool)
    requires |a| == |v| && (d ==> AllBcd(a) && AllBcd(v))
    ensures |r| == |a| && (d ==> AllBcd(r)) && Modulus(d, |a|) > 0
    ensures var sum := Number(d, a) + Number(d, v) + Bit(carryIn);
            Number(d, r) == Residue(sum, Modulus(d, |a|)) && (c <==> sum >= Modulus(d, |a|))
  {
    hide Adc, ChainAdc, Adding, Number, Residue, Modulus, AllBcd, Bcd;
    r, c := [], carryIn;
    var i := 0;
    AddingStart(d, a, v, c);
    while i < |a|
      invariant 0 <= i <= |a| && |r| == i && ChainAdc(d, a, v, carryIn) == Adding(d, a, v, i, r, c)
    {
      AddingStep(d, a, v, i, r, c);
      BcdAt(d, a, i);
      BcdAt(d, v, i);
      var x, y := AdcOn(alu, d, a[i], v[i], c);
      r, c, i := r + [x], y, i + 1;
    }
    AddingDone(d, a, v, r, c);
    AdditionTheorem(d, a, v, carryIn);
    ChainAdcAdds(d, a, v, carryIn);
  }

  /** The outcome with the first `i` bytes done: `r` and the carry `c` so far. */
  function Subtracting(d: bool, a: seq<byte>, v: seq<byte>, i: nat, r: seq<byte>, c: bool): (seq<byte>, bool)
    requires i <= |a| == |v|
  {
    var rest := ChainSbc(d, a[i..], v[i..], c);
    (r + rest.0, rest.1)
  }

  lemma SubtractingStart(d: bool, a: seq<byte>, v: seq<byte>, c: bool)
    requires |a| == |v|
    ensures Subtracting(d, a, v, 0, [], c) == ChainSbc(d, a, v, c)
  {
    assert a[0..] == a && v[0..] == v;
    assert [] + ChainSbc(d, a, v, c).0 == ChainSbc(d, a, v, c).0;
  }

  lemma SubtractingStep(d: bool, a: seq<byte>, v: seq<byte>, i: nat, r: seq<byte>, c: bool)
    requires i < |a| == |v|
    ensures var s := Sbc(d, a[i], v[i], c); Subtracting(d, a, v, i, r, c) == Subtracting(d, a, v, i + 1, r + [s.r], s.c)
  {
    hide Sbc;
    var s := Sbc(d, a[i], v[i], c);
    assert a[i..][1..] == a[i + 1..] && v[i..][1..] == v[i + 1..];
    var rest := ChainSbc(d, a[i + 1..], v[i + 1..], s.c).0;
    assert r + ([s.r] + rest) == (r + [s.r]) + rest;
  }

  lemma SubtractingDone(d: bool, a: seq<byte>, v: seq<byte>, r: seq<byte>, c: bool)
    requires |a| == |v|
    ensures Subtracting(d, a, v, |a|, r, c) == (r, c)
  {
    assert a[|a|..] == [] && v[|a|..] == [] && r + [] == r;
  }

  /** A multi-byte subtraction on any core. */
  method Subtract(alu: Alu, d: bool, a: seq<byte>, v: seq<byte>, carryIn: bool) returns (r: seq<byte>, c: bool)
    requires |a| == |v| && (d ==> AllBcd(a) && AllBcd(v))
    ensures |r| == |a| && (d ==> AllBcd(r)) && Modulus(d, |a|) > 0
    ensures var difference := Number(d, a) - Number(d, v) - Bit(!carryIn);
            Number(d, r) == Residue(difference, Modulus(d, |a|)) && (c <==> difference >= 0)
  {
    hide Sbc, ChainSbc, Subtracting, Number, Residue, Modulus, AllBcd, Bcd;
    r, c := [], carryIn;
    var i := 0;
    SubtractingStart(d, a, v, c);
    while i < |a|
      invariant 0 <= i <= |a| && |r| == i && ChainSbc(d, a, v, carryIn) == Subtracting(d, a, v, i, r, c)
    {
      SubtractingStep(d, a, v, i, r, c);
      BcdAt(d, a, i);
      BcdAt(d, v, i);
      var x, y := SbcOn(alu, d, a[i], v[i], c);
      r, c, i := r + [x], y, i + 1;
    }
    SubtractingDone(d, a, v, r, c);
    SubtractionTheorem(d, a, v, carryIn);
    ChainSbcSubtracts(d, a, v, carryIn);
  }
}
