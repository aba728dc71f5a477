/**
 * The few facts about IEEE 754 binary64 arithmetic that Python's
 * `int * float` product and `int > float` comparison need, for
 * non-negative operands far below the overflow range.
 */
module Doubles {
  function Pow2(k: nat): (r: nat)
    ensures r >= 1
  {
    if k == 0 then 1 else 2 * Pow2(k - 1)
  }

  lemma {:induction false} Pow2Add(a: nat, b: nat)
    ensures Pow2(a + b) == Pow2(a) * Pow2(b)
    decreases a
  {
    if a > 0 {
      Pow2Add(a - 1, b);
      assert Pow2(a + b) == 2 * Pow2(a - 1 + b);
    }
  }

  lemma {:induction false} Pow2Below(a: nat, b: nat)
    requires a < b
    ensures 2 * Pow2(a) <= Pow2(b)
    decreases b
  {
    if a + 1 < b {
      Pow2Below(a, b - 1);
    }
  }

  /** The number of binary digits of `x`. */
  function BitLength(x: nat): (b: nat)
    ensures x < Pow2(b)
    ensures x > 0 ==> b >= 1 && Pow2(b - 1) <= x
  {
    if x == 0 then 0 else 1 + BitLength(x / 2)
  }

  /** A number between consecutive powers of two has the larger one's exponent as its length. */
  lemma BitLengthIs(x: nat, b: nat)
    requires b >= 1 && Pow2(b - 1) <= x < Pow2(b)
    ensures BitLength(x) == b
  {
    var c := BitLength(x);
    if c < b - 1 {
      Pow2Below(c, b - 1);
    } else if c > b + 1 {
      Pow2Below(b, c - 1);
    }
  }

  /** A double's significand holds 53 binary digits. */
  const Precision: nat := 53

  /** `x` rounded to a multiple of `2^s`, ties to the even multiple: the result `m` stands for `m * 2^s`. */
  function RoundAt(x: nat, s: nat): (m: nat) {
    var q := x / Pow2(s);
    var rem := x % Pow2(s);
    if 2 * rem > Pow2(s) || (2 * rem == Pow2(s) && q % 2 == 1) then q + 1 else q
  }

  /** The rounded multiple is within half a step of `x`, and a tie goes to the even multiple. */
  lemma RoundAtNearest(x: nat, s: nat)
    ensures 2 * (x - RoundAt(x, s) * Pow2(s)) <= Pow2(s) && 2 * (RoundAt(x, s) * Pow2(s) - x) <= Pow2(s)
    ensures 2 * (x - RoundAt(x, s) * Pow2(s)) == Pow2(s) || 2 * (RoundAt(x, s) * Pow2(s) - x) == Pow2(s) ==> RoundAt(x, s) % 2 == 0
  {
    var unit, q, m := Pow2(s), x / Pow2(s), RoundAt(x, s);
    DivParts(x, unit);
    NextMultiple(q, unit);
    HalfStep(x, unit, q * unit, x % unit, q, m, m * unit);
  }

  lemma DivParts(x: nat, unit: nat)
    requires unit >= 1
    ensures x == (x / unit) * unit + x % unit && 0 <= x % unit < unit
  {
  }

  lemma NextMultiple(q: int, unit: int)
    ensures (q + 1) * unit == q * unit + unit
  {
  }

  /** The same, with every product named. */
  lemma HalfStep(x: int, unit: int, p: int, rem: int, q: int, m: int, mu: int)
    requires unit >= 1 && x == p + rem && 0 <= rem < unit
    requires (m == q && mu == p && (2 * rem < unit || (2 * rem == unit && q % 2 == 0)))
             || (m == q + 1 && mu == p + unit && (2 * rem > unit || (2 * rem == unit && q % 2 == 1)))
    ensures 2 * (x - mu) <= unit && 2 * (mu - x) <= unit
    ensures 2 * (x - mu) == unit || 2 * (mu - x) == unit ==> m % 2 == 0
  {
  }

  /** `x` rounded to 53 significant bits, ties to even: the result `(m, s)` stands for `m * 2^s`. */
  function Round(x: nat): (r: (nat, nat))
  {
    if BitLength(x) <= Precision then (x, 0)
    else
      var s := BitLength(x) - Precision;
      (RoundAt(x, s), s)
  }

  /** The double nearest 0.7 is `SevenTenths * 2^-52`. */
  const SevenTenths: nat := 3152519739159347

  /**
   * Python's `i > n * 0.7`: `n` is converted to a double, the product is
   * rounded to a double, and the comparison with the integer `i` is exact.
   */
  predicate PastSeventyPercent(i: int, n: nat) {
    var (mn, sn) := Round(n);
    var (mp, sp) := Round(mn * SevenTenths);
    if sn + sp >= 52 then i > mp * Pow2(sn + sp - 52) else i * Pow2(52 - sn - sp) > mp
  }

  lemma Pow2Values()
    ensures Pow2(5) == 32 && Pow2(6) == 64 && Pow2(7) == 128
    ensures Pow2(46) == 70368744177664 && Pow2(47) == 140737488355328
    ensures Pow2(57) == 144115188075855872 && Pow2(58) == 288230376151711744
  {
    assert Pow2(7) == 128;
    Pow2Add(7, 7); Pow2Add(14, 14); Pow2Add(28, 18);
    assert Pow2(18) == 262144 by { Pow2Add(14, 4); }
    Pow2Add(46, 1); Pow2Add(46, 11); Pow2Add(57, 1);
    assert Pow2(11) == 2048 by { Pow2Add(7, 4); }
  }

  /**
   * With 90 lines, `90 * 0.7` is the double 62.99999999999999, so line 63
   * is already past it, although 63 is exactly seven tenths of 90.
   */
  lemma NinetyLines()
    ensures PastSeventyPercent(63, 90) && 10 * 63 == 7 * 90
  {
    Pow2Values();
    BitLengthIs(90, 7);
    BitLengthIs(90 * SevenTenths, 58);
    assert Round(90 * SevenTenths) == (8866461766385663, 5);
  }

  /** With 100 lines the product rounds to exactly 70.0: line 70 is not past it, line 71 is. */
  lemma HundredLines()
    ensures !PastSeventyPercent(70, 100) && PastSeventyPercent(71, 100)
  {
    Pow2Values();
    BitLengthIs(100, 7);
    BitLengthIs(100 * SevenTenths, 59);
    assert Round(100 * SevenTenths) == (4925812092436480, 6);
  }
}
