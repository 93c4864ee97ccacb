/**
 * C's bitwise operators on non-negative integers.
 *
 * The CHIP-8 fetch and decode stages are written with `<<`, `>>`, `|` and `&`
 * on unsigned values.  This module defines those operators bit by bit, the way
 * C computes them, and proves the arithmetic facts the decoder relies on:
 * masking with 2^k - 1 is `% 2^k`, masking with a mask shifted left by k and
 * then shifting right by k is masking the shifted-down value, and OR-ing a
 * value shifted left by k with a value below 2^k is addition.
 */
module Bitwise {

  function Pow2(k: nat): (r: nat)
    ensures r >= 1
  {
    if k == 0 then 1 else 2 * Pow2(k - 1)
  }

  /** `a << k` on a non-negative value that does not overflow: k doublings. */
  function ShiftLeft(a: nat, k: nat): nat
  {
    if k == 0 then a else 2 * ShiftLeft(a, k - 1)
  }

  /** `a >> k` on a non-negative value: k halvings, each dropping the lowest bit. */
  function ShiftRight(a: nat, k: nat): nat
  {
    if k == 0 then a else ShiftRight(a / 2, k - 1)
  }

  /** `a & b`, taken one bit at a time from the least significant end. */
  function And(a: nat, b: nat): nat
    decreases a
  {
    if a == 0 || b == 0 then 0
    else 2 * And(a / 2, b / 2) + (if a % 2 == 1 && b % 2 == 1 then 1 else 0)
  }

  /** `a | b`, taken one bit at a time from the least significant end. */
  function Or(a: nat, b: nat): nat
    decreases a
  {
    if a == 0 then b
    else if b == 0 then a
    else 2 * Or(a / 2, b / 2) + (if a % 2 == 1 || b % 2 == 1 then 1 else 0)
  }

  lemma DoubleFactor(s: nat, p: nat)
    ensures s * (2 * p) == 2 * (s * p)
  {
  }

  /** A strictly larger factor adds at least one more multiple of d. */
  lemma MulStrict(x: nat, y: nat, d: nat)
    ensures x < y ==> x * d + d <= y * d
  {
    if x < y {
      var e := y - x;
      assert y * d == x * d + e * d;
      assert e * d == d + (e - 1) * d;
    }
  }

  /** Quotient and remainder are unique: a value written as q * d + r with 0 <= r < d has them. */
  lemma DivModUnique(a: nat, d: nat, q: nat, r: nat)
    requires 0 <= r < d && a == q * d + r
    ensures a / d == q && a % d == r
  {
    var q', r' := a / d, a % d;
    assert a == q' * d + r';
    MulStrict(q, q', d);
    MulStrict(q', q, d);
  }

  /** A value below the modulus is its own remainder. */
  lemma ModOfSmall(a: nat, d: nat)
    requires a < d
    ensures a % d == a && a / d == 0
  {
    DivModUnique(a, d, 0, a);
  }

  /** Halving commutes with division by a power of two. */
  lemma {:induction false} DivPow2Step(a: nat, k: nat)
    ensures a / Pow2(k + 1) == (a / 2) / Pow2(k)
    ensures a % Pow2(k + 1) == 2 * ((a / 2) % Pow2(k)) + a % 2
  {
    var p := Pow2(k);
    var q := (a / 2) / p;
    var r := (a / 2) % p;
    assert a / 2 == q * p + r;
    assert a == 2 * (a / 2) + a % 2;
    assert a == q * (2 * p) + (2 * r + a % 2) by {
      assert 2 * (q * p) == q * (2 * p);
    }
    DivModUnique(a, 2 * p, q, 2 * r + a % 2);
  }

  /** Masking with 2^k - 1 keeps the k low bits: `a & (2^k - 1) == a % 2^k`. */
  lemma {:induction false} AndLowMask(a: nat, k: nat)
    ensures And(a, Pow2(k) - 1) == a % Pow2(k)
  {
    if k == 0 {
      assert And(a, 0) == 0;
    } else if a == 0 {
      assert And(0, Pow2(k) - 1) == 0;
    } else {
      var m := Pow2(k) - 1;
      assert m / 2 == Pow2(k - 1) - 1 && m % 2 == 1;
      AndLowMask(a / 2, k - 1);
      DivPow2Step(a, k - 1);
      assert And(a, m) == 2 * And(a / 2, m / 2) + a % 2;
    }
  }

  /** A mask shifted left by k selects bits of `a >> k`: `a & (m << k) == ((a >> k) & m) << k`. */
  lemma {:induction false} AndShiftedMask(a: nat, m: nat, k: nat)
    ensures And(a, ShiftLeft(m, k)) == ShiftLeft(And(ShiftRight(a, k), m), k)
  {
    if k == 0 {
    } else {
      var mk := ShiftLeft(m, k - 1);
      AndShiftedMask(a / 2, m, k - 1);
      if a != 0 && mk != 0 {
        assert And(a, 2 * mk) == 2 * And(a / 2, mk);
      }
    }
  }

  /** OR-ing a value below 2^k into `a << k` adds it: `(a << k) | b == (a << k) + b`. */
  lemma {:induction false} OrShiftedDisjoint(a: nat, b: nat, k: nat)
    requires b < Pow2(k)
    ensures Or(ShiftLeft(a, k), b) == ShiftLeft(a, k) + b
  {
    if k > 0 {
      var ak := ShiftLeft(a, k - 1);
      OrShiftedDisjoint(a, b / 2, k - 1);
      if ak != 0 && b != 0 {
        assert Or(2 * ak, b) == 2 * Or(ak, b / 2) + b % 2;
      }
    }
  }

  /** `a << k` multiplies by 2^k. */
  lemma {:induction false} ShiftLeftIsMul(a: nat, k: nat)
    ensures ShiftLeft(a, k) == a * Pow2(k)
  {
    if k > 0 {
      ShiftLeftIsMul(a, k - 1);
      DoubleFactor(a, Pow2(k - 1));
    }
  }

  /** `a >> k` divides by 2^k, rounding down. */
  lemma {:induction false} ShiftRightIsDiv(a: nat, k: nat)
    ensures ShiftRight(a, k) == a / Pow2(k)
  {
    if k > 0 {
      ShiftRightIsDiv(a / 2, k - 1);
      DivPow2Step(a, k - 1);
    }
  }

  /** Shifting left by k and back right by k loses nothing: `(a << k) >> k == a`. */
  lemma {:induction false} ShiftRightOfShiftLeft(a: nat, k: nat)
    ensures ShiftRight(ShiftLeft(a, k), k) == a
  {
    if k > 0 {
      ShiftRightOfShiftLeft(a, k - 1);
    }
  }
}
