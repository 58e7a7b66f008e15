/** Unsigned machine words as natural numbers: powers of two, bitwise or, and shifts. */
module Bits {

  type byte = x: nat | x < 256

  function Pow2(n: nat): (r: nat)
    ensures r > 0
  {
    if n == 0 then 1 else 2 * Pow2(n - 1)
  }

  /** Bitwise or, bit by bit. */
  function Or(a: nat, b: nat): nat {
    if a == 0 then b
    else if b == 0 then a
    else (if a % 2 == 1 || b % 2 == 1 then 1 else 0) + 2 * Or(a / 2, b / 2)
  }

  lemma {:induction false} Doubled(x: nat, y: nat)
    ensures (2 * x) * y == 2 * (x * y)
  {
  }

  lemma {:induction false} Pow2Add(a: nat, b: nat)
    ensures Pow2(a + b) == Pow2(a) * Pow2(b)
  {
    if a > 0 {
      Pow2Add(a - 1, b);
      Doubled(Pow2(a - 1), Pow2(b));
      assert a + b - 1 == a - 1 + b;
    }
  }

  lemma {:induction false} Pow2Mono(a: nat, b: nat)
    requires a <= b
    ensures Pow2(a) <= Pow2(b)
  {
    if a < b { Pow2Mono(a, b - 1); }
  }

  /** Equal exponents; products of powers are easier to compare when this is said outright. */
  lemma {:induction false} SamePow2(a: nat, b: nat)
    requires a == b
    ensures Pow2(a) == Pow2(b)
  {
  }

  lemma {:induction false} MulSame(x: int, a: int, b: int)
    requires a == b
    ensures x * a == x * b
  {
  }

  lemma {:induction false} Pow2Byte(k: nat)
    ensures Pow2(8 * (k + 1)) == 256 * Pow2(8 * k)
  {
    Pow2Add(8, 8 * k);
  }

  /** Words with no common bit: or is addition. */
  lemma {:induction false} OrDisjoint(a: nat, b: nat, s: nat)
    requires a < Pow2(s)
    ensures Or(a, b * Pow2(s)) == a + b * Pow2(s)
    ensures Or(b * Pow2(s), a) == a + b * Pow2(s)
  {
    var c := b * Pow2(s);
    if s > 0 && a > 0 && c > 0 {
      var d := b * Pow2(s - 1);
      assert c == 2 * d;
      OrDisjoint(a / 2, b, s - 1);
    } else if s == 0 {
      assert a == 0;
    }
  }

  // ---------------------------------------------------------------- division facts

  function Quotient(x: nat, d: nat): (q: nat)
    requires d > 0
    ensures q == x / d
  {
    x / d
  }

  lemma {:induction false} MulMono(a: int, b: int, d: int)
    requires a <= b && d >= 0
    ensures a * d <= b * d
  {
    assert (b - a) * d >= 0;
  }

  lemma {:induction false} SmallMultiple(k: int, d: int)
    requires -d < k * d < d
    ensures k == 0
  {
    if k >= 1 { MulMono(1, k, d); }
    if k <= -1 { MulMono(k, -1, d); }
  }

  lemma {:induction false} DivModUnique(x: int, d: int, q: int, r: int)
    requires d > 0 && x == q * d + r && 0 <= r < d
    ensures x / d == q && x % d == r
  {
    var k := q - x / d;
    assert k * d == q * d - x / d * d;
    SmallMultiple(k, d);
  }

  lemma {:induction false} QuotientBound(r: nat, a: nat, b: nat)
    requires a > 0 && r < a * b
    ensures r / a < b
  {
    if r / a >= b { MulMono(b, r / a, a); }
  }

  lemma {:induction false} MulLess(r: nat, m: nat, a: nat)
    requires r < m && a > 0
    ensures 0 <= r * a < m * a
  {
    MulMono(r + 1, m, a);
    assert (r + 1) * a == r * a + a;
  }

  lemma {:induction false} ScaledSum(x: nat, q: nat, m: nat, r: nat, a: nat)
    requires x == q * m + r
    ensures x * a == q * (m * a) + r * a
  {
    assert (q * m + r) * a == q * m * a + r * a;
    assert q * m * a == q * (m * a);
  }

  lemma {:induction false} ScaleMod(x: nat, m: nat, a: nat)
    requires m > 0 && a > 0
    ensures m * a > 0 && (x * a) % (m * a) == (x % m) * a && (x * a) / (m * a) == x / m
  {
    var q, r := Quotient(x, m), x % m;
    ScaledSum(x, q, m, r, a);
    MulLess(r, m, a);
    DivModUnique(x * a, m * a, q, r * a);
  }

  lemma {:induction false} DivMod(x: nat, a: nat, b: nat)
    requires a > 0 && b > 0
    ensures a * b > 0 && (x % (a * b)) / a == (x / a) % b && x / (a * b) == (x / a) / b
  {
    var q, r := x / (a * b), x % (a * b);
    var q1, r1 := r / a, r % a;
    assert x == q * (a * b) + q1 * a + r1;
    assert q * (a * b) == (q * b) * a;
    assert x == (q * b + q1) * a + r1;
    DivModUnique(x, a, q * b + q1, r1);
    QuotientBound(r, a, b);
    DivModUnique(x / a, b, q, q1);
  }

  /** Adding a multiple of the modulus. */
  lemma {:induction false} ModShift(x: int, k: int, m: int)
    requires m > 0
    ensures (x + k * m) % m == x % m
  {
    assert x + k * m == (x / m + k) * m + x % m;
    DivModUnique(x + k * m, m, x / m + k, x % m);
  }
}
