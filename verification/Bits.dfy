/** Bitwise operations on unsigned machine words, written on naturals bit by bit. */
module Bits {

  function Pow2(n: nat): (p: nat)
    ensures p > 0
  {
    if n == 0 then 1 else 2 * Pow2(n - 1)
  }

  lemma {:induction false} Pow2Sum(m: nat, n: nat)
    ensures Pow2(m + n) == Pow2(m) * Pow2(n)
  {
    if m > 0 {
      Pow2Sum(m - 1, n);
    }
  }

  function BitAnd(x: nat, y: nat): nat
  {
    if x == 0 || y == 0 then 0
    else 2 * BitAnd(x / 2, y / 2) + (if x % 2 == 1 && y % 2 == 1 then 1 else 0)
  }

  function BitOr(x: nat, y: nat): nat
  {
    if x == 0 then y
    else if y == 0 then x
    else 2 * BitOr(x / 2, y / 2) + (if x % 2 == 1 || y % 2 == 1 then 1 else 0)
  }

  /** Splitting off the lowest bit commutes with reduction modulo a power of two. */
  lemma {:induction false} ModPow2Unfold(x: nat, n: nat)
    requires n > 0
    ensures x % Pow2(n) == 2 * ((x / 2) % Pow2(n - 1)) + x % 2
  {
    var p := Pow2(n - 1);
    var q, r := (x / 2) / p, (x / 2) % p;
    assert x / 2 == q * p + r;
    assert x == 2 * (x / 2) + x % 2;
    assert x == q * (2 * p) + (2 * r + x % 2);
    DivModUnique(x, 2 * p, q, 2 * r + x % 2);
  }

  lemma {:induction false} DivModUnique(x: nat, d: nat, q: nat, r: nat)
    requires d > 0 && r < d && x == q * d + r
    ensures x / d == q && x % d == r
  {
    var q' := x / d;
    assert (q' - q) * d == r - x % d;
    SmallMultiple(q' - q, d);
    assert q' == q;
  }

  lemma SmallMultiple(k: int, d: int)
    requires d > 0
    ensures k >= 1 ==> k * d >= d
    ensures k <= -1 ==> k * d <= -d
  {
  }

  /** Masking with n one bits keeps the n lowest bits. */
  lemma {:induction false} MaskIsMod(x: nat, n: nat)
    ensures BitAnd(x, Pow2(n) - 1) == x % Pow2(n)
  {
    if x == 0 {
      DivModUnique(0, Pow2(n), 0, 0);
    } else if n == 0 {
      DivModUnique(x, 1, x, 0);
    } else {
      var half := Pow2(n - 1);
      MaskIsMod(x / 2, n - 1);
      ModPow2Unfold(x, n);
      BitAndOddMask(x, half - 1);
      assert Pow2(n) - 1 == 2 * (half - 1) + 1;
    }
  }

  lemma BitAndOddMask(x: nat, half: nat)
    ensures BitAnd(x, 2 * half + 1) == 2 * BitAnd(x / 2, half) + x % 2
  {
    var mask := 2 * half + 1;
    assert mask / 2 == half && mask % 2 == 1;
  }

  /** Operands without a common bit position are joined by addition. */
  lemma {:induction false} OrDisjointIsSum(low: nat, high: nat, n: nat)
    requires low < Pow2(n)
    ensures BitOr(low, high * Pow2(n)) == low + high * Pow2(n)
  {
    if n > 0 {
      var half := high * Pow2(n - 1);
      OrDisjointIsSum(low / 2, high, n - 1);
      DoubleProduct(high, Pow2(n - 1));
      BitOrEven(low, half);
    } else {
      assert low == 0;
    }
  }

  lemma DoubleProduct(a: nat, b: nat)
    ensures a * (2 * b) == 2 * (a * b)
  {
  }

  lemma BitOrEven(low: nat, half: nat)
    ensures BitOr(low, 2 * half) == 2 * BitOr(low / 2, half) + low % 2
  {
    assert (2 * half) / 2 == half;
  }
}
