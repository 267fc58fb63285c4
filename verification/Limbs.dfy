/** Multi-limb naturals as the kernel's bignum code stores them: 32-bit limbs, least significant
    first. Machine arithmetic is written over `int` with every 32-bit wrap spelled out. */
module Limbs {
  const RADIX: nat := 0x1_0000_0000

  type u32 = x: int | 0 <= x < 0x1_0000_0000
  type byte = x: int | 0 <= x < 256

  ghost function Pow(b: nat, n: nat): nat
  {
    if n == 0 then 1 else b * Pow(b, n - 1)
  }

  /** The natural a limb sequence stands for. */
  ghost function Val(s: seq<u32>): nat
  {
    if s == [] then 0 else Val(s[..|s| - 1]) + s[|s| - 1] * Pow(RADIX, |s| - 1)
  }

  /** `x` and `y` leave the same remainder modulo `m`. */
  ghost predicate Congruent(x: int, y: int, m: int)
  {
    exists q: int :: x == y + q * m
  }

  lemma PowPositive(b: nat, n: nat)
    requires b > 0
    ensures Pow(b, n) > 0
  {
    if n > 0 {
      PowPositive(b, n - 1);
    }
  }

  lemma PowSucc(b: nat, n: nat)
    ensures Pow(b, n + 1) == b * Pow(b, n)
  {}

  lemma {:induction false} PowAdd(b: nat, i: nat, j: nat)
    ensures Pow(b, i + j) == Pow(b, i) * Pow(b, j)
  {
    if i > 0 {
      PowAdd(b, i - 1, j);
      MulAssoc(b, Pow(b, i - 1), Pow(b, j));
    }
  }

  lemma ValSnoc(s: seq<u32>, x: u32)
    ensures Val(s + [x]) == Val(s) + x * Pow(RADIX, |s|)
  {
    assert (s + [x])[..|s|] == s;
  }

  /** A limb sequence is below the radix to its length. */
  lemma {:induction false} ValBound(s: seq<u32>)
    ensures Val(s) < Pow(RADIX, |s|)
  {
    if s != [] {
      var n := |s| - 1;
      ValBound(s[..n]);
      PowPositive(RADIX, n);
      MulMono(s[n], RADIX - 1, Pow(RADIX, n));
      assert (RADIX - 1) * Pow(RADIX, n) == RADIX * Pow(RADIX, n) - Pow(RADIX, n);
    }
  }

  /** Splitting off the least significant limb. */
  lemma {:induction false} ValCons(s: seq<u32>)
    requires s != []
    ensures Val(s) == s[0] + RADIX * Val(s[1..])
  {
    if |s| > 1 {
      var n := |s| - 1;
      ValCons(s[..n]);
      assert s[..n][1..] == s[1..][..n - 1];
      calc {
        Val(s);
        s[0] + RADIX * Val(s[1..][..n - 1]) + s[n] * (RADIX * Pow(RADIX, n - 1));
        { assert s[n] * (RADIX * Pow(RADIX, n - 1)) == RADIX * (s[n] * Pow(RADIX, n - 1)); }
        s[0] + RADIX * (Val(s[1..][..n - 1]) + s[1..][n - 1] * Pow(RADIX, n - 1));
      }
    }
  }

  lemma ValZero(s: seq<u32>)
    requires forall i :: 0 <= i < |s| ==> s[i] == 0
    ensures Val(s) == 0
  {
    if s != [] {
      ValZero(s[..|s| - 1]);
    }
  }

  /* Small facts about products, named because the solver does not find them inside larger goals. */

  lemma MulMono(x: int, y: int, m: int)
    requires x <= y && m >= 0
    ensures x * m <= y * m
  {}

  lemma MulDist(a: int, x: int, y: int)
    ensures a * (x + y) == a * x + a * y
  {}

  lemma MulAssoc(a: int, b: int, c: int)
    ensures a * (b * c) == (a * b) * c
  {}

  lemma MulShuffle(x: int, a: int, b: int)
    ensures x * (a * b) == a * (x * b)
  {}

  /** Quotient and remainder are unique. */
  lemma DivMod(x: int, d: int, q: int, r: int)
    requires d > 0 && x == q * d + r && 0 <= r < d
    ensures x / d == q && x % d == r
  {
    var k := x / d - q;
    assert x == (x / d) * d + x % d;
    assert k * d == r - x % d;
    if k >= 1 {
      MulMono(1, k, d);
    } else if k <= -1 {
      MulMono(k, -1, d);
    }
  }
}
