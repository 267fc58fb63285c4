/** Congruence modulo a natural, with explicit quotients. */
module Congruence {
  import opened Limbs

  lemma CongWitness(x: int, y: int, q: int, m: int)
    requires x == y + q * m
    ensures Congruent(x, y, m)
  {}

  lemma CongRefl(x: int, m: int)
    ensures Congruent(x, x, m)
  {
    CongWitness(x, x, 0, m);
  }

  lemma CongSym(x: int, y: int, m: int)
    requires Congruent(x, y, m)
    ensures Congruent(y, x, m)
  {
    var q :| x == y + q * m;
    CongWitness(y, x, -q, m);
  }

  lemma CongTrans(x: int, y: int, z: int, m: int)
    requires Congruent(x, y, m) && Congruent(y, z, m)
    ensures Congruent(x, z, m)
  {
    var q :| x == y + q * m;
    var r :| y == z + r * m;
    assert (q + r) * m == q * m + r * m;
    CongWitness(x, z, q + r, m);
  }

  lemma CongMul(x: int, y: int, a: int, b: int, m: int)
    requires Congruent(x, y, m) && Congruent(a, b, m)
    ensures Congruent(x * a, y * b, m)
  {
    var q :| x == y + q * m;
    var r :| a == b + r * m;
    CongMulAt(x, y, a, b, q, r, m);
    CongWitness(x * a, y * b, q * a + y * r, m);
  }

  lemma CongMulAt(x: int, y: int, a: int, b: int, q: int, r: int, m: int)
    requires x == y + q * m && a == b + r * m
    ensures x * a == y * b + (q * a + y * r) * m
  {
    calc {
      x * a;
      (y + q * m) * a;
      y * a + (q * a) * m;
      y * (b + r * m) + (q * a) * m;
      y * b + (y * r) * m + (q * a) * m;
    }
  }

  /** Two residues below the modulus that are congruent are equal. */
  lemma CongUnique(x: int, y: int, m: int)
    requires 0 <= x < m && 0 <= y < m && Congruent(x, y, m)
    ensures x == y
  {
    var q :| x == y + q * m;
    if q >= 1 {
      MulMono(1, q, m);
    } else if q <= -1 {
      MulMono(q, -1, m);
    } else {
      assert q * m == 0;
    }
  }

  lemma CongMod(x: int, m: int)
    requires m > 0
    ensures Congruent(x, x % m, m)
  {
    assert x == x % m + (x / m) * m;
    CongWitness(x, x % m, x / m, m);
  }

  /** An invertible factor can be struck from both sides. */
  lemma CongCancel(x: int, y: int, f: int, g: int, m: int)
    requires Congruent(x * f, y * f, m) && Congruent(f * g, 1, m)
    ensures Congruent(x, y, m)
  {
    CongRefl(g, m);
    CongMul(x * f, y * f, g, g, m);
    assert x * f * g == x * (f * g) && y * f * g == y * (f * g);
    CongRefl(x, m);
    CongRefl(y, m);
    CongMul(x, x, f * g, 1, m);
    CongMul(y, y, f * g, 1, m);
    assert x * 1 == x && y * 1 == y;
    CongSym(x * (f * g), x, m);
    CongTrans(x, x * (f * g), y * (f * g), m);
    CongTrans(x, y * (f * g), y, m);
  }

  lemma {:induction false} PowCong(x: nat, y: nat, n: nat, m: int)
    requires Congruent(x, y, m)
    ensures Congruent(Pow(x, n), Pow(y, n), m)
  {
    if n == 0 {
      CongRefl(1, m);
    } else {
      PowCong(x, y, n - 1, m);
      CongMul(x, y, Pow(x, n - 1), Pow(y, n - 1), m);
    }
  }

  lemma {:induction false} PowMulBase(x: nat, y: nat, n: nat)
    ensures Pow(x * y, n) == Pow(x, n) * Pow(y, n)
  {
    if n > 0 {
      PowMulBase(x, y, n - 1);
      Interchange(x, y, Pow(x, n - 1), Pow(y, n - 1));
    }
  }

  lemma Interchange(a: int, b: int, c: int, d: int)
    ensures (a * b) * (c * d) == (a * c) * (b * d)
  {
    calc {
      (a * b) * (c * d);
      a * (b * (c * d));
      a * (c * (b * d));
      (a * c) * (b * d);
    }
  }

  lemma {:induction false} PowPow(b: nat, i: nat, n: nat)
    ensures Pow(b, i * n) == Pow(Pow(b, i), n)
  {
    if n > 0 {
      PowPow(b, i, n - 1);
      assert i * n == i + i * (n - 1);
      PowAdd(b, i, i * (n - 1));
    }
  }

  lemma {:induction false} PowOne(n: nat)
    ensures Pow(1, n) == 1
  {
    if n > 0 {
      PowOne(n - 1);
    }
  }
}
