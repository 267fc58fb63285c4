/** The field of 2^255 - 19 on ten signed limbs of alternately 26 and 25 bits. */
module Field25519 {
  import opened Limbs
  import opened Congruence

  type i64 = x: int | -0x8000_0000_0000_0000 <= x < 0x8000_0000_0000_0000
  type i32 = x: int | -0x8000_0000 <= x < 0x8000_0000

  /** 2^255 and the field's prime. */
  ghost function T255(): (t: nat)
    ensures t > 19
  {
    BigPower();
    Pow(2, 255)
  }

  lemma BigPower()
    ensures Pow(2, 255) > 19
  {
    assert Pow(2, 5) == 32;
    PowAdd(2, 5, 250);
    PowPositive(2, 250);
  }

  ghost function P(): (p: int)
    ensures p > 0
  {
    T255() - 19
  }

  /* ---- weights ---- */

  /** Limb k sits at bit ceil(25.5 k). */
  function Bit(k: nat): nat
  {
    25 * k + (k + 1) / 2
  }

  ghost function Wt(k: nat): (w: nat)
    ensures w > 0
  {
    PowPositive(2, Bit(k));
    Pow(2, Bit(k))
  }

  function Width(k: nat): nat
  {
    if k % 2 == 1 then 25 else 26
  }

  /** Each limb starts where the one below ends. */
  lemma WtNext(k: nat)
    ensures Wt(k + 1) == Wt(k) * Pow(2, Width(k)) && (k % 2 == 1 ==> Pow(2, Width(k)) == 0x200_0000)
    ensures (k % 2 == 0 ==> Pow(2, Width(k)) == 0x400_0000)
  {
    hide Pow;
    PowAdd(2, Bit(k), Width(k));
    assert Bit(k + 1) == Bit(k) + Width(k);
    Pow25();
  }

  lemma Pow25()
    ensures Pow(2, 25) == 0x200_0000 && Pow(2, 26) == 0x400_0000
  {
    assert Pow(2, 5) == 32;
    PowAdd(2, 5, 5);
    PowAdd(2, 10, 5);
    PowAdd(2, 15, 10);
    PowSucc(2, 25);
  }

  /** Two odd limbs each carry half a bit more than their index says. */
  lemma WtProduct(i: nat, j: nat)
    ensures Wt(i) * Wt(j) == (if i % 2 == 1 && j % 2 == 1 then 2 else 1) * Wt(i + j)
  {
    hide Pow;
    PowAdd(2, Bit(i), Bit(j));
    if i % 2 == 1 && j % 2 == 1 {
      assert Bit(i) + Bit(j) == Bit(i + j) + 1;
      PowSucc(2, Bit(i + j));
    } else {
      assert Bit(i) + Bit(j) == Bit(i + j);
    }
  }

  /** Limb k + 10 is 255 bits above limb k. */
  lemma WtWrap(k: nat)
    ensures Wt(k + 10) == T255() * Wt(k) && Wt(10) == T255()
  {
    hide Pow;
    PowAdd(2, 255, Bit(k));
    assert Bit(k + 10) == 255 + Bit(k) && Bit(10) == 255;
  }

  ghost function FV(x: seq<int>): int
  {
    if x == [] then 0 else FV(x[..|x| - 1]) + x[|x| - 1] * Wt(|x| - 1)
  }

  lemma FVLast(x: seq<int>)
    requires x != []
    ensures FV(x) == FV(x[..|x| - 1]) + x[|x| - 1] * Wt(|x| - 1)
  {}

  lemma {:induction false} FVSet(x: seq<int>, j: nat, v: int)
    requires j < |x|
    ensures FV(x[j := v]) == FV(x) + (v - x[j]) * Wt(j)
    decreases |x|
  {
    hide Wt;
    var n := |x| - 1;
    if j == n {
      assert x[j := v][..n] == x[..n];
      MulDist(Wt(n), v, -x[n]);
    } else {
      assert x[j := v][..n] == x[..n][j := v];
      FVSet(x[..n], j, v);
    }
  }

  lemma {:induction false} FVZero(x: seq<int>)
    requires forall j | 0 <= j < |x| :: x[j] == 0
    ensures FV(x) == 0
    decreases |x|
  {
    if x != [] {
      FVZero(x[..|x| - 1]);
    }
  }

  /* ---- the carry chain ---- */

  const X: int := 0x4500_0000_0000_0000   // what a limb can be before the chain
  const T24: int := 0x100_0000
  const T25: int := 0x200_0000
  const T26: int := 0x400_0000
  const T38: int := 0x40_0000_0000

  function Fcarry(i: nat): (k: nat)
    requires i < 12
    ensures k < 10
  {
    match i
    case 0 => 0
    case 1 => 4
    case 2 => 1
    case 3 => 5
    case 4 => 2
    case 5 => 6
    case 6 => 3
    case 7 => 7
    case 8 => 4
    case 9 => 8
    case 10 => 9
    case _ => 0
  }

  /** The most limb m can be after i carries. */
  function Lim(i: nat, m: nat): int
  {
    match m
    case 0 => if i == 0 then X else if i == 11 then 0x800_0000_0000 else T25
    case 1 => if i == 0 then X else if i <= 2 then X + T38 else if i <= 11 then T24 else T24 + 0x4_0000
    case 2 => if i <= 2 then X else if i <= 4 then X + T38 else T25
    case 3 => if i <= 4 then X else if i <= 6 then X + T38 else T24
    case 4 => if i <= 1 then X else if i <= 6 then T25 else if i <= 8 then T25 + T38 else T25
    case 5 => if i <= 1 then X else if i <= 3 then X + T38 else if i <= 8 then T24 else T24 + 0x2000
    case 6 => if i <= 3 then X else if i <= 5 then X + T38 else T25
    case 7 => if i <= 5 then X else if i <= 7 then X + T38 else T24
    case 8 => if i <= 7 then X else if i <= 9 then X + T38 else T25
    case _ => if i <= 9 then X else if i <= 10 then X + T38 else T24
  }

  ghost predicate Within(h: seq<int>, i: nat)
  {
    |h| == 10 && forall m | 0 <= m < 10 :: -Lim(i, m) <= h[m] <= Lim(i, m)
  }

  /** The carry out of limb k, rounded to nearest. */
  function Carry(v: int, k: nat): int
  {
    if k % 2 == 1 then (v + T24) / T25 else (v + T25) / T26
  }

  /** What a limb holds before it carries. */
  function Span(k: nat): int
  {
    if k % 2 == 1 then T25 else T26
  }

  lemma WtSpan(k: nat)
    ensures Wt(k + 1) == Wt(k) * Span(k)
  {
    WtNext(k);
  }

  function Step(h: seq<int>, k: nat): seq<int>
    requires |h| == 10 && k < 10
  {
    var c := Carry(h[k], k);
    var g := h[k := h[k] - c * Span(k)];
    if k == 9 then g[0 := g[0] + 19 * c] else g[k + 1 := g[k + 1] + c]
  }

  lemma StepValue(h: seq<int>, k: nat)
    requires |h| == 10 && k < 10
    ensures Congruent(FV(Step(h, k)), FV(h), P())
  {
    hide FV, Wt, Carry, T255, P, Congruent;
    if k == 9 {
      StepWraps(h);
    } else {
      StepUp(h, k);
      CongRefl(FV(h), P());
    }
  }

  /** A carry out of the top limb comes back in at the bottom, nineteen times over. */
  lemma StepWraps(h: seq<int>)
    requires |h| == 10
    ensures Congruent(FV(Step(h, 9)), FV(h), P())
  {
    hide FV, Wt, Carry, T255, Congruent;
    var c := Carry(h[9], 9);
    var g := h[9 := h[9] - c * T25];
    FVSet(h, 9, h[9] - c * T25);
    WtNext(9);
    FVSet(g, 0, g[0] + 19 * c);
    WtWrap(0);
    WtZero();
    WrapAlgebra(FV(h), FV(g), FV(Step(h, 9)), c, T25, -(c * T25), Wt(9), T255());
    CongWitness(FV(Step(h, 9)), FV(h), -c, P());
  }

  /** A carry out of any other limb goes into the next, and the value stays. */
  lemma StepUp(h: seq<int>, k: nat)
    requires |h| == 10 && k < 9
    ensures FV(Step(h, k)) == FV(h)
  {
    hide FV, Wt, Carry, Span;
    var c := Carry(h[k], k);
    WtSpan(k);
    MulAssoc(c, Span(k), Wt(k));
    MoveUp(h, k, c, c * Span(k));
  }

  lemma MoveUp(h: seq<int>, k: nat, c: int, d: int)
    requires k + 1 < |h| && d * Wt(k) == c * Wt(k + 1)
    ensures FV(h[k := h[k] - d][k + 1 := h[k + 1] + c]) == FV(h)
  {
    hide FV, Wt;
    var g := h[k := h[k] - d];
    FVSet(h, k, h[k] - d);
    FVSet(g, k + 1, g[k + 1] + c);
  }

  lemma WrapAlgebra(f0: int, f1: int, f2: int, c: int, w: int, d: int, q: int, t: int)
    requires d == -(c * w) && f1 == f0 + d * q && t == q * w && f2 == f1 + 19 * c
    ensures f2 == f0 + -c * (t - 19)
  {
    assert (c * w) * q == c * (q * w);
    assert d * q == -((c * w) * q);
    assert -c * (t - 19) == -(c * t) + 19 * c;
  }

  lemma WtZero()
    ensures Wt(0) == 1
  {}

  lemma StepBound(h: seq<int>, i: nat)
    requires i < 12 && Within(h, i)
    ensures Within(Step(h, Fcarry(i)), i + 1)
  {
    var k := Fcarry(i);
    assert -Lim(i, k) <= h[k] <= Lim(i, k);
    var g := Step(h, k);
    forall m | 0 <= m < 10
      ensures -Lim(i + 1, m) <= g[m] <= Lim(i + 1, m)
    {
      assert -Lim(i, m) <= h[m] <= Lim(i, m);
    }
  }

  /** Limbs as fM and fS leave them: at most 2^25, and the odd ones little more than half that. */
  ghost predicate Tight(h: seq<int>)
  {
    Within(h, 12)
  }

  lemma TightLimb(h: seq<int>, m: nat)
    requires Tight(h) && m < 10
    ensures -T25 <= h[m] <= T25 && (m % 2 == 1 ==> -(T24 + 0x4_0000) <= h[m] <= T24 + 0x4_0000)
    ensures (m == 9 ==> -T24 <= h[m] <= T24)
  {
    assert -Lim(12, m) <= h[m] <= Lim(12, m);
  }

  /** fcarry: twelve carries leave every limb tight and the value the same modulo p. */
  method FCarry(h: array<i64>)
    requires h.Length >= 10 && forall m | 0 <= m < 10 :: -X <= h[m] <= X
    modifies h
    ensures Tight(h[..10]) && Congruent(FV(h[..10]), FV(old(h[..10])), P())
    ensures forall m | 10 <= m < h.Length :: h[m] == old(h[m])
  {
    hide FV, Congruent, Within, P;
    ghost var s: seq<int> := h[..10];
    FirstBounds(s);
    CongRefl(FV(s), P());
    var i := 0;
    while i < 12
      invariant 0 <= i <= 12 && Within(h[..10], i) && Congruent(FV(h[..10]), FV(s), P())
      invariant forall m | 10 <= m < h.Length :: h[m] == old(h[m])
    {
      var k := Fcarry(i);
      ghost var g: seq<int> := h[..10];
      StepBound(g, i);
      StepValue(g, k);
      StepRange(g, i);
      var c: i64;
      if k % 2 == 1 {
        c := (h[k] + T24) / T25;
        h[k] := h[k] - c * T25;
      } else {
        c := (h[k] + T25) / T26;
        h[k] := h[k] - c * T26;
      }
      if k == 9 {
        h[0] := h[0] + (c * 16 + c * 2 + c);
      } else {
        h[k + 1] := h[k + 1] + c;
      }
      assert h[..10] == Step(g, k);
      CongTrans(FV(Step(g, k)), FV(g), FV(s), P());
      i := i + 1;
    }
  }

  lemma FirstBounds(s: seq<int>)
    requires |s| == 10 && forall m | 0 <= m < 10 :: -X <= s[m] <= X
    ensures Within(s, 0)
  {}

  /** Nothing on the way overflows. */
  lemma StepRange(h: seq<int>, i: nat)
    requires i < 12 && Within(h, i)
    ensures |h| == 10
    ensures var k := Fcarry(i);
      var c := Carry(h[k], k);
      && -0x4600_0000_0000_0000 <= h[k] <= 0x4600_0000_0000_0000 && -0x40_0000_0000 <= c <= 0x40_0000_0000
      && -T25 <= h[k] - c * (if k % 2 == 1 then T25 else T26) <= T25
      && (k == 9 ==> -0x800_0000_0000 <= h[0] + 19 * c <= 0x800_0000_0000)
      && (k < 9 ==> -0x4600_0000_0000_0000 <= h[k + 1] + c <= 0x4600_0000_0000_0000)
  {
    var k := Fcarry(i);
    assert -Lim(i, k) <= h[k] <= Lim(i, k);
    if k == 9 {
      assert -Lim(i, 0) <= h[0] <= Lim(i, 0);
    } else {
      assert -Lim(i, k + 1) <= h[k + 1] <= Lim(i, k + 1);
    }
  }

  /* ---- multiplication ---- */

  const B: int := 110729625        // 1.65 * 2^26
  const BB: int := 12261049852640625

  ghost predicate Loose(a: seq<int>)
  {
    |a| == 10 && forall m | 0 <= m < 10 :: -B <= a[m] <= B
  }

  lemma ProductBound(x: int, y: int)
    requires -B <= x <= B && -B <= y <= B
    ensures -BB <= x * y <= BB
  {
    if y >= 0 {
      MulMono(x, B, y);
      MulMono(-B, x, y);
    } else {
      MulMono(x, B, -y);
      MulMono(-B, x, -y);
      assert x * y == -(x * -y);
    }
  }

  lemma RowAlgebra(ai: int, bj: int, m: int, wi: int, wj: int, wij: int, row: int)
    requires row == m * bj && wi * wj == m * wij
    ensures (ai * row) * wij == (ai * wi) * (bj * wj)
  {
    calc {
      (ai * row) * wij;
      (ai * bj) * (m * wij);
      (ai * bj) * (wi * wj);
      (ai * wi) * (bj * wj);
    }
  }

  /** The odd limbs doubled: what a row of an odd limb multiplies. */
  function RowLimb(b: int, i: nat, j: nat): int
  {
    if i % 2 == 1 && j % 2 == 1 then 2 * b else b
  }

  /** One row of the product. */
  method MulRow(t: array<i64>, i: nat, ai: i32, b: seq<i32>)
    requires t.Length == 19 && i < 10 && -B <= ai <= B && Loose(b)
    requires forall k | 0 <= k < 19 :: -2 * i * BB <= t[k] <= 2 * i * BB
    modifies t
    ensures forall k | 0 <= k < 19 :: -2 * (i + 1) * BB <= t[k] <= 2 * (i + 1) * BB
    ensures FV(t[..]) == FV(old(t[..])) + (ai * Wt(i)) * FV(b)
  {
    hide FV, Wt;
    ghost var e := ai * Wt(i);
    ghost var s: seq<int> := t[..];
    assert b[..0] == [];
    FVZero(b[..0]);
    var j := 0;
    while j < 10
      invariant 0 <= j <= 10
      invariant forall k | 0 <= k < 19 ::
        (if i <= k < i + j then -2 * (i + 1) * BB <= t[k] <= 2 * (i + 1) * BB else -2 * i * BB <= t[k] <= 2 * i * BB)
      invariant FV(t[..]) == FV(s) + e * FV(b[..j])
    {
      ProductBound(ai, b[j]);
      var row: i32 := RowLimb(b[j], i, j);
      assert ai * row == ai * b[j] || ai * row == 2 * (ai * b[j]);
      var p: i64 := ai * row;
      ghost var was: seq<int> := t[..];
      t[i + j] := t[i + j] + p;
      assert t[..] == was[i + j := was[i + j] + p];
      FVSet(was, i + j, was[i + j] + p);
      WtProduct(i, j);
      RowAlgebra(ai, b[j], if i % 2 == 1 && j % 2 == 1 then 2 else 1, Wt(i), Wt(j), Wt(i + j), row);
      FVLast(b[..j + 1]);
      assert b[..j + 1][..j] == b[..j];
      MulDist(e, FV(b[..j]), b[j] * Wt(j));
      j := j + 1;
    }
    assert b[..10] == b;
  }

  /** Nineteen limbs are ten and what is 255 bits above. */
  lemma {:induction false} FVHigh(x: seq<int>)
    requires |x| >= 10
    ensures FV(x) == FV(x[..10]) + T255() * FV(x[10..])
    decreases |x|
  {
    hide Wt, T255;
    if |x| == 10 {
      assert x[..10] == x && x[10..] == [];
    } else {
      var n := |x| - 1;
      FVHigh(x[..n]);
      assert x[..n][..10] == x[..10] && x[..n][10..] == x[10..][..n - 10];
      FVLast(x);
      FVLast(x[10..]);
      WtWrap(n - 10);
      var v, w := x[n], Wt(n - 10);
      assert v * (T255() * w) == T255() * (v * w);
      MulDist(T255(), FV(x[10..][..n - 10]), v * w);
    }
  }

  /** Fold the high limbs in, nineteen times over. */
  method Fold(t: array<i64>)
    requires t.Length == 19 && forall k | 0 <= k < 19 :: -20 * BB <= t[k] <= 20 * BB
    modifies t
    ensures (forall k | 0 <= k < 10 :: -X <= t[k] <= X) && Congruent(FV(t[..10]), FV(old(t[..])), P())
  {
    hide FV, Wt, Congruent, T255;
    ghost var s: seq<int> := t[..];
    assert s[10..10] == [];
    FVZero(s[10..10]);
    var i := 0;
    while i < 9
      invariant 0 <= i <= 9 && (forall k | i <= k < 19 :: t[k] == s[k])
      invariant (forall k | 0 <= k < i :: -400 * BB <= t[k] <= 400 * BB)
      invariant FV(t[..10]) == FV(s[..10]) + 19 * FV(s[10..10 + i])
    {
      var h := t[i + 10];
      ghost var was: seq<int> := t[..10];
      t[i] := t[i] + (h * 16 + h * 2 + h);
      assert t[..10] == was[i := was[i] + 19 * h];
      FVSet(was, i, was[i] + 19 * h);
      FVLast(s[10..11 + i]);
      assert s[10..11 + i][..i] == s[10..10 + i];
      MulAssoc(19, h, Wt(i));
      i := i + 1;
    }
    FVHigh(s);
    assert s[10..19] == s[10..];
    FoldCong(FV(t[..10]), FV(s), FV(s[..10]), FV(s[10..]), T255());
  }

  lemma FoldCong(f: int, g: int, lo: int, hi: int, t: int)
    requires f == lo + 19 * hi && g == lo + t * hi && t == T255()
    ensures Congruent(f, g, P())
  {
    assert f == g + -hi * (t - 19);
    CongWitness(f, g, -hi, P());
  }

  /** fstore: carry, and narrow to 32 bits. */
  method FStore(o: array<i32>, h: array<i64>)
    requires o.Length == 10 && h.Length >= 10 && forall m | 0 <= m < 10 :: -X <= h[m] <= X
    modifies o, h
    ensures Tight(o[..]) && Congruent(FV(o[..]), FV(old(h[..10])), P())
  {
    hide FV, Congruent, P, Tight;
    FCarry(h);
    ghost var g: seq<int> := h[..10];
    var i := 0;
    while i < 10
      invariant 0 <= i <= 10 && h[..10] == g && o[..i] == g[..i]
    {
      TightLimb(g, i);
      o[i] := h[i];
      i := i + 1;
    }
    assert o[..] == g;
  }

  /** fM: the product modulo p, tight again. The result may be written over an operand. */
  method FM(o: array<i32>, a: array<i32>, b: array<i32>)
    requires o.Length == 10 && a.Length == 10 && b.Length == 10 && Loose(a[..]) && Loose(b[..])
    modifies o
    ensures Tight(o[..]) && Congruent(FV(o[..]), FV(old(a[..])) * FV(old(b[..])), P())
  {
    hide FV, Congruent, P, Tight, Wt;
    ghost var sa: seq<int> := a[..];
    ghost var sb: seq<int> := b[..];
    var t := new i64[19](_ => 0);
    FVZero(t[..]);
    assert sa[..0] == [];
    FVZero(sa[..0]);
    var i := 0;
    while i < 10
      invariant 0 <= i <= 10 && fresh(t) && t.Length == 19
      invariant forall k | 0 <= k < 19 :: -2 * i * BB <= t[k] <= 2 * i * BB
      invariant FV(t[..]) == FV(sa[..i]) * FV(sb)
      modifies t
    {
      assert a[..] == sa && b[..] == sb;
      MulRow(t, i, a[i], b[..]);
      OuterStep(sa, i, FV(sb));
      i := i + 1;
    }
    assert sa[..10] == sa;
    ghost var s: seq<int> := t[..];
    Fold(t);
    ghost var f: seq<int> := t[..10];
    FStore(o, t);
    CongTrans(FV(o[..]), FV(f), FV(s), P());
  }

  lemma OuterStep(a: seq<int>, i: nat, z: int)
    requires i < |a|
    ensures FV(a[..i]) * z + (a[i] * Wt(i)) * z == FV(a[..i + 1]) * z
  {
    hide FV, Wt;
    FVLast(a[..i + 1]);
    assert a[..i + 1][..i] == a[..i];
    MulDist(z, FV(a[..i]), a[i] * Wt(i));
  }

  /* ---- squaring ---- */

  /** The limbs from i up. */
  ghost function Rest(a: seq<int>, i: nat): int
    requires i <= |a|
  {
    FV(a) - FV(a[..i])
  }

  lemma RestNext(a: seq<int>, i: nat)
    requires i < |a|
    ensures Rest(a, i) == a[i] * Wt(i) + Rest(a, i + 1)
  {
    assert a[..i + 1][..i] == a[..i];
    FVLast(a[..i + 1]);
  }

  /** How many products have reached column k when row i is done up to column i + j: each pair is formed once, so
      never more than five. */
  function Hits(i: nat, j: nat, k: nat): nat
  {
    var hi := if i < k / 2 + 1 then i else k / 2 + 1;
    var lo := if k < 9 then 0 else k - 9;
    (if hi < lo then 0 else hi - lo) + (if 2 * i <= k < i + j then 1 else 0)
  }

  ghost predicate Counted(t: seq<int>, i: nat, j: nat)
  {
    |t| == 19 && forall k | 0 <= k < 19 :: -4 * BB * Hits(i, j, k) <= t[k] <= 4 * BB * Hits(i, j, k)
  }

  lemma HitsStep(i: nat, j: nat, k: nat)
    requires i <= j < 10 && k < 19
    ensures Hits(i, j + 1, k) == Hits(i, j, k) + (if k == i + j then 1 else 0) && Hits(i, j, k) <= 5
  {}

  lemma HitsRow(i: nat, k: nat)
    requires i < 10 && k < 19
    ensures Hits(i + 1, i + 1, k) == Hits(i, 10, k)
  {}

  lemma CountStep(t: seq<int>, i: nat, j: nat, p: int)
    requires i <= j < 10 && Counted(t, i, j) && -4 * BB <= p <= 4 * BB
    ensures -24 * BB <= t[i + j] + p <= 24 * BB && Counted(t[i + j := t[i + j] + p], i, j + 1)
  {
    hide Hits;
    var u := t[i + j := t[i + j] + p];
    HitsStep(i, j, i + j);
    forall k | 0 <= k < 19
      ensures -4 * BB * Hits(i, j + 1, k) <= u[k] <= 4 * BB * Hits(i, j + 1, k)
    {
      HitsStep(i, j, k);
    }
  }

  lemma CountRow(t: seq<int>, i: nat)
    requires i < 10 && Counted(t, i, 10)
    ensures Counted(t, i + 1, i + 1)
  {
    hide Hits;
    forall k | 0 <= k < 19
      ensures -4 * BB * Hits(i + 1, i + 1, k) <= t[k] <= 4 * BB * Hits(i + 1, i + 1, k)
    {
      HitsRow(i, k);
    }
  }

  lemma CountEnd(t: seq<int>)
    requires Counted(t, 10, 10)
    ensures forall k | 0 <= k < 19 :: -20 * BB <= t[k] <= 20 * BB
  {
    forall k | 0 <= k < 19
      ensures -20 * BB <= t[k] <= 20 * BB
    {
      assert Hits(10, 10, k) <= 5;
    }
  }

  /** Products above the diagonal count twice, and twice again for two odd limbs. */
  function Term(ai: int, aj: int, i: nat, j: nat): int
  {
    var p := ai * aj;
    var d := if i % 2 == 1 && j % 2 == 1 then p * 2 else p;
    if i != j then d * 2 else d
  }

  lemma TermValue(ai: int, aj: int, i: nat, j: nat)
    ensures Term(ai, aj, i, j) * Wt(i + j) == (if i != j then 2 else 1) * ((ai * Wt(i)) * (aj * Wt(j)))
  {
    hide Wt;
    WtProduct(i, j);
    var m := if i % 2 == 1 && j % 2 == 1 then 2 else 1;
    var w := Wt(i + j);
    calc {
      (ai * Wt(i)) * (aj * Wt(j));
      (ai * aj) * (Wt(i) * Wt(j));
      (ai * aj) * (m * w);
      (m * (ai * aj)) * w;
    }
    var u := m * (ai * aj);
    assert Term(ai, aj, i, j) == (if i != j then 2 else 1) * u;
    assert (2 * u) * w == 2 * (u * w);
  }

  lemma TermBound(ai: int, aj: int, i: nat, j: nat)
    requires -B <= ai <= B && -B <= aj <= B
    ensures -4 * BB <= Term(ai, aj, i, j) <= 4 * BB
  {
    ProductBound(ai, aj);
  }

  /** One row of the square, from the diagonal on. */
  method SquareRow(t: array<i64>, i: nat, a: seq<i32>)
    requires t.Length == 19 && i < 10 && Loose(a) && Counted(t[..], i, i)
    modifies t
    ensures Counted(t[..], i + 1, i + 1)
    ensures FV(t[..]) == FV(old(t[..])) + Sq(Rest(a, i)) - Sq(Rest(a, i + 1))
  {
    hide FV, Wt, Rest, Counted, Term;
    ghost var e := a[i] * Wt(i);
    ghost var s: seq<int> := t[..];
    var j := i;
    while j < 10
      invariant i <= j <= 10 && Counted(t[..], i, j)
      invariant j == i ==> FV(t[..]) == FV(s)
      invariant j > i ==> FV(t[..]) == FV(s) + e * e + 2 * (e * (Rest(a, i + 1) - Rest(a, j)))
    {
      TermBound(a[i], a[j], i, j);
      var p: i64 := Term(a[i], a[j], i, j);
      ghost var was: seq<int> := t[..];
      CountStep(was, i, j, p);
      t[i + j] := t[i + j] + p;
      assert t[..] == was[i + j := was[i + j] + p];
      FVSet(was, i + j, was[i + j] + p);
      TermValue(a[i], a[j], i, j);
      RestNext(a, j);
      SquareStep(e, a[j] * Wt(j), Rest(a, i + 1), Rest(a, j), Rest(a, j + 1));
      j := j + 1;
    }
    CountRow(t[..], i);
    RestEnd(a);
    RestNext(a, i);
    SquareSum(e, Rest(a, i + 1), Rest(a, i));
  }

  lemma RestEnd(a: seq<int>)
    ensures Rest(a, |a|) == 0
  {
    assert a[..|a|] == a;
  }

  lemma SquareStep(e: int, x: int, r1: int, rj: int, rj': int)
    requires rj == x + rj'
    ensures 2 * (e * (r1 - rj)) + 2 * (e * x) == 2 * (e * (r1 - rj'))
  {
    MulDist(e, r1 - rj, x);
  }

  /** fS: the square modulo p. */
  method FS(o: array<i32>, a: array<i32>)
    requires o.Length == 10 && a.Length == 10 && Loose(a[..])
    modifies o
    ensures Tight(o[..]) && Congruent(FV(o[..]), Sq(FV(old(a[..]))), P())
  {
    hide FV, Congruent, P, Tight, Wt, Rest, Hits, Counted, Sq;
    ghost var sa: seq<int> := a[..];
    var t := new i64[19](_ => 0);
    FVZero(t[..]);
    CountNone(t[..]);
    RestStart(sa);
    var i := 0;
    while i < 10
      invariant 0 <= i <= 10 && fresh(t) && t.Length == 19
      invariant Counted(t[..], i, i) && FV(t[..]) == Sq(FV(sa)) - Sq(Rest(sa, i))
      modifies t
    {
      assert a[..] == sa;
      SquareRow(t, i, a[..]);
      i := i + 1;
    }
    RestEnd(sa);
    SqZero();
    CountEnd(t[..]);
    ghost var s: seq<int> := t[..];
    Fold(t);
    ghost var f: seq<int> := t[..10];
    FStore(o, t);
    CongTrans(FV(o[..]), FV(f), FV(s), P());
  }

  lemma SqZero()
    ensures Sq(0) == 0
  {}

  lemma CountNone(t: seq<int>)
    requires |t| == 19 && forall k | 0 <= k < 19 :: t[k] == 0
    ensures Counted(t, 0, 0)
  {
    hide Hits;
  }

  lemma RestStart(a: seq<int>)
    ensures Rest(a, 0) == FV(a)
  {
    assert a[..0] == [];
  }

  ghost function Sq(x: int): int { x * x }

  lemma SquareSum(e: int, r: int, s: int)
    requires s == e + r
    ensures Sq(s) == e * e + 2 * (e * r) + Sq(r)
  {}

  /** The pattern the curve code uses: two results added or subtracted may be multiplied again. */
  lemma SumLoose(a: seq<int>, b: seq<int>, c: seq<int>)
    requires |a| == |b| == |c| == 10 && Tight(a) && Tight(b)
    requires forall m | 0 <= m < 10 :: c[m] == a[m] + b[m] || c[m] == a[m] - b[m]
    ensures Loose(a) && Loose(c)
  {
    hide Tight;
    forall m | 0 <= m < 10
      ensures -B <= a[m] <= B && -B <= c[m] <= B
    {
      TightLimb(a, m);
      TightLimb(b, m);
    }
  }
}
