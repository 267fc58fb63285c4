/** The CIOS Montgomery product over any number of 32-bit limbs, with its carries. */
module Montgomery {
  import opened Limbs

  /* ---- one-limb steps ---- */

  lemma HalvesProduct(a0: int, a1: int, b0: int, b1: int)
    ensures (a0 + 0x10000 * a1) * (b0 + 0x10000 * b1)
         == a0 * b0 + 0x10000 * (a0 * b1 + a1 * b0) + RADIX * (a1 * b1)
  {
    calc {
      (a0 + 0x10000 * a1) * (b0 + 0x10000 * b1);
      { MulDist(a0 + 0x10000 * a1, b0, 0x10000 * b1); }
      (a0 + 0x10000 * a1) * b0 + (a0 + 0x10000 * a1) * (0x10000 * b1);
      a0 * b0 + 0x10000 * (a1 * b0) + 0x10000 * (a0 * b1) + RADIX * (a1 * b1);
    }
  }

  lemma BoundProduct(x: int, y: int, xm: int, ym: int)
    requires 0 <= x <= xm && 0 <= y <= ym
    ensures 0 <= x * y <= xm * ym
  {
    MulMono(0, x, y);
    MulMono(x, xm, y);
    MulMono(y, ym, xm);
  }

  /** A product of two 16-bit halves does not reach the 32-bit wrap. */
  method Mul16(x: u32, y: u32) returns (p: u32)
    requires x < 0x10000 && y < 0x10000
    ensures p == x * y
  {
    BoundProduct(x, y, 0xffff, 0xffff);
    p := x * y % RADIX;
  }

  /** The 64-bit product of two limbs out of four 16-bit ones; every intermediate wraps at 32 bits. */
  method Mul32(a: u32, b: u32) returns (hi: u32, lo: u32)
    ensures hi * RADIX + lo == a * b
  {
    var a0, a1 := a % 0x10000, a / 0x10000;
    var b0, b1 := b % 0x10000, b / 0x10000;
    var p00 := Mul16(a0, b0);
    var p01 := Mul16(a0, b1);
    var p10 := Mul16(a1, b0);
    var p11 := Mul16(a1, b1);
    var mid: u32 := (p01 + p10) % RADIX;
    var h := (p11 + mid / 0x10000) % RADIX;
    if mid < p01 {
      h := (h + 0x10000) % RADIX;
    }
    var l := (p00 + mid * 0x10000 % RADIX) % RADIX;
    if l < p00 {
      h := (h + 1) % RADIX;
    }
    assert a * b == p00 + 0x10000 * (p01 + p10) + RADIX * p11 by {
      HalvesProduct(a0, a1, b0, b1);
    }
    BoundProduct(a, b, RADIX - 1, RADIX - 1);
    Mul32Carries(p00, p01, p10, p11, mid, l, h);
    hi, lo := h, l;
  }

  /** Why the two wrap tests in Mul32 recover exactly the lost carries. */
  lemma Mul32Carries(p00: u32, p01: u32, p10: u32, p11: u32, mid: u32, l: u32, h: u32)
    requires mid == (p01 + p10) % RADIX
    requires l == (p00 + mid * 0x10000 % RADIX) % RADIX
    requires p00 + 0x10000 * (p01 + p10) + RADIX * p11 <= (RADIX - 1) * (RADIX - 1)
    requires var h1 := (p11 + mid / 0x10000) % RADIX;
             var h2 := if mid < p01 then (h1 + 0x10000) % RADIX else h1;
             h == if l < p00 then (h2 + 1) % RADIX else h2
    ensures h * RADIX + l == p00 + 0x10000 * (p01 + p10) + RADIX * p11
  {
    var low := mid * 0x10000 % RADIX;
    var c := if mid < p01 then 0x10000 else 0;
    var d := if l < p00 then 1 else 0;
    assert p01 + p10 == mid + 0x10000 * c by {
      WrapTest(p01, p10, mid);
    }
    assert p00 + low == l + RADIX * d by {
      WrapTest(p00, low, l);
    }
    DivMod(mid * 0x10000, RADIX, mid / 0x10000, mid % 0x10000 * 0x10000);
    NoWrap(p11, mid / 0x10000, c, d);
  }

  lemma WrapTest(x: u32, y: u32, s: u32)
    requires s == (x + y) % RADIX
    ensures x + y == s + (if s < x then RADIX else 0)
  {}

  lemma NoWrap(p: int, m: int, c: int, d: int)
    requires 0 <= p && 0 <= m && 0 <= c && 0 <= d && p + m + c + d < RADIX
    ensures (((p + m) % RADIX + c) % RADIX + d) % RADIX == p + m + c + d
    ensures (p + m) % RADIX == p + m && ((p + m) % RADIX + c) % RADIX == p + m + c
    ensures ((p + m) % RADIX + d) % RADIX == p + m + d
  {}

  /** acc + v, with the carry added to the high half (which wraps at 32 bits). */
  method AddC(acc: u32, hi: u32, v: u32) returns (acc': u32, hi': u32)
    requires hi * RADIX + acc + v < RADIX * RADIX
    ensures hi' * RADIX + acc' == hi * RADIX + acc + v
  {
    acc' := (acc + v) % RADIX;
    hi' := hi;
    if acc' < v {
      assert acc + v == acc' + RADIX;
      hi' := (hi + 1) % RADIX;
    }
  }

  /* ---- limb-array steps ---- */

  /** The weight of a carry or borrow out of `n` limbs. */
  ghost function Carry(c: u32, n: nat): nat
  {
    if c == 0 then 0 else Pow(RADIX, n)
  }

  ghost function Wrap(c: int): nat
  {
    if c == 0 then 0 else RADIX
  }

  /** One column of Sub: the wrapped difference less the borrow in, and the borrow out. */
  method SubLimb(ai: u32, bi: u32, borrow: u32) returns (d: u32, next: u32)
    requires borrow <= 1
    ensures next <= 1 && d == ai - bi - borrow + Wrap(next)
  {
    d := (ai - bi) % RADIX;
    next := if d > ai then 1 else 0;
    if borrow != 0 {
      if d == 0 {
        next := 1;
      }
      d := (d - 1) % RADIX;
    }
  }

  /** One column of Add: the wrapped sum plus the carry in, and the carry out. */
  method AddLimb(ai: u32, bi: u32, carry: u32) returns (s: u32, next: u32)
    requires carry <= 1
    ensures next <= 1 && s == ai + bi + carry - Wrap(next)
  {
    s := (ai + bi) % RADIX;
    next := if s < ai then 1 else 0;
    s := (s + carry) % RADIX;
    if carry != 0 && s == 0 {
      next := 1;
    }
  }

  /** out = a - b, returning the borrow. Any of the three arrays may be the same one. */
  method Sub(out: array<u32>, a: array<u32>, b: array<u32>, k: nat) returns (borrow: u32)
    requires k <= out.Length && k <= a.Length && k <= b.Length
    modifies out
    ensures borrow <= 1
    ensures Val(out[..k]) == old(Val(a[..k])) - old(Val(b[..k])) + Carry(borrow, k)
    ensures out[k..] == old(out[k..])
  {
    hide Val, Pow;
    ValZero([]);
    borrow := 0;
    ghost var a0, b0 := a[..], b[..];
    var i := 0;
    while i < k
      invariant 0 <= i <= k && borrow <= 1
      invariant Val(out[..i]) == Val(a0[..i]) - Val(b0[..i]) + Carry(borrow, i)
      invariant forall j :: i <= j < a.Length ==> a[j] == a0[j]
      invariant forall j :: i <= j < b.Length ==> b[j] == b0[j]
      invariant out[k..] == old(out[k..])
    {
      var ai, bi := a[i], b[i];
      var d, next := SubLimb(ai, bi, borrow);
      ghost var before := out[..i];
      out[i] := d;
      assert out[..i + 1] == before + [d];
      assert a0[..i + 1] == a0[..i] + [ai] && b0[..i + 1] == b0[..i] + [bi];
      SubColumn(before, a0[..i], b0[..i], d, ai, bi, borrow, next);
      borrow := next;
      i := i + 1;
    }
    assert a0[..k] == old(a[..k]) && b0[..k] == old(b[..k]);
  }

  lemma SubColumn(o: seq<u32>, a: seq<u32>, b: seq<u32>, d: u32, ai: u32, bi: u32, borrow: u32, next: u32)
    requires |o| == |a| == |b| && borrow <= 1 && next <= 1
    requires Val(o) == Val(a) - Val(b) + Carry(borrow, |o|)
    requires d == ai - bi - borrow + Wrap(next)
    ensures Val(o + [d]) == Val(a + [ai]) - Val(b + [bi]) + Carry(next, |o| + 1)
  {
    var p := Pow(RADIX, |o|);
    ValSnoc(o, d);
    ValSnoc(a, ai);
    ValSnoc(b, bi);
    SubColumnAt(d, ai, bi, borrow, next, p);
  }

  lemma SubColumnAt(d: int, x: int, y: int, c: int, n: int, p: int)
    requires 0 <= c <= 1 && 0 <= n <= 1 && d == x - y - c + Wrap(n)
    ensures d * p == x * p - y * p - (if c == 0 then 0 else p) + (if n == 0 then 0 else RADIX * p)
  {
    assert d * p == x * p - y * p - c * p + Wrap(n) * p;
  }

  lemma AddColumn(o: seq<u32>, a: seq<u32>, b: seq<u32>, s: u32, ai: u32, bi: u32, carry: u32, next: u32)
    requires |o| == |a| == |b| && carry <= 1 && next <= 1
    requires Val(o) + Carry(carry, |o|) == Val(a) + Val(b)
    requires s == ai + bi + carry - Wrap(next)
    ensures Val(o + [s]) + Carry(next, |o| + 1) == Val(a + [ai]) + Val(b + [bi])
  {
    var p := Pow(RADIX, |o|);
    ValSnoc(o, s);
    ValSnoc(a, ai);
    ValSnoc(b, bi);
    AddColumnAt(s, ai, bi, carry, next, p);
  }

  lemma AddColumnAt(d: int, x: int, y: int, c: int, n: int, p: int)
    requires 0 <= c <= 1 && 0 <= n <= 1 && d == x + y + c - Wrap(n)
    ensures d * p == x * p + y * p + (if c == 0 then 0 else p) - (if n == 0 then 0 else RADIX * p)
  {
    assert d * p == x * p + y * p + c * p - Wrap(n) * p;
  }

  /** out = a + b, returning the carry. Any of the three arrays may be the same one. */
  method Add(out: array<u32>, a: array<u32>, b: array<u32>, k: nat) returns (carry: u32)
    requires k <= out.Length && k <= a.Length && k <= b.Length
    modifies out
    ensures carry <= 1
    ensures Val(out[..k]) + Carry(carry, k) == old(Val(a[..k])) + old(Val(b[..k]))
    ensures out[k..] == old(out[k..])
  {
    hide Val, Pow;
    ValZero([]);
    carry := 0;
    ghost var a0, b0 := a[..], b[..];
    var i := 0;
    while i < k
      invariant 0 <= i <= k && carry <= 1
      invariant Val(out[..i]) + Carry(carry, i) == Val(a0[..i]) + Val(b0[..i])
      invariant forall j :: i <= j < a.Length ==> a[j] == a0[j]
      invariant forall j :: i <= j < b.Length ==> b[j] == b0[j]
      invariant out[k..] == old(out[k..])
    {
      var ai, bi := a[i], b[i];
      var s, next := AddLimb(ai, bi, carry);
      ghost var before := out[..i];
      out[i] := s;
      assert out[..i + 1] == before + [s];
      assert a0[..i + 1] == a0[..i] + [ai] && b0[..i + 1] == b0[..i] + [bi];
      AddColumn(before, a0[..i], b0[..i], s, ai, bi, carry, next);
      carry := next;
      i := i + 1;
    }
    assert a0[..k] == old(a[..k]) && b0[..k] == old(b[..k]);
  }

  /* ---- the product ---- */

  lemma RowStepAt(vo: int, vt: int, va: int, b: int, c: int, p: int, hi: int, lo: int, ai: int, tj: int,
                  vo': int, vt': int, va': int, p': int)
    requires vo + c * p == vt + va * b && hi * RADIX + lo == ai * b + tj + c
    requires vo' == vo + lo * p && vt' == vt + tj * p && va' == va + ai * p && p' == RADIX * p
    ensures vo' + hi * p' == vt' + va' * b
  {
    calc {
      vo' + hi * p';
      vo + lo * p + hi * (RADIX * p);
      vo + (hi * RADIX + lo) * p;
      vo + (ai * b + tj + c) * p;
      vo + c * p + tj * p + (ai * b) * p;
      vt + va * b + tj * p + (ai * p) * b;
      vt + tj * p + (va + ai * p) * b;
    }
  }

  /** A column of either row keeps the running total exact: the carry is the part not yet stored. */
  lemma RowStep(o: seq<u32>, t: seq<u32>, a: seq<u32>, b: u32, c: u32, hi: u32, lo: u32, ai: u32, tj: u32)
    requires |o| == |t| == |a|
    requires Val(o) + c * Pow(RADIX, |o|) == Val(t) + Val(a) * b
    requires hi * RADIX + lo == ai * b + tj + c
    ensures Val(o + [lo]) + hi * Pow(RADIX, |o| + 1) == Val(t + [tj]) + Val(a + [ai]) * b
  {
    hide Val, Pow;
    var p, p' := Pow(RADIX, |o|), Pow(RADIX, |o| + 1);
    PowSucc(RADIX, |o|);
    ValSnoc(o, lo);
    ValSnoc(t, tj);
    ValSnoc(a, ai);
    RowStepAt(Val(o), Val(t), Val(a), b, c, p, hi, lo, ai, tj, Val(o + [lo]), Val(t + [tj]), Val(a + [ai]), p');
  }

  /** The same column one limb further down, which is the reduction's division by the radix. */
  lemma ShiftedRowStep(o: seq<u32>, t: seq<u32>, a: seq<u32>, b: u32, c: u32, hi: u32, lo: u32, ai: u32, tj: u32)
    requires |o| + 1 == |t| == |a|
    requires RADIX * Val(o) + c * Pow(RADIX, |t|) == Val(t) + Val(a) * b
    requires hi * RADIX + lo == ai * b + tj + c
    ensures RADIX * Val(o + [lo]) + hi * Pow(RADIX, |t| + 1) == Val(t + [tj]) + Val(a + [ai]) * b
  {
    hide Val, Pow;
    var p, p' := Pow(RADIX, |t|), Pow(RADIX, |t| + 1);
    PowSucc(RADIX, |o|);
    PowSucc(RADIX, |t|);
    ValSnoc(o, lo);
    ValSnoc(t, tj);
    ValSnoc(a, ai);
    MulDist(RADIX, Val(o), lo * Pow(RADIX, |o|));
    MulShuffle(lo, RADIX, Pow(RADIX, |o|));
    RowStepAt(RADIX * Val(o), Val(t), Val(a), b, c, p, hi, lo, ai, tj,
              RADIX * Val(o + [lo]), Val(t + [tj]), Val(a + [ai]), p');
  }

  /** ai * b + tj + c as a high and a low limb: the largest total is 2^64 - 1, so nothing is lost. */
  method MulAdd(ai: u32, b: u32, tj: u32, c: u32) returns (hi: u32, lo: u32)
    ensures hi * RADIX + lo == ai * b + tj + c
  {
    hi, lo := Mul32(ai, b);
    BoundProduct(ai, b, RADIX - 1, RADIX - 1);
    lo, hi := AddC(lo, hi, tj);
    lo, hi := AddC(lo, hi, c);
  }

  /** The first half of an outer step: t += a * bi. */
  method AccumulateRow(t: array<u32>, a: array<u32>, bi: u32, k: nat)
    requires t.Length == k + 2 && a.Length >= k && t != a && t[k + 1] == 0
    modifies t
    ensures Val(t[..]) == old(Val(t[..])) + Val(a[..k]) * bi
    ensures t[k + 1] <= 1
  {
    hide Val, Pow;
    ghost var t0 := t[..];
    var c: u32 := 0;
    ValZero([]);
    var j := 0;
    while j < k
      invariant 0 <= j <= k
      invariant Val(t[..j]) + c * Pow(RADIX, j) == Val(t0[..j]) + Val(a[..j]) * bi
      invariant forall i :: j <= i < k + 2 ==> t[i] == t0[i]
    {
      var hi, lo := MulAdd(a[j], bi, t[j], c);
      ghost var done := t[..j];
      RowStep(done, t0[..j], a[..j], bi, c, hi, lo, a[j], t[j]);
      assert t0[..j + 1] == t0[..j] + [t[j]] && a[..j + 1] == a[..j] + [a[j]];
      t[j] := lo;
      assert t[..j + 1] == done + [lo];
      c := hi;
      j := j + 1;
    }
    ghost var done := t[..k];
    var lo, hi := AddC(t[k], 0, c);
    t[k] := lo;
    t[k + 1] := (t[k + 1] + hi) % RADIX;
    assert t[..] == done + [lo] + [hi] && t0 == t0[..k] + [t0[k]] + [0];
    RowTop(done, t0[..k], Val(a[..k]) * bi, c, lo, hi, t0[k]);
  }

  lemma RowTop(o: seq<u32>, t: seq<u32>, prod: int, c: u32, lo: u32, hi: u32, tk: u32)
    requires |o| == |t|
    requires Val(o) + c * Pow(RADIX, |o|) == Val(t) + prod
    requires hi * RADIX + lo == tk + c
    ensures Val(o + [lo] + [hi]) == Val(t + [tk] + [0]) + prod
  {
    hide Val, Pow;
    PowSucc(RADIX, |o|);
    ValSnoc(o, lo);
    ValSnoc(o + [lo], hi);
    ValSnoc(t, tk);
    ValSnoc(t + [tk], 0);
    RowTopAt(lo, hi, tk, c, Pow(RADIX, |o|), Pow(RADIX, |o| + 1));
  }

  lemma RowTopAt(lo: int, hi: int, tk: int, c: int, p: int, p': int)
    requires hi * RADIX + lo == tk + c && p' == RADIX * p
    ensures lo * p + hi * p' == tk * p + c * p
  {
    assert lo * p + hi * (RADIX * p) == (hi * RADIX + lo) * p;
  }

  /** Choosing u = t0 * n0 makes the low limb of t + u * m vanish, because n0 is -1/m0. */
  lemma LowLimbVanishes(t0: u32, n0: u32, m0: u32, u: u32)
    requires n0 * m0 % RADIX == RADIX - 1 && u == t0 * n0 % RADIX
    ensures (u * m0 + t0) % RADIX == 0
  {
    var z := n0 * m0 / RADIX + 1;
    var w := t0 * n0 / RADIX;
    assert n0 * m0 + 1 == RADIX * z && u == t0 * n0 - RADIX * w;
    calc {
      u * m0 + t0;
      (t0 * n0 - RADIX * w) * m0 + t0;
      t0 * (n0 * m0 + 1) - RADIX * w * m0;
      t0 * (RADIX * z) - RADIX * w * m0;
      RADIX * (t0 * z - w * m0);
    }
    MultipleMod(t0 * z - w * m0);
  }

  lemma MultipleMod(x: int)
    ensures RADIX * x % RADIX == 0
  {}

  /** u, and the carry out of the first column, whose low half is discarded because it is zero. */
  method ChooseMultiplier(t0: u32, n0: u32, m0: u32) returns (u: u32, c: u32)
    requires n0 * m0 % RADIX == RADIX - 1
    ensures c * RADIX == u * m0 + t0
  {
    u := t0 * n0 % RADIX;
    LowLimbVanishes(t0, n0, m0, u);
    var hi, lo := Mul32(u, m0);
    BoundProduct(u, m0, RADIX - 1, RADIX - 1);
    lo, hi := AddC(lo, hi, t0);
    DivMod(u * m0 + t0, RADIX, hi, lo);
    c := hi;
  }

  /** The second half of an outer step: t = (t + m * u) / RADIX, with u chosen to make that exact. */
  method ReduceRow(t: array<u32>, m: array<u32>, n0: u32, k: nat) returns (ghost u: u32)
    requires 0 < k && t.Length == k + 2 && m.Length >= k && t != m && t[k + 1] <= 1
    requires n0 * m[0] % RADIX == RADIX - 1
    modifies t
    ensures RADIX * Val(t[..]) == old(Val(t[..])) + Val(m[..k]) * u
    ensures t[k + 1] == 0
  {
    hide Val, Pow;
    var v: u32, c: u32 := ChooseMultiplier(t[0], n0, m[0]);
    u := v;
    ReduceColumns(t, m, v, c, k);
  }

  /** The columns above the first, each stored one limb down. */
  method ReduceColumns(t: array<u32>, m: array<u32>, u: u32, c0: u32, k: nat)
    requires 0 < k && t.Length == k + 2 && m.Length >= k && t != m && t[k + 1] <= 1
    requires c0 * RADIX == u * m[0] + t[0]
    modifies t
    ensures RADIX * Val(t[..]) == old(Val(t[..])) + Val(m[..k]) * u
    ensures t[k + 1] == 0
  {
    hide Val, Pow;
    ghost var t0 := t[..];
    var c: u32 := c0;
    FirstColumn(t0[..1], m[..1], u, c);
    var j := 1;
    while j < k
      invariant 1 <= j <= k
      invariant RADIX * Val(t[..j - 1]) + c * Pow(RADIX, j) == Val(t0[..j]) + Val(m[..j]) * u
      invariant forall i :: j <= i < k + 2 ==> t[i] == t0[i]
    {
      var hi, lo := MulAdd(u, m[j], t[j], c);
      ghost var done := t[..j - 1];
      ShiftedRowStep(done, t0[..j], m[..j], u, c, hi, lo, m[j], t[j]);
      assert t0[..j + 1] == t0[..j] + [t[j]] && m[..j + 1] == m[..j] + [m[j]];
      t[j - 1] := lo;
      assert t[..j] == done + [lo];
      c := hi;
      j := j + 1;
    }
    ReduceTop(t, t0, c, k, Val(m[..k]) * u);
  }

  /** The last two limbs of the reduction row. */
  method ReduceTop(t: array<u32>, ghost t0: seq<u32>, c: u32, k: nat, ghost prod: int)
    requires 0 < k && t.Length == k + 2 == |t0|
    requires t[k] == t0[k] && t[k + 1] == t0[k + 1] <= 1
    requires RADIX * Val(t[..k - 1]) + c * Pow(RADIX, k) == Val(t0[..k]) + prod
    modifies t
    ensures RADIX * Val(t[..]) == Val(t0) + prod
    ensures t[k + 1] == 0
  {
    hide Val, Pow;
    ghost var done := t[..k - 1];
    var lo, hi := AddC(t[k], 0, c);
    t[k - 1] := lo;
    var top: u32 := (t[k + 1] + hi) % RADIX;
    t[k] := top;
    t[k + 1] := 0;
    assert t[..k - 1] == done;
    assert t[..] == t[..k - 1] + [t[k - 1]] + [t[k]] + [t[k + 1]];
    assert t0 == t0[..k] + [t0[k]] + [t0[k + 1]];
    ShiftedTop(done, t0[..k], prod, c, lo, hi, t0[k], t0[k + 1]);
  }

  lemma FirstColumn(t: seq<u32>, m: seq<u32>, v: u32, c: u32)
    requires |t| == 1 && |m| == 1 && c * RADIX == v * m[0] + t[0]
    ensures RADIX * Val([]) + c * Pow(RADIX, 1) == Val(t) + Val(m) * v
  {
    ValCons(t);
    ValCons(m);
    assert Val(t[1..]) == 0 && Val(m[1..]) == 0;
    PowSucc(RADIX, 0);
  }

  lemma ShiftedTop(o: seq<u32>, t: seq<u32>, prod: int, c: u32, lo: u32, hi: u32, tk: u32, top: u32)
    requires |o| + 1 == |t| && top + hi < RADIX
    requires RADIX * Val(o) + c * Pow(RADIX, |t|) == Val(t) + prod
    requires hi * RADIX + lo == tk + c
    ensures RADIX * Val(o + [lo] + [top + hi] + [0]) == Val(t + [tk] + [top]) + prod
  {
    hide Val, Pow;
    PowSucc(RADIX, |o|);
    PowSucc(RADIX, |t|);
    ValSnoc(o, lo);
    ValSnoc(o + [lo], top + hi);
    ValSnoc(o + [lo] + [top + hi], 0);
    ValSnoc(t, tk);
    ValSnoc(t + [tk], top);
    ShiftedTopAt(Val(o), lo, hi, tk, c, top, Pow(RADIX, |o|), Pow(RADIX, |t|), Pow(RADIX, |t| + 1));
  }

  lemma ShiftedTopAt(vo: int, lo: int, hi: int, tk: int, c: int, top: int, p: int, p': int, p'': int)
    requires hi * RADIX + lo == tk + c && p' == RADIX * p && p'' == RADIX * p'
    ensures RADIX * (vo + lo * p + (top + hi) * p') == RADIX * vo + tk * p' + c * p' + top * p''
  {
    RowTopAt(lo, hi, tk, c, p', p'');
    calc {
      RADIX * (vo + lo * p + (top + hi) * p');
      RADIX * vo + lo * (RADIX * p) + (top + hi) * (RADIX * p');
      RADIX * vo + lo * p' + hi * p'' + top * p'';
    }
  }

  /** One outer step carries the exact equation and the bound from i limbs of b to i + 1. */
  lemma OuterStep(t: int, t1: int, t2: int, va: int, vb: int, vb': int, bi: int, vm: int, u: int, p: int, p': int,
                  q: int)
    requires p * t == va * vb + q * vm && t1 == t + va * bi && RADIX * t2 == t1 + vm * u
    requires p' == RADIX * p && vb' == vb + bi * p
    ensures p' * t2 == va * vb' + (q + u * p) * vm
  {
    calc {
      p' * t2;
      p * (RADIX * t2);
      p * (t + va * bi + vm * u);
      p * t + p * (va * bi) + p * (vm * u);
      va * vb + q * vm + va * (bi * p) + (u * p) * vm;
      va * (vb + bi * p) + (q + u * p) * vm;
    }
  }

  lemma OuterBound(t: int, t2: int, va: int, bi: u32, vm: int, u: u32)
    requires 0 <= t < 2 * vm && 0 <= va < vm && RADIX * t2 == t + va * bi + vm * u
    ensures t2 < 2 * vm
  {
    BoundProduct(va, bi, vm, RADIX - 1);
    BoundProduct(vm, u, vm, RADIX - 1);
  }

  /** The scratch is k limbs and one more that is 0 or 1 whenever the total is under 2 * RADIX^k. */
  lemma TopLimb(t: seq<u32>, k: nat)
    requires |t| == k + 2 && t[k + 1] == 0
    ensures Val(t) == Val(t[..k]) + t[k] * Pow(RADIX, k)
    ensures t[k] > 0 ==> Val(t) >= Pow(RADIX, k) + Val(t[..k])
    ensures t[k] > 1 ==> Val(t) >= 2 * Pow(RADIX, k)
  {
    hide Val, Pow;
    assert t == t[..k] + [t[k]] + [0];
    ValSnoc(t[..k], t[k]);
    ValSnoc(t[..k] + [t[k]], 0);
    PowPositive(RADIX, k);
    if t[k] > 0 {
      MulMono(1, t[k], Pow(RADIX, k));
    }
    if t[k] > 1 {
      MulMono(2, t[k], Pow(RADIX, k));
    }
  }

  lemma FinishProduct(va: int, vb: int, vm: int, total: int, r: int, q: int, p: int)
    requires p * total == va * vb + q * vm && (r == total || r == total - vm)
    ensures Congruent(r * p, va * vb, vm)
  {
    var s := if r == total then 0 else 1;
    calc {
      r * p;
      (total - s * vm) * p;
      p * total - (s * vm) * p;
      va * vb + q * vm - (s * p) * vm;
      va * vb + (q - s * p) * vm;
    }
  }

  /** out = a * b / RADIX^k mod m. `out` may be a, b or even m; only the scratch must be its own. */
  method MontMul(out: array<u32>, a: array<u32>, b: array<u32>, m: array<u32>, n0: u32, k: nat, t: array<u32>)
    requires 0 < k && t.Length == k + 2
    requires out.Length >= k && a.Length >= k && b.Length >= k && m.Length >= k
    requires t != out && t != a && t != b && t != m
    requires n0 * m[0] % RADIX == RADIX - 1
    requires Val(a[..k]) < Val(m[..k])
    modifies out, t
    ensures Val(out[..k]) < old(Val(m[..k]))
    ensures Congruent(Val(out[..k]) * Pow(RADIX, k), old(Val(a[..k])) * old(Val(b[..k])), old(Val(m[..k])))
    ensures out[k..] == old(out[k..])
  {
    hide Val, Pow, Congruent;
    ghost var q := MontRows(a, b, m, n0, k, t);
    CondSubtract(out, t, m, k);
    FinishProduct(old(Val(a[..k])), old(Val(b[..k])), old(Val(m[..k])), Val(t[..]), Val(out[..k]), q, Pow(RADIX, k));
  }

  /** The two interleaved rows per limb of b; what is left in t is the product before the final subtraction. */
  method MontRows(a: array<u32>, b: array<u32>, m: array<u32>, n0: u32, k: nat, t: array<u32>) returns (ghost q: int)
    requires 0 < k && t.Length == k + 2
    requires a.Length >= k && b.Length >= k && m.Length >= k
    requires t != a && t != b && t != m
    requires n0 * m[0] % RADIX == RADIX - 1
    requires Val(a[..k]) < Val(m[..k])
    modifies t
    ensures t[k + 1] == 0 && Val(t[..]) < 2 * Val(m[..k])
    ensures Pow(RADIX, k) * Val(t[..]) == Val(a[..k]) * Val(b[..k]) + q * Val(m[..k])
  {
    hide Val, Pow;
    for i := 0 to k + 2
      invariant forall j :: 0 <= j < i ==> t[j] == 0
    {
      t[i] := 0;
    }
    ghost var va, vm := Val(a[..k]), Val(m[..k]);
    q := 0;
    ValZero(t[..]);
    ValZero(b[..0]);
    for i := 0 to k
      invariant t[k + 1] == 0
      invariant Pow(RADIX, i) * Val(t[..]) == va * Val(b[..i]) + q * vm
      invariant Val(t[..]) < 2 * vm
    {
      ghost var v := Val(t[..]);
      AccumulateRow(t, a, b[i], k);
      ghost var v1 := Val(t[..]);
      ghost var u := ReduceRow(t, m, n0, k);
      assert b[..i + 1] == b[..i] + [b[i]];
      ValSnoc(b[..i], b[i]);
      PowSucc(RADIX, i);
      OuterStep(v, v1, Val(t[..]), va, Val(b[..i]), Val(b[..i + 1]), b[i], vm, u, Pow(RADIX, i), Pow(RADIX, i + 1), q);
      OuterBound(v, Val(t[..]), va, b[i], vm, u);
      q := q + u * Pow(RADIX, i);
    }
  }

  /** One conditional subtraction brings a total under 2 * m below m. */
  method CondSubtract(out: array<u32>, t: array<u32>, m: array<u32>, k: nat)
    requires t.Length == k + 2 && out.Length >= k && m.Length >= k && t != out && t != m
    requires t[k + 1] == 0 && Val(t[..]) < 2 * Val(m[..k])
    modifies out
    ensures Val(out[..k]) < old(Val(m[..k]))
    ensures Val(out[..k]) == Val(t[..]) || Val(out[..k]) == Val(t[..]) - old(Val(m[..k]))
    ensures out[k..] == old(out[k..])
  {
    hide Val, Pow;
    TopLimb(t[..], k);
    ValBound(m[..k]);
    ValBound(t[..k]);
    var borrow := Sub(out, t, m, k);
    ValBound(out[..k]);
    if borrow != 0 && t[k] == 0 {
      for j := 0 to k
        invariant forall i :: 0 <= i < j ==> out[i] == t[i]
        invariant out[k..] == old(out[k..])
      {
        out[j] := t[j];
      }
      assert out[..k] == t[..k];
    }
  }
}
