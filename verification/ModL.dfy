/** Reduction modulo the order of the Ed25519 base point (section 5.1 of RFC 8032), on 64 signed limbs of radix 256. */
module ModL {
  import opened Limbs
  import opened Congruence

  type i64 = x: int | -0x8000_0000_0000_0000 <= x < 0x8000_0000_0000_0000

  /** The order's bytes, least significant first. */
  function Lorder(k: nat): (d: int)
    ensures 0 <= d < 256
    ensures 16 <= k < 31 || 31 < k ==> d == 0
  {
    match k
    case 0 => 0xed
    case 1 => 0xd3
    case 2 => 0xf5
    case 3 => 0x5c
    case 4 => 0x1a
    case 5 => 0x63
    case 6 => 0x12
    case 7 => 0x58
    case 8 => 0xd6
    case 9 => 0x9c
    case 10 => 0xf7
    case 11 => 0xa2
    case 12 => 0xde
    case 13 => 0xf9
    case 14 => 0xde
    case 15 => 0x14
    case 31 => 0x10
    case _ => 0
  }

  /** 2^252 + 27742317777372353535851937790883648493. */
  const L: int := 0x1000000000000000000000000000000014def9dea2f79cd65812631a5cf5d3ed

  /* ---- signed limbs ---- */

  ghost function SV(x: seq<int>): int
  {
    if x == [] then 0 else SV(x[..|x| - 1]) + x[|x| - 1] * Pow(256, |x| - 1)
  }

  lemma {:induction false} SVSet(x: seq<int>, j: nat, v: int)
    requires j < |x|
    ensures SV(x[j := v]) == SV(x) + (v - x[j]) * Pow(256, j)
    decreases |x|
  {
    var n := |x| - 1;
    if j == n {
      assert x[j := v][..n] == x[..n];
      MulDist(Pow(256, n), v, -x[n]);
    } else {
      assert x[j := v][..n] == x[..n][j := v];
      SVSet(x[..n], j, v);
    }
  }

  /** Zero limbs on top add nothing. */
  lemma {:induction false} SVTop(x: seq<int>, n: nat)
    requires n <= |x| && forall j | n <= j < |x| :: x[j] == 0
    ensures SV(x) == SV(x[..n])
    decreases |x|
  {
    if n < |x| {
      assert x[..|x| - 1][..n] == x[..n];
      SVTop(x[..|x| - 1], n);
    } else {
      assert x[..n] == x;
    }
  }

  lemma {:induction false} SVBound(x: seq<int>, b: int)
    requires b >= 0 && forall j | 0 <= j < |x| :: -b <= x[j] <= b
    ensures -b * Pow(256, |x|) <= 255 * SV(x) <= b * Pow(256, |x|)
    decreases |x|
  {
    if x == [] {
    } else {
      var n := |x| - 1;
      SVBound(x[..n], b);
      var p := Pow(256, n);
      PowPositive(256, n);
      MulMono(x[n], b, p);
      MulMono(-b, x[n], p);
      BoundStep(b, p, Pow(256, |x|), SV(x[..n]), x[n] * p);
    }
  }

  lemma BoundStep(b: int, p: int, p': int, s: int, t: int)
    requires p' == 256 * p && -b * p <= 255 * s <= b * p && -b * p <= t <= b * p
    ensures -b * p' <= 255 * (s + t) <= b * p'
  {
    var bp := b * p;
    assert b * p' == 256 * bp by { MulAssoc(b, 256, p); }
    assert -b * p == -bp && -b * p' == -(b * p');
  }

  /** Bytes are below the radix to their number. */
  lemma {:induction false} SVBytes(x: seq<int>)
    requires forall j | 0 <= j < |x| :: 0 <= x[j] < 256
    ensures 0 <= SV(x) < Pow(256, |x|)
    decreases |x|
  {
    if x != [] {
      var n := |x| - 1;
      SVBytes(x[..n]);
      var p := Pow(256, n);
      MulMono(x[n], 255, p);
      MulMono(0, x[n], p);
    }
  }

  /* ---- the order's digits ---- */

  ghost function PL(k: nat): int
    requires k <= 32
  {
    if k == 0 then 0 else PL(k - 1) + Lorder(k - 1) * Pow(256, k - 1)
  }

  lemma Digit(k: nat, p: int, v: int)
    requires k < 32 && Pow(256, k) == p && PL(k) == v
    ensures Pow(256, k + 1) == 256 * p && PL(k + 1) == v + Lorder(k) * p
  {}

  lemma Order8()
    ensures Pow(256, 8) == 0x10000000000000000 && PL(8) == 0x5812631a5cf5d3ed
  {
    hide Pow, PL;
    Start();
    Digit(0, 0x1, 0x0);
    Digit(1, 0x100, 0xed);
    Digit(2, 0x10000, 0xd3ed);
    Digit(3, 0x1000000, 0xf5d3ed);
    Digit(4, 0x100000000, 0x5cf5d3ed);
    Digit(5, 0x10000000000, 0x1a5cf5d3ed);
    Digit(6, 0x1000000000000, 0x631a5cf5d3ed);
    Digit(7, 0x100000000000000, 0x12631a5cf5d3ed);
  }

  lemma Order16()
    ensures Pow(256, 16) == 0x100000000000000000000000000000000 && PL(16) == 0x14def9dea2f79cd65812631a5cf5d3ed
  {
    hide Pow, PL;
    Order8();
    Digit(8, 0x10000000000000000, 0x5812631a5cf5d3ed);
    Digit(9, 0x1000000000000000000, 0xd65812631a5cf5d3ed);
    Digit(10, 0x100000000000000000000, 0x9cd65812631a5cf5d3ed);
    Digit(11, 0x10000000000000000000000, 0xf79cd65812631a5cf5d3ed);
    Digit(12, 0x1000000000000000000000000, 0xa2f79cd65812631a5cf5d3ed);
    Digit(13, 0x100000000000000000000000000, 0xdea2f79cd65812631a5cf5d3ed);
    Digit(14, 0x10000000000000000000000000000, 0xf9dea2f79cd65812631a5cf5d3ed);
    Digit(15, 0x1000000000000000000000000000000, 0xdef9dea2f79cd65812631a5cf5d3ed);
  }

  lemma Order24()
    ensures Pow(256, 24) == 0x1000000000000000000000000000000000000000000000000
    ensures PL(24) == 0x14def9dea2f79cd65812631a5cf5d3ed
    ensures PL(20) == 0x14def9dea2f79cd65812631a5cf5d3ed
  {
    hide Pow, PL;
    Order16();
    Digit(16, 0x100000000000000000000000000000000, 0x14def9dea2f79cd65812631a5cf5d3ed);
    Digit(17, 0x10000000000000000000000000000000000, 0x14def9dea2f79cd65812631a5cf5d3ed);
    Digit(18, 0x1000000000000000000000000000000000000, 0x14def9dea2f79cd65812631a5cf5d3ed);
    Digit(19, 0x100000000000000000000000000000000000000, 0x14def9dea2f79cd65812631a5cf5d3ed);
    Digit(20, 0x10000000000000000000000000000000000000000, 0x14def9dea2f79cd65812631a5cf5d3ed);
    Digit(21, 0x1000000000000000000000000000000000000000000, 0x14def9dea2f79cd65812631a5cf5d3ed);
    Digit(22, 0x100000000000000000000000000000000000000000000, 0x14def9dea2f79cd65812631a5cf5d3ed);
    Digit(23, 0x10000000000000000000000000000000000000000000000, 0x14def9dea2f79cd65812631a5cf5d3ed);
  }

  lemma Order32()
    ensures Pow(256, 32) == 0x10000000000000000000000000000000000000000000000000000000000000000
    ensures PL(32) == 0x1000000000000000000000000000000014def9dea2f79cd65812631a5cf5d3ed
    ensures Pow(256, 31) == 0x100000000000000000000000000000000000000000000000000000000000000
  {
    hide Pow, PL;
    Order24();
    Digit(24, 0x1000000000000000000000000000000000000000000000000, 0x14def9dea2f79cd65812631a5cf5d3ed);
    Digit(25, 0x100000000000000000000000000000000000000000000000000, 0x14def9dea2f79cd65812631a5cf5d3ed);
    Digit(26, 0x10000000000000000000000000000000000000000000000000000, 0x14def9dea2f79cd65812631a5cf5d3ed);
    Digit(27, 0x1000000000000000000000000000000000000000000000000000000, 0x14def9dea2f79cd65812631a5cf5d3ed);
    Digit(28, 0x100000000000000000000000000000000000000000000000000000000, 0x14def9dea2f79cd65812631a5cf5d3ed);
    Digit(29, 0x10000000000000000000000000000000000000000000000000000000000, 0x14def9dea2f79cd65812631a5cf5d3ed);
    Digit(30, 0x1000000000000000000000000000000000000000000000000000000000000, 0x14def9dea2f79cd65812631a5cf5d3ed);
    Digit(31, 0x100000000000000000000000000000000000000000000000000000000000000, 0x14def9dea2f79cd65812631a5cf5d3ed);
  }

  lemma OrderValue()
    ensures PL(20) == L - 0x10 * Pow(256, 31) && PL(32) == L
    ensures Pow(256, 31) == 0x100000000000000000000000000000000000000000000000000000000000000
    ensures Pow(256, 32) == 0x10000000000000000000000000000000000000000000000000000000000000000
  {
    hide Pow, PL;
    Order24();
    Order32();
  }

  lemma Start()
    ensures Pow(256, 0) == 1 && PL(0) == 0
  {}

  /* ---- one row: taking 16 L x[i] 256^(i-32) off, which clears limb i ---- */

  const M: int := 0x20_0000          // the largest limb given
  const SPILL: int := 0x4000         // the most the first row's last carry can be

  /** What limb j can be before the row that clears limb i. */
  ghost predicate LimbOk(i: int, j: int, v: int)
  {
    if j > i then v == 0
    else if i == 63 || j < i - 31 then 0 <= v <= M
    else if j <= i - 12 then -128 <= v <= 127
    else if j <= 50 then -129 <= v <= 129
    else -(M + SPILL) <= v <= M + SPILL
  }

  ghost predicate Before(x: seq<int>, i: int)
  {
    |x| == 64 && forall j | 0 <= j < 64 :: LimbOk(i, j, x[j])
  }

  /** The most a row's carry can be after k limbs. Past limb 15 the order's digits are zero and it dies away. */
  function CarryBound(k: nat, first: bool): int
  {
    if k == 0 then 0
    else if k <= 16 then 0x400_0000
    else if first then if k == 17 then 0x8_0000 else SPILL
    else if k == 17 then 0x4_0001
    else if k == 18 then 1026
    else if k == 19 then 6
    else 1
  }

  /** The new limb and carry. */
  lemma CarryStep(k: nat, first: bool, v: int, carry: int, q: int, d: int, t: int, c: int)
    requires k < 20 && -CarryBound(k, first) <= carry <= CarryBound(k, first) && -(M + SPILL) <= q <= M + SPILL
    requires 0 <= d < 256 && (k >= 16 ==> d == 0)
    requires -128 <= v <= M && (k >= 16 && !first ==> -128 <= v <= 127)
    requires t == v + carry - 16 * q * d && c == (t + 128) / 256
    ensures -0x3_0000_0000 <= t <= 0x3_0000_0000 && -128 <= t - 256 * c <= 127
    ensures -CarryBound(k + 1, first) <= c <= CarryBound(k + 1, first)
  {
    var qd := q * d;
    MulMono(d, 255, M + SPILL);
    assert -(M + SPILL) * 255 <= qd <= (M + SPILL) * 255 by {
      QdBound(q, d);
    }
    assert 16 * q * d == 16 * qd;
  }

  lemma QdBound(q: int, d: int)
    requires -(M + SPILL) <= q <= M + SPILL && 0 <= d <= 255
    ensures -(M + SPILL) * 255 <= q * d <= (M + SPILL) * 255
  {
    MulMono(q, M + SPILL, d);
    MulMono(-(M + SPILL), q, d);
    MulMono(d, 255, M + SPILL);
  }

  /** What the step does to the value: with the carry counted, 16 q d 256^j comes off. */
  lemma ValueStep(sv: int, sv': int, carry: int, c: int, v: int, t: int, q: int, d: int, pj: int, pj': int, pl: int,
                  pl': int, pk: int, pi: int, s0: int)
    requires t == v + carry - 16 * q * d && sv' == sv + (t - 256 * c - v) * pj && pj' == 256 * pj && pj == pk * pi
    requires pl' == pl + d * pk
    requires sv + carry * pj == s0 - 16 * q * pl * pi
    ensures sv' + c * pj' == s0 - 16 * q * pl' * pi
  {
    var e := 16 * q;
    calc {
      sv' + c * pj';
      sv + (t - 256 * c - v) * pj + c * (256 * pj);
      sv + (t - v) * pj;
      sv + (carry - e * d) * pj;
      sv + carry * pj - (e * d) * pj;
      s0 - e * pl * pi - (e * d) * (pk * pi);
      { Regroup(e, pl, d, pk, pi); }
      s0 - e * (pl + d * pk) * pi;
    }
  }

  lemma Regroup(e: int, pl: int, d: int, pk: int, pi: int)
    ensures e * pl * pi + (e * d) * (pk * pi) == e * (pl + d * pk) * pi
  {
    var a, b := e * pl, e * (d * pk);
    assert (e * d) * (pk * pi) == b * pi;
    assert e * (pl + d * pk) == a + b;
    MulDist(pi, a, b);
  }

  /** The whole of 16 L: twenty digits, and the top one, which is what clears limb i. */
  lemma RowValue(sv: int, s0: int, q: int, i: nat, p: int, pi: int)
    requires 32 <= i && p == Pow(256, i - 32) && pi == Pow(256, i) && sv == s0 - 16 * q * PL(20) * p - q * pi
    ensures sv == s0 - (16 * q * p) * L
  {
    hide Pow, PL;
    OrderValue();
    PowAdd(256, 32, i - 32);
    var t := Pow(256, 31);
    assert pi == (16 * (16 * t)) * p;
    var u := q * p;
    calc {
      16 * q * PL(20) * p + q * pi;
      { RowShuffle(q, PL(20), p, 16 * t); }
      (16 * u) * (PL(20) + 16 * t);
      (16 * u) * L;
    }
    assert 16 * q * p == 16 * u;
  }

  lemma RowShuffle(q: int, a: int, p: int, b: int)
    ensures 16 * q * a * p + q * ((16 * b) * p) == (16 * (q * p)) * (a + b)
  {
    var u := q * p;
    assert 16 * q * a * p == 16 * (u * a);
    assert q * ((16 * b) * p) == 16 * (u * b);
    assert (16 * u) * (a + b) == 16 * (u * a) + 16 * (u * b);
  }

  /** Inside a row: limbs up to j are settled, the others untouched, and the carry accounts for the rest. */
  ghost predicate InRow(x: seq<int>, s: seq<int>, i: int, k: nat, carry: int)
    requires |s| == 64 && 32 <= i < 64 && k <= 20
  {
    && |x| == 64 && (forall m | 0 <= m < 64 && !(i - 32 <= m < i - 32 + k) :: x[m] == s[m])
    && (forall m | i - 32 <= m < i - 32 + k :: -128 <= x[m] <= 127)
    && -CarryBound(k, i == 63) <= carry <= CarryBound(k, i == 63)
    && RowSum(x, s, i, k, carry)
  }

  /** What has come off the value so far, with the carry counted. */
  ghost predicate RowSum(x: seq<int>, s: seq<int>, i: int, k: nat, carry: int)
    requires |s| == 64 && 32 <= i < 64 && k <= 20
  {
    SV(x) + carry * Pow(256, i - 32 + k) == SV(s) - 16 * s[i] * PL(k) * Pow(256, i - 32)
  }

  lemma RowStart(s: seq<int>, i: int)
    requires |s| == 64 && 32 <= i < 64
    ensures InRow(s, s, i, 0, 0)
  {}

  lemma LimbBounds(s: seq<int>, i: int, k: nat)
    requires Before(s, i) && 32 <= i < 64 && k < 20
    ensures -128 <= s[i - 32 + k] <= M && (k >= 16 && i < 63 ==> -128 <= s[i - 32 + k] <= 127)
    ensures -(M + SPILL) <= s[i] <= M + SPILL
  {
    assert LimbOk(i, i - 32 + k, s[i - 32 + k]) && LimbOk(i, i, s[i]);
  }

  lemma RowStep(x: seq<int>, s: seq<int>, i: int, k: nat, carry: int, t: int, c: int)
    requires Before(s, i) && 32 <= i < 64 && k < 20 && InRow(x, s, i, k, carry)
    requires t == x[i - 32 + k] + carry - 16 * s[i] * Lorder(k) && c == (t + 128) / 256
    ensures -0x3_0000_0000 <= t <= 0x3_0000_0000 && -0x400_0000 <= c <= 0x400_0000
    ensures InRow(x[i - 32 + k := t - 256 * c], s, i, k + 1, c)
  {
    hide RowSum, Lorder;
    LimbBounds(s, i, k);
    CarryStep(k, i == 63, x[i - 32 + k], carry, s[i], Lorder(k), t, c);
    RowSumStep(x, s, i, k, carry, t, c);
  }

  lemma RowSumStep(x: seq<int>, s: seq<int>, i: int, k: nat, carry: int, t: int, c: int)
    requires |s| == 64 == |x| && 32 <= i < 64 && k < 20 && RowSum(x, s, i, k, carry)
    requires t == x[i - 32 + k] + carry - 16 * s[i] * Lorder(k)
    ensures RowSum(x[i - 32 + k := t - 256 * c], s, i, k + 1, c)
  {
    hide SV, Pow, PL, Lorder;
    var j := i - 32 + k;
    SVSet(x, j, t - 256 * c);
    PowSucc(256, j);
    PowAdd(256, k, i - 32);
    PLNext(k);
    ValueStep(SV(x), SV(x[j := t - 256 * c]), carry, c, x[j], t, s[i], Lorder(k), Pow(256, j), Pow(256, j + 1), PL(k),
              PL(k + 1), Pow(256, k), Pow(256, i - 32), SV(s));
  }

  lemma PLNext(k: nat)
    requires k < 32
    ensures PL(k + 1) == PL(k) + Lorder(k) * Pow(256, k)
  {}

  /** The row is done: the carry goes into limb i - 12 and limb i is cleared. */
  lemma RowEnd(x: seq<int>, s: seq<int>, i: int, carry: int)
    requires Before(s, i) && 32 <= i < 64 && InRow(x, s, i, 20, carry)
    ensures var y := x[i - 12 := x[i - 12] + carry][i := 0];
      Before(y, i - 1) && SV(y) == SV(s) - (16 * s[i] * Pow(256, i - 32)) * L
  {
    hide SV, Pow, Lorder, PL;
    var z := x[i - 12 := x[i - 12] + carry];
    SVSet(x, i - 12, x[i - 12] + carry);
    SVSet(z, i, 0);
    NegProduct(z[i], Pow(256, i));
    RowValue(SV(z[i := 0]), SV(s), s[i], i, Pow(256, i - 32), Pow(256, i));
    RowLimbs(x, s, i, carry);
  }

  lemma NegProduct(a: int, b: int)
    ensures (0 - a) * b == -(a * b)
  {}

  lemma RowLimbs(x: seq<int>, s: seq<int>, i: int, carry: int)
    requires Before(s, i) && 32 <= i < 64 && InRow(x, s, i, 20, carry)
    ensures Before(x[i - 12 := x[i - 12] + carry][i := 0], i - 1)
  {
    hide SV, Pow, Lorder, PL;
    var y := x[i - 12 := x[i - 12] + carry][i := 0];
    forall j | 0 <= j < 64
      ensures LimbOk(i - 1, j, y[j])
    {
      assert LimbOk(i, j, s[j]);
    }
  }

  method Row(x: array<i64>, i: nat)
    requires x.Length == 64 && 32 <= i < 64 && Before(x[..], i)
    modifies x
    ensures Before(x[..], i - 1) && SV(x[..]) == SV(old(x[..])) - (16 * old(x[i]) * Pow(256, i - 32)) * L
  {
    hide Before, InRow, SV, Pow, CarryBound;
    ghost var s: seq<int> := x[..];
    RowStart(s, i);
    var carry: i64 := 0;
    var j := i - 32;
    while j < i - 12
      invariant i - 32 <= j <= i - 12 && InRow(x[..], s, i, j - (i - 32), carry) && x[i] == s[i]
    {
      RowRange(x[..], s, i, j - (i - 32), carry);
      var q: i64 := 16 * x[i];
      QBound(x[i], Lorder(j - (i - 32)));
      var p: i64 := q * Lorder(j - (i - 32));
      var t: i64 := x[j] + (carry - p);
      RowStep(x[..], s, i, j - (i - 32), carry, t, (t + 128) / 256);
      carry := (t + 128) / 256;
      ghost var was: seq<int> := x[..];
      x[j] := t - 256 * carry;
      assert x[..] == was[j := t - 256 * carry];
      j := j + 1;
    }
    RowRange(x[..], s, i, 20, carry);
    RowEnd(x[..], s, i, carry);
    ghost var was: seq<int> := x[..];
    x[j] := x[j] + carry;
    x[i] := 0;
    assert x[..] == was[i - 12 := was[i - 12] + carry][i := 0];
  }

  lemma RowRange(x: seq<int>, s: seq<int>, i: int, k: nat, carry: int)
    requires Before(s, i) && 32 <= i < 64 && k <= 20 && InRow(x, s, i, k, carry)
    ensures -(M + SPILL) <= s[i] <= M + SPILL && -0x400_0000 <= carry <= 0x400_0000 && x[i] == s[i]
    ensures k < 20 ==> -128 <= x[i - 32 + k] <= M
    ensures k == 20 ==> -(M + SPILL) <= x[i - 12] <= M + SPILL
  {
    assert LimbOk(i, i, s[i]) && LimbOk(i, i - 12, s[i - 12]);
    if k < 20 {
      LimbBounds(s, i, k);
    }
  }

  lemma QBound(q: int, d: int)
    requires -(M + SPILL) <= q <= M + SPILL && 0 <= d <= 255
    ensures -0x3_0000_0000 <= 16 * q * d <= 0x3_0000_0000
  {
    QdBound(q, d);
    assert 16 * q * d == 16 * (q * d);
  }

  /* ---- the end: one quotient estimate, one correction ---- */

  /** The 32 limbs left are small, and so is what is left after taking off floor(x[31] / 16) times L. */
  lemma Estimate(s: seq<int>, q: int)
    requires Before(s, 31) && q == s[31] / 16
    ensures -9 <= q <= 8 && 0 - Pow(256, 31) < SV(s) - q * L < 16 * Pow(256, 31)
  {
    hide SV, Pow, PL;
    assert LimbOk(31, 31, s[31]);
    SVTop(s, 32);
    var z := s[..31];
    assert forall j | 0 <= j < 31 :: LimbOk(31, j, z[j]);
    SVBound(z, 129);
    assert s[..32][..31] == z;
    SVLast(s[..32]);
    OrderValue();
    EstimateBounds(SV(z), s[31], q, Pow(256, 31), L - 16 * Pow(256, 31));
  }

  /** In numbers: z the value of the limbs below the top one, v; the order is 16 p and a little more. */
  lemma EstimateBounds(z: int, v: int, q: int, p: int, d: int)
    requires -129 * p <= 255 * z <= 129 * p && q == v / 16 && -9 <= q <= 8 && L == 16 * p + d && 0 <= 1000 * d < p
    ensures 0 - p < z + v * p - q * L < 16 * p
  {
    Remains(z, v, q, v % 16, p, d);
    MulMono(-9, q, d);
    MulMono(q, 8, d);
    MulMono(0, v % 16, p);
    MulMono(v % 16, 15, p);
  }

  lemma Remains(z: int, v: int, q: int, r: int, p: int, d: int)
    requires v == 16 * q + r
    ensures z + v * p - q * (16 * p + d) == r * p + z - q * d
  {}

  lemma SVLast(x: seq<int>)
    requires x != []
    ensures SV(x) == SV(x[..|x| - 1]) + x[|x| - 1] * Pow(256, |x| - 1)
  {}

  /** Taking q L off and carrying into bytes: the first j are bytes, the rest untouched. */
  ghost predicate InFit(x: seq<int>, s: seq<int>, q: int, j: nat, carry: int)
    requires |s| == 64 && j <= 32
  {
    && |x| == 64 && (forall m | j <= m < 64 :: x[m] == s[m]) && (forall m | 0 <= m < j :: 0 <= x[m] < 256)
    && -16 <= carry <= 16 && SV(x) + carry * Pow(256, j) == SV(s) - q * PL(j)
  }

  lemma FitStart(s: seq<int>, q: int)
    requires |s| == 64
    ensures InFit(s, s, q, 0, 0)
  {}

  lemma FitStep(x: seq<int>, s: seq<int>, q: int, j: nat, carry: int, t: int)
    requires Before(s, 31) && -9 <= q <= 8 && j < 32 && InFit(x, s, q, j, carry) && t == x[j] + carry - q * Lorder(j)
    ensures -0x1_0000 <= t <= 0x1_0000 && InFit(x[j := t % 256], s, q, j + 1, t / 256)
  {
    hide SV, Pow, Lorder;
    assert LimbOk(31, j, s[j]);
    SVSet(x, j, t % 256);
    PowSucc(256, j);
    PLNext(j);
    FitValue(SV(x), carry, t, t / 256, x[j], q, Lorder(j), Pow(256, j), PL(j), SV(s));
    MulMono(q, 8, Lorder(j));
    MulMono(-9, q, Lorder(j));
  }

  lemma FitValue(sv: int, carry: int, t: int, c: int, v: int, q: int, d: int, pj: int, pl: int, s0: int)
    requires t == v + carry - q * d && sv + carry * pj == s0 - q * pl
    ensures sv + (t - 256 * c - v) * pj + c * (256 * pj) == s0 - q * (pl + d * pj)
  {
    calc {
      sv + (t - 256 * c - v) * pj + c * (256 * pj);
      sv + (t - v) * pj;
      sv + (carry - q * d) * pj;
      sv + carry * pj - (q * d) * pj;
      s0 - q * pl - q * (d * pj);
    }
  }

  /** The last carry says whether q was one too many. */
  lemma Borrow(v: int, carry: int, t: int)
    requires v + carry * Pow(256, 32) == t && 0 <= v < Pow(256, 32) && 0 - Pow(256, 31) < t < 16 * Pow(256, 31)
    ensures carry == (if t < 0 then -1 else 0)
  {
    hide Pow;
    OrderValue();
  }

  /** Adding the order back where it was: the first j limbs have it. */
  ghost predicate InBack(x: seq<int>, y: seq<int>, carry: int, j: nat)
    requires |y| == 64 && j <= 32
  {
    && |x| == 64 && (forall m | j <= m < 64 :: x[m] == y[m]) && (forall m | 0 <= m < j :: 0 <= x[m] < 512)
    && SV(x) == SV(y) - carry * PL(j)
  }

  lemma BackStep(x: seq<int>, y: seq<int>, carry: int, j: nat)
    requires |y| == 64 && j < 32 && InBack(x, y, carry, j) && -1 <= carry <= 0 && 0 <= y[j] < 256
    ensures InBack(x[j := x[j] - carry * Lorder(j)], y, carry, j + 1)
  {
    hide SV, Pow, Lorder;
    SVSet(x, j, x[j] - carry * Lorder(j));
    PLNext(j);
    var d := Lorder(j);
    assert (x[j] - carry * d - x[j]) * Pow(256, j) == -(carry * (d * Pow(256, j)));
    assert carry * (PL(j) + d * Pow(256, j)) == carry * PL(j) + carry * (d * Pow(256, j));
  }

  /** The final carry into bytes. */
  ghost predicate InBytes(x: seq<int>, y: seq<int>, r: seq<byte>, i: nat)
    requires |y| == 64 && i <= 32
  {
    && |x| == 64 && |r| == i && (forall m | i < m < 64 :: x[m] == y[m]) && 0 <= x[i] < 1024
    && SV(r + x[i..]) == SV(y)
  }

  lemma BytesStep(x: seq<int>, y: seq<int>, r: seq<byte>, i: nat)
    requires |y| == 64 && i < 32 && InBytes(x, y, r, i) && 0 <= y[i + 1] < 512
    ensures InBytes(x[i + 1 := x[i + 1] + x[i] / 256], y, r + [x[i] % 256], i + 1)
  {
    hide SV, Pow;
    var z: seq<int> := r + x[i..];
    var a := z[i := x[i] % 256];
    SVSet(z, i, x[i] % 256);
    SVSet(a, i + 1, x[i + 1] + x[i] / 256);
    PowSucc(256, i);
    var x' := x[i + 1 := x[i + 1] + x[i] / 256];
    assert a[i + 1 := x[i + 1] + x[i] / 256] == r + [x[i] % 256] + x'[i + 1..];
    var q := x[i] / 256;
    assert (x[i] % 256 - x[i]) * Pow(256, i) == -(256 * q) * Pow(256, i);
    assert (x[i + 1] + q - x[i + 1]) * (256 * Pow(256, i)) == (256 * q) * Pow(256, i);
  }

  /** Thirty-two bytes and what is above them. */
  lemma BytesEnd(x: seq<int>, y: seq<int>, r: seq<byte>)
    requires |y| == 64 && InBytes(x, y, r, 32) && (forall m | 32 < m < 64 :: y[m] == 0)
    ensures SV(y) == SV(r) + x[32] * Pow(256, 32) && 0 <= SV(r) < Pow(256, 32)
  {
    hide SV, Pow;
    var z: seq<int> := r + x[32..];
    SVTop(z, 33);
    SVLast(z[..33]);
    assert z[..33][..32] == r;
    SVBytes(r);
  }

  /** The bytes are the one residue of the input between 0 and L. */
  lemma Unique(s0: int, s: int, q: int, t: int, carry: int, r: int, top: int, k: int)
    requires s == s0 - k * L && t == s - q * L && 0 - Pow(256, 31) < t < 16 * Pow(256, 31)
    requires carry == (if t < 0 then -1 else 0)
    requires t - carry * Pow(256, 32) - carry * L == r + top * Pow(256, 32) && 0 <= r < Pow(256, 32)
    ensures 0 <= r < L && r == s0 % L
  {
    hide Pow, PL;
    OrderValue();
    assert r == t - carry * L;
    var n := k + q + carry;
    assert s0 == n * L + r;
    assert s0 / L == n && s0 % L == r;
  }

  /** The multiples of L the rows take off, all together. */
  method Rows(x: array<i64>) returns (ghost k: int)
    requires x.Length == 64 && Before(x[..], 63)
    modifies x
    ensures Before(x[..], 31) && SV(x[..]) == SV(old(x[..])) - k * L
  {
    hide Before, SV, Pow;
    k := 0;
    var i := 63;
    while i >= 32
      invariant 31 <= i <= 63 && Before(x[..], i) && SV(x[..]) == SV(old(x[..])) - k * L
    {
      ghost var e := 16 * x[i] * Pow(256, i - 32);
      Row(x, i);
      k := k + e;
      i := i - 1;
    }
  }

  /** Take floor(x[31] / 16) L off and carry into bytes. */
  method Fit(x: array<i64>) returns (carry: i64, ghost q: int)
    requires x.Length == 64 && Before(x[..], 31)
    modifies x
    ensures q == old(x[31]) / 16 && InFit(x[..], old(x[..]), q, 32, carry)
  {
    hide Before, InFit, SV, Pow;
    ghost var s: seq<int> := x[..];
    q := x[31] / 16;
    Estimate(s, q);
    FitStart(s, q);
    carry := 0;
    var j := 0;
    while j < 32
      invariant 0 <= j <= 32 && InFit(x[..], s, q, j, carry) && (j < 32 ==> x[31] == s[31])
    {
      var e := x[31] / 16;
      FitRange(x[..], s, q, j, carry);
      FitStep(x[..], s, q, j, carry, x[j] + carry - e * Lorder(j));
      var t: i64 := x[j] + carry - e * Lorder(j);
      carry := t / 256;
      ghost var was: seq<int> := x[..];
      x[j] := t % 256;
      assert x[..] == was[j := t % 256];
      j := j + 1;
    }
    FitRange(x[..], s, q, 32, carry);
  }

  lemma FitRange(x: seq<int>, s: seq<int>, q: int, j: nat, carry: int)
    requires |s| == 64 && j <= 32 && InFit(x, s, q, j, carry)
    ensures -16 <= carry <= 16 && (j < 31 ==> x[31] == s[31])
  {}

  /** modL: 64 limbs of at most 2^21 to the 32 bytes of their value modulo L. */
  method ModL(x: array<i64>) returns (r: seq<byte>)
    requires x.Length == 64 && forall j | 0 <= j < 64 :: 0 <= x[j] <= M
    modifies x
    ensures |r| == 32 && SV(r) == SV(old(x[..])) % L
  {
    hide SV, Pow, InFit, InBack, InBytes, PL;
    ghost var s0: seq<int> := x[..];
    assert Before(s0, 63);
    ghost var k := Rows(x);
    hide Before;
    ghost var s: seq<int> := x[..];
    var carry;
    ghost var q;
    carry, q := Fit(x);
    Estimate(s, q);
    FitEnd(x[..], s, q, carry);
    ghost var y: seq<int> := x[..];
    Back(x, carry);
    r := ToBytes(x, y, carry);
    ghost var top := x[32];
    Unique(SV(s0), SV(s), q, SV(s) - q * L, carry, SV(r), top, k);
  }

  lemma FitEnd(x: seq<int>, s: seq<int>, q: int, carry: int)
    requires Before(s, 31) && q == s[31] / 16 && InFit(x, s, q, 32, carry)
    ensures (forall m | 0 <= m < 32 :: 0 <= x[m] < 256) && (forall m | 32 <= m < |x| :: x[m] == 0) && |x| == 64
    ensures SV(x) == SV(s) - q * L - carry * Pow(256, 32) && carry == (if SV(s) - q * L < 0 then -1 else 0)
  {
    hide SV, Pow, PL;
    forall m | 32 <= m < 64
      ensures x[m] == 0
    {
      assert LimbOk(31, m, s[m]);
    }
    Estimate(s, q);
    OrderValue();
    SVTop(x, 32);
    SVBytes(x[..32]);
    Borrow(SV(x), carry, SV(s) - q * L);
  }

  method Back(x: array<i64>, carry: i64)
    requires x.Length == 64 && -1 <= carry <= 0 && forall m | 0 <= m < 32 :: 0 <= x[m] < 256
    modifies x
    ensures InBack(x[..], old(x[..]), carry, 32)
  {
    hide SV, Pow, PL;
    ghost var y: seq<int> := x[..];
    PLZero();
    var j := 0;
    while j < 32
      invariant 0 <= j <= 32 && InBack(x[..], y, carry, j)
    {
      BackStep(x[..], y, carry, j);
      ghost var was: seq<int> := x[..];
      x[j] := x[j] - carry * Lorder(j);
      assert x[..] == was[j := was[j] - carry * Lorder(j)];
      j := j + 1;
    }
  }

  lemma PLZero()
    ensures PL(0) == 0
  {}

  method ToBytes(x: array<i64>, ghost y: seq<int>, ghost carry: int) returns (r: seq<byte>)
    requires x.Length == 64 && |y| == 64 && -1 <= carry <= 0 && InBack(x[..], y, carry, 32)
    requires forall m | 32 <= m < 64 :: y[m] == 0
    modifies x
    ensures |r| == 32 && SV(y) - carry * L == SV(r) + x[32] * Pow(256, 32) && 0 <= SV(r) < Pow(256, 32)
  {
    hide SV, Pow, PL;
    OrderValue();
    ghost var z: seq<int> := x[..];
    r := [];
    var i := 0;
    assert [] + x[0..] == z;
    while i < 32
      invariant 0 <= i <= 32 && InBytes(x[..], z, r, i)
    {
      BytesStep(x[..], z, r, i);
      ghost var was: seq<int> := x[..];
      x[i + 1] := x[i + 1] + x[i] / 256;
      assert x[..] == was[i + 1 := was[i + 1] + was[i] / 256];
      r := r + [x[i] % 256];
      i := i + 1;
    }
    BytesEnd(x[..], z, r);
  }
}
