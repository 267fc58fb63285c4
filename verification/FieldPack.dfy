/** Encoding and decoding of field elements: 32 bytes, least significant first, always the canonical residue. */
module FieldPack {
  import opened Limbs
  import opened Congruence
  import opened Field25519
  import ModL

  /* ---- powers of two ---- */

  lemma {:induction false} PowBytes(k: nat)
    ensures Pow(2, 8 * k) == Pow(256, k)
  {
    if k > 0 {
      PowBytes(k - 1);
      PowAdd(2, 8, 8 * (k - 1));
      assert Pow(2, 8) == 256 by {
        assert Pow(2, 4) == 16;
        PowAdd(2, 4, 4);
      }
    }
  }

  function Two(s: nat): (r: nat)
    requires s <= 8
    ensures r == Pow(2, s) && r >= 1 && r * Two'(8 - s) == 256
  {
    TwoPow(s);
    Two'(s)
  }

  function Two'(s: nat): nat
  {
    match s
    case 0 => 1
    case 1 => 2
    case 2 => 4
    case 3 => 8
    case 4 => 16
    case 5 => 32
    case 6 => 64
    case 7 => 128
    case _ => 256
  }

  lemma TwoPow(s: nat)
    requires s <= 8
    ensures Two'(s) == Pow(2, s) && Two'(s) * Two'(8 - s) == 256
  {
    assert Pow(2, 1) == 2 && Pow(2, 2) == 4 && Pow(2, 3) == 8 && Pow(2, 4) == 16;
    assert Pow(2, 5) == 32 && Pow(2, 6) == 64 && Pow(2, 7) == 128 && Pow(2, 8) == 256;
  }

  /** Where limb i starts: byte k, bit s of it; and it ends within four bytes. */
  lemma Place(i: nat)
    requires i < 10
    ensures var k, s := Bit(i) / 8, Bit(i) % 8;
      k + 3 < 32 && 24 < s + Width(i) <= 32 && Bit(i + 1) == Bit(i) + Width(i)
      && Bit(i + 1) / 8 == (if s + Width(i) == 32 then k + 4 else k + 3) && Bit(i + 1) % 8 == (s + Width(i)) % 8
  {
    assert i == 0 || i == 1 || i == 2 || i == 3 || i == 4 || i == 5 || i == 6 || i == 7 || i == 8 || i == 9;
  }

  lemma WtPlace(i: nat)
    ensures Wt(i) == Pow(256, Bit(i) / 8) * Pow(2, Bit(i) % 8)
  {
    hide Pow;
    PowBytes(Bit(i) / 8);
    PowAdd(2, 8 * (Bit(i) / 8), Bit(i) % 8);
  }

  /* ---- finding the multiple of p to take off ---- */

  lemma {:induction false} LowBound(h: seq<int>, i: nat)
    requires |h| == 10 && i <= 10 && forall m | 0 <= m < i :: 0 - Pow(2, Width(m)) < h[m] < Pow(2, Width(m))
    ensures 0 - Wt(i) < FV(h[..i]) < Wt(i)
    decreases i
  {
    hide Wt, Pow, FV;
    if i == 0 {
      FVEmpty(h);
      WtZero();
    } else {
      LowBound(h, i - 1);
      FVLast(h[..i]);
      assert h[..i][..i - 1] == h[..i - 1];
      WtNext(i - 1);
      var w: int, p: int := Wt(i - 1), Pow(2, Width(i - 1));
      MulMono(h[i - 1], p - 1, w);
      MulMono(1 - p, h[i - 1], w);
      SubOne(p, w);
    }
  }

  lemma FVEmpty(h: seq<int>)
    ensures FV(h[..0]) == 0
  {}

  lemma SubOne(p: int, w: int)
    ensures (p - 1) * w == p * w - w && (1 - p) * w == w - p * w
  {}

  /** q after limb i is the floor of what has been seen over the weight reached. */
  ghost predicate Floor(h: seq<int>, i: nat, q0: int, q: int)
    requires i <= |h|
  {
    q * Wt(i) <= FV(h[..i]) + q0 < (q + 1) * Wt(i)
  }

  lemma FloorStep(h: seq<int>, i: nat, q0: int, q: int, q': int)
    requires |h| == 10 && i < 10 && Floor(h, i, q0, q) && q' == (h[i] + q) / (if i % 2 == 1 then T25 else T26)
    ensures Floor(h, i + 1, q0, q')
  {
    hide Wt, FV, Pow;
    FVLast(h[..i + 1]);
    assert h[..i + 1][..i] == h[..i];
    WtNext(i);
    FloorAlgebra(FV(h[..i]) + q0, h[i], q, q', if i % 2 == 1 then T25 else T26, Wt(i));
    assert Wt(i) * (if i % 2 == 1 then T25 else T26) == Wt(i + 1);
  }

  lemma FloorAlgebra(f: int, v: int, q: int, q': int, d: int, w: int)
    requires w > 0 && d > 0 && q * w <= f < (q + 1) * w && q' == (v + q) / d
    ensures q' * (w * d) <= f + v * w < (q' + 1) * (w * d)
  {
    var x := v + q;
    assert q' * d <= x < (q' + 1) * d by { DivBounds(x, d); }
    MulMono(q' * d, x, w);
    MulMono(x + 1, (q' + 1) * d, w);
    assert q' * (w * d) == (q' * d) * w && (q' + 1) * (w * d) == ((q' + 1) * d) * w;
    assert x * w == v * w + q * w && (x + 1) * w == v * w + (q + 1) * w;
  }

  lemma DivBounds(x: int, d: int)
    requires d > 0
    ensures x / d * d <= x < (x / d + 1) * d
  {
    assert x == x / d * d + x % d;
    assert (x / d + 1) * d == x / d * d + d;
  }

  lemma WtBig()
    ensures Wt(9) == Pow(2, 230) && T255() == Wt(9) * T25 && Wt(9) >= 0x1_0000_0000
  {
    hide Pow;
    WtNext(9);
    WtWrap(0);
    PowAdd(2, 204, 26);
    Pow25();
    PowPositive(2, 204);
    PowAdd(2, 198, 6);
    PowPositive(2, 198);
    assert Pow(2, 6) == 64 by { TwoPow(6); }
  }

  /** For tight limbs the multiple is 0 or -1, by the sign. */
  lemma Sign(h: seq<int>, q0: int, q: int)
    requires Tight(h) && q0 == (19 * h[9] + T24) / T25 && Floor(h, 10, q0, q)
    ensures q == (if FV(h) < 0 then -1 else 0) && 0 - P() < FV(h) < P()
  {
    hide FV, Wt, Pow, Tight;
    TightLen(h);
    forall m | 0 <= m < 9
      ensures 0 - Pow(2, Width(m)) < h[m] < Pow(2, Width(m))
    {
      TightLimb(h, m);
      Pow25();
    }
    LowBound(h, 9);
    assert h[..10] == h;
    FVLast(h);
    TightLimb(h, 9);
    WtBig();
    WtWrap(0);
    SignAlgebra(FV(h), FV(h[..9]), h[9], Wt(9), q0, q);
  }

  lemma SignAlgebra(f: int, lo: int, h9: int, w: int, q0: int, q: int)
    requires f == lo + h9 * w && -w < lo < w && -T24 <= h9 <= T24 && w >= 0x1_0000_0000 && q0 == (19 * h9 + T24) / T25
    requires q * (w * T25) <= f + q0 < (q + 1) * (w * T25)
    ensures q == (if f < 0 then -1 else 0) && -(w * T25 - 19) < f < w * T25 - 19
  {
    if h9 >= 1 {
      MulMono(1, h9, w);
    }
    if h9 <= -1 {
      MulMono(h9, -1, w);
    }
    MulMono(h9, T24, w);
    MulMono(-T24, h9, w);
    if q >= 1 {
      MulMono(1, q, w * T25);
    }
    if q <= -2 {
      MulMono(q + 1, -1, w * T25);
    }
  }

  lemma TightLen(h: seq<int>)
    requires Tight(h)
    ensures |h| == 10
  {}

  /* ---- the unsigned carry ---- */

  ghost predicate Fields(h: seq<int>, i: nat)
  {
    |h| == 10 && i <= 10 && forall m | 0 <= m < i :: 0 <= h[m] < (if m % 2 == 1 then T25 else T26)
  }

  lemma {:induction false} FieldsRange(h: seq<int>, i: nat)
    requires Fields(h, i)
    ensures 0 <= FV(h[..i]) < Wt(i)
    decreases i
  {
    hide Wt, Pow, FV;
    if i == 0 {
      FVEmpty(h);
      WtZero();
    } else {
      FieldsRange(h, i - 1);
      FVLast(h[..i]);
      assert h[..i][..i - 1] == h[..i - 1];
      WtNext(i - 1);
      var w: int, p: int := Wt(i - 1), Pow(2, Width(i - 1));
      MulMono(h[i - 1], p - 1, w);
      MulMono(0, h[i - 1], w);
      SubOne(p, w);
    }
  }

  lemma SpillStep(h: seq<int>, i: nat, c: int)
    requires i < 9 && Fields(h, i) && c == h[i] / (if i % 2 == 1 then T25 else T26)
    ensures
      var g := h[i := h[i] - c * (if i % 2 == 1 then T25 else T26)][i + 1 := h[i + 1] + c];
      Fields(g, i + 1) && FV(g) == FV(h)
  {
    hide FV, Wt;
    WtSpan(i);
    MulAssoc(c, Span(i), Wt(i));
    MoveUp(h, i, c, c * Span(i));
  }

  /** Masking the top limb drops whole multiples of 2^255; what is left is the residue. */
  lemma Canonical(h: seq<int>, g: seq<int>, f: int, q: int)
    requires Fields(h, 9) && g == h[9 := h[9] % T25] && FV(h) == f + 19 * q && 0 - P() < f < P()
    requires q == (if f < 0 then -1 else 0)
    ensures Fields(g, 10) && FV(g) == f % P()
  {
    hide FV, Wt, Pow, T255;
    var c := h[9] / T25;
    FVSet(h, 9, h[9] % T25);
    WtBig();
    assert (h[9] % T25 - h[9]) * Wt(9) == -(c * T255()) by { TopAlgebra(h[9], c, Wt(9), T255()); }
    assert g[..10] == g;
    FieldsRange(g, 10);
    WtWrap(0);
    Residue(FV(g), f, q, c, T255());
  }

  lemma TopAlgebra(v: int, c: int, w: int, t: int)
    requires c == v / T25 && t == w * T25
    ensures (v % T25 - v) * w == -(c * t)
  {
    assert v % T25 - v == -(c * T25);
    assert (c * T25) * w == c * (w * T25);
  }

  lemma Residue(n: int, f: int, q: int, c: int, t: int)
    requires t > 19 && n == f + 19 * q - c * t && 0 <= n < t && -(t - 19) < f < t - 19 && q == (if f < 0 then -1 else 0)
    ensures n == f % (t - 19)
  {
    var p := t - 19;
    if c - q >= 1 {
      MulMono(1, c - q, t);
    } else if c - q <= -1 {
      MulMono(c - q, -1, t);
    }
    assert c * t == q * t + (c - q) * t;
    assert n == f - q * p;
    if f < 0 {
      DivMod(f, p, -1, f + p);
    } else {
      DivMod(f, p, 0, f);
    }
  }

  /* ---- bytes ---- */

  /** What is written so far: the fields below limb i, and nothing above. */
  ghost predicate Emitted(o: seq<int>, h: seq<int>, i: nat)
    requires |h| == 10 && i <= 10
  {
    && |o| == 32 && (forall m | 0 <= m < 32 :: 0 <= o[m] < 256)
    && (forall m | Bit(i) / 8 < m < 32 :: o[m] == 0)
    && (i < 10 ==> Bit(i) / 8 < 32 && o[Bit(i) / 8] < Two(Bit(i) % 8))
    && ModL.SV(o) == FV(h[..i])
  }

  /** A field shifted into place is a multiple of its shift, so or-ing it in is adding. */
  lemma ShiftedByte(v: int, s: nat)
    requires 0 <= v && s < 8
    ensures v * Two(s) % 256 <= 256 - Two(s)
  {
    hide Two, Two';
    Shifted(v, Two(s), Two'(8 - s));
  }

  lemma Shifted(v: int, p: int, e: int)
    requires 0 <= v && 0 < p && 0 < e && p * e == 256
    ensures v * p % 256 <= 256 - p
  {
    var q, u := v / e, v % e;
    assert v == q * e + u;
    calc {
      v * p;
      (q * e) * p + u * p;
      { MulAssoc(q, e, p); }
      q * 256 + u * p;
    }
    MulMono(u, e - 1, p);
    MulMono(0, u, p);
    DivMod(v * p, 256, q, u * p);
  }

  lemma ShiftedTop(v: int, s: nat, w: nat)
    requires s < 8 && (w == 25 || w == 26) && s + w <= 32 && 0 <= v < (if w == 25 then T25 else T26)
    ensures 0 <= v * Two(s) < 0x1_0000_0000
    ensures s + w < 32 ==> v * Two(s) / T24 < Two(s + w - 24)
  {
    match s {
      case 0 =>
      case 1 =>
      case 2 =>
      case 3 =>
      case 4 =>
      case 5 =>
      case 6 =>
      case _ =>
    }
  }

  /** Four bytes added at k. */
  lemma PutWord(o: seq<int>, k: nat, g: int)
    requires |o| == 32 && k + 3 < 32 && 0 <= g < 0x1_0000_0000
    requires o[k + 1] == 0 && o[k + 2] == 0 && o[k + 3] == 0
    ensures var p := o[k := o[k] + g % 256][k + 1 := g / 256 % 256][k + 2 := g / 0x1_0000 % 256][k + 3 := g / T24];
      ModL.SV(p) == ModL.SV(o) + g * Pow(256, k)
  {
    hide ModL.SV, Pow;
    var a := o[k := o[k] + g % 256];
    var b := a[k + 1 := g / 256 % 256];
    var c := b[k + 2 := g / 0x1_0000 % 256];
    ModL.SVSet(o, k, o[k] + g % 256);
    ModL.SVSet(a, k + 1, g / 256 % 256);
    ModL.SVSet(b, k + 2, g / 0x1_0000 % 256);
    ModL.SVSet(c, k + 3, g / T24);
    PowSucc(256, k);
    PowSucc(256, k + 1);
    PowSucc(256, k + 2);
    WordDigits(g);
    WordAlgebra(g % 256, g / 256 % 256, g / 0x1_0000 % 256, g / T24, g, Pow(256, k));
  }

  lemma WordDigits(g: int)
    requires 0 <= g < 0x1_0000_0000
    ensures g == g % 256 + 256 * (g / 256 % 256) + 0x1_0000 * (g / 0x1_0000 % 256) + T24 * (g / T24)
  {
    assert g / 256 / 256 == g / 0x1_0000;
    assert g / 0x1_0000 / 256 == g / T24;
  }

  lemma WordAlgebra(a: int, b: int, c: int, d: int, g: int, p: int)
    requires g == a + 256 * b + 0x1_0000 * c + T24 * d
    ensures a * p + b * (256 * p) + c * (256 * (256 * p)) + d * (256 * (256 * (256 * p))) == g * p
  {}

  lemma EmitStep(o: seq<int>, h: seq<int>, i: nat, k: nat, s: nat)
    requires Fields(h, 10) && i < 10 && Emitted(o, h, i) && k == Bit(i) / 8 && s == Bit(i) % 8
    ensures var g := h[i] * Two(s);
      && k + 3 < 32 && 0 <= g < 0x1_0000_0000 && o[k] + g % 256 < 256 && o[k + 1] == 0 && o[k + 2] == 0 && o[k + 3] == 0
      && Emitted(o[k := o[k] + g % 256][k + 1 := g / 256 % 256][k + 2 := g / 0x1_0000 % 256][k + 3 := g / T24],
                 h, i + 1)
  {
    hide FV, ModL.SV, Wt, Pow, Two;
    var g := h[i] * Two(s);
    Place(i);
    ShiftedTop(h[i], s, Width(i));
    ShiftedByte(h[i], s);
    PutWord(o, k, g);
    FVLast(h[..i + 1]);
    assert h[..i + 1][..i] == h[..i];
    WtPlace(i);
    assert g * Pow(256, k) == h[i] * (Pow(256, k) * Two(s)) by { ShiftAlgebra(h[i], Two(s), Pow(256, k)); }
  }

  lemma ShiftAlgebra(v: int, t: int, p: int)
    ensures (v * t) * p == v * (p * t)
  {}

  lemma EmitStart(o: seq<int>, h: seq<int>)
    requires |o| == 32 && |h| == 10 && forall m | 0 <= m < 32 :: o[m] == 0
    ensures Emitted(o, h, 0)
  {
    hide ModL.SV;
    ModL.SVTop(o, 0);
    SVEmpty(o);
    FVEmpty(h);
  }

  lemma SVEmpty(o: seq<int>)
    ensures ModL.SV(o[..0]) == 0
  {}

  method Emit(o: array<byte>, h: array<i64>)
    requires o.Length == 32 && h.Length == 10 && Fields(h[..], 10)
    modifies o
    ensures ModL.SV(o[..]) == FV(h[..])
  {
    hide FV, ModL.SV, Emitted;
    ghost var g: seq<int> := h[..];
    var m := 0;
    while m < 32
      invariant 0 <= m <= 32 && forall j | 0 <= j < m :: o[j] == 0
    {
      o[m] := 0;
      m := m + 1;
    }
    EmitStart(o[..], g);
    var i, off := 0, 0;
    while i < 10
      invariant 0 <= i <= 10 && off == Bit(i) && Emitted(o[..], g, i)
    {
      var k, s := off / 8, off % 8;
      EmitStep(o[..], g, i, k, s);
      Place(i);
      PutFour(o, k, h[i] * Two(s));
      off := off + Width(i);
      i := i + 1;
    }
    EmitEnd(o[..], g);
  }

  /** Or a shifted field into four bytes, of which only the first is in use. */
  method PutFour(o: array<byte>, k: nat, v: int)
    requires o.Length == 32 && k + 3 < 32 && 0 <= v < 0x1_0000_0000 && o[k] + v % 256 < 256 && o[k + 1] == 0
    requires o[k + 2] == 0 && o[k + 3] == 0
    modifies o
    ensures
      var was: seq<int> := old(o[..]);
      o[..] == was[k := was[k] + v % 256][k + 1 := v / 256 % 256][k + 2 := v / 0x1_0000 % 256][k + 3 := v / T24]
  {
    o[k] := o[k] + v % 256;
    o[k + 1] := o[k + 1] + v / 256 % 256;
    o[k + 2] := o[k + 2] + v / 0x1_0000 % 256;
    o[k + 3] := o[k + 3] + v / T24;
  }

  lemma EmitEnd(o: seq<int>, h: seq<int>)
    requires |h| == 10 && Emitted(o, h, 10)
    ensures ModL.SV(o) == FV(h)
  {
    assert h[..10] == h;
  }

  /** pack25519: the canonical residue of any element whose limbs fit their 32 bits. */
  method Pack(o: array<byte>, n: array<i32>)
    requires o.Length == 32 && n.Length == 10
    modifies o
    ensures ModL.SV(o[..]) == FV(n[..]) % P()
  {
    hide FV, Congruent, P, Tight, Fields, Floor, ModL.SV;
    ghost var f0: seq<int> := n[..];
    var h := new i64[10];
    var i := 0;
    while i < 10
      invariant 0 <= i <= 10 && h[..i] == n[..i]
    {
      h[i] := n[i];
      i := i + 1;
    }
    assert h[..10] == f0;
    FCarry(h);
    ghost var f1: seq<int> := h[..10];
    TightLimbs(f1);
    FCarry(h);
    ghost var f2: seq<int> := h[..10];
    TightLimbs(f2);
    CongTrans(FV(f2), FV(f1), FV(f0), P());
    assert h[..] == f2;
    var q := Multiple(h);
    h[0] := h[0] + (q * 16 + q * 2 + q);
    FVSet(f2, 0, f2[0] + 19 * q);
    WtZero();
    assert h[..] == f2[0 := f2[0] + 19 * q];
    Spill(h);
    ghost var f3: seq<int> := h[..];
    h[9] := h[9] % T25;
    assert h[..] == f3[9 := f3[9] % T25];
    Canonical(f3, h[..], FV(f2), q);
    Emit(o, h);
    SameResidue(FV(f2), FV(f0));
  }

  lemma TightLimbs(h: seq<int>)
    requires Tight(h)
    ensures |h| == 10 && forall m | 0 <= m < 10 :: -T25 <= h[m] <= T25
  {
    forall m | 0 <= m < 10
      ensures -T25 <= h[m] <= T25
    {
      TightLimb(h, m);
    }
  }

  lemma SameResidue(x: int, y: int)
    requires Congruent(x, y, P())
    ensures x % P() == y % P()
  {
    hide Pow;
    CongMod(x, P());
    CongMod(y, P());
    CongSym(x, x % P(), P());
    CongTrans(x % P(), x, y, P());
    CongTrans(x % P(), y, y % P(), P());
    CongUnique(x % P(), y % P(), P());
  }

  /** The carry chain that only asks whether adding 19 would overflow 2^255. */
  method Multiple(h: array<i64>) returns (q: i64)
    requires h.Length == 10 && Tight(h[..])
    ensures q == (if FV(h[..]) < 0 then -1 else 0) && 0 - P() < FV(h[..]) < P()
  {
    hide FV, P, Tight, Floor, Wt;
    ghost var g: seq<int> := h[..];
    TightLimbs(g);
    TightLimb(g, 9);
    q := (h[9] * 16 + h[9] * 2 + h[9] + T24) / T25;
    ghost var q0 := q;
    FloorStart(g, q0);
    var i := 0;
    while i < 10
      invariant 0 <= i <= 10 && Floor(g, i, q0, q) && -T26 <= q <= T26
    {
      FloorStep(g, i, q0, q, (h[i] + q) / (if i % 2 == 1 then T25 else T26));
      q := if i % 2 == 1 then (h[i] + q) / T25 else (h[i] + q) / T26;
      i := i + 1;
    }
    Sign(g, q0, q);
  }

  lemma FloorStart(h: seq<int>, q0: int)
    requires |h| == 10
    ensures Floor(h, 0, q0, q0)
  {
    hide Pow;
    FVEmpty(h);
    WtZero();
  }

  /** Carry upward until every limb but the last is its own bit field. */
  method Spill(h: array<i64>)
    requires h.Length == 10 && forall m | 0 <= m < 10 :: -2 * T26 <= h[m] <= 2 * T26
    modifies h
    ensures Fields(h[..], 9) && FV(h[..]) == FV(old(h[..])) && -3 * T26 <= h[9] <= 3 * T26
  {
    hide FV;
    ghost var s: seq<int> := h[..];
    var i := 0;
    while i < 9
      invariant 0 <= i <= 9 && Fields(h[..], i) && FV(h[..]) == FV(s) && -3 * T26 <= h[i] <= 3 * T26
      invariant forall m | i < m < 10 :: h[m] == s[m]
    {
      ghost var g: seq<int> := h[..];
      var w := if i % 2 == 1 then T25 else T26;
      var c: i64 := h[i] / w;
      SpillStep(g, i, c);
      h[i + 1] := h[i + 1] + c;
      h[i] := h[i] - c * w;
      assert h[..] == g[i := g[i] - c * w][i + 1 := g[i + 1] + c];
      i := i + 1;
    }
  }

  /* ---- the inverse ---- */

  /** The four bytes from k, as a word. */
  function Window(s: seq<byte>, k: nat): (v: int)
    requires k + 3 < |s|
    ensures 0 <= v < 0x1_0000_0000
  {
    s[k] + s[k + 1] as int * 256 + s[k + 2] as int * 0x1_0000 + s[k + 3] as int * T24
  }

  lemma {:induction false} SVSplit(x: seq<int>, k: nat)
    requires k <= |x|
    ensures ModL.SV(x) == ModL.SV(x[..k]) + Pow(256, k) * ModL.SV(x[k..])
    decreases |x|
  {
    hide Pow;
    if k == |x| {
      assert x[..k] == x && x[k..] == [];
    } else {
      hide ModL.SV;
      var n := |x| - 1;
      SVSplit(x[..n], k);
      assert x[..n][..k] == x[..k] && x[..n][k..] == x[k..][..n - k];
      ModL.SVLast(x);
      ModL.SVLast(x[k..]);
      PowAdd(256, k, n - k);
      assert x[k..][..|x[k..]| - 1] == x[k..][..n - k];
      MulShuffle(x[n], Pow(256, k), Pow(256, n - k));
      MulDist(Pow(256, k), ModL.SV(x[k..][..n - k]), x[n] * Pow(256, n - k));
    }
  }

  lemma WindowValue(s: seq<byte>, k: nat)
    requires |s| == 32 && k + 3 < 32
    ensures ModL.SV(s) == ModL.SV(s[..k]) + Pow(256, k) * (Window(s, k) + 0x1_0000_0000 * ModL.SV(s[k + 4..]))
  {
    hide Pow, ModL.SV;
    SVSplit(s, k);
    SVSplit(s[k..], 4);
    assert s[k..][4..] == s[k + 4..];
    FourBytes(s[k..][..4]);
    FourPow();
  }

  lemma FourPow()
    ensures Pow(256, 4) == 0x1_0000_0000
  {
    assert Pow(256, 2) == 0x1_0000;
    PowAdd(256, 2, 2);
  }

  lemma FourBytes(s: seq<int>)
    requires |s| == 4
    ensures ModL.SV(s) == s[0] + s[1] * 256 + s[2] * 0x1_0000 + s[3] * T24
  {
    ModL.SVLast(s);
    assert s[..3][..2] == s[..2] && s[..2][..1] == s[..1] && s[..1][..0] == [];
    assert Pow(256, 1) == 256 && Pow(256, 2) == 0x1_0000 && Pow(256, 3) == T24;
    ModL.SVLast(s[..3]);
    ModL.SVLast(s[..2]);
    ModL.SVLast(s[..1]);
  }

  /** Limb i of an encoding. */
  function Field(s: seq<byte>, i: nat): (v: int)
    requires |s| == 32 && i < 10
    ensures 0 <= v < T26
  {
    Place(i);
    Window(s, Bit(i) / 8) / Two(Bit(i) % 8) % (if i % 2 == 1 then T25 else T26)
  }

  /** Shifting a window down and masking it gives the bits of the whole number at that place. */
  lemma WindowBits(s: seq<byte>, i: nat)
    requires |s| == 32 && i < 10
    ensures ModL.SV(s) % Wt(i + 1) == ModL.SV(s) % Wt(i) + Field(s, i) * Wt(i)
  {
    hide Pow, ModL.SV, Two;
    Place(i);
    var k, b := Bit(i) / 8, Bit(i) % 8;
    WindowValue(s, k);
    ModL.SVBytes(s[..k]);
    WtPlace(i);
    WtNext(i);
    PowPositive(256, k);
    WindowAlgebra(ModL.SV(s), ModL.SV(s[..k]), Pow(256, k), Window(s, k), ModL.SV(s[k + 4..]), b, Width(i), Wt(i),
                  Wt(i + 1));
  }

  lemma WindowAlgebra(n: int, lo: int, p: int, win: int, hi: int, b: nat, w: nat, wt: int, wt': int)
    requires b < 8 && (w == 25 || w == 26) && b + w <= 32 && p > 0 && 0 <= lo < p
    requires n == lo + p * (win + 0x1_0000_0000 * hi) && wt == p * Two(b) && wt' == wt * (if w == 25 then T25 else T26)
    ensures n % wt' == n % wt + win / Two(b) % (if w == 25 then T25 else T26) * wt
  {
    hide Two, Two';
    var t := Two(b);
    var d := if w == 25 then T25 else T26;
    var e := SpareBits(b, w);
    var q, r := win / t, win % t;
    DivBounds(win, t);
    WordSplit(n, lo, p, win, hi, t, d, e, q, r, 0x1_0000_0000);
    PosProduct(p, t);
    DivMod(n, wt, q + (e * d) * hi, lo + p * r);
    FieldAlgebra(n, lo + p * r, q + (e * d) * hi, q, e, hi, d, wt, wt');
  }

  lemma WordSplit(n: int, lo: int, p: int, win: int, hi: int, t: int, d: int, e: int, q: int, r: int, k: int)
    requires win == q * t + r && 0 <= r < t && 0 <= lo < p && k == e * (t * d) && n == lo + p * (win + k * hi)
    ensures n == (q + (e * d) * hi) * (p * t) + (lo + p * r) && 0 <= lo + p * r < p * t
  {
    Gather(lo, p, t, q, r, e, d, hi);
    MulMono(r, t - 1, p);
    MulMono(0, r, p);
    SubOne(t, p);
  }

  lemma FieldAlgebra(n: int, a: int, big: int, q: int, e: int, hi: int, d: int, wt: int, wt': int)
    requires d > 0 && wt > 0 && 0 <= a < wt && big == q + (e * d) * hi && n == big * wt + a && wt' == wt * d
    ensures n % wt' == a + q % d * wt
  {
    var x, y := q / d, q % d;
    assert q == x * d + y;
    assert big == (x + e * hi) * d + y by { Gather2(x, d, y, e, hi); }
    var c := y * wt + a;
    assert n == (x + e * hi) * wt' + c by { Gather3(x + e * hi, d, y, wt, a); }
    assert 0 <= c < wt' by {
      MulMono(y, d - 1, wt);
      MulMono(0, y, wt);
      SubOne(d, wt);
    }
    PosProduct(wt, d);
    DivMod(n, wt', x + e * hi, c);
  }

  lemma PosProduct(p: int, t: int)
    requires p > 0 && t > 0
    ensures p * t > 0
  {
    MulMono(1, t, p);
  }

  lemma Gather(lo: int, p: int, t: int, q: int, r: int, e: int, d: int, hi: int)
    ensures lo + p * (q * t + r + (e * (t * d)) * hi) == (q + (e * d) * hi) * (p * t) + (lo + p * r)
  {
    var g := (e * d) * hi;
    assert (e * (t * d)) * hi == t * g;
    assert p * (q * t + r + t * g) == p * r + p * (t * (q + g));
    assert p * (t * (q + g)) == (q + g) * (p * t);
  }

  lemma Gather2(x: int, d: int, y: int, e: int, hi: int)
    ensures x * d + y + (e * d) * hi == (x + e * hi) * d + y
  {
    assert (e * d) * hi == (e * hi) * d;
    MulDist(d, x, e * hi);
  }

  lemma Gather3(m: int, d: int, y: int, w: int, a: int)
    ensures (m * d + y) * w + a == m * (w * d) + (y * w + a)
  {
    MulDist(w, m * d, y);
    assert (m * d) * w == m * (w * d);
  }

  /** The bits of a word above a field. */
  function SpareBits(b: nat, w: nat): (e: int)
    requires b < 8 && (w == 25 || w == 26) && b + w <= 32
    ensures e * (Two(b) * (if w == 25 then T25 else T26)) == 0x1_0000_0000
  {
    if w == 25 then Two'(7 - b) else Two'(6 - b)
  }

  /** unpack25519: the low 255 bits. */
  method Unpack(o: array<i32>, n: seq<byte>)
    requires o.Length == 10 && |n| == 32
    modifies o
    ensures Tight(o[..]) && Congruent(FV(o[..]), ModL.SV(n) % T255(), P())
  {
    hide FV, Congruent, P, Tight, ModL.SV, Wt, Pow, T255, Field, Bit, Width;
    var s: seq<byte> := n[31 := n[31] % 128];
    TopBit(n);
    var h := new i64[10];
    WtZero();
    FVEmpty(h[..]);
    BitNext(0);
    var i, off := 0, 0;
    while i < 10
      invariant 0 <= i <= 10 && off == Bit(i) && (forall m | 0 <= m < i :: 0 <= h[m] < T26)
      invariant FV(h[..i]) == ModL.SV(s) % Wt(i)
    {
      WindowBits(s, i);
      ghost var was: seq<int> := h[..i];
      h[i] := ReadField(s, i, off);
      assert h[..i + 1] == was + [h[i]];
      FVSnoc(was, h[i]);
      BitNext(i);
      off := off + Width(i);
      i := i + 1;
    }
    WtWrap(0);
    ghost var f: seq<int> := h[..10];
    FStore(o, h);
    assert FV(f) == ModL.SV(n) % T255();
  }

  /** Four bytes from where the limb starts, or-ed together, shifted down and masked. */
  method ReadField(s: seq<byte>, i: nat, off: nat) returns (v: int)
    requires |s| == 32 && i < 10 && off == Bit(i)
    ensures v == Field(s, i)
  {
    Place(i);
    var w := Width(i);
    v := s[off / 8] + s[off / 8 + 1] as int * 256 + s[off / 8 + 2] as int * 0x1_0000 + s[off / 8 + 3] as int * T24;
    v := v / Two(off % 8);
    v := v % (if w == 25 then T25 else T26);
  }

  lemma BitNext(i: nat)
    ensures Bit(0) == 0 && Bit(i + 1) == Bit(i) + Width(i)
  {}

  lemma FVSnoc(x: seq<int>, v: int)
    ensures FV(x + [v]) == FV(x) + v * Wt(|x|)
  {
    hide Wt;
    assert (x + [v])[..|x|] == x;
  }

  /** Clearing the top bit is reducing modulo 2^255. */
  lemma TopBit(n: seq<byte>)
    requires |n| == 32
    ensures ModL.SV(n[31 := n[31] % 128]) % T255() == ModL.SV(n) % T255()
  {
    hide Pow, ModL.SV;
    var c := n[31] / 128;
    ModL.SVSet(n, 31, n[31] % 128);
    PowBytes(31);
    PowAdd(2, 248, 7);
    assert Pow(2, 7) == 128 by { TwoPow(7); }
    var p := Pow(256, 31);
    assert T255() == p * 128;
    TopBitAlgebra(n[31], c, p);
    WtBig();
    SameMod(ModL.SV(n), ModL.SV(n[31 := n[31] % 128]), T255(), c);
  }

  lemma TopBitAlgebra(v: int, c: int, p: int)
    requires c == v / 128
    ensures (v % 128 - v) * p == -(c * (p * 128))
  {
    assert v % 128 - v == -(c * 128);
    assert (c * 128) * p == c * (p * 128);
  }

  lemma SameMod(x: int, y: int, t: int, c: int)
    requires t > 0 && y == x - c * t
    ensures x % t == y % t
  {
    var r := y % t;
    assert y == y / t * t + r;
    assert x == (y / t + c) * t + r by { MulDist(t, y / t, c); }
    DivMod(x, t, y / t + c, r);
  }

  /** Packing what was unpacked reduces the low 255 bits modulo p. */
  method Reencode(n: seq<byte>) returns (o: array<byte>)
    requires |n| == 32
    ensures o.Length == 32 && ModL.SV(o[..]) == (ModL.SV(n) % T255()) % P()
  {
    hide FV, Congruent, P, ModL.SV, T255;
    var e := new i32[10];
    Unpack(e, n);
    o := new byte[32];
    Pack(o, e);
    SameResidue(FV(e[..]), ModL.SV(n) % T255());
  }
}
