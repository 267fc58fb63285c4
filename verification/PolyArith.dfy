/** Arithmetic of Poly1305's 26-bit limbs modulo 2^130 - 5. Masks and shifts are written as the remainders and
    quotients they are; a bitwise or of disjoint fields is a sum. */
module PolyArith {
  import opened Limbs
  import opened Congruence

  const T26: int := 0x400_0000
  const T52: int := 0x10_0000_0000_0000
  const T78: int := 0x4000_0000_0000_0000_0000
  const T104: int := 0x1_0000_0000_0000_0000_0000_0000_00
  const T130: int := 0x4_0000_0000_0000_0000_0000_0000_0000_0000
  const P: int := T130 - 5

  datatype Five = Five(x0: int, x1: int, x2: int, x3: int, x4: int)

  function V(f: Five): int
  {
    f.x0 + f.x1 * T26 + f.x2 * T52 + f.x3 * T78 + f.x4 * T104
  }

  /** An accumulator between blocks: all limbs below 2^26 but the second, which may hold an unfinished carry. */
  predicate Settled(h: Five)
  {
    0 <= h.x0 < T26 && 0 <= h.x1 < T26 + 64 && 0 <= h.x2 < T26 && 0 <= h.x3 < T26 && 0 <= h.x4 < T26
  }

  predicate Clamped(r: Five)
  {
    0 <= r.x0 < T26 && 0 <= r.x1 < T26 && 0 <= r.x2 < T26 && 0 <= r.x3 < T26 && 0 <= r.x4 < 0x10_0000
  }

  /** An accumulator with a block added in. */
  predicate Loaded(h: Five)
  {
    && 0 <= h.x0 < 2 * T26 && 0 <= h.x1 < 2 * T26 + 64 && 0 <= h.x2 < 2 * T26 && 0 <= h.x3 < 2 * T26
    && 0 <= h.x4 < T26 + T26 / 2
  }

  /** The five columns of the product, those above 2^130 folded back times five. */
  function Columns(h: Five, r: Five): Five
  {
    Five(h.x0 * r.x0 + h.x1 * (r.x4 * 5) + h.x2 * (r.x3 * 5) + h.x3 * (r.x2 * 5) + h.x4 * (r.x1 * 5),
         h.x0 * r.x1 + h.x1 * r.x0 + h.x2 * (r.x4 * 5) + h.x3 * (r.x3 * 5) + h.x4 * (r.x2 * 5),
         h.x0 * r.x2 + h.x1 * r.x1 + h.x2 * r.x0 + h.x3 * (r.x4 * 5) + h.x4 * (r.x3 * 5),
         h.x0 * r.x3 + h.x1 * r.x2 + h.x2 * r.x1 + h.x3 * r.x0 + h.x4 * (r.x4 * 5),
         h.x0 * r.x4 + h.x1 * r.x3 + h.x2 * r.x2 + h.x3 * r.x1 + h.x4 * r.x0)
  }

  /** One row of the schoolbook product. */
  lemma Row(x: int, r: Five)
    ensures x * V(r) == x * r.x0 + (x * r.x1) * T26 + (x * r.x2) * T52 + (x * r.x3) * T78 + (x * r.x4) * T104
  {}

  lemma Fold(x: int, k: int)
    ensures x * (k * 5) == 5 * (x * k)
  {}

  lemma ColumnsValue(h: Five, r: Five)
    ensures Congruent(V(Columns(h, r)), V(h) * V(r), P)
  {
    Row(h.x0, r);
    Row(h.x1, r);
    Row(h.x2, r);
    Row(h.x3, r);
    Row(h.x4, r);
    Spread(h, V(r));
    Fold(h.x1, r.x4);
    Fold(h.x2, r.x3);
    Fold(h.x3, r.x2);
    Fold(h.x4, r.x1);
    Fold(h.x2, r.x4);
    Fold(h.x3, r.x3);
    Fold(h.x4, r.x2);
    Fold(h.x3, r.x4);
    Fold(h.x4, r.x3);
    Fold(h.x4, r.x4);
    var q := (h.x1 * r.x4 + h.x2 * r.x3 + h.x3 * r.x2 + h.x4 * r.x1) + (h.x2 * r.x4 + h.x3 * r.x3 + h.x4 * r.x2) * T26
             + (h.x3 * r.x4 + h.x4 * r.x3) * T52 + (h.x4 * r.x4) * T78;
    CongWitness(V(Columns(h, r)), V(h) * V(r), -q, P);
  }

  lemma Spread(h: Five, y: int)
    ensures V(h) * y == h.x0 * y + (h.x1 * y) * T26 + (h.x2 * y) * T52 + (h.x3 * y) * T78 + (h.x4 * y) * T104
  {}

  /* ---- no column and no carry overflows ---- */

  lemma BoundProduct(x: int, a: int, y: int, b: int)
    requires 0 <= x < a && 0 <= y < b
    ensures 0 <= x * y <= a * b
  {
    MulMono(x, a, y);
    MulMono(y, b, a);
  }

  const COL: int := 0x300_0000_0000_0000   // 3 * 2^56

  lemma ColumnBound(x0: int, y0: int, x1: int, y1: int, x2: int, y2: int, x3: int, y3: int, x4: int, y4: int)
    requires 0 <= x0 < 2 * T26 && 0 <= x1 < 2 * T26 + 64 && 0 <= x2 < 2 * T26 && 0 <= x3 < 2 * T26
    requires 0 <= x4 < T26 + T26 / 2
    requires 0 <= y0 < 5 * T26 && 0 <= y1 < 5 * T26 && 0 <= y2 < 5 * T26 && 0 <= y3 < 5 * T26 && 0 <= y4 < 5 * T26
    ensures 0 <= x0 * y0 + x1 * y1 + x2 * y2 + x3 * y3 + x4 * y4 < COL
  {
    BoundProduct(x0, 2 * T26, y0, 5 * T26);
    BoundProduct(x1, 2 * T26 + 64, y1, 5 * T26);
    BoundProduct(x2, 2 * T26, y2, 5 * T26);
    BoundProduct(x3, 2 * T26, y3, 5 * T26);
    BoundProduct(x4, T26 + T26 / 2, y4, 5 * T26);
  }

  /** The top column, which no folding reaches, is what the last carry comes from. */
  lemma TopBound(h: Five, r: Five)
    requires Loaded(h) && Clamped(r)
    ensures 0 <= Columns(h, r).x4 < 0x80_0000_0000_0000   // 2^55
  {
    BoundProduct(h.x0, 2 * T26, r.x4, 0x10_0000);
    BoundProduct(h.x1, 2 * T26 + 64, r.x3, T26);
    BoundProduct(h.x2, 2 * T26, r.x2, T26);
    BoundProduct(h.x3, 2 * T26, r.x1, T26);
    BoundProduct(h.x4, T26 + T26 / 2, r.x0, T26);
  }

  lemma ColumnsBound(h: Five, r: Five)
    requires Loaded(h) && Clamped(r)
    ensures var d := Columns(h, r);
      0 <= d.x0 < COL && 0 <= d.x1 < COL && 0 <= d.x2 < COL && 0 <= d.x3 < COL && 0 <= d.x4 < 0x80_0000_0000_0000
  {
    ColumnBound(h.x0, r.x0, h.x1, r.x4 * 5, h.x2, r.x3 * 5, h.x3, r.x2 * 5, h.x4, r.x1 * 5);
    ColumnBound(h.x0, r.x1, h.x1, r.x0, h.x2, r.x4 * 5, h.x3, r.x3 * 5, h.x4, r.x2 * 5);
    ColumnBound(h.x0, r.x2, h.x1, r.x1, h.x2, r.x0, h.x3, r.x4 * 5, h.x4, r.x3 * 5);
    ColumnBound(h.x0, r.x3, h.x1, r.x2, h.x2, r.x1, h.x3, r.x0, h.x4, r.x4 * 5);
    TopBound(h, r);
  }

  /** The carry chain after a block: one pass, the carry out of the top folded into the bottom times five, and one
      more carry, left in the second limb. */
  function Settle(d: Five): Five
  {
    var d1 := d.x1 + d.x0 / T26;
    var d2 := d.x2 + d1 / T26;
    var d3 := d.x3 + d2 / T26;
    var d4 := d.x4 + d3 / T26;
    var h0 := d.x0 % T26 + d4 / T26 * 5;
    Five(h0 % T26, d1 % T26 + h0 / T26, d2 % T26, d3 % T26, d4 % T26)
  }

  lemma CarryLinear(x: Five, q0: int, r0: int, q1: int, r1: int, q2: int, r2: int, q3: int, r3: int, q4: int, r4: int,
                    q5: int, r5: int)
    requires x.x0 == q0 * T26 + r0 && x.x1 + q0 == q1 * T26 + r1 && x.x2 + q1 == q2 * T26 + r2
    requires x.x3 + q2 == q3 * T26 + r3 && x.x4 + q3 == q4 * T26 + r4 && r0 + q4 * 5 == q5 * T26 + r5
    ensures V(Five(r5, r1 + q5, r2, r3, r4)) == V(x) - q4 * P
  {}

  lemma SettleValue(d: Five)
    ensures Congruent(V(Settle(d)), V(d), P)
  {
    hide V;
    var d1 := d.x1 + d.x0 / T26;
    var d2 := d.x2 + d1 / T26;
    var d3 := d.x3 + d2 / T26;
    var d4 := d.x4 + d3 / T26;
    var h0 := d.x0 % T26 + d4 / T26 * 5;
    CarryLinear(d, d.x0 / T26, d.x0 % T26, d1 / T26, d1 % T26, d2 / T26, d2 % T26, d3 / T26, d3 % T26, d4 / T26,
                d4 % T26, h0 / T26, h0 % T26);
    CongWitness(V(Settle(d)), V(d), -(d4 / T26), P);
  }

  lemma SettleBound(d: Five)
    requires 0 <= d.x0 < COL && 0 <= d.x1 < COL && 0 <= d.x2 < COL && 0 <= d.x3 < COL && 0 <= d.x4 < 0x80_0000_0000_0000
    ensures Settled(Settle(d))
  {
    hide Settled;
    var d1 := d.x1 + d.x0 / T26;
    var d2 := d.x2 + d1 / T26;
    var d3 := d.x3 + d2 / T26;
    var d4 := d.x4 + d3 / T26;
    CarryBound(d.x0);
    CarryBound(d1);
    CarryBound(d2);
    CarryBound(d3);
    SettleLast(d.x0 % T26, d1 % T26, d2 % T26, d3 % T26, d4);
  }

  lemma CarryBound(x: int)
    requires 0 <= x < COL + 0x1_0000_0000
    ensures 0 <= x / T26 < 0x1_0000_0000 && 0 <= x % T26 < T26
  {}

  lemma SettleLast(r0: int, r1: int, r2: int, r3: int, d4: int)
    requires 0 <= r0 < T26 && 0 <= r1 < T26 && 0 <= r2 < T26 && 0 <= r3 < T26
    requires 0 <= d4 < 0x80_0000_0000_0000 + 0x1_0000_0000
    ensures var h0 := r0 + d4 / T26 * 5; Settled(Five(h0 % T26, r1 + h0 / T26, r2, r3, d4 % T26))
  {
    assert 0 <= d4 / T26 < 0x2100_0000;
  }

  /* ---- words and limbs ---- */

  /** What is left of one word and the beginning of the next. */
  function Limb1(a: int, t: int): int
  {
    (a + t * 64) % T26
  }

  function Limb2(a: int, t: int): int
  {
    (a + t * 0x1000) % T26
  }

  function Limb3(a: int, t: int): int
  {
    (a + t * 0x4_0000) % T26
  }

  /** Four little-endian words as five limbs. */
  function Split(t0: u32, t1: u32, t2: u32, t3: u32): Five
  {
    Five(t0 % T26, Limb1(t0 / T26, t1), Limb2(t1 / 0x10_0000, t2), Limb3(t2 / 0x4000, t3), t3 / 256)
  }

  const W32: int := 0x1_0000_0000
  const W64: int := 0x1_0000_0000_0000_0000
  const W96: int := 0x1_0000_0000_0000_0000_0000_0000
  const W128: int := 0x1_0000_0000_0000_0000_0000_0000_0000_0000

  lemma Straddle6(a: int, t: nat)
    requires 0 <= a < 64
    ensures Limb1(a, t) == a + t % 0x10_0000 * 64
  {
    var q, u := t / 0x10_0000, t % 0x10_0000;
    DivMod(a + t * 64, T26, q, a + u * 64);
  }

  lemma Straddle12(a: int, t: nat)
    requires 0 <= a < 0x1000
    ensures Limb2(a, t) == a + t % 0x4000 * 0x1000
  {
    var q, u := t / 0x4000, t % 0x4000;
    DivMod(a + t * 0x1000, T26, q, a + u * 0x1000);
  }

  lemma Straddle18(a: int, t: nat)
    requires 0 <= a < 0x4_0000
    ensures Limb3(a, t) == a + t % 256 * 0x4_0000
  {
    var q, u := t / 256, t % 256;
    DivMod(a + t * 0x4_0000, T26, q, a + u * 0x4_0000);
  }

  lemma SplitValue(t0: u32, t1: u32, t2: u32, t3: u32)
    ensures var f := Split(t0, t1, t2, t3);
      && V(f) == t0 + t1 * W32 + t2 * W64 + t3 * W96
      && 0 <= f.x0 < T26 && 0 <= f.x1 < T26 && 0 <= f.x2 < T26 && 0 <= f.x3 < T26 && 0 <= f.x4 < 0x100_0000
  {
    hide Limb1, Limb2, Limb3;
    Straddle6(t0 / T26, t1);
    Straddle12(t1 / 0x10_0000, t2);
    Straddle18(t2 / 0x4000, t3);
  }

  /* ---- the end: full carry, one conditional subtraction, words, pad ---- */

  predicate Small(h: Five)
  {
    0 <= h.x0 < T26 && 0 <= h.x1 < T26 && 0 <= h.x2 < T26 && 0 <= h.x3 < T26 && 0 <= h.x4 < T26
  }

  function Normal(h: Five): Five
  {
    var h2 := h.x2 + h.x1 / T26;
    var h3 := h.x3 + h2 / T26;
    var h4 := h.x4 + h3 / T26;
    var h0 := h.x0 + h4 / T26 * 5;
    Five(h0 % T26, h.x1 % T26 + h0 / T26, h2 % T26, h3 % T26, h4 % T26)
  }

  lemma NormalOk(h: Five)
    requires Settled(h)
    ensures Small(Normal(h)) && Congruent(V(Normal(h)), V(h), P)
  {
    hide V, Settled, Small;
    NormalValue(h);
    var h2 := h.x2 + h.x1 / T26;
    var h3 := h.x3 + h2 / T26;
    var h4 := h.x4 + h3 / T26;
    var h0 := h.x0 + h4 / T26 * 5;
    NormalSmall(h, h.x1 / T26, h2, h2 / T26, h3, h3 / T26, h4, h4 / T26, h0, h0 / T26);
  }

  lemma NormalValue(h: Five)
    ensures Congruent(V(Normal(h)), V(h), P)
  {
    hide V;
    var h2 := h.x2 + h.x1 / T26;
    var h3 := h.x3 + h2 / T26;
    var h4 := h.x4 + h3 / T26;
    var h0 := h.x0 + h4 / T26 * 5;
    CarryLinear(h, 0, h.x0, h.x1 / T26, h.x1 % T26, h2 / T26, h2 % T26, h3 / T26, h3 % T26, h4 / T26, h4 % T26,
                h0 / T26, h0 % T26);
    CongWitness(V(Normal(h)), V(h), -(h4 / T26), P);
  }

  lemma CarryBit(x: int, c: int)
    requires 0 <= x < T26 && 0 <= c <= 1
    ensures 0 <= (x + c) / T26 <= c && 0 <= (x + c) % T26 < T26
  {}

  /** The last carry never fills the second limb: there is one to add only if that limb was just emptied. */
  lemma NormalSmall(h: Five, c1: int, h2: int, c2: int, h3: int, c3: int, h4: int, c4: int, h0: int, c0: int)
    requires Settled(h) && c1 == h.x1 / T26 && h2 == h.x2 + c1 && c2 == h2 / T26 && h3 == h.x3 + c2 && c3 == h3 / T26
    requires h4 == h.x4 + c3 && c4 == h4 / T26 && h0 == h.x0 + c4 * 5 && c0 == h0 / T26
    ensures Small(Five(h0 % T26, h.x1 % T26 + c0, h2 % T26, h3 % T26, h4 % T26))
  {
    CarryBit(h.x2, c1);
    CarryBit(h.x3, c2);
    CarryBit(h.x4, c3);
    assert c1 == 1 ==> h.x1 % T26 < 64;
  }

  /** h - p if that is not negative, else h; the borrow decides. */
  function Reduce(h: Five): Five
  {
    var g0 := h.x0 + 5;
    var g1 := h.x1 + g0 / T26;
    var g2 := h.x2 + g1 / T26;
    var g3 := h.x3 + g2 / T26;
    var g4 := h.x4 + g3 / T26;
    if g4 < T26 then h else Five(g0 % T26, g1 % T26, g2 % T26, g3 % T26, g4 - T26)
  }

  lemma ReduceOk(h: Five)
    requires Small(h)
    ensures Small(Reduce(h)) && V(Reduce(h)) == V(h) % P && 0 <= V(Reduce(h)) < P
  {
    hide V;
    var g0 := h.x0 + 5;
    var g1 := h.x1 + g0 / T26;
    var g2 := h.x2 + g1 / T26;
    var g3 := h.x3 + g2 / T26;
    var g4 := h.x4 + g3 / T26;
    ReduceLinear(h, g0 / T26, g0 % T26, g1 / T26, g1 % T26, g2 / T26, g2 % T26, g3 / T26, g3 % T26, g4);
    SmallRange(h);
    if g4 < T26 {
      SmallRange(Five(g0 % T26, g1 % T26, g2 % T26, g3 % T26, g4));
      DivMod(V(h), P, 0, V(h));
    } else {
      SmallRange(Reduce(h));
      DivMod(V(h), P, 1, V(h) - P);
    }
  }

  lemma ReduceLinear(h: Five, q0: int, r0: int, q1: int, r1: int, q2: int, r2: int, q3: int, r3: int, g4: int)
    requires h.x0 + 5 == q0 * T26 + r0 && h.x1 + q0 == q1 * T26 + r1 && h.x2 + q1 == q2 * T26 + r2
    requires h.x3 + q2 == q3 * T26 + r3 && h.x4 + q3 == g4
    ensures V(Five(r0, r1, r2, r3, g4)) == V(h) + 5 && V(Five(r0, r1, r2, r3, g4 - T26)) == V(h) - P
  {}

  lemma SmallRange(h: Five)
    requires Small(h)
    ensures 0 <= V(h) < T130
  {}

  datatype Four = Four(w0: int, w1: int, w2: int, w3: int)

  function W(f: Four): int
  {
    f.w0 + f.w1 * W32 + f.w2 * W64 + f.w3 * W96
  }

  predicate Words(f: Four)
  {
    0 <= f.w0 < W32 && 0 <= f.w1 < W32 && 0 <= f.w2 < W32 && 0 <= f.w3 < W32
  }

  lemma WordsBound(f: Four)
    requires Words(f)
    ensures 0 <= W(f) < W128
  {}

  function Join(h: Five): Four
  {
    Four((h.x0 + h.x1 * T26) % W32, (h.x1 / 64 + h.x2 * 0x10_0000) % W32, (h.x2 / 0x1000 + h.x3 * 0x4000) % W32,
         (h.x3 / 0x4_0000 + h.x4 * 256) % W32)
  }

  lemma Pack0(a: int, t: nat)
    requires 0 <= a < T26
    ensures (a + t * T26) % W32 == a + t % 64 * T26
  {
    var q, u := t / 64, t % 64;
    DivMod(a + t * T26, W32, q, a + u * T26);
  }

  lemma Pack1(a: int, t: nat)
    requires 0 <= a < 0x10_0000
    ensures (a + t * 0x10_0000) % W32 == a + t % 0x1000 * 0x10_0000
  {
    var q, u := t / 0x1000, t % 0x1000;
    DivMod(a + t * 0x10_0000, W32, q, a + u * 0x10_0000);
  }

  lemma Pack2(a: int, t: nat)
    requires 0 <= a < 0x4000
    ensures (a + t * 0x4000) % W32 == a + t % 0x4_0000 * 0x4000
  {
    var q, u := t / 0x4_0000, t % 0x4_0000;
    DivMod(a + t * 0x4000, W32, q, a + u * 0x4000);
  }

  lemma Pack3(a: int, t: nat)
    requires 0 <= a < 256
    ensures (a + t * 256) % W32 == a + t % 0x100_0000 * 256
  {
    var q, u := t / 0x100_0000, t % 0x100_0000;
    DivMod(a + t * 256, W32, q, a + u * 256);
  }

  lemma JoinValue(h: Five)
    requires Small(h)
    ensures Words(Join(h)) && W(Join(h)) == V(h) % W128
  {
    hide V, W, Words, Join;
    JoinExact(h);
    SumOfWords(V(h), h.x4 / 0x100_0000, Join(h));
  }

  lemma JoinExact(h: Five)
    requires Small(h)
    ensures Words(Join(h)) && V(h) == h.x4 / 0x100_0000 * W128 + W(Join(h))
  {
    Pack0(h.x0, h.x1);
    Pack1(h.x1 / 64, h.x2);
    Pack2(h.x2 / 0x1000, h.x3);
    Pack3(h.x3 / 0x4_0000, h.x4);
  }

  function AddWords(a: Four, b: Four): Four
  {
    var f0 := a.w0 + b.w0;
    var f1 := a.w1 + b.w1 + f0 / W32;
    var f2 := a.w2 + b.w2 + f1 / W32;
    var f3 := a.w3 + b.w3 + f2 / W32;
    Four(f0 % W32, f1 % W32, f2 % W32, f3 % W32)
  }

  lemma AddWordsValue(a: Four, b: Four)
    requires Words(a) && Words(b)
    ensures Words(AddWords(a, b)) && W(AddWords(a, b)) == (W(a) + W(b)) % W128
  {
    hide W, AddWords;
    var q := AddCarries(a, b);
    SumOfWords(W(a) + W(b), q, AddWords(a, b));
  }

  /** Whatever is carried out of the top word. */
  lemma AddCarries(a: Four, b: Four) returns (q: int)
    ensures Words(AddWords(a, b)) && W(a) + W(b) == q * W128 + W(AddWords(a, b))
  {
    hide W;
    var f0 := a.w0 + b.w0;
    var f1 := a.w1 + b.w1 + f0 / W32;
    var f2 := a.w2 + b.w2 + f1 / W32;
    var f3 := a.w3 + b.w3 + f2 / W32;
    q := f3 / W32;
    AddLinear(a, b, f0 / W32, f0 % W32, f1 / W32, f1 % W32, f2 / W32, f2 % W32, f3 / W32, f3 % W32);
  }

  lemma SumOfWords(x: int, q: int, s: Four)
    requires Words(s) && x == q * W128 + W(s)
    ensures W(s) == x % W128
  {
    hide W;
    WordsBound(s);
    DivMod(x, W128, q, W(s));
  }

  lemma AddLinear(a: Four, b: Four, q0: int, r0: int, q1: int, r1: int, q2: int, r2: int, q3: int, r3: int)
    requires a.w0 + b.w0 == q0 * W32 + r0 && a.w1 + b.w1 + q0 == q1 * W32 + r1 && a.w2 + b.w2 + q1 == q2 * W32 + r2
    requires a.w3 + b.w3 + q2 == q3 * W32 + r3
    ensures W(a) + W(b) == q3 * W128 + W(Four(r0, r1, r2, r3))
  {}

  /* ---- the key's clamp ---- */

  /** A word without its top four bits and its bottom two. */
  function Clear(w: int): int
  {
    w % 0x1000_0000 / 4 * 4
  }

  /** The key words with the bits RFC 8439 section 2.5 clears. */
  function ClampWords(t: Four): Four
  {
    Four(t.w0 % 0x1000_0000, Clear(t.w1), Clear(t.w2), Clear(t.w3))
  }

  /* The masks 0x3ffff03, 0x3ffc0ff and 0x3f03fff, field by field. */

  function Mask1(x: int): int
  {
    x % 4 + x / 256 % 0x4_0000 * 256
  }

  function Mask2(x: int): int
  {
    x % 256 + x / 0x4000 % 0x1000 * 0x4000
  }

  function Mask3(x: int): int
  {
    x % 0x4000 + x / 0x10_0000 % 64 * 0x10_0000
  }

  /** Those masks on the middle limbs, and 0xfffff on the top one. */
  function MaskLimbs(f: Five): Five
  {
    Five(f.x0, Mask1(f.x1), Mask2(f.x2), Mask3(f.x3), f.x4 % 0x10_0000)
  }

  lemma ClampOk(t: Four)
    requires Words(t)
    ensures var r := MaskLimbs(Split(t.w0, t.w1, t.w2, t.w3)); Clamped(r) && V(r) == W(ClampWords(t))
  {
    hide V, Split, MaskLimbs;
    var k := ClampWords(t);
    SplitValue(k.w0, k.w1, k.w2, k.w3);
    MaskedSplit(t);
    MaskedTop(t);
  }

  lemma MaskedSplit(t: Four)
    requires Words(t)
    ensures var k := ClampWords(t);
      Words(k) && MaskLimbs(Split(t.w0, t.w1, t.w2, t.w3)) == Split(k.w0, k.w1, k.w2, k.w3)
  {
    hide Limb1, Limb2, Limb3, Mask1, Mask2, Mask3, Clear;
    ClearWord(t.w1);
    ClearWord(t.w2);
    ClearWord(t.w3);
    Mod28(t.w0);
    MaskedLimb1(t.w0, t.w1);
    MaskedLimb2(t.w1, t.w2);
    MaskedLimb3(t.w2, t.w3);
    MaskedLimb4(t.w3);
  }

  lemma MaskedTop(t: Four)
    requires Words(t)
    ensures 0 <= MaskLimbs(Split(t.w0, t.w1, t.w2, t.w3)).x4 < 0x10_0000
  {
    hide Limb1, Limb2, Limb3, Mask1, Mask2, Mask3;
  }

  lemma ClearWord(w: u32)
    ensures 0 <= Clear(w) < 0x1000_0000
  {}

  lemma Mod28(a: u32)
    ensures a % 0x1000_0000 % T26 == a % T26 && a % 0x1000_0000 / T26 == a / T26 % 4
  {
    var q, r := a / T26, a % T26;
    DivMod(a, 0x1000_0000, q / 4, q % 4 * T26 + r);
    DivMod(q % 4 * T26 + r, T26, q % 4, r);
  }

  /* The middle of a clamped word: bits 2 to 27 stay where they are. */

  lemma Mid20(b: u32)
    ensures Clear(b) % 0x10_0000 == b % 0x10_0000 / 4 * 4 && Clear(b) / 0x10_0000 == b / 0x10_0000 % 256
  {
    var lo, m := b / 0x10_0000, b % 0x10_0000;
    var ll := lo % 256;
    DivMod(b, 0x1000_0000, lo / 256, ll * 0x10_0000 + m);
    DivMod(ll * 0x10_0000 + m, 4, ll * (0x10_0000 / 4) + m / 4, m % 4);
    DivMod(ll * 0x10_0000 + m / 4 * 4, 0x10_0000, ll, m / 4 * 4);
  }

  lemma Mid14(b: u32)
    ensures Clear(b) % 0x4000 == b % 0x4000 / 4 * 4 && Clear(b) / 0x4000 == b / 0x4000 % 0x4000
  {
    var lo, m := b / 0x4000, b % 0x4000;
    var ll := lo % 0x4000;
    DivMod(b, 0x1000_0000, lo / 0x4000, ll * 0x4000 + m);
    DivMod(ll * 0x4000 + m, 4, ll * (0x4000 / 4) + m / 4, m % 4);
    DivMod(ll * 0x4000 + m / 4 * 4, 0x4000, ll, m / 4 * 4);
  }

  lemma Mid8(b: u32)
    ensures Clear(b) % 256 == b % 256 / 4 * 4 && Clear(b) / 256 == b / 256 % 0x10_0000
  {
    var lo, m := b / 256, b % 256;
    var ll := lo % 0x10_0000;
    DivMod(b, 0x1000_0000, lo / 0x10_0000, ll * 256 + m);
    DivMod(ll * 256 + m, 4, ll * (256 / 4) + m / 4, m % 4);
    DivMod(ll * 256 + m / 4 * 4, 256, ll, m / 4 * 4);
  }

  /* Each mask keeps what the clamp keeps: q of the word below and m of the word above. */

  lemma MaskFields1(q: int, m: int)
    requires 0 <= q < 64 && 0 <= m < 0x10_0000
    ensures Mask1(q + m * 64) == q % 4 + m / 4 * 256
  {
    var x := q + m * 64;
    DivMod(x, 256, m / 4, q + m % 4 * 64);
    DivMod(x, 4, m * 16 + q / 4, q % 4);
  }

  lemma MaskFields2(q: int, m: int)
    requires 0 <= q < 0x1000 && 0 <= m < 0x4000
    ensures Mask2(q + m * 0x1000) == q % 256 + m / 4 * 0x4000
  {
    var x := q + m * 0x1000;
    DivMod(x, 256, m * 16 + q / 256, q % 256);
    DivMod(x, 0x4000, m / 4, q + m % 4 * 0x1000);
  }

  lemma MaskFields3(q: int, m: int)
    requires 0 <= q < 0x4_0000 && 0 <= m < 256
    ensures Mask3(q + m * 0x4_0000) == q % 0x4000 + m / 4 * 0x10_0000
  {
    var x := q + m * 0x4_0000;
    DivMod(x, 0x4000, m * 16 + q / 0x4000, q % 0x4000);
    DivMod(x, 0x10_0000, m / 4, q + m % 4 * 0x4_0000);
  }

  lemma MaskedLimb1(a: u32, b: u32)
    ensures Mask1(Limb1(a / T26, b)) == Limb1(a % 0x1000_0000 / T26, Clear(b))
  {
    hide Limb1, Mask1, Clear;
    ClearWord(b);
    Mod28(a);
    Mid20(b);
    Straddle6(a / T26, b);
    Straddle6(a / T26 % 4, Clear(b));
    MaskFields1(a / T26, b % 0x10_0000);
  }

  lemma MaskedLimb2(a: u32, b: u32)
    ensures Mask2(Limb2(a / 0x10_0000, b)) == Limb2(Clear(a) / 0x10_0000, Clear(b))
  {
    hide Limb2, Mask2, Clear;
    ClearWord(b);
    Mid20(a);
    Mid14(b);
    Straddle12(a / 0x10_0000, b);
    Straddle12(a / 0x10_0000 % 256, Clear(b));
    MaskFields2(a / 0x10_0000, b % 0x4000);
  }

  lemma MaskedLimb3(a: u32, b: u32)
    ensures Mask3(Limb3(a / 0x4000, b)) == Limb3(Clear(a) / 0x4000, Clear(b))
  {
    hide Limb3, Mask3, Clear;
    ClearWord(b);
    Mid14(a);
    Mid8(b);
    Straddle18(a / 0x4000, b);
    Straddle18(a / 0x4000 % 0x4000, Clear(b));
    MaskFields3(a / 0x4000, b % 256);
  }

  lemma MaskedLimb4(b: u32)
    ensures b / 256 % 0x10_0000 == Clear(b) / 256
  {
    Mid8(b);
  }
}
