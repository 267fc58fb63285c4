/** The scalar loops of the curve code over an abstract commutative group: the point formulas are the
    group's addition, doubling is adding a point to itself, and infinity is its zero. */
module ScalarMul {
  import opened Limbs
  import opened Bits

  datatype Group<!T(!new)> = Group(zero: T, add: (T, T) -> T)

  ghost predicate Commutative<T(!new)>(g: Group<T>)
  {
    && (forall x :: g.add(g.zero, x) == x)
    && (forall x, y :: g.add(x, y) == g.add(y, x))
    && (forall x, y, z :: g.add(g.add(x, y), z) == g.add(x, g.add(y, z)))
  }

  ghost function Scale<T(!new)>(g: Group<T>, n: nat, x: T): T
  {
    if n == 0 then g.zero else g.add(x, Scale(g, n - 1, x))
  }

  lemma {:induction false} ScaleAdd<T(!new)>(g: Group<T>, i: nat, j: nat, x: T)
    requires Commutative(g)
    ensures Scale(g, i + j, x) == g.add(Scale(g, i, x), Scale(g, j, x))
  {
    if i > 0 {
      ScaleAdd(g, i - 1, j, x);
      assert i + j - 1 == i - 1 + j;
    }
  }

  lemma ScaleOne<T(!new)>(g: Group<T>, x: T)
    requires Commutative(g)
    ensures Scale(g, 1, x) == x && Scale(g, 0, x) == g.zero && g.add(x, g.zero) == x
  {
    assert Scale(g, 1, x) == g.add(x, Scale(g, 0, x));
  }

  /** Doubling and adding the bit shifts one more bit into the multiple. */
  lemma ScaleBit<T(!new)>(g: Group<T>, n: nat, x: T)
    requires Commutative(g)
    ensures g.add(Scale(g, n, x), Scale(g, n, x)) == Scale(g, 2 * n, x)
    ensures g.add(Scale(g, 2 * n, x), x) == Scale(g, 2 * n + 1, x)
  {
    ScaleAdd(g, n, n, x);
    assert n + n == 2 * n;
    ScaleOne(g, x);
    ScaleAdd(g, 2 * n, 1, x);
  }

  lemma Swap<T(!new)>(g: Group<T>, a: T, b: T, c: T, d: T)
    requires Commutative(g)
    ensures g.add(g.add(a, b), g.add(c, d)) == g.add(g.add(a, c), g.add(b, d))
  {
    calc {
      g.add(g.add(a, b), g.add(c, d));
      g.add(a, g.add(b, g.add(c, d)));
      g.add(a, g.add(g.add(b, c), d));
      g.add(a, g.add(g.add(c, b), d));
      g.add(a, g.add(c, g.add(b, d)));
      g.add(g.add(a, c), g.add(b, d));
    }
  }

  /** n * p + k * q. */
  ghost function Pair<T(!new)>(g: Group<T>, n: nat, p: T, k: nat, q: T): T
  {
    g.add(Scale(g, n, p), Scale(g, k, q))
  }

  lemma PairAdd<T(!new)>(g: Group<T>, n: nat, n': nat, p: T, k: nat, k': nat, q: T)
    requires Commutative(g)
    ensures g.add(Pair(g, n, p, k, q), Pair(g, n', p, k', q)) == Pair(g, n + n', p, k + k', q)
  {
    ScaleAdd(g, n, n', p);
    ScaleAdd(g, k, k', q);
    Swap(g, Scale(g, n, p), Scale(g, k, q), Scale(g, n', p), Scale(g, k', q));
  }

  /** k * q, most significant bit first, for a scalar of any length. */
  method EcMul<T(!new)>(g: Group<T>, k: seq<byte>, q: T) returns (o: T)
    requires Commutative(g)
    ensures o == Scale(g, BeVal(k), q)
  {
    hide Scan, Bit, BeVal, Scale, Commutative;
    var acc, started := g.zero, false;
    ScanStart(k);
    ScaleOne(g, q);
    for i := 0 to |k|
      invariant !started ==> Scan(k, 8 * i) == 0
      invariant acc == Scale(g, Scan(k, 8 * i), q)
    {
      var j := 0;
      while j < 8
        invariant 0 <= j <= 8
        invariant !started ==> Scan(k, 8 * i + j) == 0
        invariant acc == Scale(g, Scan(k, 8 * i + j), q)
      {
        ScanNext(k, i, j);
        ScaleBit(g, Scan(k, 8 * i + j), q);
        ScaleOne(g, q);
        if started {
          acc := g.add(acc, acc);
        }
        if Bit(k[i], 7 - j) != 0 {
          if started {
            acc := g.add(acc, q);
          } else {
            acc := q;
            started := true;
          }
        }
        j := j + 1;
      }
    }
    ScanAll(k);
    o := acc;
  }

  lemma ScanStart(s: seq<byte>)
    ensures Scan(s, 0) == 0
  {}

  /** The four precomputed combinations are the four two-bit pairs. */
  lemma Table<T(!new)>(g: Group<T>, p: T, q: T)
    requires Commutative(g)
    ensures Pair(g, 0, p, 0, q) == g.zero && Pair(g, 1, p, 0, q) == p
    ensures Pair(g, 0, p, 1, q) == q && Pair(g, 1, p, 1, q) == g.add(p, q)
  {
    ScaleOne(g, p);
    ScaleOne(g, q);
    ScaleOne(g, g.zero);
  }

  /** u1 * p + u2 * q by Shamir's trick: one pass over both scalars. */
  method EcDoubleScalarMul<T(!new)>(g: Group<T>, u1: seq<byte>, p: T, u2: seq<byte>, q: T) returns (o: T)
    requires Commutative(g) && |u1| == |u2|
    ensures o == g.add(Scale(g, BeVal(u1), p), Scale(g, BeVal(u2), q))
  {
    hide Scan, Bit, BeVal, Scale, Pair, Commutative;
    var tab := [g.zero, p, q, g.add(p, q)];
    var acc, started := tab[0], false;
    Table(g, p, q);
    ScanStart(u1);
    ScanStart(u2);
    for i := 0 to |u1|
      invariant !started ==> Scan(u1, 8 * i) == 0 && Scan(u2, 8 * i) == 0
      invariant acc == Pair(g, Scan(u1, 8 * i), p, Scan(u2, 8 * i), q)
    {
      var j := 0;
      while j < 8
        invariant 0 <= j <= 8
        invariant !started ==> Scan(u1, 8 * i + j) == 0 && Scan(u2, 8 * i + j) == 0
        invariant acc == Pair(g, Scan(u1, 8 * i + j), p, Scan(u2, 8 * i + j), q)
      {
        ghost var n, k := Scan(u1, 8 * i + j), Scan(u2, 8 * i + j);
        ScanNext(u1, i, j);
        ScanNext(u2, i, j);
        var b1, b2 := Bit(u1[i], 7 - j), Bit(u2[i], 7 - j);
        PairAdd(g, n, n, p, k, k, q);
        PairAdd(g, 2 * n, b1, p, 2 * k, b2, q);
        assert n + n == 2 * n && k + k == 2 * k;
        if started {
          acc := g.add(acc, acc);
        }
        var idx := b1 + 2 * b2;
        assert tab[idx] == Pair(g, b1, p, b2, q);
        if idx != 0 {
          if started {
            acc := g.add(acc, tab[idx]);
          } else {
            acc := tab[idx];
            started := true;
          }
        }
        j := j + 1;
      }
    }
    ScanAll(u1);
    ScanAll(u2);
    assert acc == Pair(g, BeVal(u1), p, BeVal(u2), q);
    PairDef(g, BeVal(u1), p, BeVal(u2), q);
    o := acc;
  }

  lemma PairDef<T(!new)>(g: Group<T>, n: nat, p: T, k: nat, q: T)
    ensures Pair(g, n, p, k, q) == g.add(Scale(g, n, p), Scale(g, k, q))
  {}
}
