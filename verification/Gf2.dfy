/** Polynomials over the field of two elements, as the sets of their exponents. */
module Gf2 {
  type Poly = set<nat>

  function Add(p: Poly, q: Poly): Poly
  {
    (p - q) + (q - p)
  }

  /** p times x to the k. */
  function Shift(p: Poly, k: nat): Poly
  {
    set e | e in p :: e + k
  }

  /** g times the part of q below x to the n. */
  function Times(g: Poly, q: Poly, n: nat): Poly
  {
    if n == 0 then {} else if n - 1 in q then Add(Times(g, q, n - 1), Shift(g, n - 1)) else Times(g, q, n - 1)
  }

  ghost predicate Multiple(g: Poly, p: Poly)
  {
    exists q: Poly, n: nat :: p == Times(g, q, n)
  }

  ghost predicate Congruent(g: Poly, p: Poly, r: Poly)
  {
    Multiple(g, Add(p, r))
  }

  ghost predicate Below(p: Poly, n: nat)
  {
    forall e | e in p :: e < n
  }

  lemma InShift(p: Poly, k: nat, e: nat)
    ensures e in Shift(p, k) <==> e >= k && e - k in p
  {
    if e >= k && e - k in p {
      assert (e - k) + k in Shift(p, k);
    }
  }

  lemma ShiftAdd(p: Poly, q: Poly, k: nat)
    ensures Shift(Add(p, q), k) == Add(Shift(p, k), Shift(q, k))
  {
    forall e: nat
      ensures e in Shift(Add(p, q), k) <==> e in Add(Shift(p, k), Shift(q, k))
    {
      InShift(Add(p, q), k, e);
      InShift(p, k, e);
      InShift(q, k, e);
    }
  }

  lemma ShiftBelow(p: Poly, n: nat, k: nat)
    requires Below(p, n)
    ensures Below(Shift(p, k), n + k)
  {}

  lemma ShiftShift(p: Poly, j: nat, k: nat)
    ensures Shift(Shift(p, j), k) == Shift(p, j + k)
  {
    forall e: nat
      ensures e in Shift(Shift(p, j), k) <==> e in Shift(p, j + k)
    {
      InShift(Shift(p, j), k, e);
      InShift(p, j + k, e);
      if e >= k {
        InShift(p, j, e - k);
      }
    }
  }

  lemma ShiftZero(p: Poly)
    ensures Shift(p, 0) == p
  {
    forall e: nat
      ensures e in Shift(p, 0) <==> e in p
    {
      InShift(p, 0, e);
    }
  }

  lemma ShiftOne(e: nat, k: nat)
    ensures Shift({e}, k) == {e + k} && Shift({}, k) == {}
  {
    forall x: nat
      ensures x in Shift({e}, k) <==> x == e + k
    {
      InShift({e}, k, x);
    }
  }

  /* ---- multiples ---- */

  lemma {:induction false} TimesAdd(g: Poly, q: Poly, r: Poly, n: nat)
    ensures Add(Times(g, q, n), Times(g, r, n)) == Times(g, Add(q, r), n)
  {
    if n > 0 {
      TimesAdd(g, q, r, n - 1);
    }
  }

  /** The part of q below x to the n. */
  function Cut(q: Poly, n: nat): Poly
  {
    set e | e in q && e < n
  }

  lemma {:induction false} TimesGrow(g: Poly, q: Poly, n: nat, m: nat)
    requires n <= m
    ensures Times(g, Cut(q, n), m) == Times(g, q, n)
    decreases m
  {
    if n < m {
      TimesGrow(g, q, n, m - 1);
    } else {
      TimesSame(g, Cut(q, n), q, n);
    }
  }

  lemma {:induction false} TimesSame(g: Poly, q: Poly, r: Poly, n: nat)
    requires forall e: nat | e < n :: e in q <==> e in r
    ensures Times(g, q, n) == Times(g, r, n)
  {
    if n > 0 {
      TimesSame(g, q, r, n - 1);
    }
  }

  lemma {:induction false} TimesShift(g: Poly, q: Poly, n: nat, k: nat)
    ensures Shift(Times(g, q, n), k) == Times(g, Shift(q, k), n + k)
    decreases n + k
  {
    hide Shift, Add;
    if n > 0 {
      TimesShift(g, q, n - 1, k);
      InShift(q, k, n + k - 1);
      if n - 1 in q {
        ShiftAdd(Times(g, q, n - 1), Shift(g, n - 1), k);
        ShiftShift(g, n - 1, k);
      }
    } else {
      ShiftOne(0, k);
      forall e: nat | e < k
        ensures e !in Shift(q, k)
      {
        InShift(q, k, e);
      }
      LowTimes(g, Shift(q, k), k);
    }
  }

  lemma {:induction false} LowTimes(g: Poly, q: Poly, n: nat)
    ensures (forall e: nat | e < n :: e !in q) ==> Times(g, q, n) == {}
  {
    if n > 0 {
      LowTimes(g, q, n - 1);
    }
  }

  lemma MultipleAdd(g: Poly, p: Poly, r: Poly)
    requires Multiple(g, p) && Multiple(g, r)
    ensures Multiple(g, Add(p, r))
  {
    var q, n: nat :| p == Times(g, q, n);
    var s, m: nat :| r == Times(g, s, m);
    var top := if n < m then m else n;
    TimesGrow(g, q, n, top);
    TimesGrow(g, s, m, top);
    TimesAdd(g, Cut(q, n), Cut(s, m), top);
  }

  lemma MultipleShift(g: Poly, p: Poly, k: nat)
    requires Multiple(g, p)
    ensures Multiple(g, Shift(p, k))
  {
    var q, n: nat :| p == Times(g, q, n);
    TimesShift(g, q, n, k);
  }

  lemma MultipleSelf(g: Poly)
    ensures Multiple(g, g) && Multiple(g, {})
  {
    assert Times(g, {0}, 1) == Add(Times(g, {0}, 0), Shift(g, 0));
    ShiftZero(g);
    assert Times(g, {0}, 1) == g;
    assert Times(g, {}, 0) == {};
  }

  lemma CongruentTrans(g: Poly, p: Poly, q: Poly, r: Poly)
    requires Congruent(g, p, q) && Congruent(g, q, r)
    ensures Congruent(g, p, r)
  {
    MultipleAdd(g, Add(p, q), Add(q, r));
    assert Add(Add(p, q), Add(q, r)) == Add(p, r);
  }

  /* ---- a remainder is unique ---- */

  /** A multiple of a polynomial of degree n is zero or has degree n at least. */
  lemma {:induction false} TimesHigh(g: Poly, q: Poly, n: nat, m: nat)
    requires n in g && Below(g, n + 1)
    ensures Below(Times(g, q, m), n + m)
    ensures Times(g, q, m) == {} || exists e :: e in Times(g, q, m) && e >= n
  {
    if m > 0 {
      TimesHigh(g, q, n, m - 1);
      if m - 1 in q {
        ShiftBelow(g, n + 1, m - 1);
        InShift(g, m - 1, n + m - 1);
        assert n + m - 1 in Times(g, q, m);
      }
    }
  }

  /** Two remainders of the same polynomial are equal. */
  lemma RemainderUnique(g: Poly, n: nat, p: Poly, r: Poly, s: Poly)
    requires n in g && Below(g, n + 1) && Below(r, n) && Below(s, n)
    requires Congruent(g, p, r) && Congruent(g, p, s)
    ensures r == s
  {
    MultipleAdd(g, Add(p, r), Add(p, s));
    assert Add(Add(p, r), Add(p, s)) == Add(r, s);
    var q, m: nat :| Add(r, s) == Times(g, q, m);
    TimesHigh(g, q, n, m);
    assert Add(r, s) == {};
    forall e: nat
      ensures e in r <==> e in s
    {
      assert e !in Add(r, s);
    }
  }
}
