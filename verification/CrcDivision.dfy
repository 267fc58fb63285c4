/** Division of a message by a polynomial one bit at a time, for a register of any width and any generator. */
module CrcDivision {
  import opened Gf2

  type Bits = seq<bool>

  /** One bit into the register: bit i holds the coefficient of x to the i, and g the generator below its
      leading term. */
  function Step(g: Bits, r: Bits, b: bool): (s: Bits)
    requires |g| == |r| > 0
    ensures |s| == |r|
  {
    var f := r[|r| - 1] != b;
    seq(|r|, i requires 0 <= i < |r| => (i > 0 && r[i - 1]) != (f && g[i]))
  }

  function Feed(g: Bits, r: Bits, m: Bits): (s: Bits)
    requires |g| == |r| > 0
    ensures |s| == |r|
    decreases |m|
  {
    if m == [] then r else Feed(g, Step(g, r, m[0]), m[1..])
  }

  function Xor(a: Bits, b: Bits): Bits
    requires |a| == |b|
  {
    seq(|a|, i requires 0 <= i < |a| => a[i] != b[i])
  }

  function Zeros(n: nat): Bits
  {
    seq(n, i => false)
  }

  /** Feeding two messages one after the other is feeding their concatenation. */
  lemma {:induction false} FeedAppend(g: Bits, r: Bits, m: Bits, k: Bits)
    requires |g| == |r| > 0
    ensures Feed(g, r, m + k) == Feed(g, Feed(g, r, m), k)
    decreases |m|
  {
    if m == [] {
      assert m + k == k;
    } else {
      assert (m + k)[1..] == m[1..] + k;
      FeedAppend(g, Step(g, r, m[0]), m[1..], k);
    }
  }

  /* ---- linearity ---- */

  lemma XorConcat(a: Bits, b: Bits, c: Bits, d: Bits)
    requires |a| == |c| && |b| == |d|
    ensures Xor(a + b, c + d) == Xor(a, c) + Xor(b, d)
  {}

  lemma StepLinear(g: Bits, r: Bits, s: Bits, a: bool, b: bool)
    requires |g| == |r| == |s| > 0
    ensures Step(g, Xor(r, s), a != b) == Xor(Step(g, r, a), Step(g, s, b))
  {}

  /** The register of a sum of messages is the sum of their registers. */
  lemma {:induction false} FeedLinear(g: Bits, r: Bits, s: Bits, m: Bits, k: Bits)
    requires |g| == |r| == |s| > 0 && |m| == |k|
    ensures Feed(g, Xor(r, s), Xor(m, k)) == Xor(Feed(g, r, m), Feed(g, s, k))
    decreases |m|
  {
    if m != [] {
      StepLinear(g, r, s, m[0], k[0]);
      assert Xor(m, k)[1..] == Xor(m[1..], k[1..]);
      FeedLinear(g, Step(g, r, m[0]), Step(g, s, k[0]), m[1..], k[1..]);
    }
  }

  /* ---- no two registers merge ---- */

  lemma StepInjective(g: Bits, r: Bits, s: Bits, b: bool)
    requires |g| == |r| == |s| > 0 && g[0] && Step(g, r, b) == Step(g, s, b)
    ensures r == s
  {
    var n := |r|;
    assert Step(g, r, b)[0] == (r[n - 1] != b);
    assert Step(g, s, b)[0] == (s[n - 1] != b);
    forall i | 0 <= i < n - 1
      ensures r[i] == s[i]
    {
      assert Step(g, r, b)[i + 1] == Step(g, s, b)[i + 1];
    }
  }

  lemma {:induction false} FeedInjective(g: Bits, r: Bits, s: Bits, m: Bits)
    requires |g| == |r| == |s| > 0 && g[0] && Feed(g, r, m) == Feed(g, s, m)
    ensures r == s
    decreases |m|
  {
    if m != [] {
      FeedInjective(g, Step(g, r, m[0]), Step(g, s, m[0]), m[1..]);
      StepInjective(g, r, s, m[0]);
    }
  }

  /* ---- bursts ---- */

  /** The message xored into the register from the top. */
  function Mix(r: Bits, m: Bits): (s: Bits)
    requires |m| <= |r|
    ensures |s| == |r|
  {
    seq(|r|, i requires 0 <= i < |r| => r[i] != (|r| - 1 - i < |m| && m[|r| - 1 - i]))
  }

  lemma MixStep(g: Bits, r: Bits, m: Bits)
    requires |g| == |r| > 0 && 0 < |m| <= |r|
    ensures Step(g, Mix(r, m), false) == Mix(Step(g, r, m[0]), m[1..])
  {
    var n := |r|;
    var a, b := Step(g, Mix(r, m), false), Mix(Step(g, r, m[0]), m[1..]);
    forall i | 0 <= i < n
      ensures a[i] == b[i]
    {
      assert Mix(r, m)[n - 1] == (r[n - 1] != m[0]);
      if i > 0 {
        assert Mix(r, m)[i - 1] == (r[i - 1] != (n - i < |m| && m[n - i]));
      }
    }
  }

  lemma {:induction false} MixFeed(g: Bits, r: Bits, m: Bits)
    requires |g| == |r| > 0 && |m| <= |r|
    ensures Feed(g, r, m) == Feed(g, Mix(r, m), Zeros(|m|))
    decreases |m|
  {
    if m == [] {
      assert Mix(r, m) == r;
    } else {
      MixStep(g, r, m);
      MixFeed(g, Step(g, r, m[0]), m[1..]);
      assert Zeros(|m|)[1..] == Zeros(|m| - 1);
    }
  }

  lemma MixInjective(r: Bits, m: Bits, k: Bits)
    requires |m| == |k| <= |r| && Mix(r, m) == Mix(r, k)
    ensures m == k
  {
    forall j | 0 <= j < |m|
      ensures m[j] == k[j]
    {
      var i := |r| - 1 - j;
      assert Mix(r, m)[i] == (r[i] != m[j]) && Mix(r, k)[i] == (r[i] != k[j]);
    }
  }

  /** Two messages alike outside a run of bits no longer than the register never leave the same register. */
  lemma BurstDetected(g: Bits, r: Bits, before: Bits, m: Bits, k: Bits, after: Bits)
    requires |g| == |r| > 0 && g[0] && |m| == |k| <= |r|
    ensures Feed(g, r, before + m + after) == Feed(g, r, before + k + after) <==> m == k
  {
    if Feed(g, r, before + m + after) == Feed(g, r, before + k + after) {
      FeedAppend(g, r, before + m, after);
      FeedAppend(g, r, before + k, after);
      FeedInjective(g, Feed(g, r, before + m), Feed(g, r, before + k), after);
      FeedAppend(g, r, before, m);
      FeedAppend(g, r, before, k);
      var c := Feed(g, r, before);
      MixFeed(g, c, m);
      MixFeed(g, c, k);
      FeedInjective(g, Mix(c, m), Mix(c, k), Zeros(|m|));
      MixInjective(c, m, k);
    }
  }

  /** A message as long as the register leaves it as t would be left by as many zeros, if and only if t is their sum. */
  lemma Residue(g: Bits, r: Bits, m: Bits, t: Bits)
    requires |g| == |r| == |m| == |t| > 0 && g[0]
    ensures Feed(g, r, m) == Feed(g, t, Zeros(|m|)) <==> Xor(r, Backwards(m)) == t
  {
    hide Feed, Mix, Xor, Backwards, Zeros;
    MixFeed(g, r, m);
    MixWhole(r, m);
    if Feed(g, r, m) == Feed(g, t, Zeros(|m|)) {
      FeedInjective(g, Mix(r, m), t, Zeros(|m|));
    }
  }

  lemma MixWhole(r: Bits, m: Bits)
    requires |r| == |m|
    ensures Mix(r, m) == Xor(r, Backwards(m))
  {}

  function Backwards(m: Bits): (b: Bits)
    ensures |b| == |m|
  {
    seq(|m|, i requires 0 <= i < |m| => m[|m| - 1 - i])
  }

  /* ---- several bits at a time ---- */

  /** The register moved up k places, what falls off the top dropped. */
  function UpBy(r: Bits, k: nat): (s: Bits)
    ensures |s| == |r|
  {
    seq(|r|, i requires 0 <= i < |r| => i >= k && r[i - k])
  }

  /** Only the k bits at the top. */
  function Top(r: Bits, k: nat): (s: Bits)
    ensures |s| == |r|
  {
    seq(|r|, i requires 0 <= i < |r| => i >= |r| - k && r[i])
  }

  function Bottom(r: Bits, k: nat): (s: Bits)
    ensures |s| == |r|
  {
    seq(|r|, i requires 0 <= i < |r| => i < |r| - k && r[i])
  }

  /** One step is a shift up, and the generator added when a bit falls out. */
  lemma StepUp(g: Bits, r: Bits, b: bool)
    requires |g| == |r| > 0
    ensures Step(g, r, b) == if r[|r| - 1] != b then Xor(UpBy(r, 1), g) else UpBy(r, 1)
  {}

  /** Nothing is fed back while the bits reaching the top are zero. */
  lemma {:induction false} QuietFeed(g: Bits, r: Bits, k: nat)
    requires |g| == |r| > 0 && k <= |r| && forall i | |r| - k <= i < |r| :: !r[i]
    ensures Feed(g, r, Zeros(k)) == UpBy(r, k)
    decreases k
  {
    if k == 0 {
      assert UpBy(r, 0) == r;
    } else {
      var s := Step(g, r, false);
      assert s == UpBy(r, 1);
      QuietFeed(g, s, k - 1);
      assert Zeros(k)[1..] == Zeros(k - 1);
      assert UpBy(s, k - 1) == UpBy(r, k);
    }
  }

  /** The message reaches only the top of the register. */
  lemma Halves(r: Bits, m: Bits)
    requires |m| <= |r|
    ensures Mix(r, m) == Xor(Bottom(r, |m|), Top(Mix(r, m), |m|)) && UpBy(Bottom(r, |m|), |m|) == UpBy(r, |m|)
  {}

  lemma ZerosXor(k: nat)
    ensures Xor(Zeros(k), Zeros(k)) == Zeros(k)
  {}

  /** The table method: what k bits do to the register depends, but for a shift, on its top k bits alone. */
  lemma TableStep(g: Bits, r: Bits, m: Bits)
    requires |g| == |r| > 0 && |m| <= |r|
    ensures Feed(g, r, m) == Xor(UpBy(r, |m|), Feed(g, Top(Mix(r, m), |m|), Zeros(|m|)))
  {
    hide Feed, Xor, Mix, Top, UpBy, Zeros;
    var k := |m|;
    var top, low := Top(Mix(r, m), k), Bottom(r, k);
    MixFeed(g, r, m);
    Halves(r, m);
    ZerosXor(k);
    ZerosLength(k);
    FeedLinear(g, low, top, Zeros(k), Zeros(k));
    QuietFeed(g, low, k);
  }

  lemma ZerosLength(k: nat)
    ensures |Zeros(k)| == k
  {}

  /* ---- the remainder ---- */

  function RegisterPoly(r: Bits): Poly
  {
    set i | 0 <= i < |r| && r[i]
  }

  /** The first bit fed has the highest power. */
  function MessagePoly(m: Bits): Poly
  {
    RegisterPoly(Backwards(m))
  }

  function Generator(g: Bits): Poly
  {
    RegisterPoly(g) + {|g|}
  }

  function Term(b: bool, e: nat): Poly
  {
    if b then {e} else {}
  }

  lemma StepCongruent(g: Bits, r: Bits, b: bool)
    requires |g| == |r| > 0
    ensures Congruent(Generator(g), RegisterPoly(Step(g, r, b)), Add(Shift(RegisterPoly(r), 1), Term(b, |r|)))
  {
    var n := |r|;
    var f := r[n - 1] != b;
    var p, q := RegisterPoly(Step(g, r, b)), Add(Shift(RegisterPoly(r), 1), Term(b, n));
    forall e: nat
      ensures e in Add(p, q) <==> f && e in Generator(g)
    {
      InShift(RegisterPoly(r), 1, e);
    }
    assert Add(p, q) == if f then Generator(g) else {};
    MultipleSelf(Generator(g));
  }

  lemma MessageCons(m: Bits)
    requires m != []
    ensures MessagePoly(m) == Add(MessagePoly(m[1..]), Term(m[0], |m| - 1))
  {
    forall e: nat
      ensures e in MessagePoly(m) <==> e in Add(MessagePoly(m[1..]), Term(m[0], |m| - 1))
    {
      if e < |m| - 1 {
        assert m[1..][|m| - 2 - e] == m[|m| - 1 - e];
      }
    }
  }

  /** What a register and a message amount to: the register moved up past the message, plus the message times x to the
      width. */
  function Dividend(r: Bits, m: Bits): Poly
  {
    Add(Shift(RegisterPoly(r), |m|), Shift(MessagePoly(m), |r|))
  }

  lemma ShiftTerm(b: bool, e: nat, k: nat)
    ensures Shift(Term(b, e), k) == Term(b, e + k)
  {
    ShiftOne(e, k);
  }

  lemma DividendStep(g: Bits, r: Bits, m: Bits)
    requires |g| == |r| > 0 && m != []
    ensures Congruent(Generator(g), Dividend(Step(g, r, m[0]), m[1..]), Dividend(r, m))
  {
    hide Congruent;
    var n, k, b := |r|, |m| - 1, m[0];
    var p, q := RegisterPoly(Step(g, r, b)), Add(Shift(RegisterPoly(r), 1), Term(b, n));
    StepCongruent(g, r, b);
    MessageCons(m);
    ShiftAdd(MessagePoly(m[1..]), Term(b, k), n);
    ShiftTerm(b, k, n);
    ShiftAdd(Shift(RegisterPoly(r), 1), Term(b, n), k);
    ShiftShift(RegisterPoly(r), 1, k);
    ShiftTerm(b, n, k);
    DividendAlgebra(Shift(p, k), Shift(q, k), Shift(RegisterPoly(r), k + 1), Term(b, n + k),
                    Shift(MessagePoly(m[1..]), n));
    ShiftCongruent(Generator(g), p, q, k);
    CongruentAdd(Generator(g), Shift(p, k), Shift(q, k), Shift(MessagePoly(m[1..]), n));
  }

  lemma DividendAlgebra(p: Poly, q: Poly, u: Poly, t: Poly, w: Poly)
    requires q == Add(u, t)
    ensures Add(q, w) == Add(u, Add(w, t))
  {}

  lemma ShiftCongruent(g: Poly, p: Poly, q: Poly, k: nat)
    requires Congruent(g, p, q)
    ensures Congruent(g, Shift(p, k), Shift(q, k))
  {
    MultipleShift(g, Add(p, q), k);
    ShiftAdd(p, q, k);
  }

  lemma CongruentAdd(g: Poly, p: Poly, q: Poly, w: Poly)
    requires Congruent(g, p, q)
    ensures Congruent(g, Add(p, w), Add(q, w))
  {
    assert Add(Add(p, w), Add(q, w)) == Add(p, q);
  }

  lemma CongruentSelf(g: Poly, p: Poly)
    ensures Congruent(g, p, p)
  {
    MultipleSelf(g);
    assert Add(p, p) == {};
  }

  lemma {:induction false} FeedCongruent(g: Bits, r: Bits, m: Bits)
    requires |g| == |r| > 0
    ensures Congruent(Generator(g), RegisterPoly(Feed(g, r, m)), Dividend(r, m))
    decreases |m|
  {
    hide Congruent, Dividend;
    if m == [] {
      EmptyDividend(r);
      CongruentSelf(Generator(g), RegisterPoly(r));
    } else {
      FeedCongruent(g, Step(g, r, m[0]), m[1..]);
      DividendStep(g, r, m);
      CongruentTrans(Generator(g), RegisterPoly(Feed(g, r, m)), Dividend(Step(g, r, m[0]), m[1..]), Dividend(r, m));
    }
  }

  lemma EmptyDividend(r: Bits)
    ensures Dividend(r, []) == RegisterPoly(r)
  {
    ShiftZero(RegisterPoly(r));
    ShiftOne(0, |r|);
    assert MessagePoly([]) == {};
  }

  /** The register after a message is the remainder of the dividend by the generator, and there is no other. */
  lemma FeedIsRemainder(g: Bits, r: Bits, m: Bits, s: Bits)
    requires |g| == |r| == |s| > 0
    ensures s == Feed(g, r, m) <==> Congruent(Generator(g), Dividend(r, m), RegisterPoly(s))
  {
    var d, a := Dividend(r, m), RegisterPoly(Feed(g, r, m));
    FeedCongruent(g, r, m);
    assert Add(a, d) == Add(d, a);
    if Congruent(Generator(g), d, RegisterPoly(s)) {
      RemainderUnique(Generator(g), |g|, d, RegisterPoly(s), a);
      forall i | 0 <= i < |s|
        ensures s[i] == Feed(g, r, m)[i]
      {
        assert i in RegisterPoly(s) <==> s[i];
        assert i in a <==> Feed(g, r, m)[i];
      }
    }
  }
}
