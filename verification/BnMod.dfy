/** struct bn_mod: a modulus, its -1/m limb, R^2 mod m and 1 in Montgomery form. */
module BnMod {
  import opened Limbs
  import opened Congruence
  import opened Bits
  import opened Montgomery
  import opened ModExp

  /** c * R = x * (R^2 mod m) makes c the form of x, which is what entering relies on. */
  lemma FormEnter(c: nat, x: int, r2: nat, m: int)
    requires Invertible(Pow(RADIX, EC_K), m) && c < m
    requires Congruent(c * Pow(RADIX, EC_K), x * r2, m)
    requires Congruent(r2, Pow(RADIX, EC_K) * Pow(RADIX, EC_K), m)
    ensures Form(c, x, m)
  {
    hide Pow, Congruent;
    var r := Pow(RADIX, EC_K);
    var g: nat :| Congruent(r * g, 1, m);
    CongRefl(x, m);
    CongMul(x, x, r2, r * r, m);
    MulAssoc(x, r, r);
    CongTrans(c * r, x * r2, (x * r) * r, m);
    CongCancel(c, x * r, r, g, m);
  }

  lemma FormLeave(c: nat, a: nat, x: int, m: int)
    requires Invertible(Pow(RADIX, EC_K), m) && c < m
    requires Congruent(c * Pow(RADIX, EC_K), a * 1, m) && Form(a, x, m)
    ensures c == x % m
  {
    hide Pow, Congruent;
    var r := Pow(RADIX, EC_K);
    var g: nat :| Congruent(r * g, 1, m);
    CongTrans(c * r, a, x * r, m);
    CongCancel(c, x, r, g, m);
    CongMod(x, m);
    CongTrans(c, x, x % m, m);
    CongUnique(c, x % m, m);
  }

  lemma ValOne(s: seq<u32>)
    requires s != [] && s[0] == 1 && forall i :: 0 < i < |s| ==> s[i] == 0
    ensures Val(s) == 1
  {
    ValCons(s);
    ValZero(s[1..]);
  }

  /** Doubling 1 as often as R^2 has bits reaches R^2. */
  lemma DoublingsReachSquare()
    ensures Pow(2, 64 * EC_K) == Pow(RADIX, EC_K) * Pow(RADIX, EC_K)
  {
    assert Pow(2, 32) == RADIX by {
      assert Pow(2, 8) == 256 by {
        assert Pow(2, 4) == 16;
        PowAdd(2, 4, 4);
      }
      PowAdd(2, 8, 8);
      PowAdd(2, 16, 16);
    }
    PowPow(2, 32, 2 * EC_K);
    PowAdd(RADIX, EC_K, EC_K);
  }

  lemma DoubleStep(v: nat, w: nat, p: nat, m: int)
    requires m > 0 && Congruent(v, p, m) && w == (v + v) % m
    ensures w < m && Congruent(w, 2 * p, m)
  {
    CongRefl(2, m);
    CongMul(2, 2, v, p, m);
    CongMod(v + v, m);
    CongSym(v + v, w, m);
    CongTrans(w, 2 * v, 2 * p, m);
  }

  class BnMod {
    const m: array<u32>
    const r2: array<u32>
    const one: array<u32>
    var n0: u32

    ghost predicate Valid()
      reads this, m, r2, one
    {
      && m.Length == EC_K && r2.Length == EC_K && one.Length == EC_K
      && m != r2 && m != one && r2 != one
      && n0 * m[0] % RADIX == RADIX - 1
      && 1 < Modulus()
      && Form(Val(r2[..EC_K]), Pow(RADIX, EC_K), Modulus())
      && Form(Val(one[..EC_K]), 1, Modulus())
    }

    ghost function Modulus(): nat
      reads this, m
      requires m.Length == EC_K
    {
      Val(m[..EC_K])
    }

    lemma RInvertible()
      requires m.Length == EC_K && n0 * m[0] % RADIX == RADIX - 1
      ensures Invertible(Pow(RADIX, EC_K), Modulus())
    {
      RadixInvertible(n0, m[..EC_K]);
      InvertiblePow(RADIX, EC_K, Modulus());
    }

    /** From big-endian bytes; the moduli are odd primes, of which only oddness and size matter. */
    constructor (bytes: seq<byte>)
      requires |bytes| == 4 * EC_K && BeVal(bytes) % 2 == 1 && BeVal(bytes) > 1
      ensures Valid() && fresh(m) && fresh(r2) && fresh(one)
      ensures Modulus() == BeVal(bytes)
    {
      m := new u32[EC_K];
      r2 := new u32[EC_K];
      one := new u32[EC_K];
      n0 := 0;
      new;
      hide Val, Pow, Congruent, BeVal;
      Unpack(m, bytes, EC_K);
      LowLimbParity(m[..EC_K]);
      var inv := InvLimb(m[0]);
      n0 := (0 - inv) % RADIX;
      NegatedInverse(m[0], inv, n0);
      RInvertible();
      BuildSquare();
      SetOne(one);
      ValOne(one[..EC_K]);
      var t := new u32[EC_K + 2];
      MontMul(one, one, r2, m, n0, EC_K, t);
      FormEnter(Val(one[..EC_K]), 1, Val(r2[..EC_K]), Modulus());
    }

    /** R^2 mod m by doubling 1; no division routine is needed. */
    method BuildSquare()
      requires m.Length == EC_K && r2.Length == EC_K && m != r2
      requires Val(m[..EC_K]) > 1
      modifies r2
      ensures Form(Val(r2[..EC_K]), Pow(RADIX, EC_K), Val(m[..EC_K]))
    {
      hide Val, Pow, Congruent;
      var w := new u32[EC_K];
      SetOne(w);
      ValOne(w[..EC_K]);
      PowZero(2);
      CongRefl(1, Modulus());
      for i := 0 to 64 * EC_K
        invariant Val(w[..EC_K]) < Modulus() && Congruent(Val(w[..EC_K]), Pow(2, i), Modulus())
      {
        ghost var v := Val(w[..EC_K]);
        ModAdd(w, w, w, m, EC_K);
        PowSucc(2, i);
        DoubleStep(v, Val(w[..EC_K]), Pow(2, i), Modulus());
      }
      DoublingsReachSquare();
      CopyLimbs(r2, w, EC_K);
    }

    /** out = a * b in Montgomery form. The operands may be the result. */
    method Mul(out: array<u32>, a: array<u32>, b: array<u32>, ghost x: int, ghost y: int)
      requires Valid() && out.Length == EC_K && a.Length == EC_K && b.Length == EC_K
      requires out != m && out != r2 && out != one
      requires Form(Val(a[..EC_K]), x, Modulus()) && Form(Val(b[..EC_K]), y, Modulus())
      modifies out
      ensures Valid()
      ensures Form(Val(out[..EC_K]), x * y, Modulus())
    {
      hide Val, Pow, Congruent;
      var t := new u32[EC_K + 2];
      RInvertible();
      ghost var va, vb := Val(a[..EC_K]), Val(b[..EC_K]);
      MontMul(out, a, b, m, n0, EC_K, t);
      FormMul(Val(out[..EC_K]), va, vb, x, y, Modulus());
    }

    method Enter(out: array<u32>, a: array<u32>)
      requires Valid() && out.Length == EC_K && a.Length == EC_K
      requires out != m && out != r2 && out != one
      requires Val(a[..EC_K]) < Modulus()
      modifies out
      ensures Valid()
      ensures Form(Val(out[..EC_K]), old(Val(a[..EC_K])), Modulus())
    {
      hide Val, Pow, Congruent;
      var t := new u32[EC_K + 2];
      RInvertible();
      ghost var va := Val(a[..EC_K]);
      MontMul(out, a, r2, m, n0, EC_K, t);
      FormEnter(Val(out[..EC_K]), va, Val(r2[..EC_K]), Modulus());
    }

    method Leave(out: array<u32>, a: array<u32>, ghost x: int)
      requires Valid() && out.Length == EC_K && a.Length == EC_K
      requires out != m && out != r2 && out != one
      requires Form(Val(a[..EC_K]), x, Modulus())
      modifies out
      ensures Valid()
      ensures Val(out[..EC_K]) == x % Modulus()
    {
      hide Val, Pow, Congruent;
      var w, t := new u32[EC_K], new u32[EC_K + 2];
      SetOne(w);
      ValOne(w[..EC_K]);
      RInvertible();
      ghost var va := Val(a[..EC_K]);
      MontMul(out, a, w, m, n0, EC_K, t);
      FormLeave(Val(out[..EC_K]), va, x, Modulus());
    }

    /** One exponent bit: square if a one has been seen, then multiply if this is a one. */
    method ExpBit(acc: array<u32>, a: array<u32>, b: byte, started: bool, ghost x: nat, ghost n: nat)
      returns (started': bool)
      requires Valid() && acc.Length == EC_K && a.Length == EC_K
      requires acc != m && acc != r2 && acc != one && acc != a
      requires Form(Val(a[..EC_K]), x, Modulus())
      requires b <= 1 && (!started ==> n == 0) && Form(Val(acc[..EC_K]), Pow(x, n), Modulus())
      modifies acc
      ensures Valid()
      ensures !started' ==> 2 * n + b == 0
      ensures Form(Val(acc[..EC_K]), Pow(x, 2 * n + b), Modulus())
    {
      hide Val, Pow, Congruent, Form;
      started' := started;
      if started {
        Mul(acc, acc, acc, Pow(x, n), Pow(x, n));
        PowAdd(x, n, n);
        assert n + n == 2 * n;
      }
      if b != 0 {
        if started {
          Mul(acc, acc, a, Pow(x, 2 * n), x);
          PowSucc(x, 2 * n);
        } else {
          CopyLimbs(acc, a, EC_K);
          PowZero(x);
          PowSucc(x, 0);
          started' := true;
        }
      }
    }

    /** out = a^e, both in Montgomery form: square and multiply from the top, skipping leading zeros. */
    method Exp(out: array<u32>, a: array<u32>, e: seq<byte>, ghost x: nat)
      requires Valid() && out.Length == EC_K && a.Length == EC_K
      requires out != m && out != r2 && out != one
      requires Form(Val(a[..EC_K]), x, Modulus())
      modifies out
      ensures Valid()
      ensures Form(Val(out[..EC_K]), Pow(x, BeVal(e)), Modulus())
    {
      hide Val, Pow, Congruent, BeVal, Scan, Bit, Form;
      var acc := new u32[EC_K];
      CopyLimbs(acc, one, EC_K);
      var started := false;
      ScanZero(e);
      PowZero(x);
      for i := 0 to |e|
        invariant Valid() && Form(Val(a[..EC_K]), x, Modulus())
        invariant !started ==> Scan(e, 8 * i) == 0
        invariant Form(Val(acc[..EC_K]), Pow(x, Scan(e, 8 * i)), Modulus())
      {
        var j := 0;
        while j < 8
          invariant 0 <= j <= 8
          invariant Valid() && Form(Val(a[..EC_K]), x, Modulus())
          invariant !started ==> Scan(e, 8 * i + j) == 0
          invariant Form(Val(acc[..EC_K]), Pow(x, Scan(e, 8 * i + j)), Modulus())
        {
          ScanNext(e, i, j);
          started := ExpBit(acc, a, Bit(e[i], 7 - j), started, x, Scan(e, 8 * i + j));
          j := j + 1;
        }
      }
      ScanAll(e);
      CopyLimbs(out, acc, EC_K);
    }

    /** Entering, exponentiating and leaving is exponentiation modulo m, for every byte-string exponent. */
    method EnterExpLeave(out: array<u32>, a: array<u32>, e: seq<byte>)
      requires Valid() && out.Length == EC_K && a.Length == EC_K
      requires out != m && out != r2 && out != one
      requires Val(a[..EC_K]) < Modulus()
      modifies out
      ensures Valid()
      ensures Val(out[..EC_K]) == Pow(old(Val(a[..EC_K])), BeVal(e)) % Modulus()
    {
      hide Val, Pow, Congruent, BeVal;
      ghost var x := Val(a[..EC_K]);
      var f, g := new u32[EC_K], new u32[EC_K];
      Enter(f, a);
      Exp(g, f, e, x);
      Leave(out, g, Pow(x, BeVal(e)));
    }
  }

  method SetOne(w: array<u32>)
    requires w.Length > 0
    modifies w
    ensures w[0] == 1 && forall i :: 0 < i < w.Length ==> w[i] == 0
  {
    for i := 0 to w.Length
      invariant forall j :: 0 <= j < i ==> w[j] == 0
    {
      w[i] := 0;
    }
    w[0] := 1;
  }

  lemma PowZero(b: nat)
    ensures Pow(b, 0) == 1
  {}

  lemma ScanZero(s: seq<byte>)
    ensures Scan(s, 0) == 0
  {}

  lemma LowLimbParity(s: seq<u32>)
    requires s != [] && Val(s) % 2 == 1
    ensures s[0] % 2 == 1
  {
    hide Val;
    ValCons(s);
    EvenMultiple(Val(s), s[0], Val(s[1..]));
  }

  lemma EvenMultiple(v: int, x: int, r: int)
    requires v == x + RADIX * r
    ensures v % 2 == x % 2
  {
    assert v == x + 2 * (0x8000_0000 * r);
  }

  lemma NegatedInverse(a: u32, x: u32, n: u32)
    requires a * x % RADIX == 1 && n == (0 - x) % RADIX
    ensures n * a % RADIX == RADIX - 1
  {
    var q := a * x / RADIX;
    if x == 0 {
      assert false;
    }
    DivMod(0 - x, RADIX, -1, RADIX - x);
    NegatedProduct(a, x, q);
    DivMod((RADIX - x) * a, RADIX, a - q - 1, RADIX - 1);
  }

  lemma NegatedProduct(a: int, x: int, q: int)
    requires a * x == q * RADIX + 1
    ensures (RADIX - x) * a == (a - q - 1) * RADIX + (RADIX - 1)
  {}
}
