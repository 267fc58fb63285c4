/** A 256-bit modulus prepared for Montgomery arithmetic, and exponentiation over it. */
module ModExp {
  import opened Limbs
  import opened Congruence
  import opened Bits
  import opened Montgomery

  const EC_K: nat := 8

  /* ---- the inverse of an odd limb ---- */

  ghost function Precision(i: nat): nat
  {
    if i == 0 then 2 else if i == 1 then 4 else if i == 2 then 16 else if i == 3 then 256
    else if i == 4 then 65536 else RADIX
  }

  /** One Newton step doubles the number of correct low bits. */
  lemma NewtonStep(a: int, x: int, x': int, e: int, s: int, p: int, p': int, g: int, f: int)
    requires a * x == 1 + e * p && x' == x * (2 - a * x) + s * RADIX && p * p == g * p' && RADIX == f * p'
    ensures a * x' == 1 + (a * s * f - e * e * g) * p'
  {
    calc {
      a * x';
      { MulDist(a, x * (2 - a * x), s * RADIX); }
      a * (x * (2 - a * x)) + a * (s * RADIX);
      { NewtonSquares(a, x, e * p); }
      1 - (e * p) * (e * p) + a * (s * (f * p'));
      { Interchange(e, p, e, p); MulAssoc(e * e, g, p'); }
      1 - (e * e * g) * p' + a * (s * (f * p'));
      { MulAssoc(s, f, p'); MulAssoc(a, s * f, p'); MulAssoc(a, s, f); }
      1 - (e * e * g) * p' + (a * s * f) * p';
      1 + (a * s * f - e * e * g) * p';
    }
  }

  /** The error is squared. */
  lemma NewtonSquares(a: int, x: int, u: int)
    requires a * x == 1 + u
    ensures a * (x * (2 - a * x)) == 1 - u * u
  {
    MulAssoc(a, x, 2 - a * x);
  }

  /** x *= 2 - a * x in wrapping 32-bit arithmetic. */
  method NewtonLimb(a: u32, x: u32, ghost i: nat) returns (x': u32)
    requires i < 6 && Congruent(a * x, 1, Precision(i))
    ensures Congruent(a * x', 1, Precision(i + 1))
  {
    var ax := a * x % RADIX;
    var d := (2 - ax) % RADIX;
    x' := x * d % RADIX;
    ghost var s := NewtonWraps(a * x, x, x');
    NewtonPrecision(a, x, x', s, i);
  }

  lemma NewtonPrecision(a: u32, x: u32, x': u32, s: int, i: nat)
    requires i < 6 && Congruent(a * x, 1, Precision(i))
    requires x' == x * (2 - a * x) + s * RADIX
    ensures Congruent(a * x', 1, Precision(i + 1))
  {
    var p, p' := Precision(i), Precision(i + 1);
    var g := if i < 5 then 1 else RADIX;
    var f := RADIX / p';
    assert p * p == g * p' && RADIX == f * p';
    hide Precision;
    var e :| a * x == 1 + e * p;
    NewtonStep(a, x, x', e, s, p, p', g, f);
    CongWitness(a * x', 1, a * s * f - e * e * g, p');
  }

  /** The two wraps of a Newton step only ever add a multiple of 2^32. */
  lemma NewtonWraps(ax: int, x: int, x': int) returns (s: int)
    requires x' == x * ((2 - ax % RADIX) % RADIX) % RADIX
    ensures x' == x * (2 - ax) + s * RADIX
  {
    var d := (2 - ax % RADIX) % RADIX;
    var r := ax / RADIX - (2 - ax % RADIX) / RADIX;
    assert d == 2 - ax + r * RADIX;
    var q := x * d / RADIX;
    NewtonWrap(ax, x, d, r, q, x');
    s := x * r - q;
  }

  lemma NewtonWrap(ax: int, x: int, d: int, r: int, q: int, x': int)
    requires d == 2 - ax + r * RADIX && x' == x * d - q * RADIX
    ensures x' == x * (2 - ax) + (x * r - q) * RADIX
  {
    assert x * (2 - ax + r * RADIX) == x * (2 - ax) + (x * r) * RADIX;
  }

  /** The inverse of an odd limb modulo 2^32. */
  method InvLimb(a: u32) returns (x: u32)
    requires a % 2 == 1
    ensures a * x % RADIX == 1
  {
    x := 1;
    CongWitness(a * x, 1, a / 2, 2);
    for i := 0 to 6
      invariant Congruent(a * x, 1, Precision(i))
    {
      x := NewtonLimb(a, x, i);
    }
    ghost var q :| a * x == 1 + q * RADIX;
  }

  /* ---- reduced addition and subtraction ---- */

  /** out = (a + b) mod m for reduced operands; out may be either operand. */
  method ModAdd(out: array<u32>, a: array<u32>, b: array<u32>, m: array<u32>, k: nat)
    requires out.Length >= k && a.Length >= k && b.Length >= k && m.Length >= k
    requires Val(a[..k]) < Val(m[..k]) && Val(b[..k]) < Val(m[..k])
    modifies out
    ensures Val(out[..k]) == (old(Val(a[..k])) + old(Val(b[..k]))) % old(Val(m[..k]))
    ensures out[k..] == old(out[k..])
  {
    hide Val, Pow;
    var t, r := new u32[k], new u32[k];
    var carry := Add(t, a, b, k);
    var borrow := Sub(r, t, m, k);
    ValBound(t[..k]);
    ValBound(r[..k]);
    ValBound(m[..k]);
    ghost var va: int, vb: int, vm: int := Val(a[..k]), Val(b[..k]), Val(m[..k]);
    SmallMod(va + vb, vm);
    if carry != 0 || borrow == 0 {
      CopyLimbs(out, r, k);
    } else {
      CopyLimbs(out, t, k);
    }
  }

  /** out = (a - b) mod m for reduced operands; out may be either operand. */
  method ModSub(out: array<u32>, a: array<u32>, b: array<u32>, m: array<u32>, k: nat)
    requires out.Length >= k && a.Length >= k && b.Length >= k && m.Length >= k
    requires Val(a[..k]) < Val(m[..k]) && Val(b[..k]) < Val(m[..k])
    modifies out
    ensures Val(out[..k]) == (old(Val(a[..k])) - old(Val(b[..k]))) % old(Val(m[..k]))
    ensures out[k..] == old(out[k..])
  {
    hide Val, Pow;
    var t, r := new u32[k], new u32[k];
    ghost var va: int, vb: int, vm: int := Val(a[..k]), Val(b[..k]), Val(m[..k]);
    ValBound(m[..k]);
    SmallMod(va - vb, vm);
    var borrow := Sub(t, a, b, k);
    ValBound(t[..k]);
    if borrow != 0 {
      var carry := Add(r, t, m, k);
      ValBound(r[..k]);
      CopyLimbs(out, r, k);
    } else {
      CopyLimbs(out, t, k);
    }
  }

  lemma SmallMod(x: int, m: int)
    requires -m < x < 2 * m
    ensures x % m == if x < 0 then x + m else if x < m then x else x - m
  {
    if x < 0 {
      DivMod(x, m, -1, x + m);
    } else if x < m {
      DivMod(x, m, 0, x);
    } else {
      DivMod(x, m, 1, x - m);
    }
  }

  method CopyLimbs(out: array<u32>, a: array<u32>, k: nat)
    requires out.Length >= k && a.Length >= k
    modifies out
    ensures out[..k] == old(a[..k]) && out[k..] == old(out[k..])
  {
    for i := 0 to k
      invariant forall j :: 0 <= j < i ==> out[j] == old(a[j])
      invariant a != out ==> unchanged(a)
      invariant a == out ==> forall j :: 0 <= j < k ==> out[j] == old(a[j])
      invariant out[k..] == old(out[k..])
    {
      out[i] := a[i];
    }
  }

  /* ---- bytes ---- */

  lemma {:induction false} RadixIsBytes(n: nat)
    ensures Pow(RADIX, n) == Pow(256, 4 * n)
  {
    PowPow(256, 4, n);
    assert Pow(256, 4) == RADIX by {
      assert Pow(256, 2) == 0x10000;
      PowAdd(256, 2, 2);
    }
  }

  /** Big-endian bytes into little-endian limbs: the same number. */
  method Unpack(out: array<u32>, s: seq<byte>, k: nat)
    requires |s| == 4 * k && out.Length >= k
    modifies out
    ensures Val(out[..k]) == BeVal(s)
    ensures out[k..] == old(out[k..])
  {
    hide Val, Pow, BeVal, Be32;
    ValZero([]);
    BeValEmpty();
    assert s[4 * k..] == [] && out[..0] == [];
    for i := 0 to k
      invariant Val(out[..i]) == BeVal(s[4 * (k - i)..])
      invariant out[k..] == old(out[k..])
    {
      var p := 4 * (k - 1 - i);
      ghost var done := out[..i];
      var v := Be32(s[p], s[p + 1], s[p + 2], s[p + 3]);
      out[i] := v;
      assert out[..i + 1] == done + [v];
      UnpackStep(done, s[p..], v);
      assert s[p..][4..] == s[4 * (k - i)..];
    }
    assert s[0..] == s;
  }

  /** One more limb below and four more bytes above. */
  lemma UnpackStep(done: seq<u32>, s: seq<byte>, v: u32)
    requires |s| == 4 * |done| + 4 && v == Be32(s[0], s[1], s[2], s[3])
    ensures Val(done) == BeVal(s[4..]) ==> Val(done + [v]) == BeVal(s)
  {
    hide Val, Pow, BeVal, Be32;
    ValSnoc(done, v);
    assert s == s[..4] + s[4..];
    BeValAppend(s[..4], s[4..]);
    BeVal4(s[..4]);
    RadixIsBytes(|done|);
  }

  /** Four bytes, most significant first, as one limb. */
  function Be32(a: byte, b: byte, c: byte, d: byte): (v: u32)
  {
    (a as int) * 0x1000000 + (b as int) * 0x10000 + (c as int) * 0x100 + d
  }

  lemma BeValEmpty()
    ensures BeVal([]) == 0
  {}

  lemma BeVal4(s: seq<byte>)
    requires |s| == 4
    ensures BeVal(s) == Be32(s[0], s[1], s[2], s[3])
  {
    assert s[..3][..2] == s[..2] && s[..2][..1] == s[..1] && s[..1][..0] == [];
    assert BeVal(s[..1]) == s[0];
    assert BeVal(s[..2]) == BeVal(s[..1]) * 256 + s[1];
    assert BeVal(s[..3]) == BeVal(s[..2]) * 256 + s[2];
  }

  lemma Be32Bytes(v: u32)
    ensures Be32(v / 0x1000000 % 256, v / 0x10000 % 256, v / 0x100 % 256, v % 256) == v
  {
    var a := v / 0x100;
    var b := a / 0x100;
    var c := b / 0x100;
    assert v == 0x100 * a + v % 256 && a == 0x100 * b + a % 256 && b == 0x100 * c + b % 256;
    assert b == v / 0x10000 && c == v / 0x1000000 && c % 256 == c;
  }

  /** Little-endian limbs into big-endian bytes: the same number. */
  method Pack(out: array<byte>, a: array<u32>, k: nat)
    requires a.Length >= k && out.Length == 4 * k
    modifies out
    ensures BeVal(out[..]) == Val(a[..k])
  {
    hide Val, Pow, BeVal, Be32;
    ValZero([]);
    BeValEmpty();
    assert out[4 * k..] == [] && a[..0] == [];
    for i := 0 to k
      invariant BeVal(out[4 * (k - i)..]) == Val(a[..i])
    {
      var p, v := 4 * (k - 1 - i), a[i];
      ghost var done := out[p + 4..];
      out[p] := v / 0x1000000 % 256;
      out[p + 1] := v / 0x10000 % 256;
      out[p + 2] := v / 0x100 % 256;
      out[p + 3] := v % 256;
      Be32Bytes(v);
      assert out[p..][4..] == done && a[..i + 1] == a[..i] + [v];
      UnpackStep(a[..i], out[p..], v);
    }
    assert out[0..] == out[..];
  }

  /* ---- Montgomery form ---- */

  /** `v` is the reduced Montgomery form of `x`: x * R mod m with R = RADIX^EC_K. */
  ghost predicate Form(v: nat, x: int, m: int)
  {
    v < m && Congruent(v, x * Pow(RADIX, EC_K), m)
  }

  ghost predicate Invertible(f: int, m: int)
  {
    exists g: nat :: Congruent(f * g, 1, m)
  }

  /** A radix whose -1/m is known is invertible modulo m. */
  lemma RadixInvertible(n0: u32, m: seq<u32>)
    requires m != [] && n0 * m[0] % RADIX == RADIX - 1
    ensures Invertible(RADIX, Val(m))
  {
    ValCons(m);
    var rest := Val(m[1..]);
    var z := n0 * m[0] / RADIX + 1;
    InverseAt(n0, m[0], rest, z, Val(m));
    BoundProduct(n0, m[0], RADIX - 1, RADIX - 1);
    BoundProduct(n0, rest, RADIX - 1, rest);
    CongWitness(RADIX * (z + n0 * rest), 1, n0, Val(m));
  }

  lemma InverseAt(n0: int, m0: int, rest: int, z: int, vm: int)
    requires n0 * m0 + 1 == RADIX * z && vm == m0 + RADIX * rest
    ensures RADIX * (z + n0 * rest) == 1 + n0 * vm
  {
    calc {
      RADIX * (z + n0 * rest);
      n0 * m0 + 1 + RADIX * (n0 * rest);
      1 + n0 * (m0 + RADIX * rest);
    }
  }

  lemma InvertiblePow(f: nat, n: nat, m: int)
    requires Invertible(f, m)
    ensures Invertible(Pow(f, n), m)
  {
    var g: nat :| Congruent(f * g, 1, m);
    PowCong(f * g, 1, n, m);
    PowOne(n);
    PowMulBase(f, g, n);
    assert Congruent(Pow(f, n) * Pow(g, n), 1, m);
  }

  /** A Montgomery product of forms is the form of the product. */
  lemma FormMul(c: nat, a: nat, b: nat, x: int, y: int, m: int)
    requires Invertible(Pow(RADIX, EC_K), m) && c < m
    requires Congruent(c * Pow(RADIX, EC_K), a * b, m)
    requires Congruent(a, x * Pow(RADIX, EC_K), m) && Congruent(b, y * Pow(RADIX, EC_K), m)
    ensures Form(c, x * y, m)
  {
    hide Pow, Congruent;
    var r := Pow(RADIX, EC_K);
    var g: nat :| Congruent(r * g, 1, m);
    CongMul(a, x * r, b, y * r, m);
    assert (x * r) * (y * r) == (x * y * r) * r by {
      Interchange(x, r, y, r);
      MulAssoc(x * y, r, r);
    }
    CongTrans(c * r, a * b, (x * y * r) * r, m);
    CongCancel(c, x * y * r, r, g, m);
  }
}
