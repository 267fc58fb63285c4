/** Poly1305 (section 2.5 of RFC 8439), fed in pieces. */
module Poly1305 {
  import opened Limbs
  import opened Congruence
  import opened PolyArith

  type u64 = x: int | 0 <= x < 0x1_0000_0000_0000_0000

  /* ---- bytes ---- */

  ghost function LeVal(s: seq<byte>): nat
  {
    if s == [] then 0 else s[0] + 256 * LeVal(s[1..])
  }

  function U32le(m: seq<byte>, i: nat): (r: u32)
    requires i + 4 <= |m|
  {
    m[i] + m[i + 1] as int * 0x100 + m[i + 2] as int * 0x1_0000 + m[i + 3] as int * 0x100_0000
  }

  lemma Le4(s: seq<byte>)
    requires |s| >= 4
    ensures LeVal(s) == U32le(s, 0) + W32 * LeVal(s[4..])
  {
    assert s[1..][1..] == s[2..] && s[2..][1..] == s[3..] && s[3..][1..] == s[4..];
    assert LeVal(s) == s[0] + 256 * LeVal(s[1..]);
    assert LeVal(s[1..]) == s[1] + 256 * LeVal(s[2..]);
    assert LeVal(s[2..]) == s[2] + 256 * LeVal(s[3..]);
    assert LeVal(s[3..]) == s[3] + 256 * LeVal(s[4..]);
  }

  lemma Le16(s: seq<byte>)
    requires |s| == 16
    ensures LeVal(s) == W(Four(U32le(s, 0), U32le(s, 4), U32le(s, 8), U32le(s, 12)))
  {
    hide LeVal;
    Le4(s);
    Le4(s[4..]);
    Le4(s[4..][4..]);
    Le4(s[4..][4..][4..]);
    assert s[4..][4..] == s[8..] && s[8..][4..] == s[12..] && s[12..][4..] == [];
    LeEmpty();
  }

  lemma LeEmpty()
    ensures LeVal([]) == 0
  {}

  lemma {:induction false} LeZeros(n: nat)
    ensures LeVal(seq(n, _ => 0)) == 0
  {
    if n > 0 {
      assert seq(n, _ => 0)[1..] == seq(n - 1, _ => 0);
      LeZeros(n - 1);
    }
  }

  /** A block's terminator is the power of 256 above it, whatever zeros follow. */
  lemma {:induction false} LePadded(s: seq<byte>, n: nat)
    ensures LeVal(s + [1] + seq(n, _ => 0)) == LeVal(s) + Pow(256, |s|)
    decreases |s|
  {
    var t := s + [1] + seq(n, _ => 0);
    if s == [] {
      assert t[1..] == seq(n, _ => 0);
      LeZeros(n);
    } else {
      assert t[1..] == s[1..] + [1] + seq(n, _ => 0);
      LePadded(s[1..], n);
    }
  }

  function P32le(x: u32): (r: seq<byte>)
    ensures |r| == 4
  {
    [x % 256, x / 256 % 256, x / 0x1_0000 % 256, x / 0x100_0000]
  }

  lemma P32leValue(x: u32)
    ensures U32le(P32le(x), 0) == x
  {
    var a, b := x / 256, x / 0x1_0000;
    DivMod(x, 0x1_0000, a / 256, a % 256 * 256 + x % 256);
    DivMod(x, 0x100_0000, b / 256, b % 256 * 0x1_0000 + x % 0x1_0000);
  }

  /* ---- what a tag is ---- */

  /** A chunk of a message as a number: its bytes, and a one above them. */
  ghost function Num(chunk: seq<byte>): nat
  {
    LeVal(chunk) + Pow(256, |chunk|)
  }

  /** One step of Horner's rule. */
  ghost function Step(acc: int, n: int, r: int): int
  {
    (acc + n) * r % P
  }

  /** The polynomial over the message's 16-byte chunks, the last of which may be short. */
  ghost function Acc(r: int, msg: seq<byte>): int
    decreases |msg|
  {
    if msg == [] then 0 else
      var k := (|msg| - 1) / 16 * 16;
      Step(Acc(r, msg[..k]), Num(msg[k..]), r)
  }

  ghost function KeyWords(key: seq<byte>, i: nat): Four
    requires i + 16 <= |key|
  {
    Four(U32le(key, i), U32le(key, i + 4), U32le(key, i + 8), U32le(key, i + 12))
  }

  /** The tag of a whole message. */
  ghost function Tag(key: seq<byte>, msg: seq<byte>): int
    requires |key| == 32
  {
    (Acc(W(ClampWords(KeyWords(key, 0))), msg) + W(KeyWords(key, 16))) % W128
  }

  lemma Pow16()
    ensures Pow(256, 16) == W128
  {
    assert Pow(256, 2) == 0x1_0000;
    PowAdd(256, 2, 2);
    PowAdd(256, 4, 4);
    PowAdd(256, 8, 8);
  }

  /** One more full chunk. */
  lemma AccFull(r: int, msg: seq<byte>, chunk: seq<byte>)
    requires |msg| % 16 == 0 && |chunk| == 16
    ensures Acc(r, msg + chunk) == Step(Acc(r, msg), LeVal(chunk) + W128, r)
  {
    hide Step, Acc, LeVal, Pow;
    Pow16();
    AccNext(r, msg, chunk);
  }

  /** The polynomial of a message, one chunk unfolded. */
  lemma AccStep(r: int, msg: seq<byte>, k: nat)
    requires msg != [] && k == (|msg| - 1) / 16 * 16
    ensures Acc(r, msg) == Step(Acc(r, msg[..k]), Num(msg[k..]), r)
  {
    hide Step, Num;
  }

  lemma LastChunk(n: nat, c: nat)
    requires n % 16 == 0 && 0 < c <= 16
    ensures (n + c - 1) / 16 * 16 == n
  {
    DivMod(n + c - 1, 16, n / 16, c - 1);
  }

  /** One more chunk, full or the short last one. */
  lemma AccNext(r: int, msg: seq<byte>, chunk: seq<byte>)
    requires |msg| % 16 == 0 && 0 < |chunk| <= 16
    ensures Acc(r, msg + chunk) == Step(Acc(r, msg), Num(chunk), r)
  {
    hide Step, Acc, Num;
    var t := msg + chunk;
    LastChunk(|msg|, |chunk|);
    AccStep(r, t, |msg|);
    assert t[..|msg|] == msg && t[|msg|..] == chunk;
  }

  lemma ProductCong(a: int, b: int, r: int, x: int, y: int, z: int)
    requires Congruent(a, b, P) && y == a * r && z == b * r && Congruent(x, y, P)
    ensures Congruent(x, z % P, P)
  {
    CongRefl(r, P);
    CongMul(a, b, r, r, P);
    ModCong(x, y, z);
  }

  lemma ModCong(x: int, y: int, z: int)
    requires Congruent(x, y, P) && Congruent(y, z, P)
    ensures Congruent(x, z % P, P)
  {
    CongTrans(x, y, z, P);
    CongMod(z, P);
    CongTrans(x, z, z % P, P);
  }

  lemma StepCong(h: int, acc: int, n: int, r: int, x: int)
    requires Congruent(h, acc, P) && Congruent(x, (h + n) * r, P)
    ensures Congruent(x, Step(acc, n, r), P)
  {
    var q :| h == acc + q * P;
    CongWitness(h + n, acc + n, q, P);
    hide Congruent;
    ProductCong(h + n, acc + n, r, x, (h + n) * r, (acc + n) * r);
  }

  lemma BlockWords(m: seq<byte>, l: Five)
    requires |m| == 16 && l == Split(U32le(m, 0), U32le(m, 4), U32le(m, 8), U32le(m, 12))
    ensures V(l) == LeVal(m)
  {
    hide LeVal, Split, V;
    Le16(m);
    SplitValue(U32le(m, 0), U32le(m, 4), U32le(m, 8), U32le(m, 12));
  }

  lemma LoadedValue(h: Five, l: Five, hibit: int)
    ensures V(Five(h.x0 + l.x0, h.x1 + l.x1, h.x2 + l.x2, h.x3 + l.x3, h.x4 + (l.x4 + hibit)))
            == V(h) + V(l) + hibit * T104
  {}

  /** The accumulator has taken in every full block of the message, and part is the rest. */
  ghost predicate Fed(r: Five, h: Five, msg: seq<byte>, part: seq<byte>)
  {
    && |part| <= |msg| && (|msg| - |part|) % 16 == 0 && part == msg[|msg| - |part|..]
    && Congruent(V(h), Acc(V(r), msg[..|msg| - |part|]), P)
  }

  lemma FedNone(r: Five)
    ensures Fed(r, Five(0, 0, 0, 0, 0), [], [])
  {
    CongRefl(0, P);
  }

  class Poly1305 {
    var r: Five
    var h: Five
    var pad: Four
    var buf: array<byte>
    var buflen: nat
    ghost var msg: seq<byte>

    ghost predicate Valid()
      reads this, buf
    {
      && buf.Length == 16 && buflen < 16 && Clamped(r) && Settled(h) && Words(pad)
      && Fed(r, h, msg, buf[..buflen])
    }

    ghost predicate Keyed(key: seq<byte>)
      reads this
    {
      |key| == 32 && V(r) == W(ClampWords(KeyWords(key, 0))) && pad == KeyWords(key, 16)
    }

    /** poly1305_init. */
    constructor (key: seq<byte>)
      requires |key| == 32
      ensures Valid() && Keyed(key) && msg == [] && fresh(buf)
    {
      hide V, W, Split, MaskLimbs, ClampWords, Fed;
      var t := Four(U32le(key, 0), U32le(key, 4), U32le(key, 8), U32le(key, 12));
      ClampOk(t);
      r := MaskLimbs(Split(t.w0, t.w1, t.w2, t.w3));
      h := Five(0, 0, 0, 0, 0);
      pad := Four(U32le(key, 16), U32le(key, 20), U32le(key, 24), U32le(key, 28));
      buf := new byte[16];
      buflen := 0;
      msg := [];
      new;
      FedNone(r);
      assert buf[..buflen] == [];
    }

    /** poly1305_block: add 16 bytes and the high bit, multiply, carry. Typed variables never overflow. */
    method Block(m: seq<byte>, hibit: u32)
      requires |m| == 16 && (hibit == 0 || hibit == 0x100_0000) && Clamped(r) && Settled(h)
      modifies this`h
      ensures Settled(h) && Congruent(V(h), (V(old(h)) + LeVal(m) + hibit * T104) * V(r), P)
    {
      hide LeVal, Congruent, V, Split, W, Settle;
      var s1: u32, s2: u32, s3: u32, s4: u32 := r.x1 * 5, r.x2 * 5, r.x3 * 5, r.x4 * 5;
      var l := Split(U32le(m, 0), U32le(m, 4), U32le(m, 8), U32le(m, 12));
      SplitValue(U32le(m, 0), U32le(m, 4), U32le(m, 8), U32le(m, 12));
      BlockWords(m, l);
      var h0: u32, h1: u32, h2: u32 := h.x0 + l.x0, h.x1 + l.x1, h.x2 + l.x2;
      var h3: u32, h4: u32 := h.x3 + l.x3, h.x4 + (l.x4 + hibit);
      ghost var a := Five(h0, h1, h2, h3, h4);
      LoadedValue(h, l, hibit);
      ColumnsBound(a, r);
      ColumnsValue(a, r);
      ghost var d := Columns(a, r);
      var d0: u64 := h0 * r.x0 + h1 * s4 + h2 * s3 + h3 * s2 + h4 * s1;
      var d1: u64 := h0 * r.x1 + h1 * r.x0 + h2 * s4 + h3 * s3 + h4 * s2;
      var d2: u64 := h0 * r.x2 + h1 * r.x1 + h2 * r.x0 + h3 * s4 + h4 * s3;
      var d3: u64 := h0 * r.x3 + h1 * r.x2 + h2 * r.x1 + h3 * r.x0 + h4 * s4;
      var d4: u64 := h0 * r.x4 + h1 * r.x3 + h2 * r.x2 + h3 * r.x1 + h4 * r.x0;
      assert d == Five(d0, d1, d2, d3, d4);
      h := Carry(d0, d1, d2, d3, d4);
      SettleValue(d);
      CongTrans(V(h), V(d), V(a) * V(r), P);
    }

    /** A full block, after the full blocks pre. */
    method Absorb(b: seq<byte>, ghost pre: seq<byte>)
      requires |b| == 16 && |pre| % 16 == 0 && Clamped(r) && Settled(h) && Congruent(V(h), Acc(V(r), pre), P)
      modifies this`h
      ensures Settled(h) && Congruent(V(h), Acc(V(r), pre + b), P) && |pre + b| % 16 == 0
    {
      hide Acc, LeVal, Congruent, V, Step;
      ghost var was := V(h);
      Block(b, 0x100_0000);
      AccFull(V(r), pre, b);
      SameSum(was, LeVal(b), 0x100_0000 * T104, W128);
      StepCong(was, Acc(V(r), pre), LeVal(b) + W128, V(r), V(h));
    }

    /** poly1305_update: any piece of the message, of any length. */
    method Update(m: seq<byte>)
      requires Valid()
      modifies this`h, this`buflen, this`msg, buf
      ensures Valid() && msg == old(msg) + m
    {
      hide Acc, LeVal, Congruent, V, Settled, Clamped;
      var i := 0;
      if buflen > 0 {
        i := Top(m);
      }
      if buflen > 0 {
        assert m[..i] == m;
        return;
      }
      assert old(msg) + m[..i] == msg;
      while |m| - i >= 16
        invariant i <= |m| && Valid() && buflen == 0 && msg == old(msg) + m[..i] && buf == old(buf)
      {
        assert msg[..|msg|] == msg;
        Absorb(m[i..i + 16], msg);
        msg := msg + m[i..i + 16];
        i := i + 16;
        assert msg[..|msg|] == msg;
        assert m[..i] == m[..i - 16] + m[i - 16..i];
      }
      Keep(m[i..]);
      assert m == m[..i] + m[i..];
    }

    /** Copy a piece into the buffer, after what is there. */
    method Fill(m: seq<byte>)
      requires buflen + |m| <= buf.Length
      modifies buf
      ensures buf[..buflen + |m|] == old(buf[..buflen]) + m
    {
      for j := 0 to |m|
        invariant buf[..buflen + j] == old(buf[..buflen]) + m[..j]
      {
        buf[buflen + j] := m[j];
        assert buf[..buflen + j + 1] == buf[..buflen + j] + [m[j]];
      }
      assert m[..|m|] == m;
    }

    /** Fill a partly full buffer, and absorb it if that fills it. Returns how much of m it took. */
    method Top(m: seq<byte>) returns (take: nat)
      requires Valid() && buflen > 0
      modifies this`h, this`buflen, this`msg, buf
      ensures Valid() && take <= |m| && msg == old(msg) + m[..take] && (buflen > 0 ==> take == |m|)
    {
      hide Acc, LeVal, Congruent, V, Settled, Clamped;
      var want := 16 - buflen;
      take := if |m| < want then |m| else want;
      ghost var pre := msg[..|msg| - buflen];
      ghost var part := buf[..buflen];
      Fill(m[..take]);
      assert msg == pre + part;
      buflen := buflen + take;
      msg := msg + m[..take];
      assert msg == pre + buf[..buflen];
      if buflen == 16 {
        assert buf[..] == buf[..buflen];
        Absorb(buf[..], pre);
        buflen := 0;
        assert msg[..|msg|] == msg;
      } else {
        assert msg[..|msg| - buflen] == pre;
      }
    }

    /** Keep what is less than a block. */
    method Keep(m: seq<byte>)
      requires Valid() && buflen == 0 && |m| < 16
      modifies this`buflen, this`msg, buf
      ensures Valid() && msg == old(msg) + m
    {
      hide Acc, LeVal, Congruent, V, Settled, Clamped;
      assert msg[..|msg|] == msg;
      Fill(m);
      assert buf[..|m|] == m;
      buflen := |m|;
      msg := msg + m;
      assert msg[..|msg| - buflen] == old(msg) && msg[|msg| - buflen..] == m;
    }

    /** poly1305_finish: whatever the pieces were, the tag is the whole message's. The state is wiped. */
    method Finish(ghost key: seq<byte>) returns (tag: seq<byte>)
      requires Valid() && Keyed(key)
      modifies this`h, this`r, this`pad, buf
      ensures |tag| == 16 && LeVal(tag) == Tag(key, msg)
      ensures r == h == Five(0, 0, 0, 0, 0) && pad == Four(0, 0, 0, 0)
    {
      hide Acc, LeVal, Congruent, V, W, ClampWords, Normal, Reduce, Join, AddWords, P32le, Small, Settled;
      Last();
      NormalOk(h);
      var n := Normal(h);
      ReduceOk(n);
      var g := Reduce(n);
      AccRange(V(r), msg);
      Canonical(V(n), V(h), Acc(V(r), msg));
      JoinValue(g);
      var w := Join(g);
      AddWordsValue(w, pad);
      var t := AddWords(w, pad);
      ModSum(V(g), W(pad));
      tag := P32le(t.w0) + P32le(t.w1) + P32le(t.w2) + P32le(t.w3);
      TagBytes(t, tag);
      r, h, pad := Five(0, 0, 0, 0, 0), Five(0, 0, 0, 0, 0), Four(0, 0, 0, 0);
    }

    /** Absorb the last, short, block. */
    method Last()
      requires Valid()
      modifies this`h, buf
      ensures Settled(h) && Congruent(V(h), Acc(V(r), msg), P)
    {
      hide Acc, LeVal, Congruent, V, Step, Num;
      ghost var pre := msg[..|msg| - buflen];
      if buflen == 0 {
        assert pre == msg;
        return;
      }
      ghost var part := buf[..buflen];
      assert msg == pre + part;
      buf[buflen] := 1;
      var i := buflen + 1;
      while i < 16
        invariant buflen < i <= 16 && buf[..buflen] == part && buf[buflen] == 1
        invariant forall j | buflen < j < i :: buf[j] == 0
        modifies buf
      {
        buf[i] := 0;
        i := i + 1;
      }
      assert buf[..] == part + [1] + seq(15 - buflen, _ => 0);
      LePadded(part, 15 - buflen);
      ghost var was := V(h);
      Block(buf[..], 0);
      AccNext(V(r), pre, part);
      NumIs(part);
      SameSum(was, LeVal(buf[..]), 0 * T104, 0);
      StepCong(was, Acc(V(r), pre), Num(part), V(r), V(h));
    }
  }

  lemma SameSum(a: int, b: int, c: int, d: int)
    requires c == d
    ensures a + b + c == a + (b + d)
  {}

  lemma NumIs(s: seq<byte>)
    ensures Num(s) == LeVal(s) + Pow(256, |s|)
  {}

  lemma {:induction false} AccRange(r: int, msg: seq<byte>)
    ensures 0 <= Acc(r, msg) < P
  {
    if msg != [] {
      StepRange(Acc(r, msg[..(|msg| - 1) / 16 * 16]), Num(msg[(|msg| - 1) / 16 * 16..]), r);
    }
  }

  lemma StepRange(a: int, n: int, r: int)
    ensures 0 <= Step(a, n, r) < P
  {
    var x := (a + n) * r;
    assert 0 <= x % P < P;
  }

  /** The residue below p is the one the polynomial has. */
  lemma Canonical(n: int, h: int, acc: int)
    requires Congruent(n, h, P) && Congruent(h, acc, P) && 0 <= acc < P
    ensures n % P == acc
  {
    CongTrans(n, h, acc, P);
    CongMod(n, P);
    CongSym(n, n % P, P);
    CongTrans(n % P, n, acc, P);
    CongUnique(n % P, acc, P);
  }

  lemma ModSum(x: int, y: int)
    ensures (x % W128 + y) % W128 == (x + y) % W128
  {
    DivMod(x + y, W128, x / W128 + (x % W128 + y) / W128, (x % W128 + y) % W128);
  }

  lemma TagBytes(t: Four, tag: seq<byte>)
    requires Words(t) && tag == P32le(t.w0) + P32le(t.w1) + P32le(t.w2) + P32le(t.w3)
    ensures |tag| == 16 && LeVal(tag) == W(t)
  {
    hide LeVal, W, P32le;
    Le16(tag);
    P32leValue(t.w0);
    P32leValue(t.w1);
    P32leValue(t.w2);
    P32leValue(t.w3);
    assert tag[0..4] == P32le(t.w0) && tag[4..8] == P32le(t.w1) && tag[8..12] == P32le(t.w2);
    assert tag[12..16] == P32le(t.w3);
    SliceLe(tag, 0);
    SliceLe(tag, 4);
    SliceLe(tag, 8);
    SliceLe(tag, 12);
  }

  lemma SliceLe(m: seq<byte>, i: nat)
    requires i + 4 <= |m|
    ensures U32le(m, i) == U32le(m[i..i + 4], 0)
  {}

  /** The carry chain at the end of a block, in the widths it is done in. */
  method Carry(x0: u64, x1: u64, x2: u64, x3: u64, x4: u64) returns (h: Five)
    requires x0 < COL && x1 < COL && x2 < COL && x3 < COL && x4 < 0x80_0000_0000_0000
    ensures h == Settle(Five(x0, x1, x2, x3, x4)) && Settled(h)
  {
    hide Settle, Settled, Hi, Lo;
    SettleBound(Five(x0, x1, x2, x3, x4));
    var c: u32, h0: u32, h1: u32, h2: u32, h3: u32, h4: u32;
    c, h0 := Shift(x0, 0);
    ghost var d1 := x1 + c;
    c, h1 := Shift(x1, c);
    ghost var d2 := x2 + c;
    c, h2 := Shift(x2, c);
    ghost var d3 := x3 + c;
    c, h3 := Shift(x3, c);
    ghost var d4 := x4 + c;
    c, h4 := Shift(x4, c);
    h0 := h0 + c * 5;
    SettleIs(Five(x0, x1, x2, x3, x4), d1, d2, d3, d4, h0);
    c, h0 := Shift(h0, 0);
    h1 := h1 + c;
    h := Five(h0, h1, h2, h3, h4);
  }

  function Hi(x: int): int
  {
    x / T26
  }

  function Lo(x: int): int
  {
    x % T26
  }

  lemma SettleIs(d: Five, d1: int, d2: int, d3: int, d4: int, h0: int)
    requires d1 == d.x1 + Hi(d.x0) && d2 == d.x2 + Hi(d1) && d3 == d.x3 + Hi(d2) && d4 == d.x4 + Hi(d3)
    requires h0 == Lo(d.x0) + Hi(d4) * 5
    ensures Settle(d) == Five(Lo(h0), Lo(d1) + Hi(h0), Lo(d2), Lo(d3), Lo(d4))
  {}

  /** Add a carry to a column and split it again. */
  method Shift(x: u64, carry: u32) returns (c: u32, low: u32)
    requires x < COL
    ensures c == Hi(x + carry) && low == Lo(x + carry) && low < T26
    ensures (x < 0x80_0000_0000_0000 ==> c < 0x3000_0000) && (x + carry < 0x1_0000_0000 ==> c < 64)
  {
    var d: u64 := x + carry;
    c, low := d / T26, d % T26;
  }
}
