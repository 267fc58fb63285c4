/** Big-endian byte strings read one bit at a time from the top, as the exponent and scalar loops do. */
module Bits {
  import opened Limbs

  ghost function BeVal(s: seq<byte>): nat
  {
    if s == [] then 0 else BeVal(s[..|s| - 1]) * 256 + s[|s| - 1]
  }

  /** x >> n on a byte. */
  function Shr(x: byte, n: nat): (r: byte)
    ensures r <= x
  {
    if n == 0 then x else Shr(x, n - 1) / 2
  }

  function Bit(x: byte, n: nat): (b: byte)
    ensures b <= 1
  {
    Shr(x, n) % 2
  }

  /** The number spelled by the first n bits. */
  ghost function Scan(s: seq<byte>, n: nat): nat
    requires n <= 8 * |s|
  {
    if n == 0 then 0 else 2 * Scan(s, n - 1) + Bit(s[(n - 1) / 8], 7 - (n - 1) % 8)
  }

  lemma {:induction false} ScanPrefix(s: seq<byte>, t: seq<byte>, n: nat)
    requires n <= 8 * |s| && s <= t
    ensures Scan(s, n) == Scan(t, n)
  {
    if n > 0 {
      ScanPrefix(s, t, n - 1);
    }
  }

  lemma ScanNext(s: seq<byte>, i: nat, j: nat)
    requires i < |s| && j < 8
    ensures Scan(s, 8 * i + j + 1) == 2 * Scan(s, 8 * i + j) + Bit(s[i], 7 - j)
  {
    assert (8 * i + j) / 8 == i && (8 * i + j) % 8 == j;
  }

  /** Eight more bits append one byte. */
  lemma ScanByte(s: seq<byte>, i: nat)
    requires i < |s|
    ensures Scan(s, 8 * i + 8) == 256 * Scan(s, 8 * i) + s[i]
  {
    hide Scan, Bit, Shr;
    ScanNext(s, i, 0);
    ScanNext(s, i, 1);
    ScanNext(s, i, 2);
    ScanNext(s, i, 3);
    ScanNext(s, i, 4);
    ScanNext(s, i, 5);
    ScanNext(s, i, 6);
    ScanNext(s, i, 7);
    ByteFromBits(s[i]);
  }

  lemma ByteFromBits(b: byte)
    ensures b == Bit(b, 0) + 2 * Bit(b, 1) + 4 * Bit(b, 2) + 8 * Bit(b, 3)
              + 16 * Bit(b, 4) + 32 * Bit(b, 5) + 64 * Bit(b, 6) + 128 * Bit(b, 7)
  {
    assert Shr(b, 1) == b / 2;
    assert Shr(b, 2) == Shr(b, 1) / 2;
    assert Shr(b, 3) == Shr(b, 2) / 2;
    assert Shr(b, 4) == Shr(b, 3) / 2;
    assert Shr(b, 5) == Shr(b, 4) / 2;
    assert Shr(b, 6) == Shr(b, 5) / 2;
    assert Shr(b, 7) == Shr(b, 6) / 2;
  }

  /** Scanning every bit reads the big-endian value. */
  lemma {:induction false} ScanAll(s: seq<byte>)
    ensures Scan(s, 8 * |s|) == BeVal(s)
  {
    if s != [] {
      var n := |s| - 1;
      ScanAll(s[..n]);
      ScanPrefix(s[..n], s, 8 * n);
      ScanByte(s, n);
    }
  }

  lemma BeValLast(s: seq<byte>)
    requires s != []
    ensures BeVal(s) == BeVal(s[..|s| - 1]) * 256 + s[|s| - 1]
  {}

  lemma Shifted(x: int, p: int, y: int, c: int)
    ensures (x * p + y) * 256 + c == x * (256 * p) + (y * 256 + c)
  {}

  /** A prefix and the bytes after it. */
  lemma {:induction false} BeValAppend(a: seq<byte>, b: seq<byte>)
    ensures BeVal(a + b) == BeVal(a) * Pow(256, |b|) + BeVal(b)
  {
    if b == [] {
      assert a + b == a;
    } else {
      var n := |b| - 1;
      BeValAppend(a, b[..n]);
      assert Pow(256, |b|) == 256 * Pow(256, n);
      hide BeVal, Pow;
      BeValLast(b);
      BeValLast(a + b);
      assert (a + b)[..|a + b| - 1] == a + b[..n];
      Shifted(BeVal(a), Pow(256, n), BeVal(b[..n]), b[n]);
    }
  }
}
