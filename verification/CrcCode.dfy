/** The tables, built once, and the two loops that run over every byte. */
module CrcCode {
  import Crc16
  import Crc32

  /* ---- thirty-two bit arithmetic on a sixteen bit register ---- */

  /** The low half of a machine word. */
  function Low(c: bv32): bv16
  {
    (c & 0xffff) as bv16
  }

  function Shift32(c: bv32): bv32
  {
    if c & 0x8000 != 0 then (c << 1) ^ 0x1021 else c << 1
  }

  lemma LowTop(c: bv32)
    ensures Crc16.Has(Low(c), 0x8000) == (c & 0x8000 != 0)
  {}

  lemma LowLeft(c: bv32)
    ensures Low(c << 1) == Crc16.Left(Low(c), 1)
  {}

  lemma LowXor(c: bv32)
    ensures Low(c ^ 0x1021) == Crc16.Plus(Low(c), Crc16.POLY)
  {}

  /** Bits shifted past the register do not come back. */
  lemma LowStep(c: bv32)
    ensures Low(Shift32(c)) == Crc16.StepWord(Low(c), false)
  {
    hide Low, Crc16.Has, Crc16.Left, Crc16.Plus;
    LowTop(c);
    LowLeft(c);
    LowXor(c << 1);
  }

  lemma LowPlaced(x: bv8)
    ensures Low((x as bv32) << 8) == Crc16.Placed(x)
  {}

  /** The register as the machine holds it. */
  function Held(c: bv16): bv32
  {
    c as bv32
  }

  function Index16(c: bv32, x: bv8): bv8
  {
    (((c >> 8) ^ (x as bv32)) & 0xff) as bv8
  }

  lemma IndexLow(c: bv16, x: bv8)
    ensures Index16(Held(c), x) == Crc16.Index(c, x)
  {}

  function Next16(c: bv32, e: bv16): bv32
  {
    ((c << 8) ^ (e as bv32)) & 0xffff
  }

  lemma NextLow(c: bv16, e: bv16)
    ensures Next16(Held(c), e) == Held(Crc16.Plus(Crc16.Left(c, 8), e))
  {}

  function Index32(c: bv32, x: bv8): bv8
  {
    ((c ^ (x as bv32)) & 0xff) as bv8
  }

  lemma IndexSame(c: bv32, x: bv8)
    ensures Index32(c, x) == Crc32.Index(c, x)
  {}

  lemma ByteIndex(x: bv8)
    ensures (x as int) as bv8 == x
  {}

  class Tables {
    const tab16: array<bv16>
    const tab32: array<bv32>

    ghost predicate Valid()
      reads this, tab16, tab32
    {
      && tab16.Length == 256 && tab32.Length == 256
      && (forall k | 0 <= k < 256 :: tab16[k] == Crc16.Entry(k as bv8))
      && (forall k | 0 <= k < 256 :: tab32[k] == Crc32.Entry(k as bv8))
    }

    constructor ()
      ensures Valid() && fresh(tab16) && fresh(tab32)
    {
      tab16, tab32 := new bv16[256], new bv32[256];
      new;
      Fill16();
      Fill32();
    }

    method Fill16()
      requires tab16.Length == 256
      modifies tab16
      ensures forall k | 0 <= k < 256 :: tab16[k] == Crc16.Entry(k as bv8)
    {
      hide Crc16.Entry;
      var i := 0;
      while i < 256
        invariant 0 <= i <= 256
        invariant forall k | 0 <= k < i :: tab16[k] == Crc16.Entry(k as bv8)
      {
        var e := Entry16(i as bv8);
        tab16[i] := e;
        i := i + 1;
      }
    }

    method Fill32()
      requires tab32.Length == 256
      modifies tab32
      ensures forall k | 0 <= k < 256 :: tab32[k] == Crc32.Entry(k as bv8)
    {
      hide Crc32.Entry;
      var i := 0;
      while i < 256
        invariant 0 <= i <= 256
        invariant forall k | 0 <= k < i :: tab32[k] == Crc32.Entry(k as bv8)
      {
        var e := Entry32(i as bv8);
        tab32[i] := e;
        i := i + 1;
      }
    }

    /** The running value of p from a seed, of which the low sixteen bits count. */
    method Sum16(p: seq<bv8>, seed: bv64) returns (crc: bv32)
      requires Valid()
      ensures crc == Held(Crc16.Sum(SeedLow(seed), p))
    {
      hide Crc16.Entry, Crc16.Index, Crc16.Plus, Crc16.Left, Index16, Next16, Held, SeedLow;
      ghost var c := SeedLow(seed);
      crc := Seed16(seed);
      var i := 0;
      while i < |p|
        invariant 0 <= i <= |p|
        invariant crc == Held(c)
        invariant Crc16.Sum(c, p[i..]) == Crc16.Sum(SeedLow(seed), p)
      {
        IndexLow(c, p[i]);
        var k := Index16(crc, p[i]);
        var e := Look16(k);
        NextLow(c, e);
        assert p[i..][0] == p[i] && p[i..][1..] == p[i + 1..];
        crc := Next16(crc, e);
        c := Crc16.ByteWord(c, p[i]);
        i := i + 1;
      }
    }

    method Look16(k: bv8) returns (e: bv16)
      requires Valid()
      ensures e == Crc16.Entry(k)
    {
      hide Crc16.Entry;
      ByteIndex(k);
      e := tab16[k as int];
    }

    method Look32(k: bv8) returns (e: bv32)
      requires Valid()
      ensures e == Crc32.Entry(k)
    {
      hide Crc32.Entry;
      ByteIndex(k);
      e := tab32[k as int];
    }

    /** The running value of p from a seed, of which the low thirty-two bits count. */
    method Sum32(p: seq<bv8>, seed: bv64) returns (crc: bv32)
      requires Valid()
      ensures crc == Crc32.Sum((seed & 0xffffffff) as bv32, p)
    {
      hide Crc32.Entry, Crc32.Index, Index32;
      crc := (seed & 0xffffffff) as bv32;
      var i := 0;
      while i < |p|
        invariant 0 <= i <= |p|
        invariant Crc32.Sum(crc, p[i..]) == Crc32.Sum((seed & 0xffffffff) as bv32, p)
      {
        IndexSame(crc, p[i]);
        var k := Index32(crc, p[i]);
        var e := Look32(k);
        assert p[i..][0] == p[i] && p[i..][1..] == p[i + 1..];
        crc := (crc >> 8) ^ e;
        i := i + 1;
      }
    }
  }

  function SeedLow(seed: bv64): bv16
  {
    (seed & 0xffff) as bv16
  }

  function Seed16(seed: bv64): (c: bv32)
    ensures c == Held(SeedLow(seed))
  {
    ((seed & 0xffffffff) as bv32) & 0xffff
  }

  /** One entry, shifted bit by bit in a machine word and cut to sixteen bits at the end. */
  method Entry16(x: bv8) returns (e: bv16)
    ensures e == Crc16.Entry(x)
  {
    hide Low, Shift32, Crc16.StepWord, Crc16.Placed;
    LowPlaced(x);
    var c := (x as bv32) << 8;
    var j := 0;
    while j < 8
      invariant 0 <= j <= 8
      invariant Crc16.ShiftWord(Low(c), 8 - j) == Crc16.ShiftWord(Crc16.Placed(x), 8)
    {
      LowStep(c);
      c := Shift32(c);
      j := j + 1;
    }
    e := Low(c);
  }

  method Entry32(x: bv8) returns (e: bv32)
    ensures e == Crc32.Entry(x)
  {
    var c := x as bv32;
    var j := 0;
    while j < 8
      invariant 0 <= j <= 8
      invariant Crc32.ShiftWord(c, 8 - j) == Crc32.ShiftWord(Crc32.Wide(x), 8)
    {
      var d := if c & 1 != 0 then (c >> 1) ^ 0xedb88320 else c >> 1;
      assert d == Crc32.StepWord(c, false);
      c := d;
      j := j + 1;
    }
    e := c;
  }
}
