/** The CRC of sixteen bits, high bit first, by table on machine words. */
module Crc16 {
  import opened CrcDivision
  import opened Gf2

  const POLY: bv16 := 0x1021

  function And(c: bv16, m: bv16): bv16
  {
    c & m
  }

  predicate Has(c: bv16, m: bv16)
  {
    And(c, m) != 0
  }

  /** The bit that holds the coefficient of x to the i. */
  function Mask(i: nat): bv16
    requires i < 16
  {
    [1, 2, 4, 8, 0x10, 0x20, 0x40, 0x80, 0x100, 0x200, 0x400, 0x800, 0x1000, 0x2000, 0x4000, 0x8000][i]
  }

  function RegBits(c: bv16): (b: Bits)
    ensures |b| == 16
  {
    seq(16, i requires 0 <= i < 16 => Has(c, Mask(i)))
  }

  function Wide(x: bv8): bv16
  {
    x as bv16
  }

  /** A byte is fed high bit first. */
  function ByteBits(x: bv8): (b: Bits)
    ensures |b| == 8
  {
    seq(8, j requires 0 <= j < 8 => Has(Wide(x), Mask(7 - j)))
  }

  function MessageBits(p: seq<bv8>): (b: Bits)
    ensures |b| == 8 * |p|
  {
    if p == [] then [] else ByteBits(p[0]) + MessageBits(p[1..])
  }

  /** The generator, x^16 + x^12 + x^5 + 1, below its leading term. */
  function G(): (b: Bits)
    ensures |b| == 16 && b[0]
  {
    assert Has(POLY, Mask(0));
    RegBits(POLY)
  }

  /* ---- words as bits ---- */

  /** m picks out one bit of c, or nothing. */
  predicate Single(c: bv16, m: bv16)
  {
    And(c, m) == 0 || And(c, m) == m
  }

  function Left(c: bv16, k: nat): bv16
    requires k == 1 || k == 8
  {
    if k == 1 then c << 1 else c << 8
  }

  function Right(m: bv16, k: nat): bv16
    requires k == 1 || k == 8
  {
    if k == 1 then m >> 1 else m >> 8
  }

  lemma MaskRight(i: nat, k: nat)
    requires i < 16 && (k == 1 || k == 8)
    ensures i >= k ==> Right(Mask(i), k) == Mask(i - k)
    ensures i < k ==> Right(Mask(i), k) == 0
  {}

  lemma OneBit(c: bv16, i: nat)
    requires i < 16
    ensures Single(c, Mask(i))
  {}

  lemma HasLeft(c: bv16, m: bv16, k: nat)
    requires k == 1 || k == 8
    ensures Has(Left(c, k), m) == Has(c, Right(m, k))
  {
    assert (c << 1) & m == (c & (m >> 1)) << 1;
    assert (c << 8) & m == (c & (m >> 8)) << 8;
  }

  function Plus(c: bv16, d: bv16): bv16
  {
    c ^ d
  }

  lemma XorBit(c: bv16, d: bv16, m: bv16)
    requires Single(c, m) && Single(d, m)
    ensures Has(Plus(c, d), m) == (Has(c, m) != Has(d, m))
  {
    hide And, Plus;
    XorAnd(c, d, m);
    XorCases(And(c, m), And(d, m), m);
  }

  lemma XorAnd(c: bv16, d: bv16, m: bv16)
    ensures And(Plus(c, d), m) == Plus(And(c, m), And(d, m))
  {}

  lemma XorCases(u: bv16, v: bv16, m: bv16)
    requires (u == 0 || u == m) && (v == 0 || v == m)
    ensures (Plus(u, v) != 0) == ((u != 0) != (v != 0))
  {
    assert Plus(m, m) == 0 && Plus(0, m) == m && Plus(m, 0) == m;
  }

  lemma ZeroHas(c: bv16)
    ensures !Has(c, 0)
  {}

  lemma XorBits(c: bv16, d: bv16)
    ensures RegBits(Plus(c, d)) == Xor(RegBits(c), RegBits(d))
  {
    hide Has, Mask, Single, Plus;
    forall i | 0 <= i < 16
      ensures RegBits(Plus(c, d))[i] == Xor(RegBits(c), RegBits(d))[i]
    {
      OneBit(c, i);
      OneBit(d, i);
      XorBit(c, d, Mask(i));
    }
  }

  lemma LeftBits(c: bv16, k: nat)
    requires k == 1 || k == 8
    ensures RegBits(Left(c, k)) == UpBy(RegBits(c), k)
  {
    hide Has, Mask, Left, Right;
    forall i | 0 <= i < 16
      ensures RegBits(Left(c, k))[i] == UpBy(RegBits(c), k)[i]
    {
      MaskRight(i, k);
      HasLeft(c, Mask(i), k);
      ZeroHas(c);
    }
  }

  /* ---- one step, eight steps, a byte ---- */

  /** One bit into the register, as a shift and a conditional exclusive or. */
  function StepWord(c: bv16, b: bool): bv16
  {
    if Has(c, 0x8000) != b then Plus(Left(c, 1), POLY) else Left(c, 1)
  }

  lemma StepBits(c: bv16, b: bool)
    ensures RegBits(StepWord(c, b)) == Step(G(), RegBits(c), b)
  {
    hide Has, Left, RegBits, Step, Xor, UpBy, Plus;
    TopBit(c);
    StepUp(G(), RegBits(c), b);
    LeftBits(c, 1);
    XorBits(Left(c, 1), POLY);
  }

  lemma TopBit(c: bv16)
    ensures RegBits(c)[15] == Has(c, 0x8000)
  {}

  function ShiftWord(c: bv16, n: nat): bv16
    decreases n
  {
    if n == 0 then c else ShiftWord(StepWord(c, false), n - 1)
  }

  lemma {:induction false} ShiftBits(c: bv16, n: nat)
    ensures RegBits(ShiftWord(c, n)) == Feed(G(), RegBits(c), Zeros(n))
    decreases n
  {
    hide StepWord, RegBits, Step, G;
    if n > 0 {
      StepBits(c, false);
      ShiftBits(StepWord(c, false), n - 1);
      assert Zeros(n)[1..] == Zeros(n - 1);
    }
  }

  /** A byte at the top of the register. */
  function Placed(x: bv8): bv16
  {
    (x as bv16) << 8
  }

  function HighByte(c: bv16): bv16
  {
    c & 0xff00
  }

  /** What the table holds for a byte. */
  function Entry(x: bv8): bv16
  {
    ShiftWord(Placed(x), 8)
  }

  function Index(c: bv16, x: bv8): bv8
  {
    ((c >> 8) as bv8) ^ x
  }

  /** One byte into the register, by table. */
  function ByteWord(c: bv16, x: bv8): bv16
  {
    Plus(Left(c, 8), Entry(Index(c, x)))
  }

  lemma IndexWord(c: bv16, x: bv8)
    ensures Placed(Index(c, x)) == Plus(HighByte(c), Placed(x))
  {}

  lemma HighAt(c: bv16, i: nat)
    requires i < 16
    ensures Has(HighByte(c), Mask(i)) == (i >= 8 && Has(c, Mask(i)))
  {
    hide Mask;
    MaskHigh(i);
    HighAnd(c, Mask(i));
  }

  lemma MaskHigh(i: nat)
    requires i < 16
    ensures 0xff00 & Mask(i) == if i >= 8 then Mask(i) else 0
  {}

  lemma HighAnd(c: bv16, m: bv16)
    ensures HighByte(c) & m == c & (0xff00 & m)
  {}

  lemma PlacedAt(x: bv8, i: nat)
    requires i < 16
    ensures Has(Placed(x), Mask(i)) == (i >= 8 && ByteBits(x)[15 - i])
  {
    hide Has, Mask, Placed, Left, Right, Wide;
    PlacedLeft(x);
    HasLeft(Wide(x), Mask(i), 8);
    MaskRight(i, 8);
    ZeroHas(Wide(x));
  }

  lemma PlacedLeft(x: bv8)
    ensures Placed(x) == Left(Wide(x), 8)
  {}

  lemma IndexBits(c: bv16, x: bv8)
    ensures RegBits(Placed(Index(c, x))) == Top(Mix(RegBits(c), ByteBits(x)), 8)
  {
    hide Has, Mask, Placed, HighByte, Index, ByteBits, Plus;
    IndexWord(c, x);
    XorBits(HighByte(c), Placed(x));
    forall i | 0 <= i < 16
      ensures RegBits(Placed(Index(c, x)))[i] == Top(Mix(RegBits(c), ByteBits(x)), 8)[i]
    {
      HighAt(c, i);
      PlacedAt(x, i);
    }
  }

  lemma EntryBits(x: bv8)
    ensures RegBits(Entry(x)) == Feed(G(), RegBits(Placed(x)), Zeros(8))
  {
    hide RegBits, ShiftWord, Placed, Feed, G;
    ShiftBits(Placed(x), 8);
  }

  /** The table step feeds the eight bits of the byte. */
  lemma ByteStep(c: bv16, x: bv8)
    ensures RegBits(ByteWord(c, x)) == Feed(G(), RegBits(c), ByteBits(x))
  {
    hide RegBits, Left, Index, ByteBits, Entry, Placed, Feed, Top, Mix, UpBy, Xor, G, Plus;
    TableStep(G(), RegBits(c), ByteBits(x));
    IndexBits(c, x);
    EntryBits(Index(c, x));
    LeftBits(c, 8);
    XorBits(Left(c, 8), Entry(Index(c, x)));
  }

  /* ---- whole messages ---- */

  function Sum(c: bv16, p: seq<bv8>): bv16
    decreases |p|
  {
    if p == [] then c else Sum(ByteWord(c, p[0]), p[1..])
  }

  /** The table-driven sum of a message is its division by the generator, one bit at a time. */
  lemma {:induction false} SumDivides(c: bv16, p: seq<bv8>)
    ensures RegBits(Sum(c, p)) == Feed(G(), RegBits(c), MessageBits(p))
    decreases |p|
  {
    hide RegBits, ByteWord, Step, ByteBits, G;
    if p != [] {
      ByteStep(c, p[0]);
      SumDivides(ByteWord(c, p[0]), p[1..]);
      FeedAppend(G(), RegBits(c), ByteBits(p[0]), MessageBits(p[1..]));
    }
  }

  lemma BitAt(c: bv16, i: nat)
    requires i < 16
    ensures RegBits(c)[i] == (c & Mask(i) != 0)
  {}

  /** Distinct registers have distinct bits. */
  lemma BitsInjective(c: bv16, d: bv16)
    requires RegBits(c) == RegBits(d)
    ensures c == d
  {
    forall i: nat | i < 16
      ensures (c & Mask(i) != 0) == (d & Mask(i) != 0)
    {
      hide RegBits, Mask;
      BitAt(c, i);
      BitAt(d, i);
    }
    SameMasks(c, d);
  }

  lemma SameMasks(c: bv16, d: bv16)
    requires forall i: nat | i < 16 :: (c & Mask(i) != 0) == (d & Mask(i) != 0)
    ensures c == d
  {
    assert Mask(0) == 1 && Mask(1) == 2 && Mask(2) == 4 && Mask(3) == 8;
    assert Mask(4) == 0x10 && Mask(5) == 0x20 && Mask(6) == 0x40 && Mask(7) == 0x80;
    assert Mask(8) == 0x100 && Mask(9) == 0x200 && Mask(10) == 0x400 && Mask(11) == 0x800;
    assert Mask(12) == 0x1000 && Mask(13) == 0x2000 && Mask(14) == 0x4000 && Mask(15) == 0x8000;
  }

  /* ---- what the sums promise ---- */

  /** A sum can be taken in pieces: the result of one is the seed of the next. */
  lemma {:induction false} SumAppend(c: bv16, p: seq<bv8>, q: seq<bv8>)
    ensures Sum(c, p + q) == Sum(Sum(c, p), q)
    decreases |p|
  {
    hide ByteWord;
    if p == [] {
      assert p + q == q;
    } else {
      assert (p + q)[1..] == p[1..] + q;
      SumAppend(ByteWord(c, p[0]), p[1..], q);
    }
  }

  /** The sum is the remainder of the dividend by the generator, and nothing else is. */
  lemma SumIsRemainder(c: bv16, p: seq<bv8>, d: bv16)
    ensures d == Sum(c, p) <==>
      Congruent(Generator(G()), Dividend(RegBits(c), MessageBits(p)), RegisterPoly(RegBits(d)))
  {
    hide Feed, RegBits, Sum, Congruent, Generator, Dividend, RegisterPoly, G, MessageBits;
    SumDivides(c, p);
    FeedIsRemainder(G(), RegBits(c), MessageBits(p), RegBits(d));
    if RegBits(d) == RegBits(Sum(c, p)) {
      BitsInjective(d, Sum(c, p));
    }
  }

  function PlusByte(x: bv8, y: bv8): bv8
  {
    x ^ y
  }

  /** One message added to another of the same length, bit by bit. */
  function XorBytes(p: seq<bv8>, q: seq<bv8>): seq<bv8>
    requires |p| == |q|
  {
    seq(|p|, i requires 0 <= i < |p| => PlusByte(p[i], q[i]))
  }

  lemma PlacedXor(x: bv8, y: bv8)
    ensures Placed(PlusByte(x, y)) == Plus(Placed(x), Placed(y))
  {}

  lemma ByteXor(x: bv8, y: bv8)
    ensures ByteBits(PlusByte(x, y)) == Xor(ByteBits(x), ByteBits(y))
  {
    hide Has, Mask, ByteBits, Placed, Plus, PlusByte;
    PlacedXor(x, y);
    XorBits(Placed(x), Placed(y));
    forall j | 0 <= j < 8
      ensures ByteBits(PlusByte(x, y))[j] == Xor(ByteBits(x), ByteBits(y))[j]
    {
      PlacedAt(x, 15 - j);
      PlacedAt(y, 15 - j);
      PlacedAt(PlusByte(x, y), 15 - j);
      assert RegBits(Placed(PlusByte(x, y)))[15 - j] == Xor(RegBits(Placed(x)), RegBits(Placed(y)))[15 - j];
    }
  }

  lemma {:induction false} MessageXor(p: seq<bv8>, q: seq<bv8>)
    requires |p| == |q|
    ensures MessageBits(XorBytes(p, q)) == Xor(MessageBits(p), MessageBits(q))
    decreases |p|
  {
    hide ByteBits, PlusByte, Xor;
    if p == [] {
      XorNone();
    } else {
      var s := XorBytes(p, q);
      assert s[1..] == XorBytes(p[1..], q[1..]);
      ByteXor(p[0], q[0]);
      MessageXor(p[1..], q[1..]);
      XorConcat(ByteBits(p[0]), MessageBits(p[1..]), ByteBits(q[0]), MessageBits(q[1..]));
    }
  }

  lemma XorNone()
    ensures Xor([], []) == []
  {}

  /** The sum is linear in the register and the message together. */
  lemma SumLinear(c: bv16, d: bv16, p: seq<bv8>, q: seq<bv8>)
    requires |p| == |q|
    ensures Sum(Plus(c, d), XorBytes(p, q)) == Plus(Sum(c, p), Sum(d, q))
  {
    hide Feed, RegBits, Sum, Plus, G, MessageBits, XorBytes, Xor;
    SumDivides(c, p);
    SumDivides(d, q);
    XorLength(p, q);
    SumDivides(Plus(c, d), XorBytes(p, q));
    XorBits(c, d);
    MessageXor(p, q);
    FeedLinear(G(), RegBits(c), RegBits(d), MessageBits(p), MessageBits(q));
    XorBits(Sum(c, p), Sum(d, q));
    BitsInjective(Sum(Plus(c, d), XorBytes(p, q)), Plus(Sum(c, p), Sum(d, q)));
  }

  lemma XorLength(p: seq<bv8>, q: seq<bv8>)
    requires |p| == |q|
    ensures |XorBytes(p, q)| == |p|
  {}

  lemma ByteInjective(x: bv8, y: bv8)
    requires ByteBits(x) == ByteBits(y)
    ensures x == y
  {
    hide Has, Mask, ByteBits, Placed;
    forall i | 0 <= i < 16
      ensures RegBits(Placed(x))[i] == RegBits(Placed(y))[i]
    {
      PlacedAt(x, i);
      PlacedAt(y, i);
    }
    BitsInjective(Placed(x), Placed(y));
    PlacedInjective(x, y);
  }

  lemma PlacedInjective(x: bv8, y: bv8)
    requires Placed(x) == Placed(y)
    ensures x == y
  {
    assert (Placed(x) >> 8) as bv8 == x && (Placed(y) >> 8) as bv8 == y;
  }

  lemma {:induction false} MessageInjective(p: seq<bv8>, q: seq<bv8>)
    requires |p| == |q| && MessageBits(p) == MessageBits(q)
    ensures p == q
    decreases |p|
  {
    hide ByteBits;
    if p != [] {
      assert MessageBits(p)[..8] == ByteBits(p[0]) && MessageBits(q)[..8] == ByteBits(q[0]);
      ByteInjective(p[0], q[0]);
      assert MessageBits(p)[8..] == MessageBits(p[1..]) && MessageBits(q)[8..] == MessageBits(q[1..]);
      MessageInjective(p[1..], q[1..]);
    }
  }

  lemma {:induction false} MessageAppend(p: seq<bv8>, q: seq<bv8>)
    ensures MessageBits(p + q) == MessageBits(p) + MessageBits(q)
    decreases |p|
  {
    hide ByteBits;
    if p == [] {
      assert p + q == q;
    } else {
      assert (p + q)[1..] == p[1..] + q;
      MessageAppend(p[1..], q);
    }
  }

  /** Messages alike but for two adjacent bytes never have the same sum. */
  lemma TwoBytesDetected(c: bv16, before: seq<bv8>, x: seq<bv8>, y: seq<bv8>, after: seq<bv8>)
    requires |x| == |y| <= 2
    ensures Sum(c, before + x + after) == Sum(c, before + y + after) <==> x == y
  {
    hide Feed, RegBits, Sum, G, MessageBits;
    SumDivides(c, before + x + after);
    SumDivides(c, before + y + after);
    MessageAppend(before, x);
    MessageAppend(before, y);
    MessageAppend(before + x, after);
    MessageAppend(before + y, after);
    BurstDetected(G(), RegBits(c), MessageBits(before), MessageBits(x), MessageBits(y), MessageBits(after));
    if MessageBits(x) == MessageBits(y) {
      MessageInjective(x, y);
    }
  }

  /* ---- the check bytes of a frame ---- */

  /** The register as it is sent: high byte first. */
  function CheckBytes(c: bv16): (t: seq<bv8>)
    ensures |t| == 2
  {
    [(c >> 8) as bv8, (c & 0xff) as bv8]
  }

  function Word(t: seq<bv8>): bv16
    requires |t| == 2
  {
    Plus(Placed(t[0]), Wide(t[1]))
  }

  lemma WordOf(c: bv16, t: seq<bv8>)
    requires |t| == 2
    ensures Word(t) == c <==> t == CheckBytes(c)
  {
    WordBytes(c, t[0], t[1]);
    assert t == [t[0], t[1]];
  }

  lemma WordBytes(c: bv16, h: bv8, l: bv8)
    ensures Plus(Placed(h), Wide(l)) == c <==> h == (c >> 8) as bv8 && l == (c & 0xff) as bv8
  {
    BytesOfWord(h, l);
    WordOfBytes(c);
  }

  lemma BytesOfWord(h: bv8, l: bv8)
    ensures (Plus(Placed(h), Wide(l)) >> 8) as bv8 == h && (Plus(Placed(h), Wide(l)) & 0xff) as bv8 == l
  {}

  lemma WordOfBytes(c: bv16)
    ensures Plus(Placed((c >> 8) as bv8), Wide((c & 0xff) as bv8)) == c
  {}

  lemma WideAt(x: bv8, i: nat)
    requires i < 16
    ensures Has(Wide(x), Mask(i)) == (i < 8 && ByteBits(x)[7 - i])
  {
    hide Has, Mask;
    if i >= 8 {
      MaskHigh(i);
      WideLow(x, Mask(i));
    }
  }

  lemma WideLow(x: bv8, m: bv16)
    requires 0xff00 & m == m
    ensures !Has(Wide(x), m)
  {}

  lemma TailBits(t: seq<bv8>)
    requires |t| == 2
    ensures Backwards(MessageBits(t)) == RegBits(Word(t))
  {
    hide Has, Mask, Placed, Wide, ByteBits, Plus;
    var b := MessageBits(t);
    assert t[1..] == [t[1]] && [t[1]][1..] == [];
    assert MessageBits([t[1]]) == ByteBits(t[1]) + MessageBits([]);
    assert b == ByteBits(t[0]) + ByteBits(t[1]);
    XorBits(Placed(t[0]), Wide(t[1]));
    forall i | 0 <= i < 16
      ensures Backwards(b)[i] == RegBits(Word(t))[i]
    {
      PlacedAt(t[0], i);
      WideAt(t[1], i);
    }
  }

  lemma ZeroFeed(n: nat)
    ensures Feed(G(), RegBits(0), Zeros(n)) == RegBits(0)
    decreases n
  {
    hide RegBits, Step;
    if n > 0 {
      StepBits(0, false);
      assert StepWord(0, false) == 0;
      ZeroFeed(n - 1);
      assert Zeros(n)[1..] == Zeros(n - 1);
    }
  }

  lemma PlusSelf(c: bv16, d: bv16)
    ensures Plus(c, d) == 0 <==> c == d
  {
    PlusTwice(c, d);
    PlusZero(c);
    hide Plus;
  }

  lemma PlusTwice(c: bv16, d: bv16)
    ensures Plus(c, Plus(c, d)) == d
  {}

  lemma PlusZero(c: bv16)
    ensures Plus(c, 0) == c && Plus(c, c) == 0
  {}

  lemma SelfXor(c: bv16, d: bv16)
    ensures Xor(RegBits(c), RegBits(d)) == RegBits(0) <==> c == d
  {
    hide RegBits, Plus;
    XorBits(c, d);
    PlusSelf(c, d);
    if Xor(RegBits(c), RegBits(d)) == RegBits(0) {
      BitsInjective(Plus(c, d), 0);
    }
  }

  /** A frame and its tail run to zero exactly when the tail is the frame's own sum, high byte first. */
  lemma FrameChecks(c: bv16, body: seq<bv8>, tail: seq<bv8>)
    requires |tail| == 2
    ensures Sum(c, body + tail) == 0 <==> tail == CheckBytes(Sum(c, body))
  {
    hide Feed, RegBits, Sum, G, MessageBits, Word, CheckBytes, Xor;
    var d := Sum(c, body);
    SumAppend(c, body, tail);
    SumDivides(d, tail);
    ZeroFeed(16);
    Residue(G(), RegBits(d), MessageBits(tail), RegBits(0));
    TailBits(tail);
    SelfXor(d, Word(tail));
    WordOf(d, tail);
    if RegBits(Sum(d, tail)) == RegBits(0) {
      BitsInjective(Sum(d, tail), 0);
    }
  }
}
