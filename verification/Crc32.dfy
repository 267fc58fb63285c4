/** The reflected CRC of thirty-two bits, low bit first, by table on machine words. */
module Crc32 {
  import opened CrcDivision
  import opened Gf2

  const POLY: bv32 := 0xedb88320

  function And(c: bv32, m: bv32): bv32
  {
    c & m
  }

  predicate Has(c: bv32, m: bv32)
  {
    And(c, m) != 0
  }

  /** The bit that holds the coefficient of x to the i. */
  function Mask(i: nat): bv32
    requires i < 32
  {
    match i
    case 0 => 0x80000000 case 1 => 0x40000000 case 2 => 0x20000000 case 3 => 0x10000000
    case 4 => 0x8000000 case 5 => 0x4000000 case 6 => 0x2000000 case 7 => 0x1000000
    case 8 => 0x800000 case 9 => 0x400000 case 10 => 0x200000 case 11 => 0x100000
    case 12 => 0x80000 case 13 => 0x40000 case 14 => 0x20000 case 15 => 0x10000
    case 16 => 0x8000 case 17 => 0x4000 case 18 => 0x2000 case 19 => 0x1000
    case 20 => 0x800 case 21 => 0x400 case 22 => 0x200 case 23 => 0x100
    case 24 => 0x80 case 25 => 0x40 case 26 => 0x20 case 27 => 0x10
    case 28 => 8 case 29 => 4 case 30 => 2 case _ => 1
  }

  function RegBits(c: bv32): (b: Bits)
    ensures |b| == 32
  {
    seq(32, i requires 0 <= i < 32 => Has(c, Mask(i)))
  }

  function Wide(x: bv8): bv32
  {
    x as bv32
  }

  /** A byte is fed low bit first. */
  function ByteBits(x: bv8): (b: Bits)
    ensures |b| == 8
  {
    seq(8, j requires 0 <= j < 8 => Has(Wide(x), Mask(31 - j)))
  }

  function MessageBits(p: seq<bv8>): (b: Bits)
    ensures |b| == 8 * |p|
  {
    if p == [] then [] else ByteBits(p[0]) + MessageBits(p[1..])
  }

  /** The generator, x^32 + x^26 + x^23 + x^22 + x^16 + x^12 + x^11 + x^10 + x^8 + x^7 + x^5 + x^4 + x^2 + x + 1, below
      its leading term. */
  function G(): (b: Bits)
    ensures |b| == 32 && b[0]
  {
    assert Has(POLY, Mask(0));
    RegBits(POLY)
  }

  /* ---- words as bits ---- */

  /** m picks out one bit of c, or nothing. */
  predicate Single(c: bv32, m: bv32)
  {
    And(c, m) == 0 || And(c, m) == m
  }

  function Down(c: bv32, k: nat): bv32
    requires k == 1 || k == 8
  {
    if k == 1 then c >> 1 else c >> 8
  }

  function Up(m: bv32, k: nat): bv32
    requires k == 1 || k == 8
  {
    if k == 1 then m << 1 else m << 8
  }

  lemma MaskUp(i: nat, k: nat)
    requires i < 32 && (k == 1 || k == 8)
    ensures i >= k ==> Up(Mask(i), k) == Mask(i - k)
    ensures i < k ==> Up(Mask(i), k) == 0
  {
    match i
    case 0 => case 1 => case 2 => case 3 => case 4 => case 5 => case 6 => case 7 =>
    case 8 => case 9 => case 10 => case 11 => case 12 => case 13 => case 14 => case 15 =>
    case 16 => case 17 => case 18 => case 19 => case 20 => case 21 => case 22 => case 23 =>
    case 24 => case 25 => case 26 => case 27 => case 28 => case 29 => case 30 => case _ =>
  }

  lemma OneBit(c: bv32, i: nat)
    requires i < 32
    ensures Single(c, Mask(i))
  {
    match i
    case 0 => case 1 => case 2 => case 3 => case 4 => case 5 => case 6 => case 7 =>
    case 8 => case 9 => case 10 => case 11 => case 12 => case 13 => case 14 => case 15 =>
    case 16 => case 17 => case 18 => case 19 => case 20 => case 21 => case 22 => case 23 =>
    case 24 => case 25 => case 26 => case 27 => case 28 => case 29 => case 30 => case _ =>
  }

  lemma HasDown(c: bv32, m: bv32, k: nat)
    requires k == 1 || k == 8
    ensures Has(Down(c, k), m) == Has(c, Up(m, k))
  {
    assert (c >> 1) & m == (c & (m << 1)) >> 1;
    assert (c >> 8) & m == (c & (m << 8)) >> 8;
  }

  function Plus(c: bv32, d: bv32): bv32
  {
    c ^ d
  }

  lemma XorBit(c: bv32, d: bv32, m: bv32)
    requires Single(c, m) && Single(d, m)
    ensures Has(Plus(c, d), m) == (Has(c, m) != Has(d, m))
  {
    hide And, Plus;
    XorAnd(c, d, m);
    XorCases(And(c, m), And(d, m), m);
  }

  lemma XorAnd(c: bv32, d: bv32, m: bv32)
    ensures And(Plus(c, d), m) == Plus(And(c, m), And(d, m))
  {}

  lemma XorCases(u: bv32, v: bv32, m: bv32)
    requires (u == 0 || u == m) && (v == 0 || v == m)
    ensures (Plus(u, v) != 0) == ((u != 0) != (v != 0))
  {
    assert Plus(m, m) == 0 && Plus(0, m) == m && Plus(m, 0) == m;
  }

  lemma ZeroHas(c: bv32)
    ensures !Has(c, 0)
  {}

  lemma XorBits(c: bv32, d: bv32)
    ensures RegBits(Plus(c, d)) == Xor(RegBits(c), RegBits(d))
  {
    hide Has, Mask, Single, Plus;
    forall i | 0 <= i < 32
      ensures RegBits(Plus(c, d))[i] == Xor(RegBits(c), RegBits(d))[i]
    {
      OneBit(c, i);
      OneBit(d, i);
      XorBit(c, d, Mask(i));
    }
  }

  lemma DownBits(c: bv32, k: nat)
    requires k == 1 || k == 8
    ensures RegBits(Down(c, k)) == UpBy(RegBits(c), k)
  {
    hide Has, Mask, Down, Up;
    forall i | 0 <= i < 32
      ensures RegBits(Down(c, k))[i] == UpBy(RegBits(c), k)[i]
    {
      MaskUp(i, k);
      HasDown(c, Mask(i), k);
      ZeroHas(c);
    }
  }

  /* ---- one step, eight steps, a byte ---- */

  /** One bit into the register, as a shift and a conditional exclusive or. */
  function StepWord(c: bv32, b: bool): bv32
  {
    if Has(c, 1) != b then Plus(Down(c, 1), POLY) else Down(c, 1)
  }

  lemma StepBits(c: bv32, b: bool)
    ensures RegBits(StepWord(c, b)) == Step(G(), RegBits(c), b)
  {
    hide Has, Down, RegBits, Step, Xor, UpBy, Plus;
    TopBit(c);
    StepUp(G(), RegBits(c), b);
    DownBits(c, 1);
    XorBits(Down(c, 1), POLY);
  }

  lemma TopBit(c: bv32)
    ensures RegBits(c)[31] == Has(c, 1)
  {
    hide Has;
  }

  function ShiftWord(c: bv32, n: nat): bv32
    decreases n
  {
    if n == 0 then c else ShiftWord(StepWord(c, false), n - 1)
  }

  lemma {:induction false} ShiftBits(c: bv32, n: nat)
    ensures RegBits(ShiftWord(c, n)) == Feed(G(), RegBits(c), Zeros(n))
    decreases n
  {
    hide StepWord, RegBits, Step, G;
    if n > 0 {
      StepBits(c, false);
      ShiftBits(StepWord(c, false), n - 1);
      assert Zeros(n)[1..] == Zeros(n - 1);
    }
  }

  function LowByte(c: bv32): bv32
  {
    c & 0xff
  }

  /** What the table holds for a byte. */
  function Entry(x: bv8): bv32
  {
    ShiftWord(Wide(x), 8)
  }

  function Index(c: bv32, x: bv8): bv8
  {
    ((c & 0xff) as bv8) ^ x
  }

  /** One byte into the register, by table. */
  function ByteWord(c: bv32, x: bv8): bv32
  {
    Plus(Down(c, 8), Entry(Index(c, x)))
  }

  lemma IndexWord(c: bv32, x: bv8)
    ensures Wide(Index(c, x)) == Plus(LowByte(c), Wide(x))
  {}

  lemma LowAt(c: bv32, i: nat)
    requires i < 32
    ensures Has(LowByte(c), Mask(i)) == (i >= 24 && Has(c, Mask(i)))
  {
    hide Mask;
    MaskLow(i);
    LowAnd(c, Mask(i));
  }

  lemma MaskLow(i: nat)
    requires i < 32
    ensures 0xff & Mask(i) == if i >= 24 then Mask(i) else 0
  {
    match i
    case 0 => case 1 => case 2 => case 3 => case 4 => case 5 => case 6 => case 7 =>
    case 8 => case 9 => case 10 => case 11 => case 12 => case 13 => case 14 => case 15 =>
    case 16 => case 17 => case 18 => case 19 => case 20 => case 21 => case 22 => case 23 =>
    case 24 => case 25 => case 26 => case 27 => case 28 => case 29 => case 30 => case _ =>
  }

  lemma LowAnd(c: bv32, m: bv32)
    ensures LowByte(c) & m == c & (0xff & m)
  {}

  lemma WideAt(x: bv8, i: nat)
    requires i < 32
    ensures Has(Wide(x), Mask(i)) == (i >= 24 && ByteBits(x)[31 - i])
  {
    hide Has, Mask, Wide;
    if i < 24 {
      MaskLow(i);
      WideHigh(x, Mask(i));
    }
  }

  lemma WideHigh(x: bv8, m: bv32)
    requires 0xff & m == 0
    ensures !Has(Wide(x), m)
  {
    assert Wide(x) & m == Wide(x) & (0xff & m);
  }

  lemma IndexBits(c: bv32, x: bv8)
    ensures RegBits(Wide(Index(c, x))) == Top(Mix(RegBits(c), ByteBits(x)), 8)
  {
    hide Has, Mask, Wide, LowByte, Index, ByteBits, Plus;
    IndexWord(c, x);
    XorBits(LowByte(c), Wide(x));
    forall i | 0 <= i < 32
      ensures RegBits(Wide(Index(c, x)))[i] == Top(Mix(RegBits(c), ByteBits(x)), 8)[i]
    {
      LowAt(c, i);
      WideAt(x, i);
    }
  }

  lemma EntryBits(x: bv8)
    ensures RegBits(Entry(x)) == Feed(G(), RegBits(Wide(x)), Zeros(8))
  {
    hide RegBits, ShiftWord, Wide, Feed, G;
    ShiftBits(Wide(x), 8);
  }

  /** The table step feeds the eight bits of the byte. */
  lemma ByteStep(c: bv32, x: bv8)
    ensures RegBits(ByteWord(c, x)) == Feed(G(), RegBits(c), ByteBits(x))
  {
    hide RegBits, Down, Index, ByteBits, Entry, Wide, Feed, Top, Mix, UpBy, Xor, G, Plus;
    TableStep(G(), RegBits(c), ByteBits(x));
    IndexBits(c, x);
    EntryBits(Index(c, x));
    DownBits(c, 8);
    XorBits(Down(c, 8), Entry(Index(c, x)));
  }

  /* ---- whole messages ---- */

  function Sum(c: bv32, p: seq<bv8>): bv32
    decreases |p|
  {
    if p == [] then c else Sum(ByteWord(c, p[0]), p[1..])
  }

  /** The table-driven sum of a message is its division by the generator, one bit at a time. */
  lemma {:induction false} SumDivides(c: bv32, p: seq<bv8>)
    ensures RegBits(Sum(c, p)) == Feed(G(), RegBits(c), MessageBits(p))
    decreases |p|
  {
    hide RegBits, ByteWord, Step, ByteBits, G;
    if p != [] {
      ByteStep(c, p[0]);
      SumDivides(ByteWord(c, p[0]), p[1..]);
      FeedAppend(G(), RegBits(c), ByteBits(p[0]), MessageBits(p[1..]));
    }
  }

  /** Distinct registers have distinct bits. */
  lemma BitsInjective(c: bv32, d: bv32)
    requires RegBits(c) == RegBits(d)
    ensures c == d
  {
    hide RegBits, Plus;
    XorBits(c, d);
    NoneSet(Plus(c, d));
    PlusCancel(c, d, 0);
  }

  lemma NoneSet(e: bv32)
    requires forall i | 0 <= i < 32 :: !RegBits(e)[i]
    ensures e == 0
  {
    hide Has, And;
    assert !RegBits(e)[0] && !RegBits(e)[1] && !RegBits(e)[2] && !RegBits(e)[3];
    assert !RegBits(e)[4] && !RegBits(e)[5] && !RegBits(e)[6] && !RegBits(e)[7];
    assert !RegBits(e)[8] && !RegBits(e)[9] && !RegBits(e)[10] && !RegBits(e)[11];
    assert !RegBits(e)[12] && !RegBits(e)[13] && !RegBits(e)[14] && !RegBits(e)[15];
    assert !RegBits(e)[16] && !RegBits(e)[17] && !RegBits(e)[18] && !RegBits(e)[19];
    assert !RegBits(e)[20] && !RegBits(e)[21] && !RegBits(e)[22] && !RegBits(e)[23];
    assert !RegBits(e)[24] && !RegBits(e)[25] && !RegBits(e)[26] && !RegBits(e)[27];
    assert !RegBits(e)[28] && !RegBits(e)[29] && !RegBits(e)[30] && !RegBits(e)[31];
    NoMask(e);
  }

  lemma NoMask(e: bv32)
    requires !Has(e, 0x80000000) && !Has(e, 0x40000000) && !Has(e, 0x20000000) && !Has(e, 0x10000000)
    requires !Has(e, 0x8000000) && !Has(e, 0x4000000) && !Has(e, 0x2000000) && !Has(e, 0x1000000)
    requires !Has(e, 0x800000) && !Has(e, 0x400000) && !Has(e, 0x200000) && !Has(e, 0x100000)
    requires !Has(e, 0x80000) && !Has(e, 0x40000) && !Has(e, 0x20000) && !Has(e, 0x10000)
    requires !Has(e, 0x8000) && !Has(e, 0x4000) && !Has(e, 0x2000) && !Has(e, 0x1000)
    requires !Has(e, 0x800) && !Has(e, 0x400) && !Has(e, 0x200) && !Has(e, 0x100)
    requires !Has(e, 0x80) && !Has(e, 0x40) && !Has(e, 0x20) && !Has(e, 0x10)
    requires !Has(e, 0x8) && !Has(e, 0x4) && !Has(e, 0x2) && !Has(e, 0x1)
    ensures e == 0
  {}

  lemma PlusCancel(c: bv32, d: bv32, e: bv32)
    ensures Plus(c, d) == e <==> d == Plus(c, e)
    ensures Plus(c, 0) == c
  {
    PlusZero(c);
    hide Plus;
    PlusTwice(c, d);
    PlusTwice(c, e);
  }

  lemma PlusZero(c: bv32)
    ensures Plus(c, 0) == c
  {}

  lemma PlusTwice(c: bv32, d: bv32)
    ensures Plus(c, Plus(c, d)) == d
  {}

  /* ---- what the sums promise ---- */

  /** A sum can be taken in pieces: the result of one is the seed of the next. */
  lemma {:induction false} SumAppend(c: bv32, p: seq<bv8>, q: seq<bv8>)
    ensures Sum(c, p + q) == Sum(Sum(c, p), q)
    decreases |p|
  {
    hide ByteWord;
    if p == [] {
      assert p + q == q;
    } else {
      assert (p + q)[1..] == p[1..] + q;
      SumAppend(ByteWord(c, p[0]), p[1..], q);
    }
  }

  /** The sum is the remainder of the dividend by the generator, and nothing else is. */
  lemma SumIsRemainder(c: bv32, p: seq<bv8>, d: bv32)
    ensures d == Sum(c, p) <==>
      Congruent(Generator(G()), Dividend(RegBits(c), MessageBits(p)), RegisterPoly(RegBits(d)))
  {
    hide Feed, RegBits, Sum, Congruent, Generator, Dividend, RegisterPoly, G, MessageBits;
    SumDivides(c, p);
    FeedIsRemainder(G(), RegBits(c), MessageBits(p), RegBits(d));
    if RegBits(d) == RegBits(Sum(c, p)) {
      BitsInjective(d, Sum(c, p));
    }
  }

  function PlusByte(x: bv8, y: bv8): bv8
  {
    x ^ y
  }

  /** One message added to another of the same length, bit by bit. */
  function XorBytes(p: seq<bv8>, q: seq<bv8>): seq<bv8>
    requires |p| == |q|
  {
    seq(|p|, i requires 0 <= i < |p| => PlusByte(p[i], q[i]))
  }

  lemma WideXor(x: bv8, y: bv8)
    ensures Wide(PlusByte(x, y)) == Plus(Wide(x), Wide(y))
  {}

  lemma ByteXor(x: bv8, y: bv8)
    ensures ByteBits(PlusByte(x, y)) == Xor(ByteBits(x), ByteBits(y))
  {
    hide Has, Mask, ByteBits, Wide, Plus, PlusByte;
    WideXor(x, y);
    XorBits(Wide(x), Wide(y));
    forall j | 0 <= j < 8
      ensures ByteBits(PlusByte(x, y))[j] == Xor(ByteBits(x), ByteBits(y))[j]
    {
      WideAt(x, 31 - j);
      WideAt(y, 31 - j);
      WideAt(PlusByte(x, y), 31 - j);
      assert RegBits(Wide(PlusByte(x, y)))[31 - j] == Xor(RegBits(Wide(x)), RegBits(Wide(y)))[31 - j];
    }
  }

  lemma {:induction false} MessageXor(p: seq<bv8>, q: seq<bv8>)
    requires |p| == |q|
    ensures MessageBits(XorBytes(p, q)) == Xor(MessageBits(p), MessageBits(q))
    decreases |p|
  {
    hide ByteBits, PlusByte, Xor;
    if p == [] {
      XorNone();
    } else {
      var s := XorBytes(p, q);
      assert s[1..] == XorBytes(p[1..], q[1..]);
      ByteXor(p[0], q[0]);
      MessageXor(p[1..], q[1..]);
      XorConcat(ByteBits(p[0]), MessageBits(p[1..]), ByteBits(q[0]), MessageBits(q[1..]));
    }
  }

  lemma XorNone()
    ensures Xor([], []) == []
  {}

  /** The sum is linear in the register and the message together. */
  lemma SumLinear(c: bv32, d: bv32, p: seq<bv8>, q: seq<bv8>)
    requires |p| == |q|
    ensures Sum(Plus(c, d), XorBytes(p, q)) == Plus(Sum(c, p), Sum(d, q))
  {
    hide Feed, RegBits, Sum, Plus, G, MessageBits, XorBytes, Xor;
    SumDivides(c, p);
    SumDivides(d, q);
    XorLength(p, q);
    SumDivides(Plus(c, d), XorBytes(p, q));
    XorBits(c, d);
    MessageXor(p, q);
    FeedLinear(G(), RegBits(c), RegBits(d), MessageBits(p), MessageBits(q));
    XorBits(Sum(c, p), Sum(d, q));
    BitsInjective(Sum(Plus(c, d), XorBytes(p, q)), Plus(Sum(c, p), Sum(d, q)));
  }

  lemma XorLength(p: seq<bv8>, q: seq<bv8>)
    requires |p| == |q|
    ensures |XorBytes(p, q)| == |p|
  {}

  lemma ByteInjective(x: bv8, y: bv8)
    requires ByteBits(x) == ByteBits(y)
    ensures x == y
  {
    hide Has, Mask, ByteBits, Wide;
    forall i | 0 <= i < 32
      ensures RegBits(Wide(x))[i] == RegBits(Wide(y))[i]
    {
      WideAt(x, i);
      WideAt(y, i);
    }
    BitsInjective(Wide(x), Wide(y));
    WideInjective(x, y);
  }

  lemma WideInjective(x: bv8, y: bv8)
    requires Wide(x) == Wide(y)
    ensures x == y
  {
    assert (Wide(x) & 0xff) as bv8 == x && (Wide(y) & 0xff) as bv8 == y;
  }

  lemma {:induction false} MessageInjective(p: seq<bv8>, q: seq<bv8>)
    requires |p| == |q| && MessageBits(p) == MessageBits(q)
    ensures p == q
    decreases |p|
  {
    hide ByteBits;
    if p != [] {
      assert MessageBits(p)[..8] == ByteBits(p[0]) && MessageBits(q)[..8] == ByteBits(q[0]);
      ByteInjective(p[0], q[0]);
      assert MessageBits(p)[8..] == MessageBits(p[1..]) && MessageBits(q)[8..] == MessageBits(q[1..]);
      MessageInjective(p[1..], q[1..]);
    }
  }

  lemma {:induction false} MessageAppend(p: seq<bv8>, q: seq<bv8>)
    ensures MessageBits(p + q) == MessageBits(p) + MessageBits(q)
    decreases |p|
  {
    hide ByteBits;
    if p == [] {
      assert p + q == q;
    } else {
      assert (p + q)[1..] == p[1..] + q;
      MessageAppend(p[1..], q);
    }
  }

  /** Messages alike but for four adjacent bytes never have the same sum. */
  lemma FourBytesDetected(c: bv32, before: seq<bv8>, x: seq<bv8>, y: seq<bv8>, after: seq<bv8>)
    requires |x| == |y| <= 4
    ensures Sum(c, before + x + after) == Sum(c, before + y + after) <==> x == y
  {
    hide Feed, RegBits, Sum, G, MessageBits;
    SumDivides(c, before + x + after);
    SumDivides(c, before + y + after);
    MessageAppend(before, x);
    MessageAppend(before, y);
    MessageAppend(before + x, after);
    MessageAppend(before + y, after);
    BurstDetected(G(), RegBits(c), MessageBits(before), MessageBits(x), MessageBits(y), MessageBits(after));
    if MessageBits(x) == MessageBits(y) {
      MessageInjective(x, y);
    }
  }

  /* ---- the check bytes of a frame ---- */

  /** The register as it is sent: complemented, low byte first. */
  function CheckBytes(c: bv32): (t: seq<bv8>)
    ensures |t| == 4
  {
    LittleEndian(Plus(c, 0xffffffff))
  }

  function LittleEndian(w: bv32): (t: seq<bv8>)
    ensures |t| == 4
  {
    [(w & 0xff) as bv8, ((w >> 8) & 0xff) as bv8, ((w >> 16) & 0xff) as bv8, ((w >> 24) & 0xff) as bv8]
  }

  function Lift(c: bv32): bv32
  {
    c << 8
  }

  function Drop(m: bv32): bv32
  {
    m >> 8
  }

  function Word(t: seq<bv8>): bv32
    decreases |t|
  {
    if t == [] then 0 else Plus(Wide(t[0]), Lift(Word(t[1..])))
  }

  lemma HasLift(c: bv32, m: bv32)
    ensures Has(Lift(c), m) == Has(c, Drop(m))
  {
    assert (c << 8) & m == (c & (m >> 8)) << 8;
  }

  lemma MaskLift(i: nat)
    requires i < 32
    ensures Drop(Mask(i)) == if i < 24 then Mask(i + 8) else 0
  {
    match i
    case 0 => case 1 => case 2 => case 3 => case 4 => case 5 => case 6 => case 7 =>
    case 8 => case 9 => case 10 => case 11 => case 12 => case 13 => case 14 => case 15 =>
    case 16 => case 17 => case 18 => case 19 => case 20 => case 21 => case 22 => case 23 =>
    case 24 => case 25 => case 26 => case 27 => case 28 => case 29 => case 30 => case _ =>
  }

  lemma LiftAt(c: bv32, i: nat)
    requires i < 32
    ensures RegBits(Lift(c))[i] == (i < 24 && RegBits(c)[i + 8])
  {
    hide Has, Mask, Lift, Drop;
    HasLift(c, Mask(i));
    MaskLift(i);
    ZeroHas(c);
  }

  lemma WideBit(x: bv8, i: nat)
    requires i < 32
    ensures RegBits(Wide(x))[i] == (i >= 24 && ByteBits(x)[31 - i])
  {
    hide Has, Mask, Wide, ByteBits;
    WideAt(x, i);
  }

  lemma {:induction false} WordBit(t: seq<bv8>, i: nat)
    requires |t| <= 4 && i < 32
    ensures RegBits(Word(t))[i] == (31 - i < 8 * |t| && MessageBits(t)[31 - i])
    decreases |t|
  {
    hide RegBits, ByteBits, Plus, Lift, Wide;
    if t == [] {
      NoBit(i);
    } else {
      XorBits(Wide(t[0]), Lift(Word(t[1..])));
      WideBit(t[0], i);
      LiftAt(Word(t[1..]), i);
      if i < 24 {
        WordBit(t[1..], i + 8);
      }
    }
  }

  lemma NoBit(i: nat)
    requires i < 32
    ensures !RegBits(0)[i]
  {
    hide Mask;
  }

  lemma TailBits(t: seq<bv8>)
    requires |t| == 4
    ensures Backwards(MessageBits(t)) == RegBits(Word(t))
  {
    hide RegBits, MessageBits, Word;
    forall i | 0 <= i < 32
      ensures Backwards(MessageBits(t))[i] == RegBits(Word(t))[i]
    {
      WordBit(t, i);
    }
  }

  lemma WordOf(w: bv32, t: seq<bv8>)
    requires |t| == 4
    ensures Word(t) == w <==> t == LittleEndian(w)
  {
    hide Word;
    WordFour(t);
    var a, b, c, d := t[0], t[1], t[2], t[3];
    assert t == [a, b, c, d];
    BytesOfWord(a, b, c, d);
    WordOfBytes(w);
  }

  function FourWord(a: bv8, b: bv8, c: bv8, d: bv8): bv32
  {
    Wide(a) ^ (Wide(b) << 8) ^ (Wide(c) << 16) ^ (Wide(d) << 24)
  }

  lemma WordFour(t: seq<bv8>)
    requires |t| == 4
    ensures Word(t) == FourWord(t[0], t[1], t[2], t[3])
  {
    var t1, t2, t3 := t[1..], t[2..], t[3..];
    assert t1[1..] == t2 && t2[1..] == t3 && t3[1..] == [];
    assert Word(t3) == Plus(Wide(t[3]), Lift(0));
    assert Word(t2) == Plus(Wide(t[2]), Lift(Word(t3)));
    assert Word(t1) == Plus(Wide(t[1]), Lift(Word(t2)));
  }

  lemma BytesOfWord(a: bv8, b: bv8, c: bv8, d: bv8)
    ensures LittleEndian(FourWord(a, b, c, d)) == [a, b, c, d]
  {}

  lemma WordOfBytes(w: bv32)
    ensures var t := LittleEndian(w); FourWord(t[0], t[1], t[2], t[3]) == w
  {}

  lemma {:induction false} ShiftSplit(c: bv32, m: nat, n: nat)
    ensures ShiftWord(c, m + n) == ShiftWord(ShiftWord(c, m), n)
    decreases m
  {
    hide StepWord;
    if m > 0 {
      ShiftSplit(StepWord(c, false), m - 1, n);
    }
  }

  lemma OnesFirst()
    ensures ShiftWord(0xffffffff, 8) == 0x2dfd1072
  {
    assert ShiftWord(0xffffffff, 8) == ShiftWord(0x92477cdf, 7);
    assert ShiftWord(0x92477cdf, 7) == ShiftWord(0xa49b3d4f, 6);
    assert ShiftWord(0xa49b3d4f, 6) == ShiftWord(0xbff51d87, 5);
    assert ShiftWord(0xbff51d87, 5) == ShiftWord(0xb2420de3, 4);
    assert ShiftWord(0xb2420de3, 4) == ShiftWord(0xb49985d1, 3);
    assert ShiftWord(0xb49985d1, 3) == ShiftWord(0xb7f441c8, 2);
    assert ShiftWord(0xb7f441c8, 2) == ShiftWord(0x5bfa20e4, 1);
    assert ShiftWord(0x5bfa20e4, 1) == ShiftWord(0x2dfd1072, 0);
  }

  lemma OnesSecond()
    ensures ShiftWord(0x2dfd1072, 8) == 0xbe26ed00
  {
    assert ShiftWord(0x2dfd1072, 8) == ShiftWord(0x16fe8839, 7);
    assert ShiftWord(0x16fe8839, 7) == ShiftWord(0xe6c7c73c, 6);
    assert ShiftWord(0xe6c7c73c, 6) == ShiftWord(0x7363e39e, 5);
    assert ShiftWord(0x7363e39e, 5) == ShiftWord(0x39b1f1cf, 4);
    assert ShiftWord(0x39b1f1cf, 4) == ShiftWord(0xf1607bc7, 3);
    assert ShiftWord(0xf1607bc7, 3) == ShiftWord(0x9508bec3, 2);
    assert ShiftWord(0x9508bec3, 2) == ShiftWord(0xa73cdc41, 1);
    assert ShiftWord(0xa73cdc41, 1) == ShiftWord(0xbe26ed00, 0);
  }

  lemma OnesThird()
    ensures ShiftWord(0xbe26ed00, 8) == 0xbe26ed
  {
    assert ShiftWord(0xbe26ed00, 8) == ShiftWord(0x5f137680, 7);
    assert ShiftWord(0x5f137680, 7) == ShiftWord(0x2f89bb40, 6);
    assert ShiftWord(0x2f89bb40, 6) == ShiftWord(0x17c4dda0, 5);
    assert ShiftWord(0x17c4dda0, 5) == ShiftWord(0xbe26ed0, 4);
    assert ShiftWord(0xbe26ed0, 4) == ShiftWord(0x5f13768, 3);
    assert ShiftWord(0x5f13768, 3) == ShiftWord(0x2f89bb4, 2);
    assert ShiftWord(0x2f89bb4, 2) == ShiftWord(0x17c4dda, 1);
    assert ShiftWord(0x17c4dda, 1) == ShiftWord(0xbe26ed, 0);
  }

  lemma OnesFourth()
    ensures ShiftWord(0xbe26ed, 8) == 0xdebb20e3
  {
    assert ShiftWord(0xbe26ed, 8) == ShiftWord(0xede79056, 7);
    assert ShiftWord(0xede79056, 7) == ShiftWord(0x76f3c82b, 6);
    assert ShiftWord(0x76f3c82b, 6) == ShiftWord(0xd6c16735, 5);
    assert ShiftWord(0xd6c16735, 5) == ShiftWord(0x86d830ba, 4);
    assert ShiftWord(0x86d830ba, 4) == ShiftWord(0x436c185d, 3);
    assert ShiftWord(0x436c185d, 3) == ShiftWord(0xcc0e8f0e, 2);
    assert ShiftWord(0xcc0e8f0e, 2) == ShiftWord(0x66074787, 1);
    assert ShiftWord(0x66074787, 1) == ShiftWord(0xdebb20e3, 0);
  }

  /** Four zero bytes take a register of ones to the residue. */
  lemma Ones()
    ensures ShiftWord(0xffffffff, 32) == 0xdebb20e3
  {
    hide ShiftWord;
    ShiftSplit(0xffffffff, 8, 24);
    OnesFirst();
    ShiftSplit(0x2dfd1072, 8, 16);
    OnesSecond();
    ShiftSplit(0xbe26ed00, 8, 8);
    OnesThird();
    OnesFourth();
  }

  lemma ComplementXor(c: bv32, d: bv32)
    ensures Xor(RegBits(c), RegBits(d)) == RegBits(0xffffffff) <==> d == Plus(c, 0xffffffff)
  {
    hide RegBits, Plus;
    XorBits(c, d);
    PlusCancel(c, d, 0xffffffff);
    if Xor(RegBits(c), RegBits(d)) == RegBits(0xffffffff) {
      BitsInjective(Plus(c, d), 0xffffffff);
    }
  }

  /** A frame and its tail run to the fixed residue exactly when the tail is the frame's own sum, complemented, low byte
      first. */
  lemma FrameChecks(c: bv32, body: seq<bv8>, tail: seq<bv8>)
    requires |tail| == 4
    ensures Sum(c, body + tail) == 0xdebb20e3 <==> tail == CheckBytes(Sum(c, body))
  {
    hide Feed, RegBits, Sum, G, MessageBits, Word, LittleEndian, Xor, ShiftWord, Plus;
    var d := Sum(c, body);
    SumAppend(c, body, tail);
    SumDivides(d, tail);
    Ones();
    ShiftBits(0xffffffff, 32);
    Residue(G(), RegBits(d), MessageBits(tail), RegBits(0xffffffff));
    TailBits(tail);
    ComplementXor(d, Word(tail));
    WordOf(Plus(d, 0xffffffff), tail);
    if RegBits(Sum(d, tail)) == RegBits(0xdebb20e3) {
      BitsInjective(Sum(d, tail), 0xdebb20e3);
    }
  }
}
