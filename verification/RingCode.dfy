/** write and read as they run over the buffer, each refining its side of the interleaved ring. */
module RingCode {
  import opened Options
  import opened Ring
  import opened RingProofs

  /** Bytes of header before the data. */
  const HDR: int := 8

  class SharedRing {
    const u8: array<Byte>
    var wpos: int
    var rpos: int
    ghost var accepted: seq<Record>
    ghost var received: seq<Record>

    /** The ring with the two sides at the given points. */
    ghost function At(w: Writer, r: Reader): State
      requires u8.Length >= HDR
      reads this, u8
    {
      State(u8.Length - HDR, u8[HDR..], wpos, rpos, w, r, accepted, received)
    }

    ghost predicate Valid()
      reads this, u8
    {
      u8.Length >= HDR && Inv(At(WIdle, RIdle))
    }

    constructor (n: nat)
      requires n >= HDR
      ensures Valid() && fresh(u8) && u8.Length == n && accepted == [] && received == []
    {
      u8 := new Byte[n](_ => 0);
      wpos, rpos := 0, 0;
      accepted, received := [], [];
      new;
      assert Init(At(WIdle, RIdle));
      InitInv(At(WIdle, RIdle));
    }

    /** One byte of a record stored at its place. */
    method Store(ghost rec: Record, ghost w: int, pos: int, v: Byte)
      requires u8.Length > HDR && w <= pos < w + |Enc(rec)| && Enc(rec)[pos - w] == v
      requires Inv(At(WCopy(rec, w, pos - w), RIdle))
      modifies u8
      ensures Inv(At(WCopy(rec, w, pos + 1 - w), RIdle))
    {
      hide Inv, Enc;
      ghost var s := At(WCopy(rec, w, pos - w), RIdle);
      var cap := u8.Length - HDR;
      u8[HDR + Place(pos, cap)] := v;
      ghost var t := At(WCopy(rec, w, pos + 1 - w), RIdle);
      assert t.mem == s.mem[Place(pos, cap) := v];
      InvRange(s);
      WriteByteInv(s, t);
    }

    /** put: a number, low byte first. */
    method PutWord(ghost rec: Record, ghost w: int, pos: int, v: int)
      requires u8.Length > HDR && w <= pos && pos + 4 <= w + |Enc(rec)|
      requires Enc(rec)[pos - w..pos - w + 4] == Put(v)
      requires Inv(At(WCopy(rec, w, pos - w), RIdle))
      modifies u8
      ensures Inv(At(WCopy(rec, w, pos + 4 - w), RIdle))
    {
      hide Inv, Enc;
      ghost var e, i := Enc(rec), pos - w;
      assert e[i..i + 4][0] == e[i] && e[i..i + 4][1] == e[i + 1] && e[i..i + 4][2] == e[i + 2];
      assert e[i..i + 4][3] == e[i + 3];
      Store(rec, w, pos, v % 256);
      Store(rec, w, pos + 1, (v / 256) % 256);
      Store(rec, w, pos + 2, (v / 0x1_0000) % 256);
      Store(rec, w, pos + 3, (v / 0x100_0000) % 256);
    }

    /** A record appended whole, or, when there is no room, nothing at all. */
    method Write(kind: int, id: int, bytes: seq<Byte>) returns (ok: bool)
      requires Valid() && (Fits(u8.Length - HDR, wpos, rpos, Record(kind, id, bytes)) ==> wpos + 12 + |bytes| < LIMIT)
      modifies this, u8
      ensures Valid()
      ensures ok <==> Fits(u8.Length - HDR, old(wpos), old(rpos), Record(kind, id, bytes))
      ensures received == old(received) && rpos == old(rpos)
      ensures ok ==> accepted == old(accepted) + [Record(kind, id, bytes)] && wpos == old(wpos) + 12 + |bytes|
      ensures !ok ==> accepted == old(accepted) && wpos == old(wpos) && u8[..] == old(u8[..])
    {
      hide Inv, Enc, Stream;
      var cap, w, r, need := u8.Length - HDR, wpos, rpos, 12 + |bytes|;
      ghost var rec := Record(kind, id, bytes);
      ghost var s := At(WIdle, RIdle);
      if need > cap - (w - r) {
        return false;
      }
      LoadInv(s, rec);
      WriteTestInv(s.(writer := WLoaded(rec, w)), At(WCopy(rec, w, 0), RIdle));
      Room(At(WCopy(rec, w, 0), RIdle));
      EncParts(rec);
      PutWord(rec, w, w, kind);
      PutWord(rec, w, w + 4, id);
      PutWord(rec, w, w + 8, |bytes|);
      var i := 0;
      while i < |bytes|
        invariant 0 <= i <= |bytes|
        invariant Inv(At(WCopy(rec, w, 12 + i), RIdle))
        modifies u8
      {
        assert Enc(rec)[12..][i] == Enc(rec)[12 + i];
        Store(rec, w, w + 12 + i, bytes[i]);
        i := i + 1;
      }
      ghost var before := At(WCopy(rec, w, need), RIdle);
      InvRange(before);
      StreamAdd(accepted, rec);
      WordIs(w + need, w + need, 0);
      wpos := Word(w + need);
      accepted := accepted + [rec];
      WritePublishInv(before, At(WIdle, RIdle));
      return true;
    }

    static lemma LoadInv(s: State, rec: Record)
      requires Inv(s) && s.writer == WIdle
      ensures Inv(s.(writer := WLoaded(rec, s.wpos)))
    {
      InvRange(s);
      StepInv(s, WriteLoad(rec), s.(writer := WLoaded(rec, s.wpos)));
    }

    /** A record with room has somewhere to go. */
    static lemma Room(s: State)
      requires Inv(s) && s.writer.WCopy?
      ensures 0 < s.cap
    {}

    /** One byte of the record in front of the reader. */
    method Load(ghost got: seq<Byte>, pos: int) returns (b: Byte)
      requires u8.Length > HDR && pos == rpos + |got| && !Whole(got)
      requires Inv(At(WIdle, RCopy(rpos, got)))
      ensures Inv(At(WIdle, RCopy(rpos, got + [b])))
    {
      hide Inv, Whole;
      var cap := u8.Length - HDR;
      b := u8[HDR + Place(pos, cap)];
      assert b == u8[HDR..][Place(pos, cap)];
      InvRange(At(WIdle, RCopy(rpos, got)));
      ReadByteInv(At(WIdle, RCopy(rpos, got)), At(WIdle, RCopy(rpos, got + [b])));
    }

    /** get: four bytes as a signed word. */
    method GetWord(ghost got: seq<Byte>, pos: int) returns (v: int, ghost next: seq<Byte>)
      requires u8.Length > HDR && pos == rpos + |got| && |got| <= 8
      requires Inv(At(WIdle, RCopy(rpos, got)))
      ensures Inv(At(WIdle, RCopy(rpos, next)))
      ensures |next| == |got| + 4 && next[..|got|] == got && v == Get(next[|got|..])
    {
      hide Inv;
      var b0: int := Load(got, pos);
      var b1: int := Load(got + [b0], pos + 1);
      var b2: int := Load(got + [b0] + [b1], pos + 2);
      var b3: int := Load(got + [b0] + [b1] + [b2], pos + 3);
      next := got + [b0] + [b1] + [b2] + [b3];
      assert next[|got|..] == [b0, b1, b2, b3];
      v := b0 + 256 * b1 + 0x1_0000 * b2 + 0x100_0000 * (if b3 < 128 then b3 else b3 - 256);
    }

    /** The three words of the header. */
    method Head() returns (kind: int, id: int, len: nat, ghost head: seq<Byte>)
      requires u8.Length > HDR && Inv(At(WIdle, RCopy(rpos, [])))
      ensures Inv(At(WIdle, RCopy(rpos, head)))
      ensures |head| == 12 && kind == Get(head[..4]) && id == Get(head[4..8]) && len == Get(head[8..12])
    {
      hide Inv, Enc, Dec, Get;
      var k, h1 := GetWord([], rpos);
      var d, h2 := GetWord(h1, rpos + 4);
      var n, h3 := GetWord(h2, rpos + 8);
      assert h3[..4] == h1[0..] && h3[4..8] == h2[4..] && h3[8..12] == h3[8..];
      Header(At(WIdle, RCopy(rpos, h3)));
      return k, d, n, h3;
    }

    /** As many bytes as the header says. */
    method Payload(ghost head: seq<Byte>, len: nat) returns (bytes: seq<Byte>)
      requires u8.Length > HDR && |head| == 12 && len == Get(head[8..12]) && Inv(At(WIdle, RCopy(rpos, head)))
      ensures |bytes| == len && Inv(At(WIdle, RCopy(rpos, head + bytes)))
    {
      hide Inv, Enc, Dec, Get, Whole;
      bytes := [];
      assert head + bytes == head;
      var i := 0;
      while i < len
        invariant 0 <= i <= len && |bytes| == i
        invariant Inv(At(WIdle, RCopy(rpos, head + bytes)))
      {
        NotYet(head, bytes, len);
        var b := Load(head + bytes, rpos + 12 + i);
        assert head + bytes + [b] == head + (bytes + [b]);
        bytes := bytes + [b];
        i := i + 1;
      }
    }

    /** The oldest record not yet read, or none. */
    method Read() returns (out: Option<Record>)
      requires Valid()
      modifies this
      ensures Valid() && accepted == old(accepted) && wpos == old(wpos)
      ensures |old(received)| == |accepted| ==> out == None && received == old(received) && rpos == old(rpos)
      ensures |old(received)| < |accepted| ==>
        out == Some(Seen(accepted[|old(received)|])) && received == old(received) + [out.value]
    {
      hide Inv, Enc, Dec, Get, Whole;
      var w, r := wpos, rpos;
      Pending(At(WIdle, RIdle));
      if w - r < 12 {
        return None;
      }
      TestInv(At(WIdle, RIdle));
      assert At(WIdle, RCopy(r, [])) == At(WIdle, RIdle).(reader := RCopy(r, []));
      Held(At(WIdle, RIdle));
      var kind, id, len, head := Head();
      var bytes := Payload(head, len);
      ghost var got := head + bytes;
      NotYet(head, bytes, len);
      assert got[..4] == head[..4] && got[4..8] == head[4..8] && got[12..] == bytes;
      DecOf(got, kind, id, bytes);
      ghost var before := At(WIdle, RCopy(r, got));
      out := Some(Record(kind, id, bytes));
      rpos := Word(r + 12 + len);
      received := received + [out.value];
      ReadFinishInv(before, At(WIdle, RIdle));
      assert received[|before.received|] == out.value;
    }

    static lemma DecOf(got: seq<Byte>, kind: int, id: int, bytes: seq<Byte>)
      requires |got| >= 12 && kind == Get(got[..4]) && id == Get(got[4..8]) && bytes == got[12..]
      ensures Dec(got) == Record(kind, id, bytes)
    {}

    /** While fewer bytes are read than the header says, the record is not whole; then it is. */
    static lemma NotYet(head: seq<Byte>, bytes: seq<Byte>, len: int)
      requires |head| == 12 && Get(head[8..12]) == len
      ensures Whole(head + bytes) <==> |bytes| >= len
    {
      assert (head + bytes)[8..12] == head[8..12];
    }

    /** There is a record to read if and only if the positions are a header apart. */
    static lemma Pending(s: State)
      requires Inv(s)
      ensures s.wpos - s.rpos < 12 <==> |s.received| == |s.accepted|
      ensures |s.received| <= |s.accepted|
    {
      hide Stream, Enc;
      var n := |s.received|;
      if n < |s.accepted| {
        StreamAt(s.accepted, n);
      } else {
        assert s.accepted[..n] == s.accepted;
      }
    }

    static lemma TestInv(s: State)
      requires Inv(s) && s.wpos - s.rpos >= 12 && s.reader == RIdle
      ensures Inv(s.(reader := RCopy(s.rpos, [])))
    {
      hide Inv;
      var m := s.(reader := RLoaded(s.wpos));
      InvRange(s);
      StepInv(s, ReadLoad, m);
      ReadTestInv(m, s.(reader := RCopy(s.rpos, [])));
    }

    static lemma Held(s: State)
      requires Inv(s) && s.wpos - s.rpos >= 12
      ensures 0 < s.cap
    {}

    static lemma Header(s: State)
      requires Inv(s) && s.reader.RCopy? && |s.reader.got| == 12
      ensures Get(s.reader.got[8..12]) >= 0
    {
      hide Stream, Enc, Get, Place;
      StreamNonempty(s);
      RecordThere(s);
      var rec := s.accepted[|s.received|];
      DecEnc(rec);
      assert s.reader.got[8..12] == Enc(rec)[8..12];
    }
  }
}
