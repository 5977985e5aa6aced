/**
 * What a DFile frame from any peer is read as: a whole frame is read as a message exactly when its bytes spell
 * that message, with whatever flag and session id, and as undecodable when they spell none.
 */
module DFileWire {
  import opened Bytes
  import opened DFileCore
  import opened Deframe
  import opened DFileFrame

  // ---------------------------------------------------------------- file entries

  /** One entry as it is written: id, size, the length of the raw name, the raw name. */
  function Unit(id: u16, size: u64, raw: seq<byte>): seq<byte>
    requires |raw| <= MAX_NAME
  {
    PutU16(id) + PutU64(size) + PutU16(|raw|) + raw
  }

  predicate RawOk(raw: seq<byte>) {
    1 <= |raw| <= MAX_NAME
  }

  /** A unit with id 0 and at least two bytes more, which ends the list. */
  predicate UserData(s: seq<byte>) {
    |s| >= 14 && GetU16(s, 0) == 0
  }

  ghost predicate Begins(s: seq<byte>, e: Entry, raw: seq<byte>, rest: seq<byte>) {
    e.id != 0 && RawOk(raw) && CName(raw) == e.name && s == Unit(e.id, e.size, raw) + rest
  }

  /** `s` spells the entries, each name being the C string at the front of its raw bytes, and then nothing more. */
  ghost predicate Spells(s: seq<byte>, es: seq<Entry>)
    decreases |es|
  {
    if es == [] then s == [] || UserData(s)
    else exists raw, rest :: Begins(s, es[0], raw, rest) && Spells(rest, es[1..])
  }

  lemma UnitFields(id: u16, size: u64, raw: seq<byte>, rest: seq<byte>)
    requires RawOk(raw)
    ensures var s := Unit(id, size, raw) + rest;
            && |s| == 12 + |raw| + |rest|
            && GetU16(s, 0) == id && GetU64(s, 2) == size && GetU16(s, 10) == |raw|
            && s[12..12 + |raw|] == raw && s[12 + |raw|..] == rest
  {
    hide PutU16, PutU64, GetU16, GetU64;
    var s := Unit(id, size, raw) + rest;
    assert s[0..2] == PutU16(id) && s[2..10] == PutU64(size) && s[10..12] == PutU16(|raw|);
    GetPutU16(s, 0, id);
    GetPutU64(s, 2, size);
    GetPutU16(s, 10, |raw|);
  }

  lemma UnitOf(s: seq<byte>)
    requires |s| >= 12 && 1 <= GetU16(s, 10) <= MAX_NAME && |s| >= 12 + GetU16(s, 10)
    ensures var n := GetU16(s, 10);
            s == Unit(GetU16(s, 0), GetU64(s, 2), s[12..12 + n]) + s[12 + n..]
  {
    PutGetU16(s, 0);
    PutGetU64(s, 2);
    PutGetU16(s, 10);
    hide PutU16, PutU64, GetU16, GetU64;
    var n := GetU16(s, 10);
    assert s == s[0..2] + s[2..10] + s[10..12] + s[12..12 + n] + s[12 + n..];
  }

  /** The bytes of the first entry are the first unit. */
  lemma FirstIff(s: seq<byte>, e: Entry, raw: seq<byte>, rest: seq<byte>)
    ensures Begins(s, e, raw, rest) <==>
              && |s| >= 12 && GetU16(s, 0) == e.id != 0 && GetU64(s, 2) == e.size
              && 1 <= GetU16(s, 10) <= MAX_NAME && |s| >= 12 + GetU16(s, 10)
              && raw == s[12..12 + GetU16(s, 10)] && rest == s[12 + GetU16(s, 10)..] && CName(raw) == e.name
  {
    hide GetU16, GetU64, Unit, CName;
    if Begins(s, e, raw, rest) {
      UnitFields(e.id, e.size, raw, rest);
    } else if |s| >= 12 && 1 <= GetU16(s, 10) <= MAX_NAME && |s| >= 12 + GetU16(s, 10) {
      UnitOf(s);
    }
  }

  lemma ReadStep(s: seq<byte>, room: nat, es: seq<Entry>)
    requires es != []
    ensures ReadEntries(s, room) == Some(es) <==>
              && room > 0 && |s| >= 12 && 1 <= GetU16(s, 10) <= MAX_NAME && |s| >= 12 + GetU16(s, 10)
              && GetU16(s, 0) == es[0].id != 0 && GetU64(s, 2) == es[0].size
              && CName(s[12..12 + GetU16(s, 10)]) == es[0].name
              && ReadEntries(s[12 + GetU16(s, 10)..], room - 1) == Some(es[1..])
  {
    hide GetU16, GetU64, CName;
    assert es == [es[0]] + es[1..];
  }

  /** The decoder reads exactly what the bytes spell, up to the number of entries it has room for. */
  lemma {:induction false} EntriesIff(s: seq<byte>, room: nat, es: seq<Entry>)
    ensures ReadEntries(s, room) == Some(es) <==> |es| <= room && Spells(s, es)
    decreases |es|
  {
    hide GetU16, GetU64, CName, Begins, ReadEntries;
    if es == [] {
      NoEntries(s, room);
    } else {
      ReadStep(s, room, es);
      if |es| <= room && Spells(s, es) {
        var raw, rest :| Begins(s, es[0], raw, rest) && Spells(rest, es[1..]);
        FirstIff(s, es[0], raw, rest);
        EntriesIff(rest, room - 1, es[1..]);
      }
      if ReadEntries(s, room) == Some(es) {
        var n := GetU16(s, 10);
        FirstIff(s, es[0], s[12..12 + n], s[12 + n..]);
        EntriesIff(s[12 + n..], room - 1, es[1..]);
      }
    }
  }

  lemma NoEntries(s: seq<byte>, room: nat)
    ensures ReadEntries(s, room) == Some([]) <==> s == [] || UserData(s)
  {
    hide GetU64, CName;
    if |s| >= 12 && GetU16(s, 0) != 0 && 1 <= GetU16(s, 10) <= MAX_NAME && |s| >= 12 + GetU16(s, 10) && room > 0 {
      var rest := ReadEntries(s[12 + GetU16(s, 10)..], room - 1);
      assert ReadEntries(s, room) != Some([]);
    }
  }

  // ---------------------------------------------------------------- acknowledgements

  /**
   * The length tells version and number of entries; the entries follow each other, in the second version with
   * two feedback words and two unused bytes after the first.
   */
  ghost predicate SpellsAck(s: seq<byte>, a: AckBody) {
    var n := |a.acks|;
    && n <= MAX_ACKS && |s| == (if a.v2 then 12 else 6) + 37 * n
    && (if a.v2 && n > 0 then
          && s[..6] == AckBytes(a.acks[0]) && s[6..8] == PutU16(a.c) && s[8..10] == PutU16(a.d)
          && s[12..12 + 6 * (n - 1)] == AcksBytes(a.acks[1..])
        else s[..6 * n] == AcksBytes(a.acks) && a.c == 0 && a.d == 0)
  }

  lemma AckEntryIff(s: seq<byte>, at: nat, e: AckEntry)
    requires at + 6 <= |s|
    ensures AckEntry(GetU16(s, at), GetU32(s, at + 2)) == e <==> s[at..at + 6] == AckBytes(e)
  {
    ReadU16(s, at, e.id);
    ReadU32(s, at + 2, e.last);
    hide GetU16, GetU32, PutU16, PutU32;
    assert s[at..at + 6] == s[at..at + 2] + s[at + 2..at + 6];
    var b := PutU16(e.id) + PutU32(e.last);
    assert b[..2] == PutU16(e.id) && b[2..] == PutU32(e.last);
    assert s[at..at + 6][..2] == s[at..at + 2] && s[at..at + 6][2..] == s[at + 2..at + 6];
  }

  lemma {:induction false} AcksIff(s: seq<byte>, at: nat, es: seq<AckEntry>)
    requires at + 6 * |es| <= |s|
    ensures ReadAcks(s, at, |es|) == es <==> s[at..at + 6 * |es|] == AcksBytes(es)
    decreases |es|
  {
    hide GetU16, GetU32, AckBytes;
    if es != [] {
      var n := |es|;
      AckEntryIff(s, at, es[0]);
      AcksIff(s, at + 6, es[1..]);
      var first := AckEntry(GetU16(s, at), GetU32(s, at + 2));
      Pieces([first], ReadAcks(s, at + 6, n - 1), [es[0]], es[1..]);
      Pieces(s[at..at + 6], s[at + 6..at + 6 * n], AckBytes(es[0]), AcksBytes(es[1..]));
      assert s[at..at + 6 * n] == s[at..at + 6] + s[at + 6..at + 6 * n];
      assert es == [es[0]] + es[1..];
      assert [first] == [es[0]] <==> first == es[0];
    }
  }

  lemma Pieces<T>(a: seq<T>, b: seq<T>, a': seq<T>, b': seq<T>)
    requires |a| == |a'|
    ensures a + b == a' + b' <==> a == a' && b == b'
  {
    assert (a + b)[..|a|] == a && (a + b)[|a|..] == b;
    assert (a' + b')[..|a|] == a' && (a' + b')[|a|..] == b';
  }

  lemma AckIff(s: seq<byte>, a: AckBody)
    requires s != []
    ensures ReadAck(s) == Some(a) <==> SpellsAck(s, a)
  {
    var v2 := |s| % 37 == 12;
    if |s| % 37 in {6, 12} && |s| < 0x5c1 {
      var n := (|s| - if v2 then 12 else 6) / 37;
      SizeIs(|s|, n, v2);
      if a.v2 == v2 && |a.acks| == n {
        AckParts(s, a);
      }
      AckCount(s, n, v2);
    }
    hide GetU16, GetU32, AckBytes, AcksBytes, ReadAcks;
    if SpellsAck(s, a) {
      var n := |a.acks|;
      assert (37 * n + 6) % 37 == 6 && (37 * n + 12) % 37 == 12;
      assert 37 * n / 37 == n;
    }
  }

  lemma SizeIs(size: nat, n: nat, v2: bool)
    requires size % 37 == (if v2 then 12 else 6) && size < 0x5c1 && n == (size - if v2 then 12 else 6) / 37
    ensures size == (if v2 then 12 else 6) + 37 * n && n <= MAX_ACKS
  {
  }

  lemma AckCount(s: seq<byte>, n: nat, v2: bool)
    requires |s| == (if v2 then 12 else 6) + 37 * n && n <= MAX_ACKS
    ensures ReadAck(s).Some? && ReadAck(s).value.v2 == v2 && |ReadAck(s).value.acks| == n
  {
    assert (37 * n + 6) % 37 == 6 && (37 * n + 12) % 37 == 12 && 37 * n / 37 == n;
    hide GetU16, GetU32;
    if n > 0 {
      AckSize(s, 0, n);
      AckSize(s, 12, n - 1);
    }
  }

  lemma {:induction false} AckSize(s: seq<byte>, at: nat, n: nat)
    requires at + 6 * n <= |s|
    ensures |ReadAcks(s, at, n)| == n
    decreases n
  {
    if n > 0 {
      AckSize(s, at + 6, n - 1);
    }
  }

  lemma ReadAck2(s: seq<byte>, n: nat)
    requires 0 < n <= MAX_ACKS && |s| == 12 + 37 * n
    ensures ReadAck(s) == Some(AckBody(true, [AckEntry(GetU16(s, 0), GetU32(s, 2))] + ReadAcks(s, 12, n - 1),
                                       GetU16(s, 6), GetU16(s, 8)))
  {
    hide GetU16, GetU32, ReadAcks;
    assert (37 * n + 12) % 37 == 12 && 37 * n / 37 == n;
  }

  lemma AckParts2(s: seq<byte>, a: AckBody)
    requires a.v2 && a.acks != [] && |s| == 12 + 37 * |a.acks| && |a.acks| <= MAX_ACKS
    ensures ReadAck(s) == Some(a) <==> SpellsAck(s, a)
  {
    hide GetU16, GetU32, PutU16, PutU32, ReadAcks, AcksBytes, AckBytes, ReadAck;
    var n := |a.acks|;
    ReadAck2(s, n);
    AckEntryIff(s, 0, a.acks[0]);
    AcksIff(s, 12, a.acks[1..]);
    ReadU16(s, 6, a.c);
    ReadU16(s, 8, a.d);
    var first := AckEntry(GetU16(s, 0), GetU32(s, 2));
    Pieces([first], ReadAcks(s, 12, n - 1), [a.acks[0]], a.acks[1..]);
    assert a.acks == [a.acks[0]] + a.acks[1..];
    assert [first] == [a.acks[0]] <==> first == a.acks[0];
  }

  /** With the size given, the entries and the feedback words agree. */
  lemma AckParts(s: seq<byte>, a: AckBody)
    requires |s| == (if a.v2 then 12 else 6) + 37 * |a.acks| && |a.acks| <= MAX_ACKS
    ensures ReadAck(s) == Some(a) <==> SpellsAck(s, a)
  {
    var n := |a.acks|;
    if n > 0 && a.v2 {
      AckParts2(s, a);
    } else {
      assert (37 * n + 6) % 37 == 6 && 37 * n / 37 == n;
      NoAckBytes();
      AcksIff(s, 0, a.acks);
      hide GetU16, GetU32, AckBytes, ReadAcks, AcksBytes;
    }
  }

  lemma NoAckBytes()
    ensures AcksBytes([]) == []
  {
  }

  // ---------------------------------------------------------------- frames

  /** What a payload of this type spells. */
  ghost predicate Means(kind: byte, flag: byte, trans: u16, p: seq<byte>, f: Frame) {
    match f
    case Setting(mtu, size) => kind == 8 && |p| == 100 && p[..2] == PutU16(mtu) && p[16..20] == PutU32(size)
    case FileHeader(t, node, es) =>
      && kind == 1 && t == trans && |p| >= 2 && p[..2] == PutU16(node)
      && Spells(p[2..], es) && |es| <= (if node > 0 then node else 500)
    case Confirm(t, ids) => kind == 2 && t == trans && IdList(p, ids)
    case Request(t, ids) => kind == 3 && t == trans && IdList(p, ids)
    case Data(t, g, id, num, payload) =>
      kind == 4 && t == trans && g == flag && p == PutU16(id) + PutU32(num) + payload
    case Ack(t, acks) => kind == 5 && t == trans && exists v2, c, d :: SpellsAck(p, AckBody(v2, acks, c, d))
    case Done(t, ids) => kind == 6 && t == trans && IdList(p, ids)
    case DoneAck(t, ids) => kind == 7 && t == trans && IdList(p, ids)
    case Rst(t, code) =>
      kind == 9 && t == trans && 2 <= |p| <= 1002 && |p| % 2 == 0 && p[..2] == PutU16(code)
    case Bad(_) => false
    case Ignored => kind == 0 || kind > 9
  }

  ghost predicate IdList(p: seq<byte>, ids: seq<u16>) {
    |ids| <= 500 && p == IdsBytes(ids)
  }

  lemma {:induction false} IdsIff(p: seq<byte>, ids: seq<u16>)
    requires |p| % 2 == 0
    ensures ReadIds(p) == ids <==> p == IdsBytes(ids)
    decreases |p|
  {
    if p == IdsBytes(ids) {
      IdsRoundTrip(ids);
    }
    if ReadIds(p) == ids && p != [] {
      IdsIff(p[2..], ids[1..]);
      PutGetU16(p, 0);
      assert p == p[0..2] + p[2..];
    }
  }

  lemma ListIff(p: seq<byte>, ids: seq<u16>)
    ensures |p| % 2 == 0 && |p| / 2 <= 500 && ReadIds(p) == ids <==> IdList(p, ids)
  {
    IdsSize(ids);
    if |p| % 2 == 0 {
      IdsIff(p, ids);
    }
  }

  lemma IdsMean(kind: byte, flag: byte, trans: u16, p: seq<byte>, f: Frame)
    requires f.Confirm? || f.Request? || f.Done? || f.DoneAck?
    ensures DecodeBody(kind, flag, trans, p) == f <==> Means(kind, flag, trans, p, f)
  {
    ListIff(p, f.ids);
    hide ReadIds, IdsBytes, ReadEntries, ReadAck, GetU16, GetU32;
  }

  lemma HeaderMeans(kind: byte, flag: byte, trans: u16, p: seq<byte>, f: Frame)
    requires f.FileHeader?
    ensures DecodeBody(kind, flag, trans, p) == f <==> Means(kind, flag, trans, p, f)
  {
    if kind == 1 && |p| >= 2 {
      ReadU16(p, 0, f.node);
      EntriesIff(p[2..], if f.node > 0 then f.node else MAX_FILES, f.entries);
    }
    hide ReadIds, IdsBytes, ReadEntries, ReadAck, GetU16, GetU32, PutU16, Spells;
  }

  lemma AckMeans(kind: byte, flag: byte, trans: u16, p: seq<byte>, f: Frame)
    requires f.Ack? && p != []
    ensures DecodeBody(kind, flag, trans, p) == f <==> Means(kind, flag, trans, p, f)
  {
    hide ReadIds, IdsBytes, ReadEntries, ReadAck, GetU16, GetU32, SpellsAck;
    if kind == 5 {
      if ReadAck(p).Some? {
        AckIff(p, ReadAck(p).value);
        var a := ReadAck(p).value;
        assert a == AckBody(a.v2, a.acks, a.c, a.d);
      }
      forall v2, c, d | SpellsAck(p, AckBody(v2, f.acks, c, d))
        ensures DecodeBody(kind, flag, trans, p) == f <==> f.trans == trans
      {
        AckIff(p, AckBody(v2, f.acks, c, d));
      }
    }
  }

  lemma PlainMeans(kind: byte, flag: byte, trans: u16, p: seq<byte>, f: Frame)
    requires f.Setting? || f.Data? || f.Rst? || f.Ignored?
    ensures DecodeBody(kind, flag, trans, p) == f <==> Means(kind, flag, trans, p, f)
  {
    if f.Setting? && |p| == 100 {
      ReadU16(p, 0, f.mtu);
      ReadU32(p, 16, f.frameSize);
    } else if f.Data? && |p| >= 6 {
      ReadU16(p, 0, f.id);
      ReadU32(p, 2, f.num);
      assert p == p[0..2] + p[2..6] + p[6..];
      Pieces(p[0..2] + p[2..6], p[6..], PutU16(f.id) + PutU32(f.num), f.payload);
      Pieces(p[0..2], p[2..6], PutU16(f.id), PutU32(f.num));
    } else if f.Rst? && |p| >= 2 {
      ReadU16(p, 0, f.code);
    }
    hide ReadIds, IdsBytes, ReadEntries, ReadAck, GetU16, GetU32, PutU16, PutU32;
  }

  /**
   * A whole frame from anybody: it is read as a message if and only if its payload spells that message, and taken
   * for undecodable if and only if its type is one of the nine and its payload spells nothing.
   */
  lemma {:induction false} DecodeIff(s: seq<byte>, f: Frame)
    requires HeadOf(s) == Whole(|s|)
    ensures !f.Bad? ==> (Decode(s) == f <==> Means(s[0], s[1], GetU16(s, 4), s[8..], f))
    ensures Decode(s) == Bad(s[0]) <==>
              1 <= s[0] <= 9 && forall g :: !Means(s[0], s[1], GetU16(s, 4), s[8..], g)
  {
    var kind, flag, trans, p := s[0], s[1], GetU16(s, 4), s[8..];
    assert p != [];
    hide HeadOf, DecodeBody, Means;
    if !f.Bad? {
      EachMeans(kind, flag, trans, p, f);
    }
    forall g
      ensures Means(kind, flag, trans, p, g) ==> g == DecodeBody(kind, flag, trans, p)
    {
      if g.Bad? {
        BadMeansNothing(kind, flag, trans, p, g);
      } else {
        EachMeans(kind, flag, trans, p, g);
      }
    }
    BadKinds(kind, flag, trans, p);
    var d := DecodeBody(kind, flag, trans, p);
    if !d.Bad? {
      EachMeans(kind, flag, trans, p, d);
    } else {
      BadMeansNothing(kind, flag, trans, p, d);
    }
  }

  lemma EachMeans(kind: byte, flag: byte, trans: u16, p: seq<byte>, f: Frame)
    requires p != [] && !f.Bad?
    ensures DecodeBody(kind, flag, trans, p) == f <==> Means(kind, flag, trans, p, f)
  {
    hide DecodeBody, Means;
    if f.FileHeader? {
      HeaderMeans(kind, flag, trans, p, f);
    } else if f.Ack? {
      AckMeans(kind, flag, trans, p, f);
    } else if f.Confirm? || f.Request? || f.Done? || f.DoneAck? {
      IdsMean(kind, flag, trans, p, f);
    } else {
      PlainMeans(kind, flag, trans, p, f);
    }
  }

  lemma BadMeansNothing(kind: byte, flag: byte, trans: u16, p: seq<byte>, f: Frame)
    requires f.Bad?
    ensures !Means(kind, flag, trans, p, f)
  {
  }

  lemma BadKinds(kind: byte, flag: byte, trans: u16, p: seq<byte>)
    ensures DecodeBody(kind, flag, trans, p).Bad? ==>
              1 <= kind <= 9 && DecodeBody(kind, flag, trans, p) == Bad(kind)
    ensures kind == 0 || kind > 9 ==> DecodeBody(kind, flag, trans, p) == Ignored
  {
    hide ReadIds, ReadEntries, ReadAck, GetU16, GetU32;
  }

  // ---------------------------------------------------------------- frames in the receive buffer

  /** Eight header bytes that announce a payload of an allowed length, and the payload. */
  ghost predicate BeginsFrame(buf: seq<byte>, payload: seq<byte>) {
    && 1 <= |payload| <= 29433 && |buf| >= 8 + |payload|
    && buf[6..8] == PutU16(|payload|) && buf[8..8 + |payload|] == payload
  }

  /**
   * Any buffer: it begins with a whole frame exactly when an announced payload of 1 to 29433 bytes is there; it is
   * given up exactly when its header announces none of these lengths; and no full-sized buffer waits for more.
   */
  lemma {:induction false} BufferIff(buf: seq<byte>, n: nat)
    ensures HeadOf(buf) == Whole(n) <==> n >= 8 && exists payload :: BeginsFrame(buf, payload) && n == 8 + |payload|
    ensures HeadOf(buf).Corrupt? <==> |buf| >= 8 && forall k: u16 :: 1 <= k <= 29433 ==> buf[6..8] != PutU16(k)
    ensures |buf| >= 8 + 29433 ==> !HeadOf(buf).NeedMore?
  {
    if |buf| >= 8 {
      var len := GetU16(buf, 6);
      forall k: u16
        ensures len == k <==> buf[6..8] == PutU16(k)
      {
        ReadU16(buf, 6, k);
      }
      assert buf[6..8] == PutU16(len);
      hide GetU16, PutU16;
      if 1 <= len <= 29433 && |buf| >= 8 + len {
        assert BeginsFrame(buf, buf[8..8 + len]);
      }
    }
  }
}
