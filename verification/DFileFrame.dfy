/**
 * The DFile wire format (src/proto/dfile_frame.c): what an end sends is what its peer decodes, however
 * the byte stream is cut into reads.
 */
module DFileFrame {
  import opened Bytes
  import opened DFileCore
  import opened Deframe

  const MAX_LEN: nat := 29433
  const MAX_FRAME: nat := 14720
  const MAX_NAME: nat := 256

  const T_HEADER: byte := 1
  const T_CONFIRM: byte := 2
  const T_REQUEST: byte := 3
  const T_DATA: byte := 4
  const T_ACK: byte := 5
  const T_DONE: byte := 6
  const T_DONE_ACK: byte := 7
  const T_SETTING: byte := 8
  const T_RST: byte := 9

  /** The eight header bytes, then the payload. */
  function WithHeader(kind: byte, flag: byte, trans: u16, payload: seq<byte>): (s: seq<byte>)
    requires |payload| <= MAX_LEN
    ensures |s| == 8 + |payload|
  {
    [kind, flag, 0, 0] + PutU16(trans) + PutU16(|payload|) + payload
  }

  // ---------------------------------------------------------------- payloads

  function IdsBytes(ids: seq<u16>): seq<byte> {
    if ids == [] then [] else PutU16(ids[0]) + IdsBytes(ids[1..])
  }

  function ReadIds(s: seq<byte>): seq<u16>
    requires |s| % 2 == 0
  {
    if s == [] then [] else [GetU16(s, 0)] + ReadIds(s[2..])
  }

  function EntryBytes(e: Entry): seq<byte> {
    PutU16(e.id) + PutU64(e.size) + PutU16(|e.name| % 0x1_0000) + e.name
  }

  function EntriesBytes(es: seq<Entry>): seq<byte> {
    if es == [] then [] else EntryBytes(es[0]) + EntriesBytes(es[1..])
  }

  /** A C string: it ends at the first NUL. */
  function CName(s: seq<byte>): seq<byte> {
    if s == [] || s[0] == 0 then [] else [s[0]] + CName(s[1..])
  }

  /** The decoder loop; `room` is how many entries may still follow. */
  function ReadEntries(s: seq<byte>, room: nat): Option<seq<Entry>>
    decreases |s|
  {
    if s == [] then Some([])
    else if |s| < 12 then None
    else
      var id := GetU16(s, 0);
      var len := GetU16(s, 10);
      if id == 0 then (if |s| - 12 < 2 then None else Some([])) // a user data unit ends the list
      else if len == 0 || len > MAX_NAME || |s| < 12 + len || room == 0 then None
      else
        match ReadEntries(s[12 + len..], room - 1)
        case None => None
        case Some(es) => Some([Entry(id, GetU64(s, 2), CName(s[12..12 + len]))] + es)
  }

  /** Two feedback words ride on the first entry of a V2 ack. */
  datatype AckBody = AckBody(v2: bool, acks: seq<AckEntry>, c: u16, d: u16)

  function AckBytes(e: AckEntry): (s: seq<byte>)
    ensures |s| == 6
  {
    PutU16(e.id) + PutU32(e.last)
  }

  function AcksBytes(es: seq<AckEntry>): (s: seq<byte>)
    ensures |s| == 6 * |es|
  {
    if es == [] then [] else AckBytes(es[0]) + AcksBytes(es[1..])
  }

  /** The length field carries the count: 6 + 37n or 12 + 37n; the unused room is zero. */
  function AckPayload(a: AckBody): (s: seq<byte>)
    requires |a.acks| <= MAX_ACKS
    ensures |s| == (if a.v2 then 12 else 6) + 37 * |a.acks|
  {
    if a.acks == [] then Zeros(if a.v2 then 12 else 6)
    else if a.v2 then
      AckBytes(a.acks[0]) + PutU16(a.c) + PutU16(a.d) + Zeros(2) + AcksBytes(a.acks[1..]) + Zeros(6 + 31 * |a.acks|)
    else
      AcksBytes(a.acks) + Zeros(6 + 31 * |a.acks|)
  }

  function ReadAcks(s: seq<byte>, at: nat, n: nat): seq<AckEntry>
    requires at + 6 * n <= |s|
    decreases n
  {
    if n == 0 then [] else [AckEntry(GetU16(s, at), GetU32(s, at + 2))] + ReadAcks(s, at + 6, n - 1)
  }

  function ReadAck(s: seq<byte>): Option<AckBody> {
    var v2 := |s| % 37 == 12;
    if !v2 && |s| % 37 != 6 then None
    else if |s| >= 0x5c1 then None
    else
      var n := (|s| - if v2 then 12 else 6) / 37;
      if n == 0 then Some(AckBody(v2, [], 0, 0))
      else if v2 then
        Some(AckBody(true, [AckEntry(GetU16(s, 0), GetU32(s, 2))] + ReadAcks(s, 12, n - 1), GetU16(s, 6), GetU16(s, 8)))
      else Some(AckBody(false, ReadAcks(s, 0, n), 0, 0))
  }

  // ---------------------------------------------------------------- round trips of the payloads

  lemma {:induction false} IdsRoundTrip(ids: seq<u16>)
    ensures |IdsBytes(ids)| == 2 * |ids| && ReadIds(IdsBytes(ids)) == ids
  {
    if ids != [] {
      IdsRoundTrip(ids[1..]);
      var s := IdsBytes(ids);
      hide PutU16, GetU16;
      assert s[0..2] == PutU16(ids[0]) && s[2..] == IdsBytes(ids[1..]);
      GetPutU16(s, 0, ids[0]);
    }
  }

  lemma {:induction false} CNameId(s: seq<byte>)
    requires 0 !in s
    ensures CName(s) == s
  {
    if s != [] {
      CNameId(s[1..]);
    }
  }

  predicate EntryOk(e: Entry) {
    e.id != 0 && 1 <= |e.name| <= MAX_NAME && 0 !in e.name
  }

  lemma EntryFields(e: Entry, rest: seq<byte>)
    requires EntryOk(e)
    ensures var s := EntryBytes(e) + rest;
            && |s| >= 12 + |e.name| && GetU16(s, 0) == e.id && GetU64(s, 2) == e.size && GetU16(s, 10) == |e.name|
            && s[12..12 + |e.name|] == e.name && s[12 + |e.name|..] == rest
  {
    hide PutU16, PutU64, GetU16, GetU64;
    var s := EntryBytes(e) + rest;
    assert s[0..2] == PutU16(e.id) && s[2..10] == PutU64(e.size) && s[10..12] == PutU16(|e.name|);
    GetPutU16(s, 0, e.id);
    GetPutU64(s, 2, e.size);
    GetPutU16(s, 10, |e.name|);
  }

  lemma {:induction false} EntriesRoundTrip(es: seq<Entry>, room: nat)
    requires |es| <= room && forall i | 0 <= i < |es| :: EntryOk(es[i])
    ensures ReadEntries(EntriesBytes(es), room) == Some(es)
    decreases |es|
  {
    hide GetU16, GetU64, EntryBytes;
    if es != [] {
      EntriesRoundTrip(es[1..], room - 1);
      EntryFields(es[0], EntriesBytes(es[1..]));
      CNameId(es[0].name);
      assert [es[0]] + es[1..] == es;
    }
  }

  /** Entries of acks read back from anywhere in a buffer. */
  lemma {:induction false} AcksRoundTrip(s: seq<byte>, at: nat, es: seq<AckEntry>)
    requires at + 6 * |es| <= |s| && s[at..at + 6 * |es|] == AcksBytes(es)
    ensures ReadAcks(s, at, |es|) == es
    decreases |es|
  {
    hide PutU16, PutU32, GetU16, GetU32;
    if es != [] {
      var body := AcksBytes(es);
      assert body[..6] == AckBytes(es[0]) && body[6..] == AcksBytes(es[1..]);
      assert s[at..at + 6] == s[at..at + 6 * |es|][..6];
      assert s[at + 6..at + 6 * |es|] == s[at..at + 6 * |es|][6..];
      AckAt(s, at, es[0]);
      AcksRoundTrip(s, at + 6, es[1..]);
      assert [es[0]] + es[1..] == es;
    }
  }

  lemma AckAt(s: seq<byte>, at: nat, e: AckEntry)
    requires at + 6 <= |s| && s[at..at + 6] == AckBytes(e)
    ensures AckEntry(GetU16(s, at), GetU32(s, at + 2)) == e
  {
    hide PutU16, PutU32, GetU16, GetU32;
    assert s[at..at + 2] == s[at..at + 6][..2] && s[at + 2..at + 6] == s[at..at + 6][2..];
    assert AckBytes(e)[..2] == PutU16(e.id) && AckBytes(e)[2..] == PutU32(e.last);
    GetPutU16(s, at, e.id);
    GetPutU32(s, at + 2, e.last);
  }

  /** Feedback words exist only on the first entry of a V2 ack. */
  predicate AckBodyOk(a: AckBody) {
    |a.acks| <= MAX_ACKS && (a.acks == [] || !a.v2 ==> a.c == 0 && a.d == 0)
  }

  /** Both versions read back as what they were: the version is told from the length alone. */
  lemma {:induction false} AckRoundTrip(a: AckBody)
    requires AckBodyOk(a)
    ensures ReadAck(AckPayload(a)) == Some(a)
  {
    hide PutU16, PutU32, GetU16, GetU32, AckBytes, AcksBytes, ReadAcks;
    var s := AckPayload(a);
    var n := |a.acks|;
    assert ((if a.v2 then 12 else 6) + 37 * n) % 37 == (if a.v2 then 12 else 6);
    if n > 0 && a.v2 {
      assert s[0..6] == AckBytes(a.acks[0]);
      assert s[6..8] == PutU16(a.c) && s[8..10] == PutU16(a.d);
      assert s[12..12 + 6 * (n - 1)] == AcksBytes(a.acks[1..]);
      AckAt(s, 0, a.acks[0]);
      GetPutU16(s, 6, a.c);
      GetPutU16(s, 8, a.d);
      AcksRoundTrip(s, 12, a.acks[1..]);
      assert [a.acks[0]] + a.acks[1..] == a.acks;
    } else if n > 0 {
      assert s[0..6 * n] == AcksBytes(a.acks);
      AcksRoundTrip(s, 0, a.acks);
    }
  }

  // ---------------------------------------------------------------- frames

  /** The SETTING payload: 24 bytes of numbers, the product version, four flags, two capabilities. */
  function SettingBytes(mtu: u16, frameSize: u32, version: seq<byte>): (s: seq<byte>)
    requires |version| == 64
    ensures |s| == 100
  {
    PutU16(mtu) + PutU16(1) + PutU32(1) + PutU32(0) + PutU32(0) + PutU32(frameSize) + PutU32(0) + version + Zeros(12)
  }

  /** What an end may put on the wire. */
  predicate Sendable(f: Frame) {
    match f
    case Setting(_, _) => true
    case FileHeader(_, node, es) =>
      0 < |es| <= node && 2 + |EntriesBytes(es)| <= MAX_LEN && forall i | 0 <= i < |es| :: EntryOk(es[i])
    case Confirm(_, ids) => 0 < |ids| <= MAX_FILES
    case Request(_, ids) => 0 < |ids| <= MAX_FILES
    case Data(_, _, _, _, payload) => 14 + |payload| <= MAX_FRAME
    case Ack(_, acks) => |acks| <= MAX_ACKS
    case Done(_, ids) => 0 < |ids| <= MAX_FILES
    case DoneAck(_, ids) => 0 < |ids| <= MAX_FILES
    case Rst(_, _) => true
    case Bad(_) => false
    case Ignored => false
  }

  lemma {:induction false} IdsSize(ids: seq<u16>)
    ensures |IdsBytes(ids)| == 2 * |ids|
  {
    IdsRoundTrip(ids);
  }

  function IdFrame(kind: byte, trans: u16, ids: seq<u16>): seq<byte>
    requires |ids| <= MAX_FILES
  {
    IdsSize(ids);
    WithHeader(kind, 0, trans, IdsBytes(ids))
  }

  function Encode(f: Frame, version: seq<byte>): seq<byte>
    requires Sendable(f) && |version| == 64
  {
    match f
    case Setting(mtu, size) => WithHeader(T_SETTING, 0, 0, SettingBytes(mtu, size, version))
    case FileHeader(trans, node, es) => WithHeader(T_HEADER, 0, trans, PutU16(node) + EntriesBytes(es))
    case Confirm(trans, ids) => IdFrame(T_CONFIRM, trans, ids)
    case Request(trans, ids) => IdFrame(T_REQUEST, trans, ids)
    case Data(trans, flag, id, num, payload) => WithHeader(T_DATA, flag, trans, PutU16(id) + PutU32(num) + payload)
    case Ack(trans, acks) => WithHeader(T_ACK, 0, trans, AckPayload(AckBody(false, acks, 0, 0)))
    case Done(trans, ids) => IdFrame(T_DONE, trans, ids)
    case DoneAck(trans, ids) => IdFrame(T_DONE_ACK, trans, ids)
    case Rst(trans, code) => WithHeader(T_RST, 0, trans, PutU16(code))
  }

  /** The loop condition on the receive buffer. */
  function HeadOf(buf: seq<byte>): Head {
    if |buf| < 8 then NeedMore
    else
      var len := GetU16(buf, 6);
      if len == 0 || len > MAX_LEN then Corrupt
      else if |buf| < 8 + len then NeedMore
      else Whole(8 + len)
  }

  lemma HeadStable()
    ensures Stable(HeadOf) && HeadOf([]).NeedMore?
  {
  }

  /** The decoder of each frame type on its payload. */
  function DecodeBody(kind: byte, flag: byte, trans: u16, p: seq<byte>): Frame {
    match kind
    case 1 =>
      if |p| < 2 then Bad(kind)
      else
        var node := GetU16(p, 0);
        var es := ReadEntries(p[2..], if node > 0 then node else MAX_FILES);
        if es.None? then Bad(kind) else FileHeader(trans, node, es.value)
    case 4 => if |p| < 6 then Bad(kind) else Data(trans, flag, GetU16(p, 0), GetU32(p, 2), p[6..])
    case 5 =>
      var a := ReadAck(p);
      if a.None? then Bad(kind) else Ack(trans, a.value.acks)
    case 8 => if |p| != 100 then Bad(kind) else Setting(GetU16(p, 0), GetU32(p, 16))
    case 9 => if |p| < 2 || |p| % 2 != 0 || (|p| - 2) / 2 > MAX_FILES then Bad(kind) else Rst(trans, GetU16(p, 0))
    case _ =>
      if kind !in {T_CONFIRM, T_REQUEST, T_DONE, T_DONE_ACK} then Ignored
      else if |p| % 2 != 0 || |p| / 2 > MAX_FILES then Bad(kind)
      else
        var ids := ReadIds(p);
        if kind == T_CONFIRM then Confirm(trans, ids)
        else if kind == T_REQUEST then Request(trans, ids)
        else if kind == T_DONE then Done(trans, ids)
        else DoneAck(trans, ids)
  }

  function Decode(frame: seq<byte>): Frame
    requires HeadOf(frame) == Whole(|frame|)
  {
    DecodeBody(frame[0], frame[1], GetU16(frame, 4), frame[8..])
  }

  lemma HeaderFields(kind: byte, flag: byte, trans: u16, payload: seq<byte>)
    requires 0 < |payload| <= MAX_LEN
    ensures var s := WithHeader(kind, flag, trans, payload);
            && HeadOf(s) == Whole(|s|) && s[0] == kind && s[1] == flag && GetU16(s, 4) == trans && s[8..] == payload
  {
    hide PutU16, GetU16;
    var s := WithHeader(kind, flag, trans, payload);
    assert s[4..6] == PutU16(trans) && s[6..8] == PutU16(|payload|);
    GetPutU16(s, 4, trans);
    GetPutU16(s, 6, |payload|);
  }

  lemma IdFrameRoundTrip(kind: byte, trans: u16, ids: seq<u16>)
    requires 0 < |ids| <= MAX_FILES && kind in {T_CONFIRM, T_REQUEST, T_DONE, T_DONE_ACK}
    ensures HeadOf(IdFrame(kind, trans, ids)) == Whole(|IdFrame(kind, trans, ids)|)
    ensures Decode(IdFrame(kind, trans, ids)) == DecodeBody(kind, 0, trans, IdsBytes(ids))
    ensures |IdsBytes(ids)| % 2 == 0 && |IdsBytes(ids)| / 2 <= MAX_FILES && ReadIds(IdsBytes(ids)) == ids
  {
    IdsRoundTrip(ids);
    HeaderFields(kind, 0, trans, IdsBytes(ids));
    hide HeadOf, WithHeader, DecodeBody;
  }

  lemma SettingFields(mtu: u16, size: u32, version: seq<byte>)
    requires |version| == 64
    ensures var p := SettingBytes(mtu, size, version); GetU16(p, 0) == mtu && GetU32(p, 16) == size
  {
    hide PutU16, PutU32, GetU16, GetU32;
    var p := SettingBytes(mtu, size, version);
    assert p[0..2] == PutU16(mtu) && p[16..20] == PutU32(size);
    GetPutU16(p, 0, mtu);
    GetPutU32(p, 16, size);
  }

  lemma HeaderListFields(node: u16, es: seq<Entry>)
    requires 0 < |es| <= node && forall i | 0 <= i < |es| :: EntryOk(es[i])
    ensures var p := PutU16(node) + EntriesBytes(es); GetU16(p, 0) == node && ReadEntries(p[2..], node) == Some(es)
  {
    hide PutU16, GetU16;
    var p := PutU16(node) + EntriesBytes(es);
    assert p[0..2] == PutU16(node) && p[2..] == EntriesBytes(es);
    GetPutU16(p, 0, node);
    EntriesRoundTrip(es, node);
  }

  lemma DataFields(id: u16, num: u32, payload: seq<byte>)
    ensures var p := PutU16(id) + PutU32(num) + payload; GetU16(p, 0) == id && GetU32(p, 2) == num && p[6..] == payload
  {
    hide PutU16, PutU32, GetU16, GetU32;
    var p := PutU16(id) + PutU32(num) + payload;
    assert p[0..2] == PutU16(id) && p[2..6] == PutU32(num);
    GetPutU16(p, 0, id);
    GetPutU32(p, 2, num);
  }

  /** Every frame an end sends is a whole frame and decodes to itself. */
  lemma {:induction false} FrameRoundTrip(f: Frame, version: seq<byte>)
    requires Sendable(f) && |version| == 64 && (f.Setting? || f.Rst? || f.FileHeader? || f.Data? || f.Ack?)
    ensures var s := Encode(f, version);
            HeadOf(s) == Whole(|s|) && Decode(s) == f
  {
    hide HeadOf, WithHeader, GetU16, GetU32, PutU16, PutU32, ReadEntries, EntriesBytes, ReadAck, AckPayload,
      SettingBytes;
    match f
    case Setting(mtu, size) =>
      SettingFields(mtu, size, version);
      HeaderFields(T_SETTING, 0, 0, SettingBytes(mtu, size, version));
    case FileHeader(trans, node, es) =>
      HeaderListFields(node, es);
      HeaderFields(T_HEADER, 0, trans, PutU16(node) + EntriesBytes(es));
    case Data(trans, flag, id, num, payload) =>
      DataFields(id, num, payload);
      HeaderFields(T_DATA, flag, trans, PutU16(id) + PutU32(num) + payload);
    case Ack(trans, acks) =>
      AckRoundTrip(AckBody(false, acks, 0, 0));
      HeaderFields(T_ACK, 0, trans, AckPayload(AckBody(false, acks, 0, 0)));
    case Rst(trans, code) =>
      GetPutU16(PutU16(code), 0, code);
      HeaderFields(T_RST, 0, trans, PutU16(code));
  }

  lemma {:induction false} IdRoundTrip(f: Frame, version: seq<byte>)
    requires Sendable(f) && |version| == 64 && (f.Confirm? || f.Request? || f.Done? || f.DoneAck?)
    ensures var s := Encode(f, version);
            HeadOf(s) == Whole(|s|) && Decode(s) == f
  {
    var kind :=
      if f.Confirm? then T_CONFIRM else if f.Request? then T_REQUEST else if f.Done? then T_DONE else T_DONE_ACK;
    IdFrameRoundTrip(kind, f.trans, f.ids);
    hide HeadOf, IdFrame, IdsBytes, ReadIds, Decode;
  }

  /** `Encode`, then any cutting into reads, then `Decode`: the frames arrive in order and only a tail waits. */
  lemma {:induction false} WireRoundTrip(fs: seq<Frame>, version: seq<byte>, tail: seq<byte>, pieces: seq<seq<byte>>)
    requires |version| == 64 && forall i | 0 <= i < |fs| :: Sendable(fs[i])
    requires HeadOf(tail).NeedMore? && Flat(pieces) == Flat(EncodeAll(fs, version)) + tail
    ensures Stable(HeadOf)
    ensures var c := FeedAll(HeadOf, pieces);
            && c == Cut(EncodeAll(fs, version), tail, false)
            && forall i | 0 <= i < |fs| :: HeadOf(c.frames[i]) == Whole(|c.frames[i]|) && Decode(c.frames[i]) == fs[i]
  {
    HeadStable();
    hide HeadOf, Decode, Encode, FeedAll, Stable, Sendable;
    forall i | 0 <= i < |fs|
      ensures HeadOf(EncodeAll(fs, version)[i]) == Whole(|EncodeAll(fs, version)[i]|)
              && Decode(EncodeAll(fs, version)[i]) == fs[i]
    {
      OneRoundTrip(fs[i], version);
    }
    FramesSurviveChunking(HeadOf, EncodeAll(fs, version), tail, pieces);
  }

  lemma OneRoundTrip(f: Frame, version: seq<byte>)
    requires Sendable(f) && |version| == 64
    ensures HeadOf(Encode(f, version)) == Whole(|Encode(f, version)|) && Decode(Encode(f, version)) == f
  {
    hide HeadOf, Decode, Encode;
    if f.Confirm? || f.Request? || f.Done? || f.DoneAck? {
      IdRoundTrip(f, version);
    } else {
      FrameRoundTrip(f, version);
    }
  }

  function EncodeAll(fs: seq<Frame>, version: seq<byte>): seq<seq<byte>>
    requires |version| == 64 && forall i | 0 <= i < |fs| :: Sendable(fs[i])
  {
    seq(|fs|, i requires 0 <= i < |fs| => Encode(fs[i], version))
  }
}
