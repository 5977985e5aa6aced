/** The fillp datagram codec (src/proto/fillp_frame.c) and the dispatch on the packet type. */
module FillpFrame {
  import opened Bytes
  import opened Num32

  const HEAD_LEN: nat := 12
  const COOKIE_LEN: nat := 108
  const ADDR_LEN: nat := 28
  const PKT_DATA_MAX: nat := 1400
  const CONN_REQ_LEN: nat := 20
  const CONN_REQ_ACK_LEN: nat := 120
  const CONN_CONFIRM_LEN: nat := 140
  const CONN_CONFIRM_ACK_LEN: nat := 40
  const NACK_LEN: nat := 12
  const PACK_LEN: nat := 46
  const FIN_LEN: nat := 2

  type nibble = x: int | 0 <= x < 16

  const DATA: nibble := 0x1
  const CONN_REQ: nibble := 0x2
  const NACK: nibble := 0x3
  const PACK: nibble := 0x5
  const FIN: nibble := 0x6
  const CONN_REQ_ACK: nibble := 0xA
  const CONN_CONFIRM: nibble := 0xB
  const CONN_CONFIRM_ACK: nibble := 0xC

  /** What a datagram says to the engine. `Junk` is everything the engine drops unread. */
  datatype Msg =
    | ConnReq(preserve: u32, sendCache: u32, recvCache: u32, stamp: u64)
    | ConnReqAck(tag: u16, cookie: seq<byte>, stamp: u64)
    | ConnConfirm(tag: u16, cookie: seq<byte>, addr: seq<byte>)
    | ConnConfirmAck(sendCache: u32, recvCache: u32, pktSize: u32, addr: seq<byte>)
    | Data(num: u32, seqNum: u32, data: seq<byte>)
    | Nack(begin: u32, end: u32, recvSeq: u32)
    | Pack(ackSeq: u32, ackPkt: u32, lostSeq: u32, listBytes: u32)
    | Fin
    | Junk

  predicate Sendable(m: Msg) {
    match m
    case ConnReqAck(_, cookie, _) => |cookie| == COOKIE_LEN
    case ConnConfirm(_, cookie, addr) => |cookie| == COOKIE_LEN && |addr| == ADDR_LEN
    case ConnConfirmAck(_, _, _, addr) => |addr| == ADDR_LEN
    case Data(_, _, data) => |data| <= PKT_DATA_MAX
    case Junk => false
    case _ => true
  }

  datatype Head = Head(kind: nibble, flags: byte, len: u16, num: u32, seqNum: u32)

  function EncodeHead(h: Head): (s: seq<byte>)
    ensures |s| == HEAD_LEN
  {
    PutU16((h.kind as int) * 0x100 + h.flags) + PutU16(h.len) + PutU32(h.num) + PutU32(h.seqNum)
  }

  datatype HeadResult = BadHead | GoodHead(head: Head)

  function DecodeHead(s: seq<byte>): HeadResult {
    if |s| < HEAD_LEN then BadHead
    else if GetU16(s, 0) / 0x1000 != 0 then BadHead // the version nibble
    else GoodHead(Head(GetU16(s, 0) / 0x100 % 0x10, GetU16(s, 0) % 0x100, GetU16(s, 2), GetU32(s, 4), GetU32(s, 8)))
  }

  /** The whole datagram; `salt` is the random word of a NACK. */
  function Encode(m: Msg, salt: u64): (s: seq<byte>)
    requires Sendable(m)
  {
    match m
    case ConnReq(preserve, sendCache, recvCache, stamp) =>
      EncodeHead(Head(CONN_REQ, 0, CONN_REQ_LEN, 0, 0))
      + (PutU32(preserve) + PutU32(sendCache) + PutU32(recvCache) + PutU64(stamp))
    case ConnReqAck(tag, cookie, stamp) =>
      EncodeHead(Head(CONN_REQ_ACK, 0, CONN_REQ_ACK_LEN, 0, 0))
      + (PutU16(tag) + PutU16(COOKIE_LEN) + cookie + PutU64(stamp))
    case ConnConfirm(tag, cookie, addr) =>
      EncodeHead(Head(CONN_CONFIRM, 0, CONN_CONFIRM_LEN, 0, 0))
      + (PutU16(tag) + PutU16(COOKIE_LEN) + cookie + addr)
    case ConnConfirmAck(sendCache, recvCache, pktSize, addr) =>
      EncodeHead(Head(CONN_CONFIRM_ACK, 0, CONN_CONFIRM_ACK_LEN, 0, 0))
      + (PutU32(sendCache) + PutU32(recvCache) + PutU32(pktSize) + addr)
    case Data(num, seqNum, data) =>
      EncodeHead(Head(DATA, 0, |data|, num, seqNum)) + data
    case Nack(begin, end, recvSeq) =>
      EncodeHead(Head(NACK, 0, NACK_LEN, begin, recvSeq)) + (PutU32(Sub32(end, 1)) + PutU64(salt))
    case Pack(ackSeq, ackPkt, lostSeq, listBytes) =>
      EncodeHead(Head(PACK, 0, PACK_LEN, ackPkt, ackSeq))
      // 12 zero bytes: flag, loss, rates; 14 zero bytes: reserved, begin, end, options; 12 zero bytes: delays
      + (Zeros(12) + PutU32(lostSeq) + Zeros(14) + PutU32(listBytes) + Zeros(12))
    case Fin =>
      EncodeHead(Head(FIN, 0, FIN_LEN, 0, 0)) + PutU16(0)
  }

  /** The payload of a management datagram: present only when the length is exactly right. */
  predicate Exact(s: seq<byte>, payload: nat) {
    |s| == HEAD_LEN + payload
  }

  function Decode(s: seq<byte>): (m: Msg) {
    match DecodeHead(s)
    case BadHead => Junk
    case GoodHead(h) =>
      if h.kind == CONN_REQ && Exact(s, CONN_REQ_LEN) then
        ConnReq(GetU32(s, 12), GetU32(s, 16), GetU32(s, 20), GetU64(s, 24))
      else if h.kind == CONN_REQ_ACK && Exact(s, CONN_REQ_ACK_LEN) && GetU16(s, 14) == COOKIE_LEN then
        ConnReqAck(GetU16(s, 12), s[16..124], GetU64(s, 124))
      else if h.kind == CONN_CONFIRM && Exact(s, CONN_CONFIRM_LEN) && GetU16(s, 14) == COOKIE_LEN then
        ConnConfirm(GetU16(s, 12), s[16..124], s[124..152])
      else if h.kind == CONN_CONFIRM_ACK && Exact(s, CONN_CONFIRM_ACK_LEN) then
        ConnConfirmAck(GetU32(s, 12), GetU32(s, 16), GetU32(s, 20), s[24..52])
      else if h.kind == DATA && HEAD_LEN + h.len <= |s| && h.len <= PKT_DATA_MAX then
        Data(h.num, h.seqNum, s[HEAD_LEN..HEAD_LEN + h.len])
      else if h.kind == NACK && Exact(s, NACK_LEN) then
        Nack(h.num, Add32(GetU32(s, 12), 1), h.seqNum)
      else if h.kind == PACK && HEAD_LEN + PACK_LEN <= |s| then
        Pack(h.seqNum, h.num, GetU32(s, 24), GetU32(s, 42))
      else if h.kind == FIN then
        Fin
      else
        Junk
  }

  lemma {:induction false} HeadRoundTrip(h: Head, rest: seq<byte>)
    ensures DecodeHead(EncodeHead(h) + rest) == GoodHead(h)
  {
    var s := EncodeHead(h) + rest;
    GetPutU16(s, 0, (h.kind as int) * 0x100 + h.flags);
    GetPutU16(s, 2, h.len);
    GetPutU32(s, 4, h.num);
    GetPutU32(s, 8, h.seqNum);
  }

  /** Decoding undoes encoding for every message of the protocol and every NACK salt. */
  lemma {:induction false} RoundTrip(m: Msg, salt: u64)
    requires Sendable(m)
    ensures Decode(Encode(m, salt)) == m
  {
    match m
    case Data(num, seqNum, data) =>
      HeadRoundTrip(Head(DATA, 0, |data|, num, seqNum), data);
      assert Encode(m, salt)[HEAD_LEN..] == data;
    case Nack(begin, end, recvSeq) =>
      HeadRoundTrip(Head(NACK, 0, NACK_LEN, begin, recvSeq), PutU32(Sub32(end, 1)) + PutU64(salt));
      GetPutU32(Encode(m, salt), 12, Sub32(end, 1));
    case Pack(_, _, _, _) =>
      PackRoundTrip(m, salt);
    case Fin =>
      HeadRoundTrip(Head(FIN, 0, FIN_LEN, 0, 0), PutU16(0));
    case ConnReq(_, _, _, _) =>
      ConnReqRoundTrip(m, salt);
    case ConnReqAck(_, _, _) =>
      ConnReqAckRoundTrip(m, salt);
    case ConnConfirm(_, _, _) =>
      ConnConfirmRoundTrip(m, salt);
    case ConnConfirmAck(_, _, _, _) =>
      ConnConfirmAckRoundTrip(m, salt);
  }

  lemma PackRoundTrip(m: Msg, salt: u64)
    requires m.Pack?
    ensures Decode(Encode(m, salt)) == m
  {
    HeadRoundTrip(Head(PACK, 0, PACK_LEN, m.ackPkt, m.ackSeq),
                  Zeros(12) + PutU32(m.lostSeq) + Zeros(14) + PutU32(m.listBytes) + Zeros(12));
    hide PutU32, GetU32, Zeros, EncodeHead, DecodeHead;
    var s := Encode(m, salt);
    assert s[24..28] == PutU32(m.lostSeq);
    assert s[42..46] == PutU32(m.listBytes);
    GetPutU32(s, 24, m.lostSeq);
    GetPutU32(s, 42, m.listBytes);
  }

  lemma ConnReqRoundTrip(m: Msg, salt: u64)
    requires m.ConnReq?
    ensures Decode(Encode(m, salt)) == m
  {
    var s := Encode(m, salt);
    HeadRoundTrip(Head(CONN_REQ, 0, CONN_REQ_LEN, 0, 0),
                  PutU32(m.preserve) + PutU32(m.sendCache) + PutU32(m.recvCache) + PutU64(m.stamp));
    GetPutU32(s, 12, m.preserve);
    GetPutU32(s, 16, m.sendCache);
    GetPutU32(s, 20, m.recvCache);
    GetPutU64(s, 24, m.stamp);
  }

  lemma ConnReqAckRoundTrip(m: Msg, salt: u64)
    requires m.ConnReqAck? && Sendable(m)
    ensures Decode(Encode(m, salt)) == m
  {
    var s := Encode(m, salt);
    HeadRoundTrip(Head(CONN_REQ_ACK, 0, CONN_REQ_ACK_LEN, 0, 0),
                  PutU16(m.tag) + PutU16(COOKIE_LEN) + m.cookie + PutU64(m.stamp));
    GetPutU16(s, 12, m.tag);
    GetPutU16(s, 14, COOKIE_LEN);
    assert s[16..124] == m.cookie;
    GetPutU64(s, 124, m.stamp);
  }

  lemma ConnConfirmRoundTrip(m: Msg, salt: u64)
    requires m.ConnConfirm? && Sendable(m)
    ensures Decode(Encode(m, salt)) == m
  {
    var s := Encode(m, salt);
    HeadRoundTrip(Head(CONN_CONFIRM, 0, CONN_CONFIRM_LEN, 0, 0),
                  PutU16(m.tag) + PutU16(COOKIE_LEN) + m.cookie + m.addr);
    GetPutU16(s, 12, m.tag);
    GetPutU16(s, 14, COOKIE_LEN);
    assert s[16..124] == m.cookie;
    assert s[124..152] == m.addr;
  }

  lemma ConnConfirmAckRoundTrip(m: Msg, salt: u64)
    requires m.ConnConfirmAck? && Sendable(m)
    ensures Decode(Encode(m, salt)) == m
  {
    var s := Encode(m, salt);
    HeadRoundTrip(Head(CONN_CONFIRM_ACK, 0, CONN_CONFIRM_ACK_LEN, 0, 0),
                  PutU32(m.sendCache) + PutU32(m.recvCache) + PutU32(m.pktSize) + m.addr);
    GetPutU32(s, 12, m.sendCache);
    GetPutU32(s, 16, m.recvCache);
    GetPutU32(s, 20, m.pktSize);
    assert s[24..52] == m.addr;
  }
}
