/**
 * What the engine reads in a datagram, whoever sent it: the bytes that are taken for a message are exactly the
 * encodings of that message with any flags, and everything else is dropped unread.
 */
module FillpWire {
  import opened Bytes
  import opened Num32
  import opened FillpFrame

  // ---------------------------------------------------------------- the head

  /** A datagram has a head exactly when it begins with the encoding of one. */
  lemma {:induction false} HeadIff(s: seq<byte>, h: Head)
    ensures DecodeHead(s) == GoodHead(h) <==> |s| >= HEAD_LEN && s[..HEAD_LEN] == EncodeHead(h)
  {
    if |s| >= HEAD_LEN {
      var f := GetU16(s, 0);
      ReadU16(s, 0, (h.kind as int) * 0x100 + h.flags);
      ReadU16(s, 2, h.len);
      ReadU32(s, 4, h.num);
      ReadU32(s, 8, h.seqNum);
      FlagWord(f, h.kind, h.flags);
      hide GetU16, GetU32, PutU16, PutU32;
      assert s[..12] == s[0..2] + s[2..4] + s[4..8] + s[8..12];
      Four(s[0..2], s[2..4], s[4..8], s[8..12],
           PutU16((h.kind as int) * 0x100 + h.flags), PutU16(h.len), PutU32(h.num), PutU32(h.seqNum));
    }
  }

  lemma FlagWord(f: u16, kind: nibble, flags: byte)
    ensures f == (kind as int) * 0x100 + flags <==> f / 0x1000 == 0 && f / 0x100 % 0x10 == kind && f % 0x100 == flags
  {
  }

  // ---------------------------------------------------------------- the bodies

  /** A head and what follows it say the message `m`. Numbers and flags not named here are not looked at. */
  ghost predicate Says(h: Head, body: seq<byte>, m: Msg) {
    match m
    case ConnReq(preserve, sendCache, recvCache, stamp) =>
      h.kind == CONN_REQ && body == PutU32(preserve) + PutU32(sendCache) + PutU32(recvCache) + PutU64(stamp)
    case ConnReqAck(tag, cookie, stamp) =>
      h.kind == CONN_REQ_ACK && |cookie| == COOKIE_LEN
      && body == PutU16(tag) + PutU16(COOKIE_LEN) + cookie + PutU64(stamp)
    case ConnConfirm(tag, cookie, addr) =>
      h.kind == CONN_CONFIRM && |cookie| == COOKIE_LEN && |addr| == ADDR_LEN
      && body == PutU16(tag) + PutU16(COOKIE_LEN) + cookie + addr
    case ConnConfirmAck(sendCache, recvCache, pktSize, addr) =>
      h.kind == CONN_CONFIRM_ACK && |addr| == ADDR_LEN
      && body == PutU32(sendCache) + PutU32(recvCache) + PutU32(pktSize) + addr
    case Data(num, seqNum, data) =>
      h.kind == DATA && h.num == num && h.seqNum == seqNum && h.len == |data| <= PKT_DATA_MAX && data <= body
    case Nack(begin, end, recvSeq) =>
      h.kind == NACK && h.num == begin && h.seqNum == recvSeq
      && |body| == NACK_LEN && body[..4] == PutU32(Sub32(end, 1))
    case Pack(ackSeq, ackPkt, lostSeq, listBytes) =>
      h.kind == PACK && h.num == ackPkt && h.seqNum == ackSeq
      && |body| >= PACK_LEN && body[12..16] == PutU32(lostSeq) && body[30..34] == PutU32(listBytes)
    case Fin => h.kind == FIN
    case Junk => false
  }

  lemma BodyRequest(s: seq<byte>, h: Head, m: Msg)
    requires |s| >= HEAD_LEN && DecodeHead(s) == GoodHead(h) && m.ConnReq?
    ensures Decode(s) == m <==> Says(h, s[HEAD_LEN..], m)
  {
    hide GetU16, GetU32, GetU64, PutU32, PutU64, DecodeHead;
    if Exact(s, CONN_REQ_LEN) {
      ReadU32(s, 12, m.preserve);
      ReadU32(s, 16, m.sendCache);
      ReadU32(s, 20, m.recvCache);
      ReadU64(s, 24, m.stamp);
      var b := s[HEAD_LEN..];
      assert b == s[12..16] + s[16..20] + s[20..24] + s[24..32];
      Four(s[12..16], s[16..20], s[20..24], s[24..32],
           PutU32(m.preserve), PutU32(m.sendCache), PutU32(m.recvCache), PutU64(m.stamp));
    }
  }

  /** Concatenations of pieces of the same sizes agree exactly when the pieces do. */
  lemma Four(a: seq<byte>, b: seq<byte>, c: seq<byte>, d: seq<byte>,
             a': seq<byte>, b': seq<byte>, c': seq<byte>, d': seq<byte>)
    requires |a| == |a'| && |b| == |b'| && |c| == |c'|
    ensures a + b + c + d == a' + b' + c' + d' <==> a == a' && b == b' && c == c' && d == d'
  {
    var s, t := a + b + c + d, a' + b' + c' + d';
    var i, j := |a| + |b|, |a| + |b| + |c|;
    assert s[..|a|] == a && s[|a|..i] == b && s[i..j] == c && s[j..] == d;
    assert t[..|a|] == a' && t[|a|..i] == b' && t[i..j] == c' && t[j..] == d';
  }

  lemma BodyRequestAck(s: seq<byte>, h: Head, m: Msg)
    requires |s| >= HEAD_LEN && DecodeHead(s) == GoodHead(h) && m.ConnReqAck?
    ensures Decode(s) == m <==> Says(h, s[HEAD_LEN..], m)
  {
    hide GetU16, GetU32, GetU64, PutU16, PutU64, DecodeHead;
    if Exact(s, CONN_REQ_ACK_LEN) && |m.cookie| == COOKIE_LEN {
      ReadU16(s, 12, m.tag);
      ReadU16(s, 14, COOKIE_LEN);
      ReadU64(s, 124, m.stamp);
      var b := s[HEAD_LEN..];
      assert b == s[12..14] + s[14..16] + s[16..124] + s[124..132];
      Four(s[12..14], s[14..16], s[16..124], s[124..132],
           PutU16(m.tag), PutU16(COOKIE_LEN), m.cookie, PutU64(m.stamp));
    }
  }

  lemma BodyConfirm(s: seq<byte>, h: Head, m: Msg)
    requires |s| >= HEAD_LEN && DecodeHead(s) == GoodHead(h) && m.ConnConfirm?
    ensures Decode(s) == m <==> Says(h, s[HEAD_LEN..], m)
  {
    hide GetU16, GetU32, GetU64, PutU16, DecodeHead;
    if Exact(s, CONN_CONFIRM_LEN) && |m.cookie| == COOKIE_LEN {
      ReadU16(s, 12, m.tag);
      ReadU16(s, 14, COOKIE_LEN);
      var b := s[HEAD_LEN..];
      assert b == s[12..14] + s[14..16] + s[16..124] + s[124..152];
      Four(s[12..14], s[14..16], s[16..124], s[124..152], PutU16(m.tag), PutU16(COOKIE_LEN), m.cookie, m.addr);
    }
  }

  lemma BodyConfirmAck(s: seq<byte>, h: Head, m: Msg)
    requires |s| >= HEAD_LEN && DecodeHead(s) == GoodHead(h) && m.ConnConfirmAck?
    ensures Decode(s) == m <==> Says(h, s[HEAD_LEN..], m)
  {
    hide GetU16, GetU32, GetU64, PutU32, DecodeHead;
    if Exact(s, CONN_CONFIRM_ACK_LEN) {
      ReadU32(s, 12, m.sendCache);
      ReadU32(s, 16, m.recvCache);
      ReadU32(s, 20, m.pktSize);
      var b := s[HEAD_LEN..];
      assert b == s[12..16] + s[16..20] + s[20..24] + s[24..52];
      Four(s[12..16], s[16..20], s[20..24], s[24..52],
           PutU32(m.sendCache), PutU32(m.recvCache), PutU32(m.pktSize), m.addr);
    }
  }

  lemma BodyNack(s: seq<byte>, h: Head, m: Msg)
    requires |s| >= HEAD_LEN && DecodeHead(s) == GoodHead(h) && (m.Nack? || m.Pack?)
    ensures Decode(s) == m <==> Says(h, s[HEAD_LEN..], m)
  {
    hide GetU16, GetU32, GetU64, PutU32, DecodeHead;
    var b := s[HEAD_LEN..];
    if m.Nack? && Exact(s, NACK_LEN) {
      ReadU32(s, 12, Sub32(m.end, 1));
      assert b[..4] == s[12..16];
    }
    if m.Pack? && HEAD_LEN + PACK_LEN <= |s| {
      ReadU32(s, 24, m.lostSeq);
      ReadU32(s, 42, m.listBytes);
      assert b[12..16] == s[24..28] && b[30..34] == s[42..46];
    }
  }

  lemma BodyData(s: seq<byte>, h: Head, m: Msg)
    requires |s| >= HEAD_LEN && DecodeHead(s) == GoodHead(h) && (m.Data? || m.Fin?)
    ensures Decode(s) == m <==> Says(h, s[HEAD_LEN..], m)
  {
    hide GetU16, GetU32, GetU64, DecodeHead;
    if h.kind == DATA && HEAD_LEN + h.len <= |s| {
      assert s[HEAD_LEN..][..h.len] == s[HEAD_LEN..HEAD_LEN + h.len];
    }
  }

  lemma BodySays(s: seq<byte>, h: Head, m: Msg)
    requires |s| >= HEAD_LEN && DecodeHead(s) == GoodHead(h) && !m.Junk?
    ensures Decode(s) == m <==> Says(h, s[HEAD_LEN..], m)
  {
    hide DecodeHead, Says, Decode;
    match m
    case ConnReq(_, _, _, _) => BodyRequest(s, h, m);
    case ConnReqAck(_, _, _) => BodyRequestAck(s, h, m);
    case ConnConfirm(_, _, _) => BodyConfirm(s, h, m);
    case ConnConfirmAck(_, _, _, _) => BodyConfirmAck(s, h, m);
    case Data(_, _, _) => BodyData(s, h, m);
    case Nack(_, _, _) => BodyNack(s, h, m);
    case Pack(_, _, _, _) => BodyNack(s, h, m);
    case Fin => BodyData(s, h, m);
  }

  /**
   * Every datagram, whoever sent it: it is heard as the message `m` if and only if it begins with the encoding of
   * a head whose body says `m`.
   */
  lemma {:induction false} DecodeIff(s: seq<byte>, m: Msg)
    requires !m.Junk?
    ensures Decode(s) == m <==>
              |s| >= HEAD_LEN && exists h :: s[..HEAD_LEN] == EncodeHead(h) && Says(h, s[HEAD_LEN..], m)
  {
    hide EncodeHead, DecodeHead, Says, Decode;
    if DecodeHead(s).GoodHead? {
      var h := DecodeHead(s).head;
      HeadIff(s, h);
      BodySays(s, h, m);
      assert |s| >= HEAD_LEN && s[..HEAD_LEN] == EncodeHead(h);
      assert Decode(s) == m <==> Says(h, s[HEAD_LEN..], m);
      forall g | s[..HEAD_LEN] == EncodeHead(g)
        ensures Says(g, s[HEAD_LEN..], m) ==> Decode(s) == m
      {
        HeadIff(s, g);
      }
    } else {
      BadIsJunk(s);
      forall g | |s| >= HEAD_LEN
        ensures s[..HEAD_LEN] != EncodeHead(g)
      {
        HeadIff(s, g);
      }
    }
  }

  lemma BadIsJunk(s: seq<byte>)
    requires DecodeHead(s).BadHead?
    ensures Decode(s) == Junk
  {
  }
}
