/**
 * The four-way cookie handshake of src/proto/fillp_conn.c between one client and one server over a
 * network that loses, duplicates and reorders. HMAC is an unknown function of key and input.
 */
module FillpHandshake {
  import opened Bytes
  import opened FillpFrame
  import opened FillpCore

  const DIGEST_LEN: nat := 32

  type Hmac = (seq<byte>, seq<byte>) -> seq<byte>

  ghost predicate HmacOk(hmac: Hmac) {
    forall k, x :: |hmac(k, x)| == DIGEST_LEN
  }

  // ---------------------------------------------------------------- the cookie

  datatype CookieInfo = CookieInfo(born: u64, life: u32, localPkt: u32, localMsg: u32, remotePkt: u32, remoteMsg: u32,
                                   sendCache: u32, recvCache: u32, port: u16, family: u16, remote: seq<byte>)

  function CookieBody(c: CookieInfo): (b: seq<byte>)
    requires |c.remote| == ADDR_LEN
    ensures |b| == COOKIE_LEN - DIGEST_LEN
  {
    PutU64(c.born) + Zeros(8) + PutU32(c.life) + PutU32(c.localPkt) + PutU32(c.remotePkt) + PutU32(c.localMsg)
    + PutU32(c.remoteMsg) + PutU32(c.sendCache) + PutU32(c.recvCache) + PutU16(c.port) + PutU16(c.family) + c.remote
  }

  ghost function CookieFill(hmac: Hmac, key: seq<byte>, local: seq<byte>, c: CookieInfo): (r: seq<byte>)
    requires HmacOk(hmac) && |c.remote| == ADDR_LEN
    ensures |r| == COOKIE_LEN
  {
    hmac(key, CookieBody(c) + local) + CookieBody(c)
  }

  ghost predicate CookieVerifies(hmac: Hmac, key: seq<byte>, local: seq<byte>, cookie: seq<byte>)
    requires |cookie| == COOKIE_LEN
  {
    cookie[..DIGEST_LEN] == hmac(key, cookie[DIGEST_LEN..] + local)
  }

  /** An echoed cookie verifies under the key and address it was made with. */
  lemma {:induction false} FilledCookieVerifies(hmac: Hmac, key: seq<byte>, local: seq<byte>, c: CookieInfo)
    requires HmacOk(hmac) && |c.remote| == ADDR_LEN
    ensures CookieVerifies(hmac, key, local, CookieFill(hmac, key, local, c))
  {
    var cookie := CookieFill(hmac, key, local, c);
    assert |hmac(key, CookieBody(c) + local)| == DIGEST_LEN;
    assert cookie[DIGEST_LEN..] == CookieBody(c);
  }

  /** The constant-time comparison: no early exit, one accumulator. */
  method DigestsEqual(x: seq<bv8>, y: seq<bv8>) returns (equal: bool)
    requires |x| == |y|
    ensures equal <==> x == y
  {
    var acc: bv8 := 0;
    var i := 0;
    while i < |x|
      invariant 0 <= i <= |x|
      invariant acc == 0 <==> x[..i] == y[..i]
    {
      assert x[..i + 1] == x[..i] + [x[i]] && y[..i + 1] == y[..i] + [y[i]];
      XorZero(acc, x[i], y[i]);
      acc := acc | (x[i] ^ y[i]);
      i := i + 1;
    }
    assert x[..i] == x && y[..i] == y;
    equal := acc == 0;
  }

  lemma XorZero(acc: bv8, a: bv8, b: bv8)
    ensures acc | (a ^ b) == 0 <==> acc == 0 && a == b
  {
  }

  // ---------------------------------------------------------------- the two ends

  /** `ups` counts the on_established callbacks. */
  datatype Hand = Hand(state: State, cookie: seq<byte>, tag: u16, confirmSent: bool, ups: nat)

  datatype Server = Absent | Present(hand: Hand)

  /** All datagrams ever sent either way; any of them may arrive at any time. */
  datatype Hs = Hs(client: Hand, server: Server, toServer: set<seq<byte>>, toClient: set<seq<byte>>)

  datatype Setup = Setup(hmac: Hmac, key: seq<byte>, local: seq<byte>, clientAddr: seq<byte>, req: Msg)

  ghost predicate SetupOk(u: Setup) {
    HmacOk(u.hmac) && |u.local| == ADDR_LEN && |u.clientAddr| == ADDR_LEN && u.req.ConnReq?
  }

  ghost function Opening(u: Setup): Hs
    requires SetupOk(u)
  {
    Hs(Hand(Pending, Zeros(COOKIE_LEN), 0, false, 0), Absent, {Encode(u.req, 0)}, {})
  }

  datatype HsMove =
    | ServerHears(dgram: seq<byte>, info: CookieInfo, now: u64)
    | ClientHears(dgram: seq<byte>)
    | ClientResends
    | ClientLeaves                 // timeout, application close or FIN: to CLOSING, then to CLOSED
    | ServerLeaves

  function Leave(h: Hand): Hand {
    h.(state := if h.state in {Closing, Closed} then Closed else Closing)
  }

  function Up(h: Hand): Hand {
    h.(state := Established, ups := h.ups + 1)
  }

  function AckDgram(h: Hand, now: u64): seq<byte>
    requires |h.cookie| == COOKIE_LEN
  {
    Encode(ConnReqAck(1, h.cookie, now), 0)
  }

  function ConfirmDgram(u: Setup, h: Hand): seq<byte>
    requires |h.cookie| == COOKIE_LEN && |u.clientAddr| == ADDR_LEN
  {
    Encode(ConnConfirm(h.tag, h.cookie, u.clientAddr), 0)
  }

  ghost predicate Shaped(s: Hs) {
    |s.client.cookie| == COOKIE_LEN && (s.server.Present? ==> |s.server.hand.cookie| == COOKIE_LEN)
  }

  /** Where a datagram comes from is always known. */
  predicate Addressed(m: HsMove) {
    m.ServerHears? ==> |m.info.remote| == ADDR_LEN
  }

  predicate CanHs(s: Hs, m: HsMove) {
    match m
    case ServerHears(d, _, _) => d in s.toServer && Addressed(m)
    case ClientHears(d) => d in s.toClient
    case _ => true
  }

  ghost function ServerStep(u: Setup, s: Hs, msg: Msg, info: CookieInfo, now: u64): Hs
    requires SetupOk(u) && Shaped(s) && |info.remote| == ADDR_LEN
    requires msg.ConnConfirm? ==> |msg.cookie| == COOKIE_LEN
  {
    match s.server
    case Absent =>
      if msg.ConnReq? then
        var h := Hand(Pending, CookieFill(u.hmac, u.key, u.local, info), 0, false, 0);
        s.(server := Present(h), toClient := s.toClient + {AckDgram(h, now)})
      else s
    case Present(h) =>
      if msg.ConnReq? && h.state == Pending then
        s.(toClient := s.toClient + {AckDgram(h, now)})
      else if msg.ConnConfirm? && h.state in {Pending, Established} then
        if !CookieVerifies(u.hmac, u.key, u.local, msg.cookie) then
          s.(server := Present(h.(state := Closing)),
             toClient := if h.state == Established then s.toClient + {Encode(Fin, 0)} else s.toClient)
        else
          var ack := Encode(ConnConfirmAck(SEND_CACHE, 1048576, PKT_DATA_MAX, u.local), 0);
          s.(server := Present(if h.state == Pending then Up(h) else h), toClient := s.toClient + {ack})
      else s
  }

  ghost function ClientStep(u: Setup, s: Hs, msg: Msg): Hs
    requires SetupOk(u) && Shaped(s)
    requires msg.ConnReqAck? ==> |msg.cookie| == COOKIE_LEN
  {
    if s.client.state != Pending then s
    else match msg
      case ConnReqAck(tag, cookie, _) =>
        var h := s.client.(cookie := cookie, tag := tag, confirmSent := true);
        s.(client := h, toServer := s.toServer + {ConfirmDgram(u, h)})
      case ConnConfirmAck(_, _, _, _) => s.(client := Up(s.client))
      case _ => s
  }

  lemma CookieSizes(d: seq<byte>)
    ensures var m := Decode(d);
            (m.ConnConfirm? ==> |m.cookie| == COOKIE_LEN) && (m.ConnReqAck? ==> |m.cookie| == COOKIE_LEN)
  {
  }

  ghost function HsNext(u: Setup, s: Hs, m: HsMove): (t: Hs)
    requires SetupOk(u) && Shaped(s) && Addressed(m)
    ensures Shaped(t)
  {
    match m
    case ServerHears(d, info, now) => CookieSizes(d); ServerStep(u, s, Decode(d), info, now)
    case ClientHears(d) => CookieSizes(d); ClientStep(u, s, Decode(d))
    case ClientResends =>
      if s.client.state != Pending then s
      else s.(toServer := s.toServer + {if s.client.confirmSent then ConfirmDgram(u, s.client) else Encode(u.req, 0)})
    case ClientLeaves => s.(client := Leave(s.client))
    case ServerLeaves => if s.server.Present? then s.(server := Present(Leave(s.server.hand))) else s
  }

  // ---------------------------------------------------------------- the invariant

  /** Only the server's own cookie travels, and confirmations only after the server came up. */
  ghost predicate HsInv(u: Setup, s: Hs) {
    && Shaped(s)
    && s.client.ups <= 1 && (s.client.state == Pending ==> s.client.ups == 0)
    && (s.client.state == Established ==> s.client.ups == 1)
    && (s.server.Present? ==>
          && CookieVerifies(u.hmac, u.key, u.local, s.server.hand.cookie)
          && s.server.hand.ups <= 1 && (s.server.hand.state == Pending ==> s.server.hand.ups == 0)
          && (s.server.hand.state == Established ==> s.server.hand.ups == 1))
    && (s.client.confirmSent ==> s.server.Present? && CookieVerifies(u.hmac, u.key, u.local, s.client.cookie))
    && (s.server.Present? && s.server.hand.ups == 1 ==> s.client.confirmSent)
    && (s.client.ups == 1 ==> s.server.Present? && s.server.hand.ups == 1)
    && (forall d :: d in s.toServer ==> ToServerOk(u, s, d))
    && (forall d :: d in s.toClient ==> ToClientOk(u, s, d))
  }

  ghost predicate ToServerOk(u: Setup, s: Hs, d: seq<byte>) {
    var m := Decode(d);
    && (m.ConnConfirm? ==>
          && s.client.confirmSent
          && |m.cookie| == COOKIE_LEN && CookieVerifies(u.hmac, u.key, u.local, m.cookie))
    && (m.ConnReq? || m.ConnConfirm?)
  }

  ghost predicate ToClientOk(u: Setup, s: Hs, d: seq<byte>) {
    var m := Decode(d);
    && (m.ConnReqAck? ==>
          && s.server.Present?
          && |m.cookie| == COOKIE_LEN && CookieVerifies(u.hmac, u.key, u.local, m.cookie))
    && (m.ConnConfirmAck? ==> s.server.Present? && s.server.hand.ups == 1)
  }

  lemma OpeningInv(u: Setup)
    requires SetupOk(u)
    ensures HsInv(u, Opening(u))
  {
    hide Encode, Decode, CookieVerifies;
    RoundTrip(u.req, 0);
  }

  /** A state only moves forward: PENDING, ESTABLISHED, CLOSING, CLOSED. */
  function Rank(st: State): nat {
    match st
    case Pending => 0
    case Established => 1
    case Closing => 2
    case Closed => 3
  }

  ghost predicate Forward(s: Hs, t: Hs) {
    && Rank(s.client.state) <= Rank(t.client.state) && s.client.ups <= t.client.ups
    && (s.server.Present? ==>
          && t.server.Present? && Rank(s.server.hand.state) <= Rank(t.server.hand.state)
          && s.server.hand.ups <= t.server.hand.ups)
  }

  lemma {:induction false} ServerHearsKeeps(u: Setup, s: Hs, d: seq<byte>, info: CookieInfo, now: u64)
    requires SetupOk(u) && HsInv(u, s) && CanHs(s, ServerHears(d, info, now))
    ensures var t := HsNext(u, s, ServerHears(d, info, now)); HsInv(u, t) && Forward(s, t)
    ensures var t := HsNext(u, s, ServerHears(d, info, now));
            s.server.Present? && t.server.hand.state == Closing ==> s.server.hand.state == Closing
  {
    hide Encode, Decode, CookieVerifies, CookieFill;
    FilledCookieVerifies(u.hmac, u.key, u.local, info);
    var fresh_ := CookieFill(u.hmac, u.key, u.local, info);
    RoundTrip(ConnReqAck(1, fresh_, now), 0);
    if s.server.Present? {
      RoundTrip(ConnReqAck(1, s.server.hand.cookie, now), 0);
    }
    RoundTrip(ConnConfirmAck(SEND_CACHE, 1048576, PKT_DATA_MAX, u.local), 0);
    RoundTrip(Fin, 0);
    assert ToServerOk(u, s, d);
    var t := HsNext(u, s, ServerHears(d, info, now));
    forall x | x in t.toClient
      ensures ToClientOk(u, t, x)
    {
      if x in s.toClient {
        assert ToClientOk(u, s, x);
      }
    }
    assert forall x :: x in t.toServer ==> ToServerOk(u, s, x) ==> ToServerOk(u, t, x);
  }

  lemma {:induction false} ClientHearsKeeps(u: Setup, s: Hs, d: seq<byte>)
    requires SetupOk(u) && HsInv(u, s) && CanHs(s, ClientHears(d))
    ensures var t := HsNext(u, s, ClientHears(d)); HsInv(u, t) && Forward(s, t)
  {
    var m := Decode(d);
    assert ToClientOk(u, s, d);
    if m.ConnReqAck? {
      RoundTrip(ConnConfirm(m.tag, m.cookie, u.clientAddr), 0);
    }
    hide Encode, Decode, CookieVerifies;
    var t := HsNext(u, s, ClientHears(d));
    assert forall x :: x in t.toClient ==> ToClientOk(u, s, x) ==> ToClientOk(u, t, x);
    assert forall x :: x in s.toServer ==> ToServerOk(u, s, x) ==> ToServerOk(u, t, x);
  }

  lemma OtherKeeps(u: Setup, s: Hs, m: HsMove)
    requires SetupOk(u) && HsInv(u, s) && CanHs(s, m) && !m.ServerHears? && !m.ClientHears?
    ensures var t := HsNext(u, s, m); HsInv(u, t) && Forward(s, t)
  {
    hide Encode, Decode, CookieVerifies, CookieFill;
    RoundTrip(u.req, 0);
    RoundTrip(ConnConfirm(s.client.tag, s.client.cookie, u.clientAddr), 0);
    var t := HsNext(u, s, m);
    assert forall x :: x in t.toClient ==> ToClientOk(u, s, x) ==> ToClientOk(u, t, x);
    assert forall x :: x in s.toServer ==> ToServerOk(u, s, x) ==> ToServerOk(u, t, x);
  }

  // ---------------------------------------------------------------- runs

  ghost predicate IsHsRun(u: Setup, s: Hs, moves: seq<HsMove>)
    requires SetupOk(u)
    decreases |moves|
  {
    moves == [] || (Shaped(s) && CanHs(s, moves[0]) && IsHsRun(u, HsNext(u, s, moves[0]), moves[1..]))
  }

  ghost function HsAfter(u: Setup, s: Hs, moves: seq<HsMove>): Hs
    requires SetupOk(u) && IsHsRun(u, s, moves)
    decreases |moves|
  {
    if moves == [] then s else HsAfter(u, HsNext(u, s, moves[0]), moves[1..])
  }

  lemma {:induction false} HsRunKeeps(u: Setup, s: Hs, moves: seq<HsMove>)
    requires SetupOk(u) && HsInv(u, s) && IsHsRun(u, s, moves)
    ensures HsInv(u, HsAfter(u, s, moves)) && Forward(s, HsAfter(u, s, moves))
    decreases |moves|
  {
    if moves != [] {
      match moves[0] {
        case ServerHears(d, info, now) => ServerHearsKeeps(u, s, d, info, now);
        case ClientHears(d) => ClientHearsKeeps(u, s, d);
        case _ => OtherKeeps(u, s, moves[0]);
      }
      hide HsNext, HsInv, Shaped;
      HsRunKeeps(u, HsNext(u, s, moves[0]), moves[1..]);
    }
  }

  /**
   * In every run: each side's on_established fires at most once, a client that is established has a
   * server that came up, no honest cookie is ever refused, and states only move forward.
   */
  lemma {:induction false} HandshakeSafe(u: Setup, first: seq<HsMove>, more: seq<HsMove>)
    requires SetupOk(u) && IsHsRun(u, Opening(u), first) && IsHsRun(u, HsAfter(u, Opening(u), first), more)
    ensures var s := HsAfter(u, Opening(u), first); var t := HsAfter(u, s, more);
            && Forward(s, t)
            && t.client.ups <= 1 && (t.server.Present? ==> t.server.hand.ups <= 1)
            && (t.client.state == Established ==> t.server.Present? && t.server.hand.ups == 1)
            && (forall d :: d in t.toServer && Decode(d).ConnConfirm? ==>
                  |Decode(d).cookie| == COOKIE_LEN && CookieVerifies(u.hmac, u.key, u.local, Decode(d).cookie))
  {
    OpeningInv(u);
    HsRunKeeps(u, Opening(u), first);
    HsRunKeeps(u, HsAfter(u, Opening(u), first), more);
    hide Decode, CookieVerifies;
    var t := HsAfter(u, HsAfter(u, Opening(u), first), more);
    assert forall d :: d in t.toServer ==> ToServerOk(u, t, d);
  }

  // ---------------------------------------------------------------- the handshake can always finish

  ghost predicate BothUp(s: Hs) {
    s.client.state == Established && s.server.Present? && s.server.hand.state == Established
  }

  /** The client still waits and the server, if any, has not left. */
  ghost predicate Waiting(s: Hs) {
    s.client.state == Pending && (s.server.Present? ==> s.server.hand.state in {Pending, Established})
  }

  lemma OneHsMove(u: Setup, s: Hs, m: HsMove) returns (t: Hs)
    requires SetupOk(u) && HsInv(u, s) && CanHs(s, m)
    ensures IsHsRun(u, s, [m]) && t == HsAfter(u, s, [m]) == HsNext(u, s, m) && HsInv(u, t)
  {
    t := HsNext(u, s, m);
    hide HsNext, CanHs;
    assert [m][1..] == [];
    HsRunKeeps(u, s, [m]);
  }

  lemma {:induction false} HsRunAppend(u: Setup, s: Hs, first: seq<HsMove>, second: seq<HsMove>)
    requires SetupOk(u) && IsHsRun(u, s, first) && IsHsRun(u, HsAfter(u, s, first), second)
    ensures IsHsRun(u, s, first + second)
    ensures HsAfter(u, s, first + second) == HsAfter(u, HsAfter(u, s, first), second)
    decreases |first|
  {
    hide HsNext, Shaped;
    if first == [] {
      assert first + second == second;
    } else {
      HsRunAppend(u, HsNext(u, s, first[0]), first[1..], second);
      assert (first + second)[1..] == first[1..] + second;
    }
  }

  /** Three moves in a row. */
  lemma ThreeHsMoves(u: Setup, s: Hs, m1: HsMove, s1: Hs, m2: HsMove, s2: Hs, m3: HsMove, s3: Hs)
    requires SetupOk(u)
    requires IsHsRun(u, s, [m1]) && HsAfter(u, s, [m1]) == s1
    requires IsHsRun(u, s1, [m2]) && HsAfter(u, s1, [m2]) == s2
    requires IsHsRun(u, s2, [m3]) && HsAfter(u, s2, [m3]) == s3
    ensures IsHsRun(u, s, [m1, m2, m3]) && HsAfter(u, s, [m1, m2, m3]) == s3
  {
    hide IsHsRun, HsAfter;
    HsRunAppend(u, s, [m1], [m2]);
    HsRunAppend(u, s, [m1] + [m2], [m3]);
    assert [m1, m2, m3] == [m1] + [m2] + [m3];
  }

  /** Resend the CONN_CONFIRM, let it arrive, let its answer arrive. */
  lemma FinishConfirm(u: Setup, s: Hs, info: CookieInfo) returns (moves: seq<HsMove>)
    requires SetupOk(u) && HsInv(u, s) && Waiting(s) && s.client.confirmSent && |info.remote| == ADDR_LEN
    ensures IsHsRun(u, s, moves) && BothUp(HsAfter(u, s, moves))
  {
    hide Encode, Decode, CookieVerifies, IsHsRun, HsAfter;
    var d := ConfirmDgram(u, s.client);
    RoundTrip(ConnConfirm(s.client.tag, s.client.cookie, u.clientAddr), 0);
    var s1 := OneHsMove(u, s, ClientResends);
    var s2 := OneHsMove(u, s1, ServerHears(d, info, 0));
    var ack := Encode(ConnConfirmAck(SEND_CACHE, 1048576, PKT_DATA_MAX, u.local), 0);
    RoundTrip(ConnConfirmAck(SEND_CACHE, 1048576, PKT_DATA_MAX, u.local), 0);
    var s3 := OneHsMove(u, s2, ClientHears(ack));
    moves := [ClientResends, ServerHears(d, info, 0), ClientHears(ack)];
    ThreeHsMoves(u, s, ClientResends, s1, ServerHears(d, info, 0), s2, ClientHears(ack), s3);
  }

  /** Resend the CONN_REQ, let it arrive, let the cookie arrive. */
  lemma FinishRequest(u: Setup, s: Hs, info: CookieInfo) returns (moves: seq<HsMove>, t: Hs)
    requires SetupOk(u) && HsInv(u, s) && Waiting(s) && !s.client.confirmSent && |info.remote| == ADDR_LEN
    ensures IsHsRun(u, s, moves) && t == HsAfter(u, s, moves) && HsInv(u, t) && Waiting(t) && t.client.confirmSent
  {
    hide Encode, Decode, CookieVerifies, IsHsRun, HsAfter;
    var d := Encode(u.req, 0);
    RoundTrip(u.req, 0);
    var s1 := OneHsMove(u, s, ClientResends);
    var s2 := OneHsMove(u, s1, ServerHears(d, info, 0));
    var ack := AckDgram(s2.server.hand, 0);
    RoundTrip(ConnReqAck(1, s2.server.hand.cookie, 0), 0);
    var s3 := OneHsMove(u, s2, ClientHears(ack));
    moves, t := [ClientResends, ServerHears(d, info, 0), ClientHears(ack)], s3;
    ThreeHsMoves(u, s, ClientResends, s1, ServerHears(d, info, 0), s2, ClientHears(ack), s3);
  }

  /** Whatever was lost, while the client waits and the server has not left, the handshake can still finish. */
  lemma {:induction false} HandshakeCanFinish(u: Setup, moves: seq<HsMove>, info: CookieInfo)
      returns (more: seq<HsMove>)
    requires SetupOk(u) && IsHsRun(u, Opening(u), moves) && |info.remote| == ADDR_LEN
    requires Waiting(HsAfter(u, Opening(u), moves))
    ensures var s := HsAfter(u, Opening(u), moves); IsHsRun(u, s, more) && BothUp(HsAfter(u, s, more))
  {
    OpeningInv(u);
    HsRunKeeps(u, Opening(u), moves);
    var s := HsAfter(u, Opening(u), moves);
    if s.client.confirmSent {
      more := FinishConfirm(u, s, info);
    } else {
      var first, t := FinishRequest(u, s, info);
      var rest := FinishConfirm(u, t, info);
      HsRunAppend(u, s, first, rest);
      more := first + rest;
    }
  }

  // ---------------------------------------------------------------- cookies nobody was given

  /** Whether a server takes the cookie of a CONN_CONFIRM; its length is what `Decode` cuts out. */
  ghost predicate Takes(u: Setup, msg: Msg) {
    msg.ConnConfirm? && |msg.cookie| == COOKIE_LEN && CookieVerifies(u.hmac, u.key, u.local, msg.cookie)
  }

  /**
   * A CONN_CONFIRM from anybody. A waiting server comes up if and only if the cookie verifies, and closes
   * otherwise without sending anything; an established one answers a good cookie again and closes on a bad
   * one, with a FIN; any other server ignores it.
   */
  lemma {:induction false} CookieDecides(u: Setup, s: Hs, msg: Msg, info: CookieInfo, now: u64)
    requires SetupOk(u) && Shaped(s) && |info.remote| == ADDR_LEN && msg.ConnConfirm? && |msg.cookie| == COOKIE_LEN
    ensures var t := ServerStep(u, s, msg, info, now); var good := Takes(u, msg);
            && t.client == s.client && t.toServer == s.toServer && (s.server.Absent? ==> t == s)
            && (s.server.Present? ==>
                  var h := s.server.hand; var ack := ConnConfirmAck(SEND_CACHE, 1048576, PKT_DATA_MAX, u.local);
                  && t.server.Present?
                  && (t.server.hand.ups == h.ups + 1 <==> h.state == Pending && good)
                  && (t.server.hand.ups == h.ups <==> !(h.state == Pending && good))
                  && (h.state == Pending ==> t.server.hand.state == if good then Established else Closing)
                  && (h.state == Established ==> t.server.hand.state == if good then Established else Closing)
                  && (h.state in {Closing, Closed} ==> t == s)
                  && (h.state in {Pending, Established} && good ==> t.toClient == s.toClient + {Encode(ack, 0)})
                  && (h.state == Pending && !good ==> t.toClient == s.toClient)
                  && (h.state == Established && !good ==> t.toClient == s.toClient + {Encode(Fin, 0)}))
  {
    hide Encode, CookieVerifies;
  }

  /** The state after any moves at all: either end may hear datagrams that the other never sent. */
  ghost function Forged(u: Setup, moves: seq<HsMove>): (s: Hs)
    requires SetupOk(u) && forall i | 0 <= i < |moves| :: Addressed(moves[i])
    ensures Shaped(s)
  {
    if moves == [] then Opening(u) else HsNext(u, Forged(u, moves[..|moves| - 1]), moves[|moves| - 1])
  }

  ghost predicate IsRequest(m: HsMove) {
    m.ServerHears? && Decode(m.dgram).ConnReq?
  }

  ghost predicate IsConfirm(m: HsMove) {
    m.ServerHears? && Decode(m.dgram).ConnConfirm?
  }

  ghost predicate Asked(moves: seq<HsMove>, n: nat)
    requires n <= |moves|
  {
    exists j | 0 <= j < n :: IsRequest(moves[j])
  }

  /** After a request, a confirmation or the server's own leaving decides. */
  ghost predicate Decides(moves: seq<HsMove>, k: nat)
    requires k < |moves|
  {
    Asked(moves, k) && (moves[k].ServerLeaves? || IsConfirm(moves[k]))
  }

  ghost predicate Undecided(moves: seq<HsMove>, n: nat)
    requires n <= |moves|
  {
    forall k | 0 <= k < n :: !Decides(moves, k)
  }

  /** The first thing that decides is a confirmation whose cookie verifies. */
  ghost predicate ComesUpAt(u: Setup, moves: seq<HsMove>, i: nat)
    requires i < |moves|
  {
    Undecided(moves, i) && Decides(moves, i) && IsConfirm(moves[i]) && Takes(u, Decode(moves[i].dgram))
  }

  ghost predicate ComesUp(u: Setup, moves: seq<HsMove>, n: nat)
    requires n <= |moves|
  {
    exists i | 0 <= i < n :: ComesUpAt(u, moves, i)
  }

  /** What the server is after the first `n` moves. */
  ghost predicate ServerIs(u: Setup, moves: seq<HsMove>, n: nat, server: Server)
    requires n <= |moves|
  {
    && (server.Present? <==> Asked(moves, n))
    && (server.Present? ==>
          && (server.hand.state == Pending <==> Undecided(moves, n))
          && server.hand.ups == (if ComesUp(u, moves, n) then 1 else 0))
  }

  /** What one move does to the server. */
  lemma ServerMoves(u: Setup, s: Hs, m: HsMove)
    requires SetupOk(u) && Shaped(s) && Addressed(m)
    ensures var t := HsNext(u, s, m);
            && (s.server.Absent? ==>
                  && (t.server.Present? <==> IsRequest(m))
                  && (t.server.Present? ==> t.server.hand.state == Pending && t.server.hand.ups == 0))
            && (s.server.Present? ==>
                  && t.server.Present?
                  && (t.server.hand.state == Pending <==>
                        s.server.hand.state == Pending && !(m.ServerLeaves? || IsConfirm(m)))
                  && t.server.hand.ups == s.server.hand.ups
                       + if s.server.hand.state == Pending && IsConfirm(m) && Takes(u, Decode(m.dgram)) then 1 else 0)
  {
    hide Encode, Decode, CookieVerifies, CookieFill;
    if m.ServerHears? {
      CookieSizes(m.dgram);
      if IsConfirm(m) {
        CookieDecides(u, s, Decode(m.dgram), m.info, m.now);
      }
    }
  }

  lemma OneMoreMove(u: Setup, moves: seq<HsMove>, n: nat)
    requires n < |moves|
    ensures Asked(moves, n + 1) <==> Asked(moves, n) || IsRequest(moves[n])
    ensures Undecided(moves, n + 1) <==> Undecided(moves, n) && !Decides(moves, n)
    ensures ComesUp(u, moves, n + 1) <==> ComesUp(u, moves, n) || ComesUpAt(u, moves, n)
    ensures !Asked(moves, n) ==> Undecided(moves, n) && !ComesUp(u, moves, n)
    ensures ComesUp(u, moves, n) ==> !Undecided(moves, n)
  {
    hide IsRequest, IsConfirm, Takes;
    forall k | 0 <= k < n && Asked(moves, k)
      ensures Asked(moves, n)
    {
    }
  }

  lemma ServerStepIs(u: Setup, moves: seq<HsMove>, n: nat, s: Hs)
    requires SetupOk(u) && n < |moves| && Shaped(s) && Addressed(moves[n]) && ServerIs(u, moves, n, s.server)
    ensures ServerIs(u, moves, n + 1, HsNext(u, s, moves[n]).server)
  {
    ServerMoves(u, s, moves[n]);
    OneMoreMove(u, moves, n);
    hide HsNext, Takes, Asked, Undecided, ComesUp, IsRequest, IsConfirm;
  }

  lemma {:induction false} ForgedServer(u: Setup, moves: seq<HsMove>, n: nat)
    requires SetupOk(u) && (forall i | 0 <= i < |moves| :: Addressed(moves[i])) && n <= |moves|
    ensures ServerIs(u, moves, n, Forged(u, moves[..n]).server)
  {
    hide HsNext, Takes, ComesUpAt, Decides, IsRequest, ServerIs;
    if n == 0 {
      assert ServerIs(u, moves, 0, Opening(u).server) by {
        NothingYet(u, moves);
      }
    } else {
      ForgedServer(u, moves, n - 1);
      assert moves[..n][..n - 1] == moves[..n - 1];
      ServerStepIs(u, moves, n - 1, Forged(u, moves[..n - 1]));
    }
  }

  lemma NothingYet(u: Setup, moves: seq<HsMove>)
    requires SetupOk(u)
    ensures ServerIs(u, moves, 0, Opening(u).server)
  {
  }

  /**
   * Whatever datagrams anybody makes up: the server's on_established has fired at most once, and it has fired
   * if and only if, after a CONN_REQ, the first thing to decide the matter was a CONN_CONFIRM with a cookie
   * that verifies, rather than one that does not, or the server's own leaving.
   */
  lemma {:induction false} ForgedRuns(u: Setup, moves: seq<HsMove>)
    requires SetupOk(u) && forall i | 0 <= i < |moves| :: Addressed(moves[i])
    ensures var s := Forged(u, moves);
            && (s.server.Present? ==> s.server.hand.ups <= 1)
            && (s.server.Present? && s.server.hand.ups == 1 <==> ComesUp(u, moves, |moves|))
  {
    hide Takes, ComesUpAt, Decides, IsRequest, Forged;
    ForgedServer(u, moves, |moves|);
    assert moves[..|moves|] == moves;
    if !Asked(moves, |moves|) && ComesUp(u, moves, |moves|) {
      var i :| 0 <= i < |moves| && ComesUpAt(u, moves, i);
      AskedStays(moves, i) by {
        UpMeansAsked(u, moves, i);
      }
    }
  }

  lemma AskedStays(moves: seq<HsMove>, i: nat)
    requires i <= |moves| && Asked(moves, i)
    ensures Asked(moves, |moves|)
  {
    hide IsRequest;
  }

  lemma UpMeansAsked(u: Setup, moves: seq<HsMove>, i: nat)
    requires i < |moves| && ComesUpAt(u, moves, i)
    ensures Asked(moves, i)
  {
    hide Undecided;
  }
}
