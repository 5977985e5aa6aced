/**
 * The handshake when anybody may send anything: one cookie per server, given again to whoever asks while the
 * server waits, and a client that comes up on the first CONN_CONFIRM_ACK it hears, whoever sent it.
 */
module FillpForged {
  import opened Bytes
  import opened FillpFrame
  import opened FillpCore
  import opened FillpHandshake

  // ---------------------------------------------------------------- the server's cookie

  /**
   * A CONN_REQ from anybody: a new server makes a cookie and gives it; a waiting one gives the cookie it has and
   * is not changed; any other is not moved to say anything.
   */
  lemma {:induction false} RequestAnswered(u: Setup, s: Hs, msg: Msg, info: CookieInfo, now: u64)
    requires SetupOk(u) && Shaped(s) && |info.remote| == ADDR_LEN && msg.ConnReq?
    ensures var t := ServerStep(u, s, msg, info, now);
            && t.client == s.client && t.toServer == s.toServer && t.server.Present?
            && (s.server.Absent? ==>
                  && t.server.hand == Hand(Pending, CookieFill(u.hmac, u.key, u.local, info), 0, false, 0)
                  && t.toClient == s.toClient + {Encode(ConnReqAck(1, t.server.hand.cookie, now), 0)})
            && (s.server.Present? ==>
                  && t.server == s.server
                  && t.toClient == s.toClient + if s.server.hand.state == Pending
                                                then {Encode(ConnReqAck(1, s.server.hand.cookie, now), 0)} else {})
  {
    hide Encode, CookieFill;
  }

  /** Every cookie on its way to the client is the server's own. */
  ghost predicate OneCookie(s: Hs) {
    forall d :: d in s.toClient && Decode(d).ConnReqAck? ==>
      s.server.Present? && Decode(d).cookie == s.server.hand.cookie
  }

  lemma CookieKept(u: Setup, s: Hs, m: HsMove)
    requires SetupOk(u) && Shaped(s) && Addressed(m) && OneCookie(s)
    ensures var t := HsNext(u, s, m);
            && OneCookie(t)
            && (s.server.Present? ==> t.server.Present? && t.server.hand.cookie == s.server.hand.cookie)
            && (s.server.Absent? && t.server.Present? ==>
                  m.ServerHears? && t.server.hand.cookie == CookieFill(u.hmac, u.key, u.local, m.info))
  {
    hide Encode, Decode, CookieVerifies, CookieFill;
    RoundTrip(Fin, 0);
    RoundTrip(ConnConfirmAck(SEND_CACHE, 1048576, PKT_DATA_MAX, u.local), 0);
    if m.ServerHears? {
      var cookie := if s.server.Present? then s.server.hand.cookie else CookieFill(u.hmac, u.key, u.local, m.info);
      RoundTrip(ConnReqAck(1, cookie, m.now), 0);
      CookieSizes(m.dgram);
      if Decode(m.dgram).ConnReq? {
        RequestAnswered(u, s, Decode(m.dgram), m.info, m.now);
      }
    }
  }

  /** Whatever anybody makes up: the server makes one cookie, and every CONN_REQ_ACK it ever sends carries it. */
  lemma {:induction false} OneCookieEver(u: Setup, moves: seq<HsMove>, n: nat)
    requires SetupOk(u) && (forall i | 0 <= i < |moves| :: Addressed(moves[i])) && n <= |moves|
    ensures OneCookie(Forged(u, moves)) && OneCookie(Forged(u, moves[..n]))
    ensures var s, t := Forged(u, moves[..n]), Forged(u, moves);
            s.server.Present? ==> t.server.Present? && t.server.hand.cookie == s.server.hand.cookie
    decreases |moves|
  {
    hide HsNext, OneCookie;
    var k := |moves|;
    if n == k {
      assert moves[..n] == moves;
      if k == 0 {
        NoCookieYet(u);
      } else {
        OneCookieEver(u, moves[..k - 1], k - 1);
        assert moves[..k - 1][..k - 1] == moves[..k - 1];
        CookieKept(u, Forged(u, moves[..k - 1]), moves[k - 1]);
      }
    } else {
      OneCookieEver(u, moves[..k - 1], n);
      assert moves[..k - 1][..n] == moves[..n];
      CookieKept(u, Forged(u, moves[..k - 1]), moves[k - 1]);
    }
  }

  lemma NoCookieYet(u: Setup)
    requires SetupOk(u)
    ensures OneCookie(Forged(u, []))
  {
  }

  // ---------------------------------------------------------------- the client

  /** Anybody's word that the server is up. */
  ghost predicate IsConfirmAck(m: HsMove) {
    m.ClientHears? && Decode(m.dgram).ConnConfirmAck?
  }

  /** A waiting client that is offered a cookie takes it and confirms it; nothing else makes it confirm. */
  lemma {:induction false} ClientConfirms(u: Setup, s: Hs, msg: Msg)
    requires SetupOk(u) && Shaped(s) && (msg.ConnReqAck? ==> |msg.cookie| == COOKIE_LEN)
    ensures var t := ClientStep(u, s, msg);
            && t.server == s.server && t.toClient == s.toClient
            && (msg.ConnReqAck? && s.client.state == Pending ==>
                  && t.client == s.client.(cookie := msg.cookie, tag := msg.tag, confirmSent := true)
                  && t.toServer == s.toServer + {Encode(ConnConfirm(msg.tag, msg.cookie, u.clientAddr), 0)})
            && (!(msg.ConnReqAck? && s.client.state == Pending) ==> t.toServer == s.toServer)
            && (t.client.ups == s.client.ups + 1 <==> msg.ConnConfirmAck? && s.client.state == Pending)
  {
    hide Encode;
  }

  lemma ClientMoves(u: Setup, s: Hs, m: HsMove)
    requires SetupOk(u) && Shaped(s) && Addressed(m)
    ensures var t := HsNext(u, s, m);
            && (t.client.state == Pending <==> s.client.state == Pending && !(m.ClientLeaves? || IsConfirmAck(m)))
            && t.client.ups == s.client.ups + if s.client.state == Pending && IsConfirmAck(m) then 1 else 0
  {
    hide Encode, Decode, CookieVerifies, CookieFill;
    if m.ClientHears? {
      CookieSizes(m.dgram);
    }
  }

  /** The first move that decides for the client is at `i`, and it is somebody's CONN_CONFIRM_ACK. */
  ghost predicate HearsFirst(moves: seq<HsMove>, i: nat)
    requires i < |moves|
  {
    IsConfirmAck(moves[i]) && forall k | 0 <= k < i :: !moves[k].ClientLeaves? && !IsConfirmAck(moves[k])
  }

  ghost predicate Undisturbed(moves: seq<HsMove>) {
    forall k | 0 <= k < |moves| :: !moves[k].ClientLeaves? && !IsConfirmAck(moves[k])
  }

  ghost predicate HearsEver(moves: seq<HsMove>) {
    exists i | 0 <= i < |moves| :: HearsFirst(moves, i)
  }

  lemma OneMoreHeard(moves: seq<HsMove>)
    requires moves != []
    ensures var n := |moves| - 1; var before := moves[..n];
            && (Undisturbed(moves) <==> Undisturbed(before) && !moves[n].ClientLeaves? && !IsConfirmAck(moves[n]))
            && (HearsEver(moves) <==> HearsEver(before) || (Undisturbed(before) && IsConfirmAck(moves[n])))
            && !(HearsEver(before) && Undisturbed(before))
  {
    hide IsConfirmAck;
    var n := |moves| - 1;
    var before := moves[..n];
    assert forall k | 0 <= k < n :: before[k] == moves[k];
    forall i | 0 <= i < n
      ensures HearsFirst(moves, i) <==> HearsFirst(before, i)
    {
    }
    if Undisturbed(before) && IsConfirmAck(moves[n]) {
      assert HearsFirst(moves, n);
    }
  }

  /**
   * Whatever anybody makes up: the client's on_established has fired if and only if it heard a CONN_CONFIRM_ACK
   * before it left. Nothing about it is checked, not even that the client has confirmed a cookie.
   */
  lemma {:induction false} ClientComesUpIff(u: Setup, moves: seq<HsMove>)
    requires SetupOk(u) && forall i | 0 <= i < |moves| :: Addressed(moves[i])
    ensures var h := Forged(u, moves).client;
            h.ups == (if HearsEver(moves) then 1 else 0) && (h.state == Pending <==> Undisturbed(moves))
    decreases |moves|
  {
    hide HsNext, IsConfirmAck, HearsFirst;
    if moves != [] {
      var n := |moves| - 1;
      assert forall k | 0 <= k < n :: moves[..n][k] == moves[k];
      ClientComesUpIff(u, moves[..n]);
      ClientMoves(u, Forged(u, moves[..n]), moves[n]);
      OneMoreHeard(moves);
    }
  }
}
