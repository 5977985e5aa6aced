/**
 * Loss is repaired without waiting for the stall valve: a packet that arrives early makes the receiver ask
 * for the one that is missing, and the request brings exactly that packet.
 */
module FillpRepair {
  import opened Bytes
  import opened Num32
  import opened FillpFrame
  import opened FillpCore
  import opened FillpLink
  import opened FillpNet
  import opened FillpTheorems
  import opened FillpProgress

  /** Ahead of what is in order, but not next. */
  predicate Early(rx: Rx, p: Pkt) {
    IsBigger(p.num, rx.recvPkt) && p.num != Add32(rx.recvPkt, 1)
  }

  /**
   * Any packet, honest or not: the receiver asks for a retransmission if and only if the packet is early and
   * the last request is long enough ago, and it asks for exactly the numbers between the last in order and the
   * second after it. An early packet delivers nothing and is kept when there is room.
   */
  lemma {:induction false} EarlyIsNacked(rx: Rx, p: Pkt, clk: Clock)
    requires RxOk(rx)
    ensures var r := OnData(rx, p, clk);
            && ((exists m | m in r.out :: m.Nack?) <==> Early(rx, p) && clk.nackDue)
            && (Early(rx, p) && clk.nackDue ==> r.out == [Nack(rx.recvPkt, Add32(rx.recvPkt, 2), rx.recvSeq)])
            && (Early(rx, p) ==>
                  && r.rx.delivered == rx.delivered && r.rx.recvPkt == rx.recvPkt && r.rx.recvSeq == rx.recvSeq
                  && r.rx.ofo == if rx.ofoBytes + |p.data| <= OFO_MAX_BYTES then rx.ofo[p.num := p] else rx.ofo)
  {
    hide IsBigger, Add32, RxOk, Flush;
    var r := OnData(rx, p, clk);
    if Early(rx, p) && clk.nackDue {
      assert r.out[0].Nack?;
    }
  }

  // ---------------------------------------------------------------- one request and its answer

  function NackFlight(rcv: End, snd: End, salt: u64): Flight {
    Flight(|snd.dir.pkts|, Encode(NackOf(rcv.peer.rx), salt))
  }

  /** The datagram of the next packet to be delivered. */
  function MissingFlight(d: Dir, salt: u64): Flight
    requires d.delivered < |d.pkts| && |d.pkts[d.delivered]| <= PKT_DATA_MAX
  {
    Flight(|d.pkts|, Encode(DataOf(PktAt(d.pkts, d.delivered + 1)), salt))
  }

  /** A datagram of a packet later than the one missing. */
  ghost predicate EarlyFlight(f: Flight, snd: End) {
    && f in snd.out && Decode(f.bytes).Data? && Fresh(f.at, snd.dir)
    && Unwrap(f.at, Decode(f.bytes).num) > snd.dir.delivered + 1
  }

  lemma EarlyArrives(snd: End, rcv: End, f: Flight, clk: Clock, salt: u64)
    requires Inv2(snd, rcv) && EarlyFlight(f, snd) && Live(rcv) && clk.nackDue
    ensures EndOk(rcv) && Enabled(Receive(f, clk, salt), rcv, snd)
    ensures var r := ReceiveAct(f, clk, salt, rcv, snd);
            && Inv2(r.1, r.0) && r.1 == snd && r.0.peer.state == rcv.peer.state
            && r.0.peer.rx.recvPkt == rcv.peer.rx.recvPkt && r.0.peer.rx.recvSeq == rcv.peer.rx.recvSeq
            && NackFlight(rcv, snd, salt) in r.0.out
  {
    InvEnd(rcv, snd);
    ReceiveKeeps(f, clk, salt, rcv, snd);
    var m := Decode(f.bytes);
    var p := Pkt(m.num, m.seqNum, m.data);
    hide TxRel, RxRel, DirOk, Decode, Encode, OnData, NetOk, CallbackOk, PeerOk, RxOk, TxOk, NackOf;
    SentIsTrue(snd, rcv, f);
    EndsTrue(snd, rcv, f);
    FreshOrder(snd.peer.tx, rcv.peer.rx, snd.dir, m, f.at);
    EarlyIsNacked(rcv.peer.rx, p, clk) by {
      RelOk(rcv.peer.tx, rcv.peer.rx, rcv.dir, snd.dir);
    }
    var o := OnData(rcv.peer.rx, p, clk);
    assert Handle(rcv.peer, m, clk) == PeerStep(rcv.peer.(rx := o.rx), o.out);
    SameAdvance(snd.dir, rcv.peer.rx, o.rx);
    NackIs(rcv.peer.rx);
    EmitHas(o.out, NackOf(rcv.peer.rx), rcv.dir, snd.dir, salt);
  }

  lemma EndsTrue(snd: End, rcv: End, f: Flight)
    requires Inv2(snd, rcv) && f in snd.out && Decode(f.bytes).Data?
    ensures TxRel(snd.peer.tx, snd.dir) && DataOk(Decode(f.bytes), f.at, snd.dir)
  {
    hide Decode, TxRel, RxRel, DirOk, DataOk;
    assert FlightOk(f, snd.dir, rcv.dir);
  }

  lemma SameAdvance(d: Dir, before: Rx, after: Rx)
    requires before.recvPkt == after.recvPkt
    ensures Advanced(d, before, after) == d
  {
  }

  lemma SameRequest(a: Rx, b: Rx)
    requires a.recvPkt == b.recvPkt && a.recvSeq == b.recvSeq
    ensures NackOf(a) == NackOf(b)
  {
  }

  lemma NackIs(rx: Rx)
    ensures NackOf(rx) == Nack(rx.recvPkt, Add32(rx.recvPkt, 2), rx.recvSeq) && Sendable(NackOf(rx))
  {
  }

  /** The request arrives: the sender repeats exactly the missing packet, and nothing else happens. */
  lemma RequestArrives(snd: End, rcv: End, f: Flight, clk: Clock, salt: u64)
    requires Inv2(snd, rcv) && snd.peer.state == Established && snd.dir.delivered < |snd.dir.pkts|
    requires f in rcv.out && Decode(f.bytes) == NackOf(rcv.peer.rx)
    ensures EndOk(snd) && |snd.dir.pkts[snd.dir.delivered]| <= PKT_DATA_MAX
    ensures Enabled(Receive(f, clk, salt), snd, rcv)
    ensures var r := ReceiveAct(f, clk, salt, snd, rcv);
            Inv2(r.0, r.1) && r.1 == rcv && r.0 == snd.(out := snd.out + {MissingFlight(snd.dir, salt)})
  {
    hide Encode, Decode, TxRel, RxRel, DirOk, Requested, PktAt, PeerOk, Handle, NackOf, Inv2, ReceiveAct, EndOk, Add32;
    InvEnd(snd, rcv);
    EndIs(snd);
    Related(snd, rcv);
    NackIs(rcv.peer.rx);
    ReceiveKeeps(f, clk, salt, snd, rcv);
    NackAnswer(snd.peer.tx, rcv.peer.rx, snd.dir);
    PktFits(snd.dir);
    var missing := DataOf(PktAt(snd.dir.pkts, snd.dir.delivered + 1));
    NackHandled(snd.peer, NackOf(rcv.peer.rx), missing, clk);
    AnswerOut(snd, rcv, f, clk, salt, missing);
  }

  lemma EndIs(e: End)
    ensures EndOk(e) <==> PeerOk(e.peer)
  {
  }

  lemma Related(snd: End, rcv: End)
    requires Inv2(snd, rcv)
    ensures TxRel(snd.peer.tx, snd.dir) && RxRel(rcv.peer.rx, snd.dir) && DirOk(snd.dir)
    ensures snd.dir.delivered < |snd.dir.pkts| ==> |snd.dir.pkts[snd.dir.delivered]| <= PKT_DATA_MAX
  {
    if snd.dir.delivered < |snd.dir.pkts| {
      PacketFits(snd.dir);
    }
  }

  /** Answering with one datagram and changing nothing else. */
  lemma AnswerOut(me: End, you: End, f: Flight, clk: Clock, salt: u64, answer: Msg)
    requires EndOk(me) && Sendable(answer) && answer.Data?
    requires Handle(me.peer, Decode(f.bytes), clk) == PeerStep(me.peer, [answer])
    ensures ReceiveAct(f, clk, salt, me, you)
            == (me.(out := me.out + {Flight(|me.dir.pkts|, Encode(answer, salt))}), you)
  {
    hide Decode, Encode, Emit, Handle, PeerOk;
    SameAdvance(you.dir, me.peer.rx, me.peer.rx);
    OwnSame(me.dir, me.peer.tx.inflight);
    EmitOne(answer, me.dir, you.dir, salt);
  }

  lemma NackHandled(p: Peer, m: Msg, answer: Msg, clk: Clock)
    requires PeerOk(p) && p.state == Established && m.Nack? && Requested(p.tx.inflight, m.begin, m.end) == [answer]
    ensures Handle(p, m, clk) == PeerStep(p, [answer])
  {
    hide TxOk, RxOk, Requested;
  }

  lemma OwnSame(d: Dir, ps: seq<Pkt>)
    ensures d.(released := d.released + Shrunk(ps, ps)) == d
  {
  }

  lemma PacketFits(d: Dir)
    requires d.delivered < |d.pkts| && Sized(d.pkts)
    ensures |d.pkts[d.delivered]| <= PKT_DATA_MAX
  {
  }

  lemma PktFits(d: Dir)
    requires d.delivered < |d.pkts| && |d.pkts[d.delivered]| <= PKT_DATA_MAX
    ensures Sendable(DataOf(PktAt(d.pkts, d.delivered + 1))) && DataOf(PktAt(d.pkts, d.delivered + 1)).Data?
  {
    hide Flat, Wrap;
  }

  lemma EmitOne(m: Msg, own: Dir, peer: Dir, salt: u64)
    requires Sendable(m)
    ensures Emit([m], own, peer, salt) == {Flight(Stamp(m, own, peer), Encode(m, salt))}
  {
    hide Encode;
    assert m in [m];
  }

  /** The repeated packet arrives: the stream moves on. */
  lemma MissingArrives(snd: End, rcv: End, clk: Clock, salt: u64)
    requires Inv2(snd, rcv) && Live(rcv) && snd.dir.delivered < |snd.dir.pkts|
    requires |snd.dir.pkts[snd.dir.delivered]| <= PKT_DATA_MAX && MissingFlight(snd.dir, salt) in snd.out
    ensures EndOk(rcv) && Enabled(Receive(MissingFlight(snd.dir, salt), clk, salt), rcv, snd)
    ensures var r := ReceiveAct(MissingFlight(snd.dir, salt), clk, salt, rcv, snd);
            r.1.dir.delivered > snd.dir.delivered
  {
    InvEnd(rcv, snd);
    var f := MissingFlight(snd.dir, salt);
    var p := PktAt(snd.dir.pkts, snd.dir.delivered + 1);
    PktFits(snd.dir);
    RoundTrip(DataOf(p), salt);
    PktOfMsg(p);
    hide Encode, Decode, NetOk, CallbackOk, TxRel, RxRel, PktAt, OnData, PeerOk;
    NextRel(snd.peer.tx, rcv.peer.rx, snd.dir, clk);
    HandleData(rcv.peer, DataOf(p), clk);
  }

  // ---------------------------------------------------------------- in every run

  function Snd(s: Sys, fromA: bool): End {
    if fromA then s.a else s.b
  }

  function Rcv(s: Sys, fromA: bool): End {
    if fromA then s.b else s.a
  }

  /** The move of one end as a move of the system. */
  lemma ReceiveMove(s: Sys, byA: bool, f: Flight, clk: Clock, salt: u64) returns (t: Sys)
    requires Inv(s) && Enabled(Receive(f, clk, salt), Snd(s, byA), Rcv(s, byA)) && EndOk(Snd(s, byA))
    ensures var m := Move(byA, Receive(f, clk, salt)); IsRun(s, [m]) && After(s, [m]) == t && Inv(t)
    ensures var r := ReceiveAct(f, clk, salt, Snd(s, byA), Rcv(s, byA)); Snd(t, byA) == r.0 && Rcv(t, byA) == r.1
  {
    InvSys(s);
    hide ReceiveAct, EndOk, Enabled, Inv2;
    var m := Move(byA, Receive(f, clk, salt));
    MoveKeeps(s, m);
    OneMove(s, m);
    t := Next(s, m);
  }

  lemma InvBoth(s: Sys, fromA: bool)
    requires Inv(s)
    ensures Inv2(Snd(s, fromA), Rcv(s, fromA))
  {
    hide Link, NetOk, CallbackOk;
  }

  /**
   * In every run, both ways: when a fresh datagram arrives early at a live receiver and its sender is
   * established, the receiver puts a request on the wire; the request makes the sender put exactly the missing
   * packet on the wire; and that packet moves the stream on. No tick is needed.
   */
  lemma {:induction false} GapIsRepaired(moves: seq<Move>, fromA: bool, f: Flight, clk: Clock, salt: u64)
      returns (g: Flight, h: Flight)
    requires IsRun(START, moves) && clk.nackDue
    requires var s := After(START, moves);
             EarlyFlight(f, Snd(s, fromA)) && Live(Rcv(s, fromA)) && Snd(s, fromA).peer.state == Established
    ensures var s := After(START, moves);
            var m1, m2, m3 := Move(!fromA, Receive(f, clk, salt)), Move(fromA, Receive(g, clk, salt)),
                              Move(!fromA, Receive(h, clk, salt));
            var d := Snd(s, fromA).dir;
            && IsRun(s, [m1]) && Rcv(After(s, [m1]), fromA).out >= {g} && Decode(g.bytes).Nack?
            && IsRun(After(s, [m1]), [m2])
            && var t := After(After(s, [m1]), [m2]);
               && Snd(t, fromA) == Snd(s, fromA).(out := Snd(s, fromA).out + {h})
               && d.delivered < |d.pkts| && Decode(h.bytes) == DataOf(PktAt(d.pkts, d.delivered + 1))
               && IsRun(t, [m3]) && Snd(After(t, [m3]), fromA).dir.delivered > d.delivered
  {
    hide IsRun, After, Inv2, Encode, Decode, ReceiveAct, EndOk, Enabled, PktAt;
    StartInv();
    RunKeeps(START, moves);
    var s := After(START, moves);
    InvBoth(s, fromA);
    var d := Snd(s, fromA).dir;
    EarlyExists(Snd(s, fromA), Rcv(s, fromA), f);
    EarlyArrives(Snd(s, fromA), Rcv(s, fromA), f, clk, salt);
    InvBoth(s, !fromA);
    var s1 := ReceiveMove(s, !fromA, f, clk, salt);
    g := NackFlight(Rcv(s, fromA), Snd(s, fromA), salt);
    NackIs(Rcv(s, fromA).peer.rx);
    RoundTrip(NackOf(Rcv(s, fromA).peer.rx), salt);
    SameRequest(Rcv(s, fromA).peer.rx, Rcv(s1, fromA).peer.rx);
    RequestArrives(Snd(s1, fromA), Rcv(s1, fromA), g, clk, salt);
    var s2 := ReceiveMove(s1, fromA, g, clk, salt);
    h := MissingFlight(d, salt);
    PktFits(d);
    RoundTrip(DataOf(PktAt(d.pkts, d.delivered + 1)), salt);
    MissingArrives(Snd(s2, fromA), Rcv(s2, fromA), clk, salt);
    InvBoth(s2, !fromA);
    var s3 := ReceiveMove(s2, !fromA, h, clk, salt);
  }

  lemma EarlyExists(snd: End, rcv: End, f: Flight)
    requires Inv2(snd, rcv) && EarlyFlight(f, snd)
    ensures snd.dir.delivered < |snd.dir.pkts|
  {
    hide Decode, Link, NetOk, CallbackOk, PktAt;
    SentIsTrue(snd, rcv, f);
  }
}
