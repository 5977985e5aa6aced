/** fillp never gets stuck: from every reachable state some continuation delivers and acknowledges everything. */
module FillpProgress {
  import opened Bytes
  import opened Num32
  import opened FillpFrame
  import opened FillpCore
  import opened FillpLink
  import opened FillpNet
  import opened FillpTheorems

  /** All timers but the close timeout have elapsed. */
  const DUE := Clock(true, true, true, true, false)
  const NO_FILL := Fill([], false)

  lemma {:induction false} FlushKeepsCounting(rx: Rx)
    requires TableAhead(rx, 1) && BytesOk(rx)
    ensures rx.sincePack <= Flush(rx).sincePack
    decreases |rx.ofo|
  {
    if Add32(rx.recvPkt, 1) in rx.ofo {
      TakeNextKeeps(rx);
      FlushKeepsCounting(TakeNext(rx));
    }
  }

  /** New or duplicate, a packet that is not early is answered with a PACK once the timers allow. */
  lemma AnsweredWithPack(rx: Rx, p: Pkt, clk: Clock)
    requires RxOk(rx) && clk.reackDue && clk.packDue && p.data != []
    requires !IsBigger(p.num, rx.recvPkt) || p.num == Add32(rx.recvPkt, 1)
    ensures PackOf(OnData(rx, p, clk).rx) in OnData(rx, p, clk).out
  {
    if p.num == Add32(rx.recvPkt, 1) {
      AcceptAhead(rx, p);
      FlushKeepsCounting(Accept(rx, p));
    }
    hide Flush, RxOk;
  }

  /** The oldest packet in flight, put on the wire again, reaches the receiver as a new or a known one. */
  lemma OldestIsNotEarly(tx: Tx, rx: Rx, d: Dir)
    requires TxRel(tx, d) && RxRel(rx, d) && DirOk(d) && tx.inflight != []
    ensures var p := tx.inflight[0];
            && DataOk(DataOf(p), |d.pkts|, d) && Unwrap(|d.pkts|, p.num) == d.released + 1
            && p.data != []
            && (!IsBigger(p.num, rx.recvPkt) || p.num == Add32(rx.recvPkt, 1))
  {
    var p := tx.inflight[0];
    WindowBound(tx, d);
    WindowIsSendable(tx, d, p);
    UnwrapBelow(|d.pkts|, d.released + 1);
    FreshOrder(tx, rx, d, DataOf(p), |d.pkts|);
    hide Wrap, Flat, IsBigger, RxRelGap, SumLen;
  }

  /**
   * One stall-valve retransmission and the PACK it provokes strictly shrink the window, whether the
   * packet was new or a duplicate to the receiver.
   */
  lemma {:induction false} ValveRound(tx: Tx, rx: Rx, d: Dir, clk: Clock)
    requires TxRel(tx, d) && RxRel(rx, d) && DirOk(d) && tx.inflight != []
    requires clk.reackDue && clk.packDue
    ensures var r := OnData(rx, tx.inflight[0], clk);
            && PackOf(r.rx) in r.out
            && |Release(tx, PackOf(r.rx).ackPkt).inflight| < |tx.inflight|
  {
    var p := tx.inflight[0];
    OldestIsNotEarly(tx, rx, d);
    OnDataRel(tx, rx, d, DataOf(p), |d.pkts|, clk);
    AnsweredWithPack(rx, p, clk);
    var r := OnData(rx, p, clk);
    var e := Advanced(d, rx, r.rx);
    hide OnData, IsBigger, Unwrap;
    PackIsHonest(tx, r.rx, e);
    RecvPktOf(r.rx, e);
    UnwrapBelow(|d.pkts|, e.delivered) by {
      WindowBound(tx, d);
    }
    OnPackRel(tx, e, PackOf(r.rx), |d.pkts|);
  }

  /** With packets in flight, the valve's retransmission, if it arrives, provokes a PACK that shrinks the window. */
  ghost predicate ValveWorks(snd: End, rcv: End, clk: Clock) {
    snd.peer.tx.inflight != [] ==>
      && PeerOk(snd.peer) && PeerOk(rcv.peer)
      && var r := OnData(rcv.peer.rx, snd.peer.tx.inflight[0], clk);
         && PackOf(r.rx) in r.out
         && |Release(snd.peer.tx, PackOf(r.rx).ackPkt).inflight| < |snd.peer.tx.inflight|
  }

  lemma LinkValve(snd: End, rcv: End, clk: Clock)
    requires Link(snd, rcv) && Link(rcv, snd) && clk.reackDue && clk.packDue
    ensures ValveWorks(snd, rcv, clk)
  {
    hide DirOk, TxWindow, TxCounts, RxRelGap, OnData, Release;
    RelOk(snd.peer.tx, snd.peer.rx, snd.dir, rcv.dir);
    RelOk(rcv.peer.tx, rcv.peer.rx, rcv.dir, snd.dir);
    if snd.peer.tx.inflight != [] {
      ValveRound(snd.peer.tx, rcv.peer.rx, snd.dir, clk);
    }
  }

  /** In every run the property of the stall valve holds in both directions. */
  lemma {:induction false} StallValveProgress(moves: seq<Move>, clk: Clock)
    requires IsRun(START, moves) && clk.reackDue && clk.packDue
    ensures var s := After(START, moves); ValveWorks(s.a, s.b, clk) && ValveWorks(s.b, s.a, clk)
  {
    hide IsRun, After, ValveWorks, Link, NetOk;
    StartInv();
    RunKeeps(START, moves);
    var s := After(START, moves);
    LinkValve(s.a, s.b, clk);
    LinkValve(s.b, s.a, clk);
  }

  // ---------------------------------------------------------------- a full round

  predicate Live(e: End) {
    e.peer.state in {Established, Closing}
  }

  /** The bytes queued and not yet acknowledged. */
  ghost function Unacked(d: Dir): int
    requires d.released <= |d.pkts|
  {
    |d.queued| - |Flat(d.pkts[..d.released])|
  }

  function OldestFlight(e: End): Flight
    requires e.peer.tx.inflight != [] && |e.peer.tx.inflight[0].data| <= PKT_DATA_MAX
  {
    Flight(|e.dir.pkts|, Encode(DataOf(e.peer.tx.inflight[0]), 0))
  }

  /** The oldest unacknowledged packet is on the wire. */
  predicate Armed(e: End) {
    && e.peer.tx.inflight != [] && |e.peer.tx.inflight[0].data| <= PKT_DATA_MAX
    && OldestFlight(e) in e.out
  }

  function AckFlight(e: End, d: Dir): Flight {
    Flight(|d.pkts|, Encode(PackOf(e.peer.rx), 0))
  }

  // ---------------------------------------------------------------- what a round leaves alone

  /** Every packet is full but the last, which may be shorter only when the queue is empty. */
  ghost predicate Full(txq: seq<byte>, pkts: seq<seq<byte>>) {
    && (forall i | 0 <= i < |pkts| - 1 :: |pkts[i]| == PKT_DATA_MAX)
    && (pkts != [] ==> |pkts[|pkts| - 1]| <= PKT_DATA_MAX)
    && (pkts != [] && |pkts[|pkts| - 1]| < PKT_DATA_MAX ==> txq == [])
  }

  lemma FullCut(tx: Tx, pkts: seq<seq<byte>>)
    requires Full(tx.txq, pkts) && tx.txq != []
    ensures var c := CutOne(tx);
            && |c.inflight| == |tx.inflight| + 1 && Full(c.txq, pkts + [c.inflight[|tx.inflight|].data])
  {
  }

  /** Cutting fills packet after packet. */
  lemma {:induction false} PacketizeFull(tx: Tx, budget: nat, pkts: seq<seq<byte>>)
    requires TxOk(tx) && Full(tx.txq, pkts)
    ensures var r := Packetize(tx, budget); Full(r.txq, pkts + Payloads(r.inflight[|tx.inflight|..]))
    decreases |tx.txq|
  {
    hide TxOk, Full, CutOne;
    var r := Packetize(tx, budget);
    if budget == 0 || tx.txq == [] || tx.inflightBytes >= SEND_CACHE {
      assert pkts + Payloads(r.inflight[|tx.inflight|..]) == pkts;
    } else {
      CutOneKeeps(tx);
      FullCut(tx, pkts);
      var c := CutOne(tx);
      var first := c.inflight[|tx.inflight|];
      CutShorter(tx);
      PacketizeFull(c, budget - 1, pkts + [first.data]);
      assert r.inflight[|tx.inflight|] == r.inflight[..|c.inflight|][|tx.inflight|] == first;
      assert pkts + Payloads(r.inflight[|tx.inflight|..])
             == pkts + [first.data] + Payloads(r.inflight[|c.inflight|..]);
    }
  }

  lemma CutShorter(tx: Tx)
    requires tx.txq != []
    ensures |CutOne(tx).txq| < |tx.txq|
  {
  }

  /** From `s` to `t` end B queued, cut and released nothing, end A forgot nothing it sent and kept packets full. */
  ghost predicate Calm(s: Sys, t: Sys) {
    && s.a.out <= t.a.out && t.b.peer.tx == s.b.peer.tx && t.b.dir == s.b.dir && s.a.dir.pkts <= t.a.dir.pkts
    && (Full(s.a.peer.tx.txq, s.a.dir.pkts) ==> Full(t.a.peer.tx.txq, t.a.dir.pkts))
    && t.a.peer.state == s.a.peer.state && t.b.peer.state == s.b.peer.state
  }

  /** The moves of a round: end A ticks without new bytes, and either end receives. */
  predicate Plain(m: Move) {
    m.act.Receive? || m == Move(true, Tock(NO_FILL, DUE, 0))
  }

  lemma EmitHas(ms: seq<Msg>, m: Msg, own: Dir, peer: Dir, salt: u64)
    requires m in ms && Sendable(m)
    ensures Flight(Stamp(m, own, peer), Encode(m, salt)) in Emit(ms, own, peer, salt)
  {
  }

  lemma PumpEmitsOldest(tx: Tx, clk: Clock)
    requires TxOk(tx) && clk.stallDue && (tx.inflight != [] || tx.txq != [])
    ensures var r := PumpTx(tx, clk); r.0.inflight != [] && DataOf(r.0.inflight[0]) in r.1
  {
    if tx.inflight == [] {
      PacketizeProgress(tx, SEND_BUDGET);
    }
    var r := PumpTx(tx, clk);
    hide TxOk, Packetize;
    if tx.inflight != [] {
      assert r.0.inflight[..|tx.inflight|][0] == tx.inflight[0];
    } else {
      assert DatasOf(r.0.inflight)[0] == DataOf(r.0.inflight[0]);
      assert r.0.inflight[0..] == r.0.inflight;
    }
  }

  lemma DuePump(p: Peer)
    requires PeerOk(p) && (p.tx.inflight != [] || p.tx.txq != [])
    ensures var s := Pump(p, NO_FILL, DUE);
            && s.peer.tx.inflight != [] && |s.peer.tx.inflight[0].data| <= PKT_DATA_MAX
            && DataOf(s.peer.tx.inflight[0]) in s.out && s.peer.state == p.state
  {
    assert p.tx.txq + [] == p.tx.txq;
    assert FillStep(p, NO_FILL) == p;
    hide RxOk, FillStep;
    PumpEmitsOldest(p.tx, DUE);
    var first := PumpTx(p.tx, DUE).0.inflight[0];
    assert first in PumpTx(p.tx, DUE).0.inflight;
    hide PumpTx;
  }

  /** A tick without new bytes only cuts the queue. */
  lemma TickFull(me: End)
    requires EndOk(me) && Live(me)
    ensures var s := Tick(me.peer, NO_FILL, DUE);
            && s.peer.tx.txq == Packetize(me.peer.tx, SEND_BUDGET).txq
            && s.peer.tx.inflight == Packetize(me.peer.tx, SEND_BUDGET).inflight
            && var more := Payloads(Grown(me.peer.tx.inflight, s.peer.tx.inflight));
               Full(me.peer.tx.txq, me.dir.pkts) ==> Full(s.peer.tx.txq, me.dir.pkts + more)
  {
    hide TxOk, RxOk, Full, Packetize;
    assert me.peer.tx.txq + [] == me.peer.tx.txq;
    assert FillStep(me.peer, NO_FILL) == me.peer;
    if Full(me.peer.tx.txq, me.dir.pkts) {
      PacketizeFull(me.peer.tx, SEND_BUDGET, me.dir.pkts);
    }
  }

  /** First a tick: the oldest unacknowledged packet is on the wire. */
  lemma RoundTick(me: End, you: End)
    requires Inv2(me, you) && Live(me) && (me.peer.tx.inflight != [] || me.peer.tx.txq != [])
    ensures TockAct(NO_FILL, DUE, 0, me, you).1 == you
    ensures var r := TockAct(NO_FILL, DUE, 0, me, you).0;
            && Inv2(r, you) && r.peer.state == me.peer.state
            && r.dir.queued == me.dir.queued && r.dir.released == me.dir.released && Extends(me.dir, r.dir)
            && Armed(r) && me.out <= r.out && me.dir.pkts <= r.dir.pkts
            && (Full(me.peer.tx.txq, me.dir.pkts) ==> Full(r.peer.tx.txq, r.dir.pkts))
  {
    hide Full, Packetize;
    InvEnd(me, you);
    TickFull(me);
    hide Link, NetOk, CallbackOk, Pump, PeerOk, Encode, Extends;
    TockKeeps(NO_FILL, DUE, 0, me, you);
    var r := TockAct(NO_FILL, DUE, 0, me, you).0;
    DuePump(me.peer);
    var s := Pump(me.peer, NO_FILL, DUE);
    assert Tick(me.peer, NO_FILL, DUE) == s;
    EmitHas(s.out, DataOf(s.peer.tx.inflight[0]), r.dir, you.dir, 0);
  }

  /** Then the packet arrives: the receiver answers with a PACK that covers it. */
  lemma RoundHear(me: End, you: End)
    requires Inv2(me, you) && Live(you) && Armed(me)
    ensures Enabled(Receive(OldestFlight(me), DUE, 0), you, me)
    ensures var r := ReceiveAct(OldestFlight(me), DUE, 0, you, me);
            && Inv2(r.1, r.0) && r.0.peer.state == you.peer.state && r.0.peer.tx == you.peer.tx
            && r.1 == me.(dir := r.1.dir)
            && r.1.dir == me.dir.(delivered := r.1.dir.delivered) && r.1.dir.delivered > me.dir.released
            && r.0.dir == you.dir && AckFlight(r.0, me.dir) in r.0.out
  {
    var f := OldestFlight(me);
    var p := me.peer.tx.inflight[0];
    RoundTrip(DataOf(p), 0);
    OldestIsNotEarly(me.peer.tx, you.peer.rx, me.dir);
    OnDataRel(me.peer.tx, you.peer.rx, me.dir, DataOf(p), |me.dir.pkts|, DUE);
    AnsweredWithPack(you.peer.rx, p, DUE);
    assert Enabled(Receive(f, DUE, 0), you, me);
    hide Link, NetOk, Encode, Decode, OnData, DataOk, Unwrap, PackOf, CallbackOk;
    ReceiveKeeps(f, DUE, 0, you, me);
    var r := ReceiveAct(f, DUE, 0, you, me);
    var o := OnData(you.peer.rx, p, DUE);
    assert Handle(you.peer, DataOf(p), DUE) == PeerStep(you.peer.(rx := o.rx), o.out);
    assert r.1.dir == Advanced(me.dir, you.peer.rx, o.rx);
    assert PackOf(o.rx).Pack? by {
      assert PackOf(o.rx) == Pack(o.rx.recvSeq, o.rx.recvPkt, o.rx.recvSeq, Wrap(o.rx.ofoBytes));
    }
    EmitHas(o.out, PackOf(o.rx), you.dir, r.1.dir, 0);
  }

  /** A PACK of the receiver releases everything delivered. */
  lemma AckReleases(me: End, you: End)
    requires Inv2(me, you) && AckFlight(you, me.dir) in you.out
    ensures EndOk(me) && Enabled(Receive(AckFlight(you, me.dir), DUE, 0), me, you)
    ensures var m := PackOf(you.peer.rx); var tx := Release(me.peer.tx, m.ackPkt);
            && Decode(AckFlight(you, me.dir).bytes) == m && m.Pack? && tx.txq == me.peer.tx.txq
            && me.dir.released + Shrunk(me.peer.tx.inflight, tx.inflight) == me.dir.delivered
  {
    InvEnd(me, you);
    var m := PackOf(you.peer.rx);
    ReleaseFlags(me.peer.tx, m.ackPkt);
    hide Encode, Decode, Release, Unwrap, Wrap, CallbackOk, NetOk, Flat;
    RoundTrip(m, 0);
    PackIsHonest(me.peer.tx, you.peer.rx, me.dir);
    RecvPktOf(you.peer.rx, me.dir);
    UnwrapBelow(|me.dir.pkts|, me.dir.delivered) by {
      WindowBound(me.peer.tx, me.dir);
    }
    OnPackRel(me.peer.tx, me.dir, m, |me.dir.pkts|);
  }

  /** Last the PACK arrives: the window shrinks. */
  lemma RoundAck(me: End, you: End)
    requires Inv2(me, you) && Live(me) && me.dir.delivered > me.dir.released
    requires AckFlight(you, me.dir) in you.out
    ensures Enabled(Receive(AckFlight(you, me.dir), DUE, 0), me, you)
    ensures var r := ReceiveAct(AckFlight(you, me.dir), DUE, 0, me, you);
            && Inv2(r.0, r.1) && r.0.peer.state == me.peer.state && r.1.peer == you.peer
            && r.0.dir == me.dir.(released := me.dir.delivered)
            && r.1.dir == you.dir && r.0.peer.tx.txq == me.peer.tx.txq && me.out <= r.0.out
  {
    AckReleases(me, you);
    hide Link, NetOk, Encode, Decode, Release, CallbackOk, Emit, PackOf, Enabled, AckFlight, EndOk, Shrunk;
    var f := AckFlight(you, me.dir);
    ReceiveKeeps(f, DUE, 0, me, you);
    var m := PackOf(you.peer.rx);
    var r := ReceiveAct(f, DUE, 0, me, you);
    assert r.0.peer == me.peer.(tx := Release(me.peer.tx, m.ackPkt));
    NothingAdvanced(you.dir, me.peer.rx);
  }

  lemma NothingAdvanced(d: Dir, rx: Rx)
    ensures Advanced(d, rx, rx) == d
  {
  }

  lemma UnackedShrinks(d: Dir, e: Dir)
    requires DirOk(d) && DirOk(e) && Extends(d, e) && d.queued == e.queued && d.released < e.released
    ensures 0 <= Unacked(e) < Unacked(d)
  {
    OffsetGrows(e.pkts, d.released, e.released);
    assert e.pkts[..d.released] == d.pkts[..d.released];
    FlatSplit(e.pkts, e.released);
  }

  lemma OneMove(s: Sys, m: Move)
    requires SysOk(s) && CanMove(s, m)
    ensures IsRun(s, [m]) && After(s, [m]) == Next(s, m)
  {
    hide Next, CanMove, SysOk;
    assert [m][1..] == [];
  }

  /** The tick as a move of the system. */
  lemma TickMove(s: Sys) returns (m: Move, t: Sys)
    requires Inv(s) && Live(s.a) && Live(s.b) && (s.a.peer.tx.inflight != [] || s.a.peer.tx.txq != [])
    ensures IsRun(s, [m]) && After(s, [m]) == t && Inv(t) && Live(t.a) && Live(t.b)
    ensures Armed(t.a) && Calm(s, t) && t.b == s.b && Plain(m)
    ensures t.a.dir.queued == s.a.dir.queued && t.a.dir.released == s.a.dir.released && Extends(s.a.dir, t.a.dir)
  {
    hide IsRun, After, TockAct, EndOk, Armed, Extends, Link, NetOk, CallbackOk, Full;
    m := Move(true, Tock(NO_FILL, DUE, 0));
    InvSys(s);
    RoundTick(s.a, s.b);
    t := Next(s, m);
    OneMove(s, m);
    assert t == Sys(TockAct(NO_FILL, DUE, 0, s.a, s.b).0, s.b);
  }

  /** The packet and the PACK that answers it as two moves. */
  lemma HearMove(s: Sys) returns (m: Move, t: Sys)
    requires Inv(s) && Live(s.a) && Live(s.b) && Armed(s.a)
    ensures IsRun(s, [m]) && After(s, [m]) == t && Inv(t) && Live(t.a) && Live(t.b)
    ensures t.a.dir == s.a.dir.(delivered := t.a.dir.delivered) && t.a.dir.delivered > s.a.dir.released
    ensures AckFlight(t.b, t.a.dir) in t.b.out && Calm(s, t) && m.act.Receive?
  {
    InvSys(s);
    m := Move(false, Receive(OldestFlight(s.a), DUE, 0));
    RoundHear(s.a, s.b);
    hide ReceiveAct, EndOk, Encode, Enabled, Link, NetOk, CallbackOk;
    var r := ReceiveAct(OldestFlight(s.a), DUE, 0, s.b, s.a);
    t := Sys(r.1, r.0);
    OneMove(s, m);
  }

  lemma AckMove(s: Sys) returns (m: Move, t: Sys)
    requires Inv(s) && Live(s.a) && Live(s.b) && s.a.dir.delivered > s.a.dir.released
    requires AckFlight(s.b, s.a.dir) in s.b.out
    ensures IsRun(s, [m]) && After(s, [m]) == t && Inv(t) && Live(t.a) && Live(t.b)
    ensures t.a.dir == s.a.dir.(released := s.a.dir.delivered) && Calm(s, t) && m.act.Receive?
  {
    InvSys(s);
    m := Move(true, Receive(AckFlight(s.b, s.a.dir), DUE, 0));
    RoundAck(s.a, s.b);
    hide ReceiveAct, EndOk, Encode, Enabled, Inv2;
    var r := ReceiveAct(AckFlight(s.b, s.a.dir), DUE, 0, s.a, s.b);
    t := Sys(r.0, r.1);
    OneMove(s, m);
  }

  lemma InvDir(s: Sys)
    requires Inv(s)
    ensures DirOk(s.a.dir)
  {
  }

  /** Tick, packet, PACK: three moves after which fewer bytes are unacknowledged. */
  lemma Round(s: Sys) returns (moves: seq<Move>, t: Sys)
    requires Inv(s) && Live(s.a) && Live(s.b) && (s.a.peer.tx.inflight != [] || s.a.peer.tx.txq != [])
    ensures IsRun(s, moves) && t == After(s, moves) && Inv(t) && Live(t.a) && Live(t.b)
    ensures t.a.dir.queued == s.a.dir.queued && 0 <= Unacked(t.a.dir) < Unacked(s.a.dir) && Calm(s, t)
    ensures |moves| == 3 && Plain(moves[0]) && moves[1].act.Receive? && moves[2].act.Receive?
  {
    hide IsRun, After, Inv, Armed, AckFlight, Full;
    var m1, s1 := TickMove(s);
    var m2, s2 := HearMove(s1);
    var m3, s3 := AckMove(s2);
    RunAppend(s, [m1], [m2]);
    RunAppend(s, [m1] + [m2], [m3]);
    moves, t := [m1] + [m2] + [m3], s3;
    RunKeeps(s, moves);
    InvDir(s);
    InvDir(s3);
    UnackedShrinks(s.a.dir, s3.a.dir);
  }

  lemma {:induction false} Drain(s: Sys) returns (moves: seq<Move>)
    requires Inv(s) && Live(s.a) && Live(s.b)
    ensures IsRun(s, moves)
    ensures var t := After(s, moves);
            && t.a.dir.queued == s.a.dir.queued == t.b.peer.rx.delivered
            && t.a.peer.tx.inflight == [] && t.a.peer.tx.txq == []
            && Inv(t) && Live(t.a) && Live(t.b) && Calm(s, t)
    ensures forall i | 0 <= i < |moves| :: Plain(moves[i])
    decreases Unacked(s.a.dir)
  {
    hide Full, IsRun, After, Plain, Inv;
    if s.a.peer.tx.inflight == [] && s.a.peer.tx.txq == [] {
      moves := [];
      NoMoves(s);
      StaysSettled(s);
    } else {
      var first, t := Round(s);
      assert Plain(first[1]) && Plain(first[2]) by {
        ReceivesArePlain(first[1]);
        ReceivesArePlain(first[2]);
      }
      var rest := Drain(t);
      RunAppend(s, first, rest);
      moves := first + rest;
    }
  }

  lemma ReceivesArePlain(m: Move)
    requires m.act.Receive?
    ensures Plain(m)
  {
  }

  lemma NoMoves(s: Sys)
    ensures IsRun(s, []) && After(s, []) == s
  {
  }

  // ---------------------------------------------------------------- both directions

  function Flip(s: Sys): Sys {
    Sys(s.b, s.a)
  }

  function FlipMoves(moves: seq<Move>): seq<Move> {
    seq(|moves|, i requires 0 <= i < |moves| => moves[i].(byA := !moves[i].byA))
  }

  /** The two ends play the same game. */
  lemma {:induction false} FlipRun(s: Sys, moves: seq<Move>)
    requires IsRun(Flip(s), moves)
    ensures IsRun(s, FlipMoves(moves)) && After(s, FlipMoves(moves)) == Flip(After(Flip(s), moves))
    decreases |moves|
  {
    hide Act, Enabled, EndOk;
    if moves != [] {
      FlipRun(Flip(Next(Flip(s), moves[0])), moves[1..]);
      assert FlipMoves(moves)[1..] == FlipMoves(moves[1..]);
    }
  }

  lemma FlipInv(s: Sys)
    requires Inv(s)
    ensures Inv(Flip(s))
  {
    hide Link, NetOk, CallbackOk;
  }

  /** Everything `snd` queued is delivered and acknowledged. */
  predicate Settled(snd: End, rcv: End) {
    rcv.peer.rx.delivered == snd.dir.queued && snd.peer.tx.inflight == [] && snd.peer.tx.txq == []
  }

  lemma StaysSettled(s: Sys)
    requires Inv(s) && s.a.peer.tx.inflight == [] && s.a.peer.tx.txq == []
    ensures Settled(s.a, s.b)
  {
    hide NetOk, CallbackOk;
    DrainedMeansDelivered(s.a, s.b);
  }

  /**
   * However a run lost, duplicated and reordered datagrams, as long as neither end is closed it can
   * still be continued so that every byte queued, in both directions, is delivered and acknowledged.
   */
  lemma {:induction false} AlwaysRecoverable(moves: seq<Move>) returns (more: seq<Move>)
    requires IsRun(START, moves) && Live(After(START, moves).a) && Live(After(START, moves).b)
    ensures IsRun(After(START, moves), more)
    ensures var s := After(START, moves); var t := After(s, more);
            && t.a.dir.queued == s.a.dir.queued && t.b.dir.queued == s.b.dir.queued
            && Settled(t.a, t.b) && Settled(t.b, t.a)
  {
    hide IsRun, After, Inv, Full;
    StartInv();
    RunKeeps(START, moves);
    var s := After(START, moves);
    var first := Drain(s);
    var t := After(s, first);
    FlipInv(t);
    var back := Drain(Flip(t));
    FlipRun(t, back);
    var u := After(t, FlipMoves(back));
    RunAppend(s, first, FlipMoves(back));
    FlipInv(Flip(u));
    StaysSettled(u);
    more := first + FlipMoves(back);
  }
}
