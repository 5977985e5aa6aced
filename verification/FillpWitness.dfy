/**
 * Runs that show what the engine does not promise: a datagram that was really sent is delivered a second
 * time when it is old enough, the two duplicate tests of the source disagree, and the completion callback
 * fires for a peer that never queued a byte.
 */
module FillpWitness {
  import opened Bytes
  import opened Num32
  import opened FillpFrame
  import opened FillpCore
  import opened FillpLink
  import opened FillpNet
  import opened FillpTheorems
  import opened FillpProgress

  // ---------------------------------------------------------------- a long transfer

  /** Both ends are up and end A has `k` full packets to send. */
  function Loaded(k: nat): Sys {
    var up := FRESH_PEER.(state := Established);
    var bytes := Zeros(PKT_DATA_MAX * k);
    Sys(FRESH_END.(peer := PeerSend(up, bytes), dir := FRESH_DIR.(queued := bytes)), FRESH_END.(peer := up))
  }

  function Loading(k: nat): seq<Move> {
    [Move(true, Establish)] + [Move(false, Establish)] + [Move(true, AppSend(Zeros(PKT_DATA_MAX * k)))]
  }

  lemma LoadRun(k: nat)
    ensures IsRun(START, Loading(k)) && After(START, Loading(k)) == Loaded(k)
  {
    hide IsRun, After;
    var m1, m2, m3 := Move(true, Establish), Move(false, Establish), Move(true, AppSend(Zeros(PKT_DATA_MAX * k)));
    var up := FRESH_END.(peer := FRESH_PEER.(state := Established));
    var s1, s2 := Sys(up, FRESH_END), Sys(up, up);
    FreshPeerOk();
    hide PeerOk;
    assert [] + Zeros(PKT_DATA_MAX * k) == Zeros(PKT_DATA_MAX * k);
    OneMove(START, m1);
    OneMove(s1, m2);
    RunAppend(START, [m1], [m2]);
    OneMove(s2, m3);
    RunAppend(START, [m1] + [m2], [m3]);
  }

  lemma FreshPeerOk()
    ensures PeerOk(FRESH_PEER) && PeerOk(FRESH_PEER.(state := Established))
  {
  }

  /** Full packets are counted by their bytes. */
  lemma {:induction false} FullCount(pkts: seq<seq<byte>>)
    requires forall i | 0 <= i < |pkts| :: |pkts[i]| == PKT_DATA_MAX
    ensures |Flat(pkts)| == PKT_DATA_MAX * |pkts|
  {
    if pkts != [] {
      FullCount(pkts[..|pkts| - 1]);
    }
  }

  /** A queue of `k` packets' worth of bytes is cut into `k` full packets. */
  lemma AllFull(txq: seq<byte>, pkts: seq<seq<byte>>, k: nat)
    requires Full(txq, pkts) && Sized(pkts) && |Flat(pkts)| == PKT_DATA_MAX * k && k > 0
    ensures |pkts| == k && forall i | 0 <= i < |pkts| :: |pkts[i]| == PKT_DATA_MAX
  {
    var n := |pkts| - 1;
    if pkts != [] {
      FullCount(pkts[..n]);
      assert |Flat(pkts)| == PKT_DATA_MAX * n + |pkts[n]|;
    }
  }

  /** The oldest packet is on the wire, under its own number. */
  lemma OldestIsFirst(e: End, you: End)
    requires Inv2(e, you) && Armed(e) && e.dir.released == 0
    ensures |e.dir.pkts| >= 1 && |e.dir.pkts[0]| <= PKT_DATA_MAX
    ensures OldestFlight(e) == FirstFlight(e.dir.pkts, |e.dir.pkts|)
  {
    hide TxOk, TxCounts, RxRel, NetOk, CallbackOk, Flat, Wrap;
  }

  /** The datagram of the first packet. */
  function FirstFlight(pkts: seq<seq<byte>>, at: nat): Flight
    requires |pkts| >= 1 && |pkts[0]| <= PKT_DATA_MAX
  {
    Flight(at, Encode(DataOf(PktAt(pkts, 1)), 0))
  }

  lemma EverythingCut(e: End, you: End, k: nat)
    requires Inv2(e, you) && e.peer.tx.inflight == [] && e.peer.tx.txq == [] && Full([], e.dir.pkts) && k > 0
    requires |e.dir.queued| == PKT_DATA_MAX * k
    ensures |e.dir.pkts| == e.dir.delivered == k && forall i | 0 <= i < k :: |e.dir.pkts[i]| == PKT_DATA_MAX
    ensures Stream(e.dir) == Flat(e.dir.pkts) == e.dir.queued
  {
    hide RxRel, NetOk, CallbackOk, TxOk, Wrap, Flat, Full;
    AllFull([], e.dir.pkts, k);
    assert e.dir.pkts[..|e.dir.pkts|] == e.dir.pkts;
  }

  /** A run that delivers `k` full packets while the datagram of the first one is still around. */
  lemma LongRun(k: nat) returns (moves: seq<Move>, t: Sys, at: nat)
    requires k > 0
    ensures IsRun(START, moves) && After(START, moves) == t && Inv(t) && Live(t.a) && Live(t.b)
    ensures |t.a.dir.pkts| == t.a.dir.delivered == k && forall i | 0 <= i < k :: |t.a.dir.pkts[i]| == PKT_DATA_MAX
    ensures t.b.peer.rx.delivered == t.a.dir.queued == Stream(t.a.dir)
    ensures 1 <= at <= k && FirstFlight(t.a.dir.pkts, at) in t.a.out
  {
    hide IsRun, After, Inv, Full, Armed, Encode, OldestFlight;
    LoadRun(k);
    StartInv();
    RunKeeps(START, Loading(k));
    var s := Loaded(k);
    LoadedFull(k);
    var m, u := TickMove(s);
    RunAppend(START, Loading(k), [m]);
    InvMeans(u);
    OldestIsFirst(u.a, u.b);
    at := |u.a.dir.pkts|;
    var rest := Drain(u);
    RunAppend(START, Loading(k) + [m], rest);
    moves, t := Loading(k) + [m] + rest, After(u, rest);
    InvMeans(t);
    EverythingCut(t.a, t.b, k);
    PktAtStable(u.a.dir.pkts, t.a.dir.pkts, 1);
    ArmedOut(u.a);
  }

  lemma ArmedOut(e: End)
    requires Armed(e)
    ensures OldestFlight(e) in e.out
  {
  }

  lemma InvMeans(s: Sys)
    requires Inv(s)
    ensures Inv2(s.a, s.b)
  {
  }

  lemma LoadedFull(k: nat)
    requires k > 0
    ensures var s := Loaded(k);
            && Full(s.a.peer.tx.txq, s.a.dir.pkts) && Live(s.a) && Live(s.b) && s.a.peer.tx.txq != []
            && s.a.dir.released == 0 && |s.a.dir.queued| == PKT_DATA_MAX * k
  {
    assert [] + Zeros(PKT_DATA_MAX * k) == Zeros(PKT_DATA_MAX * k);
  }

  // ---------------------------------------------------------------- delivered twice

  /**
   * A run in which end B has everything end A queued, and a datagram A really sent in it: received once
   * more, it makes B deliver bytes beyond all that was ever queued.
   */
  lemma DeliveredTwice(clk: Clock) returns (moves: seq<Move>, f: Flight)
    ensures IsRun(START, moves) && f in After(START, moves).a.out
    ensures var s := After(START, moves);
            && s.b.peer.rx.delivered == s.a.dir.queued && PeerOk(s.b.peer)
            && |Handle(s.b.peer, Decode(f.bytes), clk).peer.rx.delivered| >= |s.a.dir.queued| + PKT_DATA_MAX
  {
    hide IsRun, After, Inv2, Encode, Decode, Handle, OnData, RxRel, DirOk, Wrap, Flat;
    var t: Sys, at: nat;
    moves, t, at := LongRun(MOD);
    f := FirstFlight(t.a.dir.pkts, at);
    var p := PktAt(t.a.dir.pkts, 1);
    FirstIs(t.a.dir.pkts);
    RoundTrip(DataOf(p), 0);
    EndsRelated(t.a, t.b);
    StaleDuplicate(t.b.peer.rx, t.a.dir, 1, clk);
    HandleData(t.b.peer, DataOf(p), clk);
    PktOfMsg(p);
  }

  lemma FirstIs(pkts: seq<seq<byte>>)
    requires |pkts| >= 1
    ensures PktAt(pkts, 1).data == pkts[0] && PktAt(pkts, 1).num == 1
  {
    hide Flat;
  }

  lemma EndsRelated(snd: End, rcv: End)
    requires Inv2(snd, rcv)
    ensures RxRel(rcv.peer.rx, snd.dir) && TxRel(snd.peer.tx, snd.dir) && DirOk(snd.dir) && PeerOk(rcv.peer)
  {
    hide TxCounts, TxWindow, RxRelGap, NetOk, CallbackOk, DirOk;
    RelOk(rcv.peer.tx, rcv.peer.rx, rcv.dir, snd.dir);
  }

  // ---------------------------------------------------------------- the tests disagree

  /** So many full packets are between half a turn and a whole turn of bytes. */
  const MANY: nat := 2_000_000

  /**
   * A run in which a fresh datagram of a packet delivered long ago is dropped by the test on packet numbers
   * and would be kept by the test on byte offsets.
   */
  lemma TestsDisagree() returns (moves: seq<Move>, f: Flight)
    ensures IsRun(START, moves) && f in After(START, moves).a.out
    ensures var s := After(START, moves); var m := Decode(f.bytes);
            && Fresh(f.at, s.a.dir) && m.Data?
            && !IsBigger(m.num, s.b.peer.rx.recvPkt) && IsBigger(m.seqNum, s.b.peer.rx.recvSeq)
  {
    hide IsRun, After, Inv2, Encode, Decode, RxRel, DirOk, Flat, TxRel;
    var t: Sys, at: nat;
    moves, t, at := LongRun(MANY);
    f := FirstFlight(t.a.dir.pkts, at);
    FirstIs(t.a.dir.pkts);
    RoundTrip(DataOf(PktAt(t.a.dir.pkts, 1)), 0);
    EndsRelated(t.a, t.b);
    Counters(t.b.peer.rx, t.a.dir);
    Offsets(t.a.dir.pkts);
    assert t.a.dir.pkts[..t.a.dir.delivered] == t.a.dir.pkts;
  }

  lemma Counters(rx: Rx, d: Dir)
    requires RxRel(rx, d)
    ensures d.delivered <= |d.pkts| && rx.recvPkt == Wrap(d.delivered) && rx.recvSeq == Wrap(|Stream(d)|)
  {
  }

  lemma Offsets(pkts: seq<seq<byte>>)
    requires |pkts| == MANY && forall i | 0 <= i < |pkts| :: |pkts[i]| == PKT_DATA_MAX
    ensures PktAt(pkts, 1).seqNum == PKT_DATA_MAX && |Flat(pkts)| == PKT_DATA_MAX * MANY
  {
    FullCount(pkts);
    FullCount(pkts[..1]);
  }

  // ---------------------------------------------------------------- completion of nothing

  /** A fill callback that ends at once completes a transfer of nothing. */
  lemma CompletesNothing(clk: Clock) returns (moves: seq<Move>)
    ensures IsRun(START, moves)
    ensures var s := After(START, moves); s.a.completions == 1 && s.a.dir.queued == []
  {
    hide IsRun, After;
    var m1, m2 := Move(true, Establish), Move(true, Tock(Fill([], true), clk, 0));
    var s1 := Sys(FRESH_END.(peer := FRESH_PEER.(state := Established)), FRESH_END);
    FreshPeerOk();
    hide PeerOk, TxOk, RxOk;
    OneMove(START, m1);
    OneMove(s1, m2);
    assert Packetize(FRESH_TX, SEND_BUDGET) == FRESH_TX;
    assert [] + [] == FRESH_TX.txq;
    RunAppend(START, [m1], [m2]);
    moves := [m1] + [m2];
  }
}
