/** What the fillp engine promises in every run over a lossy, duplicating, reordering network. */
module FillpTheorems {
  import opened Bytes
  import opened Num32
  import opened FillpFrame
  import opened FillpCore
  import opened FillpLink
  import opened FillpNet

  // ---------------------------------------------------------------- safety

  /** The receiver's view of the stream from `snd`: a prefix of what was queued, and its counters say how long. */
  ghost predicate Faithful(snd: End, rcv: End) {
    && rcv.peer.rx.delivered <= snd.dir.queued
    && rcv.peer.rx.recvSeq == Wrap(|rcv.peer.rx.delivered|)
    && rcv.peer.rx.recvPkt == Wrap(snd.dir.delivered)
  }

  lemma StreamPrefix(d: Dir)
    requires DirOk(d)
    ensures Stream(d) <= d.queued
    ensures d.delivered == |d.pkts| ==> Stream(d) == Flat(d.pkts)
  {
    FlatSplit(d.pkts, d.delivered);
    if d.delivered == |d.pkts| {
      assert d.pkts[..d.delivered] == d.pkts;
    }
  }

  lemma LinkFaithful(snd: End, rcv: End)
    requires Link(snd, rcv)
    ensures Faithful(snd, rcv)
  {
    StreamPrefix(snd.dir);
    hide Flat, Wrap, TxRel;
  }

  /** In every run, in both directions, the bytes delivered are a prefix of the bytes queued. */
  lemma {:induction false} DeliveredIsPrefix(moves: seq<Move>)
    requires IsRun(START, moves)
    ensures var s := After(START, moves); Faithful(s.a, s.b) && Faithful(s.b, s.a)
  {
    StartInv();
    RunKeeps(START, moves);
    var s := After(START, moves);
    LinkFaithful(s.a, s.b);
    LinkFaithful(s.b, s.a);
  }

  lemma StreamGrows(d: Dir, e: Dir)
    requires DirOk(d) && DirOk(e) && Extends(d, e)
    ensures Stream(d) <= Stream(e)
  {
    assert e.pkts[..e.delivered][..d.delivered] == d.pkts[..d.delivered];
    FlatSplit(e.pkts[..e.delivered], d.delivered);
  }

  /** Once delivered, always delivered: a continued run only appends, so no byte comes twice or out of order. */
  lemma {:induction false} DeliveryOnlyAppends(first: seq<Move>, second: seq<Move>)
    requires IsRun(START, first) && IsRun(After(START, first), second)
    ensures var s := After(START, first); var t := After(s, second);
            s.b.peer.rx.delivered <= t.b.peer.rx.delivered && s.a.peer.rx.delivered <= t.a.peer.rx.delivered
  {
    StartInv();
    RunKeeps(START, first);
    var s := After(START, first);
    RunKeeps(s, second);
    var t := After(s, second);
    StreamGrows(s.a.dir, t.a.dir);
    StreamGrows(s.b.dir, t.b.dir);
  }

  // ---------------------------------------------------------------- completion

  /** An empty send half means the other side has everything. */
  lemma DrainedMeansDelivered(snd: End, rcv: End)
    requires Link(snd, rcv) && snd.peer.tx.txq == [] && snd.peer.tx.inflight == []
    ensures rcv.peer.rx.delivered == snd.dir.queued
  {
    StreamPrefix(snd.dir);
    hide Flat, Wrap;
    assert snd.dir.released == |snd.dir.pkts|;
  }

  lemma {:induction false} TockEvents(fill: Fill, clk: Clock, salt: u64, me: End, you: End)
    requires Inv2(me, you)
    requires var r := TockAct(fill, clk, salt, me, you); r.0.completions > me.completions || r.0.drains > me.drains
    ensures var r := TockAct(fill, clk, salt, me, you); you.peer.rx.delivered == r.0.dir.queued
  {
    var r := TockAct(fill, clk, salt, me, you);
    TockKeeps(fill, clk, salt, me, you);
    assert r.0.peer.tx.txq == [] && r.0.peer.tx.inflight == [];
    DrainedMeansDelivered(r.0, r.1);
  }

  /**
   * Whenever an end's tx-complete callback fires, or it is finalized after a drained close, the other
   * end has delivered every byte this end queued; each of the two happens at most once.
   */
  lemma {:induction false} CompletionIsTruthful(moves: seq<Move>, m: Move)
    requires IsRun(START, moves + [m])
    ensures IsRun(START, moves)
    ensures var s := After(START, moves); var t := After(START, moves + [m]);
            && t.a.completions <= 1 && t.b.completions <= 1 && t.a.drains <= 1 && t.b.drains <= 1
            && (t.a.completions > s.a.completions || t.a.drains > s.a.drains ==>
                  t.b.peer.rx.delivered == t.a.dir.queued)
            && (t.b.completions > s.b.completions || t.b.drains > s.b.drains ==>
                  t.a.peer.rx.delivered == t.b.dir.queued)
  {
    StartInv();
    RunKeeps(START, moves + [m]);
    RunPrefix(START, moves, m);
    RunKeeps(START, moves);
    var s := After(START, moves);
    if m.byA {
      EventsTruthful(m.act, s.a, s.b);
    } else {
      EventsTruthful(m.act, s.b, s.a);
    }
    hide Act, Link, NetOk;
  }

  lemma EventsTruthful(act: Action, me: End, you: End)
    requires Inv2(me, you)
    ensures var r := Act(act, me, you);
            && r.1.completions == you.completions && r.1.drains == you.drains
            && (r.0.completions > me.completions || r.0.drains > me.drains ==>
                  r.1.peer.rx.delivered == r.0.dir.queued)
  {
    InvEnd(me, you);
    hide Inv2, Tick, EndOk, PeerOk, TockAct;
    if act.Tock? {
      TockYou(act.fill, act.clk, act.salt, me, you);
      var r := TockAct(act.fill, act.clk, act.salt, me, you);
      if r.0.completions > me.completions || r.0.drains > me.drains {
        TockEvents(act.fill, act.clk, act.salt, me, you);
      }
    } else {
      NoEvents(act, me, you);
    }
  }

  lemma TockYou(fill: Fill, clk: Clock, salt: u64, me: End, you: End)
    requires EndOk(me)
    ensures TockAct(fill, clk, salt, me, you).1 == you
  {
    hide Tick, Emit, PeerOk;
  }

  lemma NoEvents(act: Action, me: End, you: End)
    requires EndOk(me) && !act.Tock?
    ensures var r := Act(act, me, you);
            && r.0.completions == me.completions && r.0.drains == me.drains
            && r.1.completions == you.completions && r.1.drains == you.drains
  {
    hide Handle, Emit, PeerOk, Decode;
  }

  lemma {:induction false} RunPrefix(s: Sys, moves: seq<Move>, m: Move)
    requires IsRun(s, moves + [m])
    ensures IsRun(s, moves) && SysOk(After(s, moves)) && CanMove(After(s, moves), m)
    ensures After(s, moves + [m]) == Next(After(s, moves), m)
    decreases |moves|
  {
    hide Next, SysOk, CanMove;
    if moves == [] {
      assert moves + [m] == [m];
    } else {
      assert (moves + [m])[1..] == moves[1..] + [m];
      RunPrefix(Next(s, moves[0]), moves[1..], m);
    }
  }

  // ---------------------------------------------------------------- recovery

  /** In the window, only `r + 1` lies strictly between `r` and `r + 2`. */
  lemma OnlyNext(d: Dir, i: nat)
    requires DirOk(d) && |d.pkts| - d.released < WINDOW && i < |d.pkts| - d.released
    ensures var q := Wrap(d.released + 1 + i);
            (IsBigger(q, Wrap(d.delivered)) && IsBigger(Wrap(d.delivered + 2), q))
            <==> d.released + 1 + i == d.delivered + 1
  {
    IsBiggerExact(d.released + 1 + i, d.delivered);
    IsBiggerExact(d.delivered + 2, d.released + 1 + i);
  }

  /** Filtering a list that has exactly one match, at `at` (or none when `at` is its length). */
  lemma {:induction false} RequestedSingle(ps: seq<Pkt>, begin: u32, end: u32, at: nat)
    requires at <= |ps|
    requires forall i :: 0 <= i < |ps| ==> (IsBigger(ps[i].num, begin) && IsBigger(end, ps[i].num) <==> i == at)
    ensures Requested(ps, begin, end) == (if at < |ps| then [DataOf(ps[at])] else [])
  {
    hide IsBigger;
    if ps != [] {
      assert forall i :: 0 <= i < |ps[1..]| ==> ps[1..][i] == ps[i + 1];
      if at == 0 {
        RequestedSingle(ps[1..], begin, end, |ps| - 1);
      } else {
        RequestedSingle(ps[1..], begin, end, at - 1);
      }
    }
  }

  /** A current NACK of `rcv` makes `snd` repeat exactly the packet missing next, if it was cut. */
  ghost predicate NackRepairs(snd: End, rcv: End, salt: u64, clk: Clock) {
    snd.peer.state == Established ==>
      var d := snd.dir;
      && PeerOk(snd.peer)
      && d.released <= d.delivered <= |d.pkts|
      && Handle(snd.peer, Decode(Encode(NackOf(rcv.peer.rx), salt)), clk).out
         == (if d.delivered < |d.pkts| then [DataOf(PktAt(d.pkts, d.delivered + 1))] else [])
  }

  lemma LinkNack(snd: End, rcv: End, salt: u64, clk: Clock)
    requires Link(snd, rcv) && Link(rcv, snd)
    ensures NackRepairs(snd, rcv, salt, clk)
  {
    hide TxWindow, TxCounts, RxRelGap, Decode, Encode, Requested;
    RelOk(snd.peer.tx, snd.peer.rx, snd.dir, rcv.dir);
    RoundTrip(NackOf(rcv.peer.rx), salt);
    NackAnswer(snd.peer.tx, rcv.peer.rx, snd.dir);
  }

  /**
   * In every run, both ways: a current NACK, carried through the codec, makes the sender repeat exactly the
   * receiver's next missing packet when that packet was cut, and nothing when none is missing.
   */
  lemma {:induction false} NackRepairsFirstGap(moves: seq<Move>, salt: u64, clk: Clock)
    requires IsRun(START, moves)
    ensures var s := After(START, moves); NackRepairs(s.a, s.b, salt, clk) && NackRepairs(s.b, s.a, salt, clk)
  {
    hide IsRun, After, NackRepairs, Link, NetOk;
    StartInv();
    RunKeeps(START, moves);
    var s := After(START, moves);
    LinkNack(s.a, s.b, salt, clk);
    LinkNack(s.b, s.a, salt, clk);
  }

  lemma NackAnswer(tx: Tx, rx: Rx, d: Dir)
    requires TxRel(tx, d) && RxRel(rx, d) && DirOk(d)
    ensures Requested(tx.inflight, NackOf(rx).begin, NackOf(rx).end)
            == (if d.delivered < |d.pkts| then [DataOf(PktAt(d.pkts, d.delivered + 1))] else [])
  {
    hide IsBigger, Wrap, Flat, Add32, TxOk, RxRelGap, Sized, TxCounts;
    WindowBound(tx, d);
    AddWrap(d.delivered, 2);
    RecvPktOf(rx, d);
    forall i | 0 <= i < |tx.inflight|
      ensures IsBigger(tx.inflight[i].num, NackOf(rx).begin) && IsBigger(NackOf(rx).end, tx.inflight[i].num)
              <==> i == d.delivered - d.released
    {
      OnlyNext(d, i);
    }
    RequestedSingle(tx.inflight, NackOf(rx).begin, NackOf(rx).end, d.delivered - d.released);
  }

  /** How far ahead of the stream delivered so far packet `t` ends, in bytes. */
  ghost function OffsetGap(d: Dir, t: nat): int
    requires t <= |d.pkts| && d.delivered <= |d.pkts|
  {
    |Flat(d.pkts[..t])| - |Stream(d)|
  }

  /**
   * The drop test on byte offsets, which the source calls equivalent to its own on packet numbers,
   * agrees with it exactly when the wrapped offset gap falls in the half turn on the packet's side.
   */
  lemma {:induction false} DuplicateTestsAgree(tx: Tx, rx: Rx, d: Dir, m: Msg, at: nat)
    requires TxRel(tx, d) && RxRel(rx, d) && DirOk(d) && DataOk(m, at, d) && Fresh(at, d)
    ensures var t := Unwrap(at, m.num);
            (IsBigger(m.num, rx.recvPkt) <==> IsBigger(m.seqNum, rx.recvSeq))
            <==> (t > d.delivered <==> 0 < OffsetGap(d, t) % MOD < HALF)
  {
    FreshOrder(tx, rx, d, m, at);
    OffsetTest(rx, d, Unwrap(at, m.num));
    hide Unwrap, Flat, Wrap, IsBigger, TxRel, RxRel, DirOk, OffsetGap;
  }

  lemma OffsetTest(rx: Rx, d: Dir, t: nat)
    requires RxRel(rx, d) && 1 <= t <= |d.pkts|
    ensures IsBigger(PktAt(d.pkts, t).seqNum, rx.recvSeq) <==> 0 < OffsetGap(d, t) % MOD < HALF
  {
    hide Flat, Wrap, IsBigger, TableAhead, BytesOk;
    IsBiggerWrapped(|Flat(d.pkts[..t])|, |Stream(d)|);
  }

  lemma {:induction false} OffsetGrows(pkts: seq<seq<byte>>, r: nat, t: nat)
    requires r < t <= |pkts| && pkts[r] != []
    ensures |Flat(pkts[..r])| < |Flat(pkts[..t])|
  {
    FlatStep(pkts, r);
    assert pkts[..t][..r + 1] == pkts[..r + 1];
    FlatSplit(pkts[..t], r + 1);
  }

  /**
   * What becomes of a duplicate of any age. The gap that counts is its distance behind the last packet in
   * order, modulo a turn: up to half a turn the duplicate is dropped; beyond that it is buffered under the
   * number of a packet to come; and exactly one short of a turn it is delivered a second time.
   */
  lemma {:induction false} StaleDuplicate(rx: Rx, d: Dir, t: nat, clk: Clock)
    requires RxRel(rx, d) && 1 <= t <= d.delivered
    ensures var p := PktAt(d.pkts, t); var gap := (d.delivered - t) % MOD; var r := OnData(rx, p, clk).rx;
            && (IsBigger(p.num, rx.recvPkt) <==> gap > HALF)
            && (gap <= HALF ==> r.delivered == rx.delivered && r.ofo == rx.ofo && r.recvPkt == rx.recvPkt)
            && (HALF < gap < MOD - 1 ==>
                  && r.delivered == rx.delivered && r.recvPkt == rx.recvPkt
                  && Ahead(d.delivered, p.num) == d.delivered + MOD - gap
                  && r.ofo == if rx.ofoBytes + |p.data| <= OFO_MAX_BYTES then rx.ofo[p.num := p] else rx.ofo)
            && (gap == MOD - 1 ==> rx.delivered + p.data <= r.delivered)
  {
    var gap := (d.delivered - t) % MOD;
    var p := PktAt(d.pkts, t);
    RecvPktOf(rx, d);
    StaleNumber(d.delivered, t);
    hide Wrap, Flat, IsBigger, RxRelGap, TableAhead, BytesOk, Flush;
    if gap == MOD - 1 {
      NextNotBuffered(rx, d);
      hide Add32;
      AcceptAhead(rx, p);
      FlushAppends(Accept(rx, p));
      assert OnData(rx, p, clk).rx.delivered == Flush(Accept(rx, p)).delivered;
    }
  }

  /** Where the number of an old packet stands on the circle. */
  lemma StaleNumber(now: nat, t: nat)
    requires t <= now
    ensures var gap := (now - t) % MOD;
            && (IsBigger(Wrap(t), Wrap(now)) <==> gap > HALF)
            && (Wrap(t) == Add32(Wrap(now), 1) <==> gap == MOD - 1)
            && (gap > 0 ==> Ahead(now, Wrap(t)) == now + MOD - gap)
  {
    SubWrap(now, t);
    AroundCircle(Wrap(t), Wrap(now));
    hide Add32, Sub32, IsBigger;
  }

  lemma AcceptAhead(rx: Rx, p: Pkt)
    requires RxOk(rx) && p.num == Add32(rx.recvPkt, 1)
    ensures TableAhead(Accept(rx, p), 1) && BytesOk(Accept(rx, p))
  {
  }

  lemma {:induction false} FlushAppends(rx: Rx)
    requires TableAhead(rx, 1) && BytesOk(rx)
    ensures rx.delivered <= Flush(rx).delivered
    decreases |rx.ofo|
  {
    if Add32(rx.recvPkt, 1) in rx.ofo {
      TakeNextKeeps(rx);
      FlushAppends(TakeNext(rx));
    }
  }

  // ---------------------------------------------------------------- duplicates of any age, in any run

  /** The table holds this very packet. */
  predicate AlreadyHeld(rx: Rx, m: Msg)
    requires m.Data?
  {
    m.num in rx.ofo && rx.ofo[m.num] == Pkt(m.num, m.seqNum, m.data)
  }

  /** Receiving a duplicate that lies `gap` behind, from `rx` to `r`. */
  predicate Fate(rx: Rx, r: Rx, m: Msg, gap: nat)
    requires m.Data?
  {
    && (r.delivered == rx.delivered && r.ofo == rx.ofo && r.recvPkt == rx.recvPkt <==>
          || gap <= HALF
          || (gap < MOD - 1 && (rx.ofoBytes + |m.data| > OFO_MAX_BYTES || AlreadyHeld(rx, m))))
    && (gap == MOD - 1 ==> rx.delivered + m.data <= r.delivered)
  }

  /**
   * What becomes of a DATA datagram, however old, whose packet `rcv` has delivered. It leaves the stream, the
   * table and the counters alone exactly when its distance behind, modulo a turn, is at most half a turn or
   * the table has no room for it or holds it already; one short of a turn it is delivered again.
   */
  ghost predicate DuplicateFate(snd: End, rcv: End, f: Flight, clk: Clock) {
    var m := Decode(f.bytes);
    m.Data? && rcv.peer.state in {Established, Closing} ==>
      var t := Unwrap(f.at, m.num);
      t <= snd.dir.delivered ==>
        && PeerOk(rcv.peer) && 1 <= t
        && Fate(rcv.peer.rx, Handle(rcv.peer, m, clk).peer.rx, m, (snd.dir.delivered - t) % MOD)
  }

  /** Every datagram either end ever sent in a run, of any age. */
  lemma {:induction false} AnyDuplicate(moves: seq<Move>, f: Flight, clk: Clock)
    requires IsRun(START, moves)
    ensures var s := After(START, moves);
            && (f in s.a.out ==> DuplicateFate(s.a, s.b, f, clk))
            && (f in s.b.out ==> DuplicateFate(s.b, s.a, f, clk))
  {
    hide IsRun, After, DuplicateFate, Link, NetOk;
    StartInv();
    RunKeeps(START, moves);
    var s := After(START, moves);
    if f in s.a.out {
      FateOf(s.a, s.b, f, clk);
    }
    if f in s.b.out {
      FateOf(s.b, s.a, f, clk);
    }
  }

  lemma FateOf(snd: End, rcv: End, f: Flight, clk: Clock)
    requires Inv2(snd, rcv) && f in snd.out
    ensures DuplicateFate(snd, rcv, f, clk)
  {
    hide Handle, DirOk, Link, NetOk, Unwrap, Decode, PktAt, Fate, OnData, RxRel, PeerOk;
    var m := Decode(f.bytes);
    if m.Data? && rcv.peer.state in {Established, Closing} && Unwrap(f.at, m.num) <= snd.dir.delivered {
      var t := Unwrap(f.at, m.num);
      SentIsTrue(snd, rcv, f);
      NotEmpty(snd.dir, t);
      FateOnRx(rcv.peer.rx, snd.dir, t, clk);
      HandleData(rcv.peer, m, clk);
      PktOfMsg(PktAt(snd.dir.pkts, t));
    }
  }

  lemma PktOfMsg(p: Pkt)
    ensures DataOf(p).Data? && Pkt(DataOf(p).num, DataOf(p).seqNum, DataOf(p).data) == p
  {
  }

  lemma FateOnRx(rx: Rx, d: Dir, t: nat, clk: Clock)
    requires RxRel(rx, d) && 1 <= t <= d.delivered && t <= |d.pkts| && PktAt(d.pkts, t).data != []
    ensures DataOf(PktAt(d.pkts, t)).Data?
    ensures Fate(rx, OnData(rx, PktAt(d.pkts, t), clk).rx, DataOf(PktAt(d.pkts, t)), (d.delivered - t) % MOD)
  {
    StaleDuplicate(rx, d, t, clk);
    var p := PktAt(d.pkts, t);
    hide OnData, RxRelGap, PktAt, Ahead, IsBigger;
    if rx.ofo[p.num := p] == rx.ofo {
      assert p.num in rx.ofo[p.num := p];
    }
    if AlreadyHeld(rx, DataOf(p)) {
      assert rx.ofo[p.num := p] == rx.ofo;
    }
    assert |rx.delivered + p.data| > |rx.delivered|;
  }

  lemma SentIsTrue(snd: End, rcv: End, f: Flight)
    requires Inv2(snd, rcv) && f in snd.out && Decode(f.bytes).Data?
    ensures RxRel(rcv.peer.rx, snd.dir) && PeerOk(rcv.peer) && DirOk(snd.dir)
    ensures var m := Decode(f.bytes); var t := Unwrap(f.at, m.num);
            1 <= t <= |snd.dir.pkts| && m == DataOf(PktAt(snd.dir.pkts, t))
  {
    hide Decode;
    assert FlightOk(f, snd.dir, rcv.dir);
    RelOk(rcv.peer.tx, rcv.peer.rx, rcv.dir, snd.dir);
  }

  lemma HandleData(p: Peer, m: Msg, clk: Clock)
    requires PeerOk(p) && m.Data? && p.state in {Established, Closing}
    ensures Handle(p, m, clk).peer == p.(rx := OnData(p.rx, Pkt(m.num, m.seqNum, m.data), clk).rx)
  {
  }

  lemma NotEmpty(d: Dir, t: nat)
    requires DirOk(d) && 1 <= t <= |d.pkts|
    ensures PktAt(d.pkts, t).data != []
  {
    hide Flat, Wrap;
  }
}
