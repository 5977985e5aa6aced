/**
 * One direction of a fillp connection against its specification. The specification knows no
 * 32-bit numbers and no windows: a byte stream is cut into packets, packets are delivered in
 * order and later released. `TxRel` and `RxRel` tie the two 32-bit halves to it; the lemmas
 * show that every handler of the engine is a step of the specification.
 */
module FillpLink {
  import opened Bytes
  import opened Num32
  import opened FillpFrame
  import opened FillpCore

  /** The bytes queued so far, the packets cut so far, and how many are delivered and released. */
  datatype Dir = Dir(queued: seq<byte>, pkts: seq<seq<byte>>, delivered: nat, released: nat)

  const FRESH_DIR := Dir([], [], 0, 0)

  ghost predicate Sized(pkts: seq<seq<byte>>) {
    forall i :: 0 <= i < |pkts| ==> 1 <= |pkts[i]| <= PKT_DATA_MAX
  }

  /** Nothing is released before it is delivered, and nothing delivered that was not queued. */
  ghost predicate DirOk(d: Dir) {
    && d.released <= d.delivered <= |d.pkts|
    && Flat(d.pkts) <= d.queued && Sized(d.pkts)
  }

  function Stream(d: Dir): seq<byte>
    requires d.delivered <= |d.pkts|
  {
    Flat(d.pkts[..d.delivered])
  }

  /** The specification's steps: every history only grows. */
  ghost predicate Extends(d: Dir, e: Dir) {
    && d.queued <= e.queued && d.pkts <= e.pkts
    && d.delivered <= e.delivered && d.released <= e.released
  }

  /** More packets than can ever be in flight. */
  const WINDOW: nat := SEND_CACHE + PKT_DATA_MAX

  /** The packet with true number `t` (counted from 1) as the engine numbers it. */
  function PktAt(pkts: seq<seq<byte>>, t: int): Pkt
    requires 1 <= t <= |pkts|
  {
    Pkt(Wrap(t), Wrap(|Flat(pkts[..t])|), pkts[t - 1])
  }

  lemma PktAtStable(pkts: seq<seq<byte>>, more: seq<seq<byte>>, t: int)
    requires pkts <= more && 1 <= t <= |pkts|
    ensures PktAt(more, t) == PktAt(pkts, t)
  {
    assert more[..t] == pkts[..t];
  }

  /** The counters and the queue: what was cut plus what waits is what was queued. */
  ghost predicate TxCounts(tx: Tx, d: Dir) {
    && tx.sendPkt == Wrap(|d.pkts|) && tx.sendSeq == Wrap(|Flat(d.pkts)|)
    && d.queued == Flat(d.pkts) + tx.txq
  }

  /** The window holds exactly the packets cut and not yet released. */
  ghost predicate TxWindow(ps: seq<Pkt>, d: Dir) {
    && d.released <= |d.pkts|
    && |ps| == |d.pkts| - d.released
    && forall i :: 0 <= i < |ps| ==> ps[i] == PktAt(d.pkts, d.released + 1 + i)
  }

  ghost predicate TxRel(tx: Tx, d: Dir) {
    TxOk(tx) && TxCounts(tx, d) && TxWindow(tx.inflight, d)
  }

  /** The receive half; `gap` is 1 while the table is being flushed and 2 otherwise. */
  ghost predicate RxRelGap(rx: Rx, d: Dir, gap: nat) {
    && TableAhead(rx, gap) && BytesOk(rx)
    && d.delivered <= |d.pkts|
    && rx.recvPkt == Wrap(d.delivered) && rx.recvSeq == Wrap(|Stream(d)|) && rx.delivered == Stream(d)
    && forall k :: k in rx.ofo ==>
         d.delivered < Ahead(d.delivered, k) <= |d.pkts| && rx.ofo[k] == PktAt(d.pkts, Ahead(d.delivered, k))
  }

  ghost predicate RxRel(rx: Rx, d: Dir) {
    RxRelGap(rx, d, 2)
  }

  // ---------------------------------------------------------------- the window

  lemma {:induction false} CountBelowBytes(ps: seq<Pkt>)
    requires forall p :: p in ps ==> 1 <= |p.data|
    ensures |ps| <= SumLen(ps)
  {
    if ps != [] {
      CountBelowBytes(ps[1..]);
    }
  }

  /** The byte cap on the window bounds the packets in flight, far below half a turn of the counter. */
  lemma {:induction false} WindowBound(tx: Tx, d: Dir)
    requires TxRel(tx, d)
    ensures |d.pkts| - d.released < WINDOW < HALF
  {
    CountBelowBytes(tx.inflight);
  }

  // ---------------------------------------------------------------- datagrams in the network

  /** A DATA datagram emitted when `at` packets had been cut. */
  ghost predicate DataOk(m: Msg, at: nat, d: Dir) {
    && m.Data? && at <= |d.pkts|
    && var t := Unwrap(at, m.num);
       1 <= t && at - t < WINDOW && m == DataOf(PktAt(d.pkts, t))
  }

  /** A PACK emitted when `at` packets had been cut: it acknowledges only delivered packets. */
  ghost predicate AckOk(m: Msg, at: nat, d: Dir) {
    && m.Pack? && at <= |d.pkts|
    && var s := Unwrap(at, m.ackPkt);
       0 <= s <= d.delivered && at - s < WINDOW
  }

  /** The age assumption: fewer than half a turn of packets were cut since the datagram was emitted. */
  predicate Fresh(at: nat, d: Dir) {
    |d.pkts| - at <= HALF - WINDOW
  }

  lemma DataOkStable(m: Msg, at: nat, d: Dir, e: Dir)
    requires DataOk(m, at, d) && Extends(d, e)
    ensures DataOk(m, at, e)
  {
    PktAtStable(d.pkts, e.pkts, Unwrap(at, m.num));
  }

  lemma DataOkAt(d: Dir, at: nat, t: int)
    requires 1 <= t <= at <= |d.pkts| && at - t < WINDOW
    ensures DataOk(DataOf(PktAt(d.pkts, t)), at, d)
  {
    UnwrapBelow(at, t);
  }

  /** Whatever is still in the window may be put on the wire. */
  lemma WindowIsSendable(tx: Tx, d: Dir, p: Pkt)
    requires TxRel(tx, d) && p in tx.inflight
    ensures DataOk(DataOf(p), |d.pkts|, d)
  {
    hide Wrap, Flat;
    var i :| 0 <= i < |tx.inflight| && tx.inflight[i] == p;
    WindowBound(tx, d);
    DataOkAt(d, |d.pkts|, d.released + 1 + i);
  }

  lemma {:induction false} PackIsHonest(tx: Tx, rx: Rx, d: Dir)
    requires TxRel(tx, d) && RxRel(rx, d) && DirOk(d)
    ensures AckOk(PackOf(rx), |d.pkts|, d)
  {
    WindowBound(tx, d);
    UnwrapBelow(|d.pkts|, d.delivered);
  }

  // ---------------------------------------------------------------- receiving

  /** How far the receive half advanced, as an unbounded count. */
  function Advanced(d: Dir, before: Rx, after: Rx): Dir {
    d.(delivered := d.delivered + Sub32(after.recvPkt, before.recvPkt))
  }

  lemma BytesOkAccept(rx: Rx, p: Pkt)
    requires BytesOk(rx)
    ensures BytesOk(Accept(rx, p))
  {
  }

  /** Delivering the next packet, with no entry of the same number left in the table. */
  lemma AcceptRel(rx: Rx, d: Dir)
    requires RxRelGap(rx, d, 1) && d.delivered < |d.pkts|
    requires Wrap(d.delivered + 1) !in rx.ofo
    ensures RxRelGap(Accept(rx, PktAt(d.pkts, d.delivered + 1)), d.(delivered := d.delivered + 1), 1)
  {
    hide Flat, BytesOk;
    BytesOkAccept(rx, PktAt(d.pkts, d.delivered + 1));
    var p := PktAt(d.pkts, d.delivered + 1);
    var e := d.(delivered := d.delivered + 1);
    FlatStep(d.pkts, d.delivered);
    AddWrap(d.delivered, 1);
    assert Accept(rx, p).delivered == Stream(e);
    forall k | k in rx.ofo
      ensures Ahead(e.delivered, k) == Ahead(d.delivered, k) && 1 <= Sub32(k, Wrap(e.delivered)) < HALF
    {
      assert k != Wrap(d.delivered);
      AheadStep(d.delivered, k);
      assert k != Wrap(d.delivered + 1);
    }
  }

  lemma ForgetRel(rx: Rx, d: Dir, k: u32)
    requires RxRelGap(rx, d, 1) && k in rx.ofo
    ensures |rx.ofo[k].data| <= rx.ofoBytes
    ensures RxRelGap(rx.(ofo := rx.ofo - {k}, ofoBytes := rx.ofoBytes - |rx.ofo[k].data|), d, 1)
  {
    BufferedRemove(rx.ofo, k);
  }

  /** The next number in the table is the next packet of the stream. */
  lemma NextInTable(rx: Rx, d: Dir)
    requires RxRelGap(rx, d, 1) && Add32(rx.recvPkt, 1) in rx.ofo
    ensures TableAhead(rx, 1) && BytesOk(rx) && d.delivered < |d.pkts|
    ensures Add32(rx.recvPkt, 1) == Wrap(d.delivered + 1)
    ensures rx.ofo[Wrap(d.delivered + 1)] == PktAt(d.pkts, d.delivered + 1)
  {
    AddWrap(d.delivered, 1);
    AheadOf(d.delivered, d.delivered + 1);
    hide Wrap, Flat, Add32, Ahead;
  }

  lemma TakeNextRel(rx: Rx, d: Dir)
    requires RxRelGap(rx, d, 1) && Add32(rx.recvPkt, 1) in rx.ofo
    ensures d.delivered < |d.pkts|
    ensures RxRelGap(TakeNext(rx), d.(delivered := d.delivered + 1), 1)
  {
    hide RxRelGap, Wrap, Add32, Accept, TableAhead, BytesOk, PktAt;
    NextInTable(rx, d);
    var k := Add32(rx.recvPkt, 1);
    ForgetRel(rx, d, k);
    AcceptRel(rx.(ofo := rx.ofo - {k}, ofoBytes := rx.ofoBytes - |rx.ofo[k].data|), d);
  }

  lemma {:induction false} FlushRel(rx: Rx, d: Dir) returns (n: nat)
    requires RxRelGap(rx, d, 1)
    ensures d.delivered <= n <= |d.pkts|
    ensures RxRel(Flush(rx), d.(delivered := n))
    decreases |rx.ofo|
  {
    if Add32(rx.recvPkt, 1) !in rx.ofo {
      n := d.delivered;
    } else {
      TakeNextKeeps(rx);
      TakeNextRel(rx, d);
      n := FlushRel(TakeNext(rx), d.(delivered := d.delivered + 1));
    }
  }

  lemma AdvancedBy(d: Dir, before: Rx, after: Rx, n: nat)
    requires before.recvPkt == Wrap(d.delivered) && after.recvPkt == Wrap(n)
    requires 0 <= n - d.delivered < MOD
    ensures Advanced(d, before, after) == d.(delivered := n)
  {
    SubWrap(n, d.delivered);
  }

  /** Where a fresh datagram stands relative to the receiver: the circular tests tell the truth. */
  lemma {:induction false} FreshOrder(tx: Tx, rx: Rx, d: Dir, m: Msg, at: nat)
    requires TxRel(tx, d) && RxRel(rx, d) && DirOk(d)
    requires DataOk(m, at, d) && Fresh(at, d)
    ensures var t := Unwrap(at, m.num);
            && m.num == Wrap(t)
            && t - d.delivered < WINDOW
            && (IsBigger(m.num, rx.recvPkt) <==> t > d.delivered)
            && (m.num == Add32(rx.recvPkt, 1) <==> t == d.delivered + 1)
  {
    var t := Unwrap(at, m.num);
    WindowBound(tx, d);
    IsBiggerExact(t, d.delivered);
    AddWrap(d.delivered, 1);
    if m.num == Add32(rx.recvPkt, 1) {
      WrapInjective(t, d.delivered + 1);
    }
  }

  /**
   * Receiving a fresh DATA datagram refines the specification: whether it was new, early or a
   * duplicate, the receiver moves along the same stream and never past what was cut.
   */
  lemma {:induction false} OnDataRel(tx: Tx, rx: Rx, d: Dir, m: Msg, at: nat, clk: Clock)
    requires TxRel(tx, d) && RxRel(rx, d) && DirOk(d)
    requires DataOk(m, at, d) && Fresh(at, d)
    ensures var r := OnData(rx, Pkt(m.num, m.seqNum, m.data), clk);
            var e := Advanced(d, rx, r.rx);
            && DirOk(e) && Extends(d, e) && TxRel(tx, e) && RxRel(r.rx, e)
            && (Unwrap(at, m.num) <= e.delivered <==> Unwrap(at, m.num) <= d.delivered + 1)
  {
    var t := Unwrap(at, m.num);
    var p := Pkt(m.num, m.seqNum, m.data);
    FreshOrder(tx, rx, d, m, at);
    assert p == PktAt(d.pkts, t);
    if t == d.delivered + 1 {
      NextRel(tx, rx, d, clk);
    } else {
      assert p.num != Add32(rx.recvPkt, 1);
      if t > d.delivered && rx.ofoBytes + |p.data| <= OFO_MAX_BYTES {
        BufferRel(rx, d, p, t);
      }
      assert Advanced(d, rx, OnData(rx, p, clk).rx) == d;
    }
  }

  lemma TxIgnoresDelivery(tx: Tx, d: Dir, n: nat)
    requires TxRel(tx, d)
    ensures TxRel(tx, d.(delivered := n))
  {
    hide Wrap, Flat, PktAt, TxOk;
  }

  /** Sending or withholding a PACK is invisible to the stream. */
  lemma AckIgnored(rx: Rx, d: Dir, clk: Clock)
    requires RxRel(rx, d)
    ensures RxRel(MaybePack(rx, clk).rx, d) && MaybePack(rx, clk).rx.recvPkt == rx.recvPkt
  {
    hide Wrap, Flat, PktAt;
  }

  /** The packet everyone is waiting for: it and all its buffered successors are delivered. */
  lemma NextRel(tx: Tx, rx: Rx, d: Dir, clk: Clock)
    requires TxRel(tx, d) && RxRel(rx, d) && DirOk(d) && d.delivered < |d.pkts|
    ensures var r := OnData(rx, PktAt(d.pkts, d.delivered + 1), clk);
            var e := Advanced(d, rx, r.rx);
            DirOk(e) && Extends(d, e) && TxRel(tx, e) && RxRel(r.rx, e) && e.delivered > d.delivered
  {
    var p := PktAt(d.pkts, d.delivered + 1);
    NextNotBuffered(rx, d);
    WindowBound(tx, d);
    hide Wrap, Flat, Add32, Sub32, IsBigger, Flush, TxRel, RxRelGap, Sized, MaybePack;
    AcceptRel(rx, d);
    var n := FlushRel(Accept(rx, p), d.(delivered := d.delivered + 1));
    var rx' := Flush(Accept(rx, p));
    AckIgnored(rx', d.(delivered := n), clk);
    RecvPktOf(rx, d);
    RecvPktOf(rx', d.(delivered := n));
    AdvancedBy(d, rx, rx', n);
    TxIgnoresDelivery(tx, d, n);
    assert OnData(rx, p, clk) == MaybePack(rx', clk);
  }

  lemma NextNotBuffered(rx: Rx, d: Dir)
    requires RxRel(rx, d)
    ensures RxRelGap(rx, d, 1) && Wrap(d.delivered + 1) !in rx.ofo
    ensures Wrap(d.delivered + 1) == Add32(rx.recvPkt, 1) && IsBigger(Wrap(d.delivered + 1), rx.recvPkt)
  {
    hide Flat;
    AddWrap(d.delivered, 1);
  }

  lemma RelOk(tx: Tx, rx: Rx, d: Dir, e: Dir)
    ensures TxRel(tx, d) ==> TxOk(tx)
    ensures RxRel(rx, e) ==> RxOk(rx)
  {
  }

  lemma RecvPktOf(rx: Rx, d: Dir)
    requires RxRel(rx, d)
    ensures rx.recvPkt == Wrap(d.delivered)
  {
  }

  /** An early packet goes into the table under its own number. */
  lemma BufferRel(rx: Rx, d: Dir, p: Pkt, t: int)
    requires RxRel(rx, d) && d.delivered + 1 < t <= |d.pkts| && t - d.delivered < WINDOW
    requires p == PktAt(d.pkts, t) && rx.ofoBytes + |p.data| <= OFO_MAX_BYTES
    ensures RxRel(rx.(ofo := rx.ofo[p.num := p], ofoBytes := rx.ofoBytes + |p.data|), d)
  {
    AheadOf(d.delivered, t);
    SubWrap(t, d.delivered);
    BufferedReplace(rx.ofo, p.num, p);
  }

  /** New packets do not disturb the receive half. */
  lemma RxRelStable(rx: Rx, d: Dir, e: Dir)
    requires RxRel(rx, d) && d.pkts <= e.pkts && e.delivered == d.delivered
    ensures RxRel(rx, e)
  {
    assert e.pkts[..d.delivered] == d.pkts[..d.delivered];
    forall k | k in rx.ofo
      ensures rx.ofo[k] == PktAt(e.pkts, Ahead(d.delivered, k))
    {
      PktAtStable(d.pkts, e.pkts, Ahead(d.delivered, k));
    }
  }

  // ---------------------------------------------------------------- acknowledging

  function Freed(d: Dir, before: Tx, after: Tx): Dir
    requires |after.inflight| <= |before.inflight|
  {
    d.(released := d.released + (|before.inflight| - |after.inflight|))
  }

  lemma DropFirstRel(tx: Tx, d: Dir)
    requires TxRel(tx, d) && tx.inflight != []
    ensures TxRel(DropFirst(tx), d.(released := d.released + 1))
  {
    hide Wrap, Flat;
    assert forall i :: 0 <= i < |tx.inflight[1..]| ==> tx.inflight[1..][i] == tx.inflight[i + 1];
  }

  /** A cumulative acknowledgement of `s` releases exactly the packets up to `s`. */
  lemma {:induction false} ReleaseRel(tx: Tx, d: Dir, s: nat)
    requires TxRel(tx, d) && s <= |d.pkts| && |d.pkts| - s < HALF
    ensures var e := d.(released := if s > d.released then s else d.released);
            TxRel(Release(tx, Wrap(s)), e) && Freed(d, tx, Release(tx, Wrap(s))) == e
    decreases |tx.inflight|
  {
    WindowBound(tx, d);
    WindowSize(tx, d);
    hide Wrap, IsBigger, TxOk, TxRel, PktAt;
    if tx.inflight != [] {
      FirstNumber(tx, d);
      FirstAfter(d, s);
      if d.released + 1 <= s {
        DropFirstRel(tx, d);
        ReleaseRel(DropFirst(tx), d.(released := d.released + 1), s);
      }
    }
  }

  lemma WindowSize(tx: Tx, d: Dir)
    requires TxRel(tx, d)
    ensures TxOk(tx) && d.released <= |d.pkts| && |tx.inflight| == |d.pkts| - d.released
  {
  }

  lemma FirstAfter(d: Dir, s: nat)
    requires d.released < |d.pkts| && |d.pkts| - d.released < HALF && s <= |d.pkts| && |d.pkts| - s < HALF
    ensures IsBigger(Wrap(d.released + 1), Wrap(s)) <==> d.released + 1 > s
  {
    IsBiggerExact(d.released + 1, s);
  }

  lemma FirstNumber(tx: Tx, d: Dir)
    requires TxRel(tx, d) && tx.inflight != []
    ensures tx.inflight[0].num == Wrap(d.released + 1)
  {
    hide Wrap, Flat;
  }

  /** A fresh PACK never makes the sender release a packet its peer has not delivered. */
  lemma {:induction false} OnPackRel(tx: Tx, d: Dir, m: Msg, at: nat)
    requires TxRel(tx, d) && DirOk(d) && AckOk(m, at, d) && Fresh(at, d)
    ensures var tx' := Release(tx, m.ackPkt);
            var s := Unwrap(at, m.ackPkt);
            |tx'.inflight| <= |tx.inflight|
            && var e := Freed(d, tx, tx');
               DirOk(e) && Extends(d, e) && TxRel(tx', e)
               && e.released == (if s > d.released then s else d.released)
  {
    var s := Unwrap(at, m.ackPkt);
    WrapUnwrap(at, m.ackPkt);
    ReleaseRel(tx, d, s);
  }

  // ---------------------------------------------------------------- sending

  function Payloads(ps: seq<Pkt>): (r: seq<seq<byte>>)
    ensures |r| == |ps|
  {
    seq(|ps|, i requires 0 <= i < |ps| => ps[i].data)
  }

  function Cut(d: Dir, before: Tx, after: Tx): Dir
    requires |before.inflight| <= |after.inflight|
  {
    d.(pkts := d.pkts + Payloads(after.inflight[|before.inflight|..]))
  }

  lemma WrapAdd(a: nat, b: nat)
    ensures Wrap(Wrap(a) + b) == Wrap(a + b)
  {
  }

  lemma CutOneNumbers(tx: Tx, d: Dir)
    requires TxRel(tx, d) && tx.txq != []
    ensures var p := CutOne(tx).inflight[|tx.inflight|];
            var pkts := d.pkts + [p.data];
            && CutOne(tx).sendPkt == Wrap(|pkts|) && CutOne(tx).sendSeq == Wrap(|Flat(pkts)|)
            && d.queued == Flat(pkts) + CutOne(tx).txq
            && p == PktAt(pkts, |pkts|)
  {
    hide TxOk, TxWindow, Add32, Flat;
    var p := CutOne(tx).inflight[|tx.inflight|];
    var pkts := d.pkts + [p.data];
    FlatSnoc(d.pkts, p.data);
    AddWrap(|d.pkts|, 1);
    WrapAdd(|Flat(d.pkts)|, |p.data|);
    assert pkts[..|pkts|] == pkts;
    assert tx.txq == p.data + CutOne(tx).txq;
  }

  lemma WindowGrows(ps: seq<Pkt>, d: Dir, p: Pkt)
    requires TxWindow(ps, d)
    requires p == PktAt(d.pkts + [p.data], |d.pkts| + 1)
    ensures TxWindow(ps + [p], d.(pkts := d.pkts + [p.data]))
  {
    hide Wrap, Flat;
    var e := d.(pkts := d.pkts + [p.data]);
    forall i | 0 <= i < |ps|
      ensures (ps + [p])[i] == PktAt(e.pkts, d.released + 1 + i)
    {
      PktAtStable(d.pkts, e.pkts, d.released + 1 + i);
    }
  }

  lemma CutOneRel(tx: Tx, d: Dir)
    requires TxRel(tx, d) && DirOk(d) && tx.txq != [] && tx.inflightBytes < SEND_CACHE
    ensures var e := Cut(d, tx, CutOne(tx)); TxRel(CutOne(tx), e) && DirOk(e)
  {
    var t := CutOne(tx);
    var p := t.inflight[|tx.inflight|];
    CutOneKeeps(tx);
    CutOneNumbers(tx, d);
    WindowGrows(tx.inflight, d, p);
    hide TxOk, Wrap, Flat, TxWindow;
    assert t.inflight == tx.inflight + [p];
    assert t.inflight[|tx.inflight|..] == [p];
    assert Payloads([p]) == [p.data];
    assert Cut(d, tx, t) == d.(pkts := d.pkts + [p.data]);
  }

  lemma CutCompose(d: Dir, tx: Tx, t: Tx, r: Tx)
    requires |tx.inflight| <= |t.inflight| <= |r.inflight| && r.inflight[..|t.inflight|] == t.inflight
    ensures Cut(d, tx, r) == Cut(Cut(d, tx, t), t, r)
  {
    assert forall i :: 0 <= i < |t.inflight| ==> t.inflight[i] == r.inflight[..|t.inflight|][i] == r.inflight[i];
    assert Payloads(r.inflight[|tx.inflight|..]) ==
           Payloads(t.inflight[|tx.inflight|..]) + Payloads(r.inflight[|t.inflight|..]);
  }

  lemma {:induction false} PacketizeRel(tx: Tx, d: Dir, budget: nat)
    requires TxRel(tx, d) && DirOk(d)
    ensures var e := Cut(d, tx, Packetize(tx, budget));
            TxRel(Packetize(tx, budget), e) && DirOk(e) && Extends(d, e)
    decreases |tx.txq|
  {
    hide Wrap, Flat, TxOk, TxCounts, TxWindow;
    var r := Packetize(tx, budget);
    if budget == 0 || tx.txq == [] || tx.inflightBytes >= SEND_CACHE {
      assert Cut(d, tx, r) == d;
    } else {
      CutOneKeeps(tx);
      CutOneRel(tx, d);
      var t := CutOne(tx);
      PacketizeRel(t, Cut(d, tx, t), budget - 1);
      CutCompose(d, tx, t, r);
    }
  }

  /** The queue moves on whenever it may: a pump with room in the window cuts a packet. */
  lemma PacketizeProgress(tx: Tx, budget: nat)
    requires TxOk(tx) && budget > 0 && tx.txq != [] && tx.inflight == []
    ensures Packetize(tx, budget).inflight != []
  {
    CutOneKeeps(tx);
    var r := Packetize(CutOne(tx), budget - 1);
  }
}
