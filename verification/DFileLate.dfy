/**
 * A late retransmission between two honest ends: the sender repeats a block in the pump that first sends it,
 * the receiver announces that it is done before the repetition arrives, and the repetition closes the connection.
 */
module DFileLate {
  import opened Bytes
  import opened DFileCore
  import opened DFileLink
  import opened DFileSides
  import opened DFileNet
  import opened DFileTheorems
  import opened DFileComplete
  import DR = DFileResults

  /** The tick of a sender whose repetition timer has elapsed, as it has before anything was repeated. */
  const DUE := Env(false, false, false, true, false, SEND_BUDGET, true)

  /** One file of one block. */
  ghost predicate OneBlock(items: seq<Item>) {
    OfferOk(Offered(1, items)) && |items| == 1 && 1 <= |items[0].content| <= BLOCK
  }

  /** A sender of one block whose new blocks have been sent `sent` times and repeated not at all. */
  predicate Half(c: Conn, sent: nat) {
    && c.tx.Some? && c.tx.value.phase in {TxSending, TxWaitDone} && TxOk(c.tx.value) && |c.tx.value.files| == 1
    && var f := c.tx.value.files[0]; f.total == 1 && f.next == sent && f.retrans == if sent == 1 then [0] else []
  }

  lemma SendsOne(c: Conn, sent: nat)
    requires Half(c, sent) && sent <= 1 && Works(c)
    ensures Wants(c.tx.value.files[0], true)
    ensures var d := SendBlock(c, 0); var f := c.tx.value.files[0];
            && d == c.(tx := d.tx, out := d.out, tries := c.tries + 1)
            && |d.out| == |c.out| + 1 && d.out[..|c.out|] == c.out && d.out[|c.out|].Data?
            && d.tx.value == c.tx.value.(files := [Advance(f)])
            && Advance(f) == f.(next := 1, retrans := if sent == 0 then [0] else [])
  {
    hide DataFrame, TxFileOk;
    DR.FileOk(c.tx.value, 0);
    IsDataFrame(c.tx.value.trans, c.tx.value.files[0]);
    assert [] + [c.tx.value.files[0].next] == [c.tx.value.files[0].next];
  }

  /** The block and its repetition in one pump. */
  lemma PumpRepeats(c: Conn)
    requires Half(c, 0) && Room(c, 2)
    ensures Wants(c.tx.value.files[0], true) && TxOk(SendBlock(c, 0).tx.value) && Half(SendBlock(c, 0), 1)
    ensures Wants(SendBlock(c, 0).tx.value.files[0], true)
    ensures Pump(c, true, SEND_BUDGET, SEND_BUDGET) == SendBlock(SendBlock(c, 0), 0)
  {
    hide SendBlock, TxFileOk, Advance;
    SendsOne(c, 0);
    var d := SendBlock(c, 0);
    SendsOne(d, 1);
    var e := SendBlock(d, 0);
    assert Pick(c.tx.value.files, true) == 0 && Pick(d.tx.value.files, true) == 0;
    assert Pick(e.tx.value.files, false) == 1;
    assert Pump(e, false, SEND_BUDGET - 2, SEND_BUDGET - 2) == e;
  }

  lemma TickRepeats(c: Conn, o: Offered)
    requires SenderReady(c, o) && ConnOk(c) && Half(c, 0) && Room(c, 2)
    ensures var d := Tick(c, DUE);
            && SenderReady(d, o) && d == c.(tx := d.tx, out := d.out, tries := c.tries + 2)
            && |d.out| == |c.out| + 2 && d.out[..|c.out|] == c.out && AllData(d.out[|c.out|..])
            && d.tx.value.files[0].total == 1
  {
    hide SendBlock, TxFileOk, Advance, Pump, Finish;
    PumpRepeats(c);
    var d := SendBlock(c, 0);
    var e := SendBlock(d, 0);
    SendsOne(c, 0);
    SendsOne(d, 1);
    assert e.out[..|c.out|] == e.out[..|d.out|][..|c.out|];
    assert e.out[|c.out|] == e.out[..|d.out|][|c.out|];
    assert Timeouts(c, DUE) == c && TickRx(c, true) == c;
    assert TickTx(c, true, SEND_BUDGET) == AfterPump(e);
  }

  /** Reading its only block completes the transfer of a file. */
  lemma HearOnly(c: Conn, o: Offered, f: Frame)
    requires OfferOk(o) && |o.items| == 1 && Total(o, 0) == 1 && c.rx == Some(Waiting(o)) && ConnOk(c)
    requires ReceiverReady(c) && f.Data? && Welcome(c.rx.value, f)
    ensures var d := Handle(c, f, Disk(0, true));
            && ReceiverReady(d) && d == c.(rx := d.rx) && d.rx.Some? && Everything(o, d.rx.value.files)
            && d.rx.value.trans == o.trans
  {
    hide WriteBlock, RxFileOk, Reset;
    var e := EntryAt(o, 0);
    assert Entries(o) == [e];
    assert OpenFiles([e], 1) == [NewRxFile(e)];
    StaysReady(c, f);
    Written1(NewRxFile(e), f.payload);
  }

  lemma Written1(f: RxFile, payload: seq<byte>)
    requires RxFileOk(f) && f.expected == 0 && f.total == 1 && |payload| == BlockLen(f.size, 0)
    ensures var g := WriteBlock(f, payload); RxFileOk(g) && g.id == f.id && g.expected == g.total == 1 && g.complete
  {
  }

  /** Where the sender of one block starts. */
  lemma FreshHalf(p: Pair, o: Offered)
    requires Sending(p, o) && Fresh(p.a.conn) && |o.items| == 1 && Total(o, 0) == 1
    ensures Half(p.a.conn, 0) && ConnOk(p.a.conn)
  {
    TotalsOf(p, o);
    InvOk(p);
    hide Inv, Untouched;
    DR.FileOk(p.a.conn.tx.value, 0);
  }

  lemma DataAfterDone(c: Conn, f: Frame)
    requires ConnOk(c) && c.state == Ready && c.tx.None? && RxPhase(c.rx, RxWaitDoneAck) && f.Data?
    ensures var d := Handle(c, f, Disk(0, true));
            && d.state == Closing && d.closed == c.closed + 1 && d.rx == Some(c.rx.value.(phase := Failed))
            && d.rxResults == c.rxResults + [false]
  {
  }

  lemma TickKeepsResults(c: Conn, o: Offered)
    requires ConnOk(c) && ReceiverReady(c) && Room(c, 2) && 0 < |o.items| && Everything(o, c.rx.value.files)
    ensures Tick(c, QUIET).rxResults == c.rxResults && Tick(c, QUIET).closed == c.closed
  {
    DoneTick(c, o);
    hide AckList, RxFileOk, Total, Everything;
    assert Timeouts(c, QUIET) == c;
    var d := TickRx(c, true);
    assert TickTx(d, false, SEND_BUDGET) == d && TickRetry(d, false) == d;
  }

  /** Up to the moment when the repetition is next to be read by a receiver that has announced that it is done. */
  lemma {:induction false} Announced(items: seq<Item>) returns (na: nat, nb: nat, moves: seq<Move>, t: Pair)
    requires OneBlock(items)
    ensures var p := Start(false, Trues(na), true, Trues(nb)); IsRun(p, moves) && After(p, moves) == t && Inv(t)
    ensures t.a.offer == Some(Offered(1, items)) && IsPhase(t.a.conn.tx, TxDone) && t.a.conn.txResults == [true]
    ensures t.b.taken < |t.a.conn.out| && FrameFor(t).Data?
    ensures t.b.conn.state == Ready && t.b.conn.tx.None? && RxPhase(t.b.conn.rx, RxWaitDoneAck)
    ensures t.b.conn.rxResults == [] && t.b.conn.closed == 0
  {
    hide IsRun, After, Inv, HeaderFrames, Entries, NewTx, Trues, OfferOk, SenderReady, ReceiverReady, Rank, Waiting,
      Handle, Tick, Everything, AckFrames, Half, Total, Fresh, Sending;
    var o := Offered(1, items);
    OneTotal(items);
    na, nb := 4 + |HeaderFrames(1, |items|, Entries(o))|, 5;
    var start := Start(false, Trues(na), true, Trues(nb));
    var first, p := Begun(items, na, nb);
    SendingParts(p, o);
    FreshHalf(p, o);
    TruesRoom(p.a.conn, na, 3);
    LessRoom(p.a.conn, 3, 2);
    TickMove(p, true, DUE);
    TickRepeats(p.a.conn, o);
    var q := After(p, [Move(true, Timer(DUE))]);
    TwoData(p.a.conn.out, q.a.conn.out);
    InvOk(q);
    HeadWelcome(q);
    HearOnly(q.b.conn, o, FrameFor(q));
    ReadyOpen(q.b.conn);
    HearMove(q, Disk(0, true));
    var r := After(q, [Move(false, Receive(Disk(0, true)))]);
    TruesRoom(r.b.conn, nb, 2);
    InvOk(r);
    DoneTick(r.b.conn, o);
    TickKeepsResults(r.b.conn, o);
    TickMove(r, false, QUIET);
    var s := After(r, [Move(false, Timer(QUIET))]);
    var t0 := r.b.conn.rx.value;
    assert s.b.conn.out[s.a.taken..] == AckFrames(o.trans, t0.files) + [Done(o.trans, RxIds(t0.files))];
    TruesRoom(s.a.conn, na, 1);
    RankOne(o);
    TotalKept(s.a.conn, o);
    var read := ReadDone(s, o, t0.files, RxIds(t0.files));
    t := After(s, read);
    RunAppend(start, first, [Move(true, Timer(DUE))]);
    RunAppend(start, first + [Move(true, Timer(DUE))], [Move(false, Receive(Disk(0, true)))]);
    RunAppend(start, first + [Move(true, Timer(DUE))] + [Move(false, Receive(Disk(0, true)))],
      [Move(false, Timer(QUIET))]);
    moves := first + [Move(true, Timer(DUE))] + [Move(false, Receive(Disk(0, true)))] + [Move(false, Timer(QUIET))];
    RunAppend(start, moves, read);
    moves := moves + read;
  }

  lemma OneTotal(items: seq<Item>)
    requires OneBlock(items)
    ensures OfferOk(Offered(1, items)) && Total(Offered(1, items), 0) == 1 && |items| == 1
  {
  }

  lemma SendingParts(p: Pair, o: Offered)
    requires Sending(p, o)
    ensures Inv(p) && SenderReady(p.a.conn, o) && ReceiverReady(p.b.conn) && p.a.offer == Some(o)
    ensures p.a.taken == |p.b.conn.out| && p.b.taken == |p.a.conn.out|
  {
    hide Inv;
  }

  lemma TwoData(before: seq<Frame>, after: seq<Frame>)
    requires |after| == |before| + 2 && after[..|before|] == before && AllData(after[|before|..])
    ensures after[|before|].Data? && after[|before| + 1].Data?
  {
    assert after[|before|..][0].Data? && after[|before|..][1].Data?;
  }

  lemma RankOne(o: Offered)
    requires |o.items| == 1
    ensures Rank(o, |o.items|) <= 1
  {
    RankZero(o);
    RankNext(o, 0);
  }

  lemma TotalKept(c: Conn, o: Offered)
    requires SenderReady(c, o) && |o.items| == 1
    ensures c.tx.Some? && |c.tx.value.files| == 1
  {
  }

  /**
   * For every file of one block there is a run of two honest ends, on links that never fail, in which the
   * repetition is read outside RX_WAIT_DATA: the sender has reported success, the receiver holds the whole
   * file, and the connection closes with the receiver reporting failure.
   */
  lemma {:induction false} LateRepetitionCloses(items: seq<Item>)
    returns (na: nat, nb: nat, moves: seq<Move>, last: Move)
    requires OneBlock(items)
    ensures IsRun(Start(false, Trues(na), true, Trues(nb)), moves + [last])
    ensures IsRun(Start(false, Trues(na), true, Trues(nb)), moves)
    ensures var p := After(Start(false, Trues(na), true, Trues(nb)), moves);
            && last == Move(false, Receive(Disk(0, true))) && p.b.taken < |p.a.conn.out| && FrameFor(p).Data?
            && p.b.conn.state == Ready && RxPhase(p.b.conn.rx, RxWaitDoneAck)
    ensures var t := After(Start(false, Trues(na), true, Trues(nb)), moves + [last]);
            && IsPhase(t.a.conn.tx, TxDone) && t.a.conn.txResults == [true]
            && t.b.conn.state == Closing && RxPhase(t.b.conn.rx, Failed) && t.b.conn.rxResults == [false]
            && |t.b.conn.rx.value.files| == 1 && t.b.conn.rx.value.files[0].disk == items[0].content
  {
    hide IsRun, After, Inv, Trues, OfferOk, Handle;
    var p: Pair;
    na, nb, moves, p := Announced(items);
    last := Move(false, Receive(Disk(0, true)));
    InvOk(p);
    HearMove(p, Disk(0, true));
    DataAfterDone(p.b.conn, FrameFor(p));
    RunAppend(Start(false, Trues(na), true, Trues(nb)), moves, [last]);
    var t := After(p, [last]);
    OnDisk(t);
  }

  lemma OnDisk(p: Pair)
    requires Inv(p) && IsPhase(p.a.conn.tx, TxDone) && p.b.conn.rx.Some?
    ensures p.a.offer.Some?
    ensures var o := p.a.offer.value; var files := p.b.conn.rx.value.files;
            |files| == |o.items| && forall i | 0 <= i < |files| :: files[i].disk == o.items[i].content
  {
    hide Inv2;
    LineTruthful(p.a, p.b);
  }
}
