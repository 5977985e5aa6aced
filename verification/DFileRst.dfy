/**
 * The RST frame: what it says about the end that sent it, and what it does to the end that reads it. When the
 * two ends number their transfers differently, an RST that is read makes both ends of a transfer report its
 * failure; when both send a transfer under one number, the reader may fail the wrong one.
 */
module DFileRst {
  import opened Bytes
  import opened DFileCore
  import opened DFileLink
  import opened DFileSides
  import opened DFileNet
  import opened DFileTheorems
  import DR = DFileResults

  predicate Unfinished(phase: Phase) {
    !Terminal(phase)
  }

  predicate SendsAs(c: Conn, trans: u16) {
    c.tx.Some? && c.tx.value.trans == trans
  }

  predicate ReceivesAs(c: Conn, trans: u16) {
    c.rx.Some? && c.rx.value.trans == trans
  }

  /**
   * Reading an RST on an open connection. It names the send transfer of that number if there is one, else the
   * receive transfer; what it names fails, with one result, unless it is finished; nothing else changes and
   * nothing is sent. In particular a receive transfer is out of its reach while a send transfer, finished or
   * not, has its number.
   */
  lemma {:induction false} RstFails(c: Conn, trans: u16, code: u16, disk: Disk)
    requires ConnOk(c) && c.state != Closing
    ensures var d := Handle(c, Rst(trans, code), disk);
            && (SendsAs(c, trans) && Unfinished(c.tx.value.phase) ==>
                  d == c.(tx := Some(c.tx.value.(phase := Failed)), txResults := c.txResults + [false]))
            && (ReceivesAs(c, trans) && Unfinished(c.rx.value.phase) ==>
                  (d == c.(rx := Some(c.rx.value.(phase := Failed)), rxResults := c.rxResults + [false])
                   <==> !SendsAs(c, trans)))
            && (d == c <==> !(SendsAs(c, trans) && Unfinished(c.tx.value.phase))
                            && !(ReceivesAs(c, trans) && Unfinished(c.rx.value.phase) && !SendsAs(c, trans)))
  {
    hide TxFilesOk, RxFilesOk;
    assert c.txResults + [false] != c.txResults && c.rxResults + [false] != c.rxResults;
  }

  // ---------------------------------------------------------------- what an RST says about its sender

  /**
   * A transfer of this number has failed at this end; or a receive transfer of this number is finished and
   * the connection closed.
   */
  predicate FailedFor(c: Conn, trans: u16) {
    || (SendsAs(c, trans) && c.tx.value.phase == Failed)
    || (ReceivesAs(c, trans) && (c.rx.value.phase == Failed || (c.rx.value.phase == RxDone && c.state == Closing)))
  }

  predicate Justified(c: Conn, f: Frame) {
    && (f.Setting? ==> f.mtu != 0)
    && (f.Rst? ==> FailedFor(c, f.trans))
  }

  /** Everything this end has said is true of it. */
  ghost predicate RstTrue(c: Conn) {
    forall i | 0 <= i < |c.out| :: Justified(c, c.out[i])
  }

  /** From `c` to `d` nothing new is said that is not true of `d`, and what was true stays true. */
  ghost predicate Says(c: Conn, d: Conn) {
    && c.out <= d.out
    && (forall i | |c.out| <= i < |d.out| :: Justified(d, d.out[i]))
    && (forall trans: u16 :: FailedFor(c, trans) ==> FailedFor(d, trans))
  }

  lemma SaysTrans(c: Conn, d: Conn, e: Conn)
    requires Says(c, d) && Says(d, e)
    ensures Says(c, e)
  {
    forall i | |c.out| <= i < |e.out|
      ensures Justified(e, e.out[i])
    {
      if i < |d.out| {
        assert d.out[i] == e.out[i] && Justified(d, d.out[i]);
      }
    }
  }

  lemma SaysSelf(c: Conn)
    ensures Says(c, c)
  {
  }

  lemma SaysKeeps(c: Conn, d: Conn)
    requires RstTrue(c) && Says(c, d)
    ensures RstTrue(d)
  {
    forall i | 0 <= i < |d.out|
      ensures Justified(d, d.out[i])
    {
      if i < |c.out| {
        assert c.out[i] == d.out[i] && Justified(c, c.out[i]);
      }
    }
  }

  /** Sending a frame that is neither. */
  lemma SaysFrame(c: Conn, f: Frame)
    requires !f.Rst? && !f.Setting?
    ensures Says(c, TrySend(c, f))
  {
  }

  lemma {:induction false} SaysFrames(c: Conn, frames: seq<Frame>)
    requires forall i | 0 <= i < |frames| :: !frames[i].Rst? && !frames[i].Setting?
    ensures Says(c, SendAll(c, frames).conn)
    decreases |frames|
  {
    hide Says;
    if frames == [] {
      SaysSelf(c);
    } else {
      SaysFrame(c, frames[0]);
      if Works(c) {
        SaysFrames(TrySend(c, frames[0]), frames[1..]);
        SaysTrans(c, TrySend(c, frames[0]), SendAll(c, frames).conn);
      }
    }
  }

  /** A change of books that undoes no failure. */
  lemma SaysBooks(c: Conn, d: Conn)
    requires d.out == c.out && (c.state == Closing ==> d.state == Closing)
    requires c.tx.Some? && c.tx.value.phase == Failed ==> d.tx.Some? && d.tx.value.phase == Failed
                                                          && d.tx.value.trans == c.tx.value.trans
    requires c.rx.Some? && Terminal(c.rx.value.phase) ==> d.rx.Some? && d.rx.value.phase == c.rx.value.phase
                                                          && d.rx.value.trans == c.rx.value.trans
    ensures Says(c, d)
  {
  }

  lemma FailTxSays(c: Conn, rst: bool)
    ensures Says(c, FailTx(c, rst)) && FailTx(c, rst).rx == c.rx && FailTx(c, rst).state == c.state
  {
  }

  lemma FailRxSays(c: Conn, rst: bool)
    ensures Says(c, FailRx(c, rst)) && FailRx(c, rst).tx == c.tx && FailRx(c, rst).state == c.state
  {
  }

  lemma ShutdownSays(c: Conn)
    ensures Says(c, Shutdown(c))
  {
    hide FailTx, FailRx, Says;
    if c.state != Closing {
      var d := c.(state := Closing);
      SaysBooks(c, d);
      FailTxSays(d, false);
      FailRxSays(FailTx(d, false), false);
      SaysTrans(c, d, FailTx(d, false));
      SaysTrans(c, FailTx(d, false), FailRx(FailTx(d, false), false));
      SaysBooks(FailRx(FailTx(d, false), false), Shutdown(c));
      SaysTrans(c, FailRx(FailTx(d, false), false), Shutdown(c));
    }
    SaysSelf(c);
  }

  /** Closing with an RST that names the receive transfer. */
  lemma ResetSays(c: Conn, code: u16)
    requires c.rx.Some? && c.state != Closing && c.rx.value.phase in {Idle, RxWaitData, RxWaitDoneAck, RxDone, Failed}
    ensures Says(c, Reset(c, c.rx.value.trans, code))
  {
    var trans := c.rx.value.trans;
    var e := TrySend(c, Rst(trans, code));
    var d := Shutdown(e);
    ShutdownSays(e);
    assert ReceivesAs(d, trans) && Terminal(d.rx.value.phase) && d.state == Closing;
    assert forall i | |c.out| <= i < |e.out| :: e.out[i] == Rst(trans, code) == d.out[i];
    hide Shutdown;
    forall i | |c.out| <= i < |d.out|
      ensures Justified(d, d.out[i])
    {
      assert i < |e.out| || Justified(d, d.out[i]);
    }
  }

  // ---------------------------------------------------------------- sender

  lemma FinishSays(c: Conn)
    requires c.tx.Some?
    ensures Says(c, MaybeFinish(c))
  {
    hide Says, AllAcked;
    SaysSelf(c);
    if c.tx.value.doneReceived && AllAcked(c.tx.value) {
      var t := c.tx.value;
      if !(t.doneAckSent || t.phase == TxDone || t.phase == Failed) {
        var f := DoneAck(t.trans, Ids(t.files));
        SaysFrame(c, f);
        var d := TrySend(c, f);
        FailTxSays(d, false);
        SaysTrans(c, d, FailTx(d, false));
        SaysBooks(d, d.(tx := Some(t.(doneAckSent := true, phase := TxDone)), txResults := d.txResults + [true]));
        SaysTrans(c, d, d.(tx := Some(t.(doneAckSent := true, phase := TxDone)), txResults := d.txResults + [true]));
      }
    }
  }

  lemma AfterPumpSays(c: Conn)
    requires c.tx.Some?
    ensures Says(c, AfterPump(c))
  {
    hide Says, MaybeFinish, AllSent;
    var t := c.tx.value;
    var d := c.(tx := Some(if t.phase == TxSending && AllSent(t) then t.(phase := TxWaitDone) else t));
    SaysBooks(c, d);
    FinishSays(d);
    SaysTrans(c, d, MaybeFinish(d));
  }

  lemma SendBlockSays(c: Conn, i: nat)
    requires c.tx.Some? && TxOk(c.tx.value) && i < |c.tx.value.files| && Wants(c.tx.value.files[i], true)
    ensures Says(c, SendBlock(c, i)) && SendBlock(c, i).tx.value.phase == c.tx.value.phase
  {
    hide Says, TxFileOk, Advance;
    AdvanceKeeps(c.tx.value.files[i]);
    var f := DataFrame(c.tx.value.trans, c.tx.value.files[i]);
    SaysFrame(c, f);
    SaysBooks(TrySend(c, f), SendBlock(c, i));
    SaysTrans(c, TrySend(c, f), SendBlock(c, i));
  }

  lemma {:induction false} PumpSays(c: Conn, due: bool, budget: nat, readable: nat)
    requires c.tx.Some? && TxOk(c.tx.value)
    ensures Says(c, Pump(c, due, budget, readable))
    decreases budget
  {
    hide Says, TxFilesOk, DataFrame, Wants, SendBlock, FailTx;
    var t := c.tx.value;
    var i := Pick(t.files, due);
    SaysSelf(c);
    if budget != 0 && i != |t.files| {
      DR.WantsDue(t.files[i], due);
      DR.FileOk(t, i);
      FailTxSays(c, true);
      var f := DataFrame(t.trans, t.files[i]);
      IsDataFrame(t.trans, t.files[i]);
      SaysFrame(c, f);
      FailTxSays(TrySend(c, f), false);
      SaysTrans(c, TrySend(c, f), FailTx(TrySend(c, f), false));
      if readable > 0 && Works(c) {
        SendBlockSays(c, i);
        PumpSays(SendBlock(c, i), due && t.files[i].next < t.files[i].total, budget - 1, readable - 1);
        SaysTrans(c, SendBlock(c, i), Pump(c, due, budget, readable));
      }
    }
  }

  lemma HeadersSay(c: Conn, trans: u16, node: u16, es: seq<Entry>)
    ensures Says(c, SendAll(c, HeaderFrames(trans, node, es)).conn)
  {
    hide Says, HeaderFrames, SendAll;
    DR.HeaderFramesKind(trans, node, es);
    SaysFrames(c, HeaderFrames(trans, node, es));
  }

  lemma OfferSays(c: Conn, items: seq<Item>, canOpen: bool)
    ensures Says(c, SendFiles(c, items, canOpen).conn)
  {
    hide Says, HeaderFrames, SendAll, NewTx, EntriesOf;
    SaysSelf(c);
    var d := c.(nextTrans := Next16(c.nextTrans));
    SaysBooks(c, d);
    if c.state == Ready && c.tx.None? && 0 < |items| <= MAX_FILES && canOpen
        && forall it | it in items :: |it.content| <= MAX_SIZE {
      DR.NewTxShape(c.nextTrans, items);
      var t := NewTx(c.nextTrans, items);
      HeadersSay(d, t.trans, |items|, EntriesOf(t.files));
      var e := SendAll(d, HeaderFrames(t.trans, |items|, EntriesOf(t.files))).conn;
      SaysTrans(c, d, e);
      var j := SendAllSends(d, HeaderFrames(t.trans, |items|, EntriesOf(t.files)));
      SaysBooks(e, e.(tx := Some(t)));
      SaysTrans(c, e, e.(tx := Some(t)));
    }
  }

  lemma RetrySays(c: Conn, due: bool)
    requires c.tx.Some? ==> TxOk(c.tx.value)
    ensures Says(c, TickRetry(c, due))
  {
    hide Says, HeaderFrames, SendAll, EntriesOf, FailTx, TxFilesOk;
    SaysSelf(c);
    if c.tx.Some? && c.tx.value.phase == TxWaitConfirm && due {
      var t := c.tx.value.(retries := c.tx.value.retries + 1);
      var d := c.(tx := Some(t));
      SaysBooks(c, d);
      FailTxSays(d, true);
      SaysTrans(c, d, FailTx(d, true));
      DR.EntriesNamed(c.tx.value);
      HeadersSay(d, t.trans, |t.files|, EntriesOf(t.files));
      var e := SendAll(d, HeaderFrames(t.trans, |t.files|, EntriesOf(t.files))).conn;
      SaysTrans(c, d, e);
      FailTxSays(e, false);
      SaysTrans(c, e, FailTx(e, false));
    }
  }

  lemma TickTxSays(c: Conn, due: bool, readable: nat)
    requires c.tx.Some? ==> TxOk(c.tx.value)
    ensures Says(c, TickTx(c, due, readable))
  {
    hide Says, Pump, AfterPump, TxFilesOk;
    SaysSelf(c);
    if c.tx.Some? && c.tx.value.phase in {TxSending, TxWaitDone} {
      PumpSays(c, due, SEND_BUDGET, readable);
      var d := Pump(c, due, SEND_BUDGET, readable);
      AfterPumpSays(d);
      SaysTrans(c, d, AfterPump(d));
    }
  }

  // ---------------------------------------------------------------- receiver

  lemma FlushAckSays(c: Conn)
    requires c.rx.Some? && RxOk(c.rx.value)
    ensures Says(c, FlushAck(c))
  {
    hide Says, RxFilesOk, AckList, FailRx;
    var t := c.rx.value.(ackPending := false);
    var d := c.(rx := Some(t));
    SaysBooks(c, d);
    var f := Ack(t.trans, AckList(t.files, MAX_ACKS));
    SaysFrame(d, f);
    SaysTrans(c, d, TrySend(d, f));
    FailRxSays(TrySend(d, f), false);
    SaysTrans(c, TrySend(d, f), FailRx(TrySend(d, f), false));
  }

  /** Giving up a transfer with an RST that names it. */
  lemma GiveUpSays(c: Conn, code: u16)
    requires c.rx.Some? && (c.rx.value.phase in {Idle, RxWaitData, RxWaitDoneAck} || c.rx.value.phase == Failed)
    ensures Says(c, FailRx(TrySend(c, Rst(c.rx.value.trans, code)), false))
  {
  }

  lemma SendDoneSays(c: Conn, shaOk: bool)
    requires c.rx.Some? && (c.rx.value.phase == RxWaitData || (c.rx.value.phase == Failed && !Works(c)))
    ensures Says(c, SendDone(c, shaOk))
  {
    hide Says, FailRx;
    SaysSelf(c);
    var t := c.rx.value;
    GiveUpSays(c, RST_INTERNAL);
    var f := Done(t.trans, RxIds(t.files));
    SaysFrame(c, f);
    var d := TrySend(c, f);
    FailRxSays(d, false);
    SaysTrans(c, d, FailRx(d, false));
    if Works(c) {
      SaysBooks(d, d.(rx := Some(t.(doneSent := true, phase := RxWaitDoneAck))));
      SaysTrans(c, d, d.(rx := Some(t.(doneSent := true, phase := RxWaitDoneAck))));
    }
  }

  lemma TickRxSays(c: Conn, shaOk: bool)
    requires DR.Sound(c) && DR.Sticky(c.link) && c.state != Closing
    ensures ConnOk(c) && Says(c, TickRx(c, shaOk))
  {
    hide Says, DR.Sound, FlushAck, SendDone, AllComplete;
    DR.SoundRx(c);
    SaysSelf(c);
    if RxPhase(c.rx, RxWaitData) {
      FlushAckSays(c);
      DR.FlushAckGood(c);
      var d := if c.rx.value.ackPending then FlushAck(c) else c;
      if !Works(c) {
        StuckStays(c, d);
      }
      if d.rx.value.files != [] && AllComplete(d.rx.value.files) {
        SendDoneSays(d, shaOk);
        SaysTrans(c, d, SendDone(d, shaOk));
      }
    }
  }

  lemma HeaderCompleteSays(c: Conn, opens: nat)
    requires c.rx.Some?
    ensures Says(c, HeaderComplete(c, opens))
  {
    hide Says, OpenFiles, SendAll, FailRx;
    SaysSelf(c);
    var t := c.rx.value;
    if t.phase == Idle {
      FailRxSays(c, false);
      var files := OpenFiles(t.hdr, opens);
      var d := c.(rx := Some(t.(files := files)));
      SaysBooks(c, d);
      GiveUpSays(d, RST_NO_STORAGE);
      SaysTrans(c, d, FailRx(TrySend(d, Rst(t.trans, RST_NO_STORAGE)), false));
      FailRxSays(d, false);
      SaysTrans(c, d, FailRx(d, false));
      if |t.hdr| <= MAX_FILES {
        var frames := [Confirm(t.trans, EntryIds(t.hdr)), Request(t.trans, EntryIds(t.hdr))];
        SaysFrames(d, frames);
        var e := SendAll(d, frames).conn;
        var j := SendAllSends(d, frames);
        SaysTrans(c, d, e);
        FailRxSays(e, false);
        SaysTrans(c, e, FailRx(e, false));
        SaysBooks(e, e.(rx := Some(t.(files := files, phase := RxWaitData))));
        SaysTrans(c, e, e.(rx := Some(t.(files := files, phase := RxWaitData))));
      }
    }
  }

  lemma OnHeaderSays(c: Conn, trans: u16, node: u16, es: seq<Entry>, opens: nat)
    ensures Says(c, OnHeader(c, trans, node, es, opens))
  {
    hide Says, Accumulate, HeaderComplete, Shutdown;
    SaysSelf(c);
    ShutdownSays(c);
    if !(RxPhase(c.rx, Failed) || RxPhase(c.rx, RxDone)) && node != 0 {
      var t := RxOr(c.rx, trans, node);
      var d := c.(rx := Some(t.(hdr := Accumulate(t.hdr, es, node).0)));
      SaysBooks(c, d);
      ShutdownSays(d);
      SaysTrans(c, d, Shutdown(d));
      HeaderCompleteSays(d, opens);
      SaysTrans(c, d, HeaderComplete(d, opens));
    }
  }

  // ---------------------------------------------------------------- every event

  /** A data frame is read by an end that has a receive transfer of its number. */
  predicate Expected(c: Conn, f: Frame) {
    && (f.Data? ==> ReceivesAs(c, f.trans))
    && (f.Setting? ==> f.mtu != 0)
  }

  lemma OnDataSays(c: Conn, trans: u16, id: u16, num: u32, payload: seq<byte>, writes: bool)
    requires ConnOk(c) && c.state != Closing && ReceivesAs(c, trans)
    ensures Says(c, OnData(c, trans, id, num, payload, writes))
  {
    hide Says, Reset, WriteBlock, TxFilesOk;
    SaysSelf(c);
    ResetSays(c, RST_INTERNAL);
    ResetSays(c, RST_WRITE_ERROR);
    if RxPhase(c.rx, RxWaitData) {
      var t := c.rx.value;
      var i := FindRx(t.files, id);
      if i < |t.files| && num == t.files[i].expected < t.files[i].total {
        BlockInside(t.files[i].size, num);
        if |payload| == BlockLen(t.files[i].size, num) {
          SaysBooks(c, c.(rx := Some(t.(files := t.files[i := WriteBlock(t.files[i], payload)], ackPending := true))));
        }
      }
    }
  }

  lemma OnAnswerSays(c: Conn, f: Frame)
    requires ConnOk(c) && c.state != Closing && (Backward(f) || f.DoneAck?)
    ensures Says(c, Handle(c, f, Disk(0, false)))
  {
    hide Says, Shutdown, ConfirmIds, AckEach, MaybeFinish, TxFilesOk, RxFilesOk;
    SaysSelf(c);
    ShutdownSays(c);
    match f
    case Confirm(trans, ids) =>
      if IsPhase(c.tx, TxWaitConfirm) {
        SaysBooks(c, OnConfirm(c, c.tx.value.trans, ids));
      }
    case Request(trans, _) =>
      if IsPhase(c.tx, TxWaitConfirm) {
        SaysBooks(c, OnRequest(c, c.tx.value.trans));
      }
    case Ack(trans, acks) =>
      if c.tx.Some? {
        var d := c.(tx := Some(c.tx.value.(files := AckEach(c.tx.value.files, acks))));
        SaysBooks(c, d);
        FinishSays(d);
        SaysTrans(c, d, MaybeFinish(d));
      }
    case Done(trans, _) =>
      if c.tx.Some? && c.tx.value.phase != Failed {
        var t := c.tx.value;
        var phase := if t.phase == TxSending then TxWaitDone else t.phase;
        var d := c.(tx := Some(t.(doneReceived := true, phase := phase)));
        SaysBooks(c, d);
        FinishSays(d);
        SaysTrans(c, d, MaybeFinish(d));
      }
    case DoneAck(trans, _) =>
      if RxPhase(c.rx, RxWaitDoneAck) {
        SaysBooks(c, OnDoneAck(c, c.rx.value.trans));
      }
  }

  lemma HandleSays(c: Conn, f: Frame, disk: Disk)
    requires ConnOk(c) && c.state != Closing && Expected(c, f)
    ensures Says(c, Handle(c, f, disk))
  {
    hide Says, OnHeader, OnData, OnConfirm, OnRequest, OnAck, OnDone, OnDoneAck, Shutdown, FailTx, FailRx, Looks,
      TxFilesOk, RxFilesOk;
    SaysSelf(c);
    ShutdownSays(c);
    FailTxSays(c, false);
    FailRxSays(c, false);
    SaysBooks(c, c.(state := Ready));
    match f
    case FileHeader(trans, node, es) => OnHeaderSays(c, trans, node, es, disk.opens);
    case Data(trans, _, id, num, payload) => OnDataSays(c, trans, id, num, payload, disk.writes);
    case Confirm(_, _) => OnAnswerSays(c, f);
    case Request(_, _) => OnAnswerSays(c, f);
    case Ack(_, _) => OnAnswerSays(c, f);
    case Done(_, _) => OnAnswerSays(c, f);
    case DoneAck(_, _) => OnAnswerSays(c, f);
    case _ =>
  }

  lemma TickSays(c: Conn, env: Env)
    requires DR.Sound(c) && DR.Sticky(c.link)
    ensures ConnOk(c) && Says(c, Tick(c, env))
  {
    hide Says, DR.Sound, DR.Onward, Shutdown, TickRx, TickTx, TickRetry, Timeouts, ConnOk;
    DR.SoundRx(c);
    SaysSelf(c);
    if c.state != Closing {
      ShutdownSays(c);
      TimeoutsSay(c, env);
      DR.TimeoutsGood(c, env);
      var c1 := Timeouts(c, env);
      DR.SoundRx(c1);
      TickRxSays(c1, env.shaOk);
      DR.TickRxGood(c1, env.shaOk);
      var d := TickRx(c1, env.shaOk);
      SaysTrans(c, c1, d);
      DR.SoundRx(d);
      TickTxSays(d, env.retranDue, env.readable);
      DR.TickTxGood(d, env.retranDue, env.readable);
      var e := TickTx(d, env.retranDue, env.readable);
      SaysTrans(c, d, e);
      RetrySays(e, env.retryDue);
      SaysTrans(c, e, TickRetry(e, env.retryDue));
    }
  }

  lemma TimeoutsSay(c: Conn, env: Env)
    requires ConnOk(c)
    ensures Says(c, Timeouts(c, env))
  {
    hide Says, FailTx, FailRx, ConnOk;
    SaysSelf(c);
    FailTxSays(c, true);
    var d := if env.txTimeout then FailTx(c, true) else c;
    FailRxSays(d, true);
    SaysTrans(c, d, FailRx(d, true));
  }

  // ---------------------------------------------------------------- every run

  /** What an honest peer sent is expected by the end that reads it. */
  lemma PeerExpected(me: End, you: End)
    requires Inv2(me, you) && RstTrue(you.conn) && me.taken < |you.conn.out|
    ensures Expected(me.conn, you.conn.out[me.taken])
  {
    hide AgreeAt, DR.Sound, Stuck, FailedFor;
    var f := you.conn.out[me.taken];
    assert Justified(you.conn, f);
    if f.Data? {
      var w := Line(you, me);
      assert w.fwd[0] == f;
      SomeOffer(w);
      var e: nat, m: nat :| AgreeAt(w, e, m);
      DataFor(w, e, m);
    }
  }

  lemma DataFor(w: Wire, e: nat, m: nat)
    requires w.o.Some? && OfferOk(w.o.value) && AgreeAt(w, e, m) && w.fwd != [] && w.fwd[0].Data?
    ensures w.rx.Some? && w.rx.value.trans == w.fwd[0].trans
  {
    hide Flow, Cross, Back, TxPart, DataOk, RxFilesFor;
    assert FwdOk(w.o.value, IsPhase(w.tx, TxDone), Opened(w.o.value, FilesOf(w.rx)), w.fwd[0]);
  }

  lemma ActSays(act: Action, me: End, you: End)
    requires Inv2(me, you) && Enabled(act, me, you) && RstTrue(you.conn)
    ensures ConnOk(me.conn) && Says(me.conn, Act(act, me, you).conn)
  {
    hide Says, RstTrue, Agree, Handle, Tick, Shutdown, SendFiles, DR.Sound, Stuck;
    DR.SoundRx(me.conn);
    ShutdownSays(me.conn);
    match act
    case Offer(items, canOpen) => OfferSays(me.conn, items, canOpen);
    case Receive(disk) =>
      PeerExpected(me, you);
      HandleSays(me.conn, you.conn.out[me.taken], disk);
    case Timer(env) => TickSays(me.conn, env);
    case _ =>
  }

  ghost predicate BothTrue(p: Pair) {
    RstTrue(p.a.conn) && RstTrue(p.b.conn)
  }

  lemma {:induction false} RunTrue(p: Pair, moves: seq<Move>)
    requires Inv(p) && BothTrue(p) && IsRun(p, moves)
    ensures BothTrue(After(p, moves))
    decreases |moves|
  {
    hide Inv2, Act, RstTrue, Enabled;
    if moves != [] {
      var m := moves[0];
      MoveKeeps(p, m);
      if m.byA {
        ActSays(m.act, p.a, p.b);
        SaysKeeps(p.a.conn, Act(m.act, p.a, p.b).conn);
      } else {
        InvSwap(p.a, p.b);
        ActSays(m.act, p.b, p.a);
        SaysKeeps(p.b.conn, Act(m.act, p.b, p.a).conn);
      }
      RunTrue(Next(p, m), moves[1..]);
    }
  }

  lemma StartTrue(dirA: bool, linkA: seq<bool>, dirB: bool, linkB: seq<bool>)
    ensures BothTrue(Start(dirA, linkA, dirB, linkB))
  {
    OpenTrue(dirA, linkA);
    OpenTrue(dirB, linkB);
    hide RstTrue;
  }

  lemma OpenTrue(dir: bool, link: seq<bool>)
    ensures RstTrue(DR.Open(dir, link))
  {
  }

  // ---------------------------------------------------------------- both ends of one transfer

  /** Both ends offer a transfer, and under one number. */
  predicate SameNumber(p: End, q: End) {
    p.offer.Some? && q.offer.Some? && p.offer.value.trans == q.offer.value.trans
  }

  /**
   * `me` reads an RST of `you`. If it names a transfer from `me` that is unfinished, `me` reports its failure,
   * and `you`, receiving it, has; if it names one from `you` that `me` is still receiving, `me` reports its
   * failure, and `you`, sending it, has.
   */
  ghost predicate FailsBoth(me: End, you: End, disk: Disk)
    requires ConnOk(me.conn) && me.taken < |you.conn.out| && you.conn.out[me.taken].Rst?
  {
    var trans := you.conn.out[me.taken].trans;
    var d := Handle(me.conn, you.conn.out[me.taken], disk);
    && (SendsAs(me.conn, trans) && Unfinished(me.conn.tx.value.phase) ==>
          && IsPhase(d.tx, Failed) && d.txResults == [false] && d.rx == me.conn.rx && d.rxResults == me.conn.rxResults
          && ReceivesAs(you.conn, trans) && you.conn.rx.value.phase == Failed && false in you.conn.rxResults)
    && (ReceivesAs(me.conn, trans) && Unfinished(me.conn.rx.value.phase) ==>
          && RxPhase(d.rx, Failed) && d.rxResults == me.conn.rxResults + [false]
          && d.tx == me.conn.tx && d.txResults == me.conn.txResults
          && SendsAs(you.conn, trans) && you.conn.tx.value.phase == Failed && you.conn.txResults == [false])
  }

  /** The numbers on one line are those of the offer. */
  lemma LineNumbers(s: End, r: End)
    requires Inv2(s, r) || Inv2(r, s)
    ensures s.conn.tx.Some? ==> s.offer.Some? && s.conn.tx.value.trans == s.offer.value.trans
    ensures r.conn.rx.Some? ==> s.offer.Some? && r.conn.rx.value.trans == s.offer.value.trans
    ensures RxPhase(r.conn.rx, RxDone) ==> IsPhase(s.conn.tx, TxDone)
  {
    hide DR.Sound, Stuck, TxFilesFor, RxFilesFor, Fwd, Back, Flow;
    var w := Line(s, r);
    if w.o.Some? {
      var e: nat, m: nat :| AgreeAt(w, e, m);
    }
  }

  lemma ToldSo(c: Conn)
    requires DR.Sound(c)
    ensures IsPhase(c.tx, Failed) ==> c.txResults == [false]
    ensures c.tx.Some? && Unfinished(c.tx.value.phase) ==> c.txResults == []
    ensures RxPhase(c.rx, Failed) ==> false in c.rxResults
  {
    hide ConnOk, DR.Twice, DR.Encodable;
  }

  lemma ReadFailsBoth(me: End, you: End, disk: Disk)
    requires Inv2(me, you) && Enabled(Receive(disk), me, you) && RstTrue(you.conn) && you.conn.out[me.taken].Rst?
    requires !SameNumber(me, you)
    ensures ConnOk(me.conn) && FailsBoth(me, you, disk)
  {
    hide Agree, DR.Sound, Stuck, Handle, ConnOk;
    DR.SoundRx(me.conn);
    var f := you.conn.out[me.taken];
    assert Justified(you.conn, f);
    LineNumbers(me, you);
    LineNumbers(you, me);
    RstFails(me.conn, f.trans, f.code, disk);
    ToldSo(me.conn);
    ToldSo(you.conn);
  }

  /**
   * In every run in which the two ends do not number their transfers alike: whichever end reads an RST, both
   * ends of the unfinished transfer it names have reported its failure.
   */
  lemma {:induction false} RstFailsBoth(dirA: bool, linkA: seq<bool>, dirB: bool, linkB: seq<bool>, moves: seq<Move>,
                                        disk: Disk)
    requires DR.Sticky(linkA) && DR.Sticky(linkB) && IsRun(Start(dirA, linkA, dirB, linkB), moves)
    requires var p := After(Start(dirA, linkA, dirB, linkB), moves); !SameNumber(p.a, p.b)
    ensures var p := After(Start(dirA, linkA, dirB, linkB), moves);
            && ConnOk(p.a.conn) && ConnOk(p.b.conn)
            && (Enabled(Receive(disk), p.a, p.b) && p.b.conn.out[p.a.taken].Rst? ==> FailsBoth(p.a, p.b, disk))
            && (Enabled(Receive(disk), p.b, p.a) && p.a.conn.out[p.b.taken].Rst? ==> FailsBoth(p.b, p.a, disk))
  {
    hide IsRun, After, Inv2, Start, DR.Sticky, FailsBoth, ConnOk, RstTrue;
    StartInv(dirA, linkA, dirB, linkB);
    StartTrue(dirA, linkA, dirB, linkB);
    RunKeeps(Start(dirA, linkA, dirB, linkB), moves);
    RunTrue(Start(dirA, linkA, dirB, linkB), moves);
    var p := After(Start(dirA, linkA, dirB, linkB), moves);
    InvSwap(p.a, p.b);
    InvSound(p);
    if Enabled(Receive(disk), p.a, p.b) && p.b.conn.out[p.a.taken].Rst? {
      ReadFailsBoth(p.a, p.b, disk);
    }
    if Enabled(Receive(disk), p.b, p.a) && p.a.conn.out[p.b.taken].Rst? {
      ReadFailsBoth(p.b, p.a, disk);
    }
  }

  lemma InvSound(p: Pair)
    requires Inv(p)
    ensures ConnOk(p.a.conn) && ConnOk(p.b.conn)
  {
    hide Agree, ConnOk, Stuck;
  }
}
