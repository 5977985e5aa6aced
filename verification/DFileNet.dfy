/**
 * Two DFile connections joined by an ordered link in each direction, each end possibly sending and
 * receiving a transfer at the same time: every action of either end keeps both transfers in agreement.
 */
module DFileNet {
  import opened Bytes
  import opened DFileCore
  import opened DFileLink
  import opened DFileSides
  import DR = DFileResults

  /**
   * Both directions seen from one end, when the peer has taken `k` of the frames this end sent: the end
   * is the sender of `w1` and the receiver of `w2`.
   */
  ghost predicate Keeps(c: Conn, w1: Wire, w2: Wire, k: nat) {
    k <= |c.out| && Agree(Up(c, w1, k)) && Agree(Down(c, w2, k))
  }

  function Up(c: Conn, w: Wire, k: nat): Wire
    requires k <= |c.out|
  {
    w.(tx := c.tx, fwd := c.out[k..])
  }

  function Down(c: Conn, w: Wire, k: nat): Wire
    requires k <= |c.out|
  {
    w.(rx := c.rx, open := c.state != Closing, back := c.out[k..])
  }

  function Pop(w: Wire): Wire
    requires w.fwd != []
  {
    w.(fwd := w.fwd[1..])
  }

  // ---------------------------------------------------------------- primitive steps

  /** Sending a frame that neither direction cares about. */
  lemma RstKeeps(c: Conn, w1: Wire, w2: Wire, k: nat, trans: u16, code: u16)
    requires Keeps(c, w1, w2, k)
    ensures Keeps(TrySend(c, Rst(trans, code)), w1, w2, k)
  {
    hide Agree;
    var f := Rst(trans, code);
    assert (c.out + [f])[k..] == c.out[k..] + [f];
    SendNeutral(Up(c, w1, k), f);
    ReplyNeutral(Down(c, w2, k), f);
  }

  lemma FailTxKeeps(c: Conn, w1: Wire, w2: Wire, k: nat, rst: bool)
    requires Keeps(c, w1, w2, k)
    ensures Keeps(FailTx(c, rst), w1, w2, k)
  {
    hide Agree, TrySend;
    if c.tx.Some? && !Terminal(c.tx.value.phase) {
      TxFails(Up(c, w1, k));
      var d := c.(tx := Some(c.tx.value.(phase := Failed)), txResults := c.txResults + [false]);
      assert Up(d, w1, k) == Up(c, w1, k).(tx := d.tx);
      RstKeeps(d, w1, w2, k, c.tx.value.trans, RST_CANCEL);
    }
  }

  lemma FailRxKeeps(c: Conn, w1: Wire, w2: Wire, k: nat, rst: bool)
    requires Keeps(c, w1, w2, k)
    ensures Keeps(FailRx(c, rst), w1, w2, k)
  {
    hide Agree, TrySend;
    if c.rx.Some? && !Terminal(c.rx.value.phase) {
      RxFails(Down(c, w2, k));
      var d := c.(rx := Some(c.rx.value.(phase := Failed)), rxResults := c.rxResults + [false]);
      assert Down(d, w2, k) == Down(c, w2, k).(rx := d.rx);
      RstKeeps(d, w1, w2, k, c.rx.value.trans, RST_CANCEL);
    }
  }

  /** Closing, with or without the frame that caused it. */
  lemma ShutdownKeeps(c: Conn, w1: Wire, w2: Wire, k: nat)
    requires Keeps(c, w1, w2, k)
    ensures Keeps(Shutdown(c), w1, w2, k)
    ensures w2.fwd != [] && c.state != Closing ==> Keeps(Shutdown(c), w1, Pop(w2), k)
  {
    hide Agree, FailTx, FailRx;
    if c.state != Closing {
      var d := c.(state := Closing);
      StopReading(Down(c, w2, k));
      assert Down(d, w2, k) == Down(c, w2, k).(open := false);
      CloseRest(d, w1, w2, k);
      if w2.fwd != [] {
        assert Down(d, Pop(w2), k) == Down(c, w2, k).(open := false, fwd := w2.fwd[1..]);
        CloseRest(d, w1, Pop(w2), k);
      }
    }
  }

  lemma CloseRest(c: Conn, w1: Wire, w2: Wire, k: nat)
    requires Keeps(c, w1, w2, k)
    ensures var d := FailRx(FailTx(c, false), false); Keeps(d.(closed := d.closed + 1), w1, w2, k)
  {
    hide Agree, FailTx, FailRx;
    FailTxKeeps(c, w1, w2, k, false);
    FailRxKeeps(FailTx(c, false), w1, w2, k, false);
  }

  lemma ResetKeeps(c: Conn, w1: Wire, w2: Wire, k: nat, trans: u16, code: u16)
    requires Keeps(c, w1, w2, k) && w2.fwd != [] && c.state != Closing
    ensures Keeps(Reset(c, trans, code), w1, Pop(w2), k)
  {
    hide Keeps, Shutdown;
    RstKeeps(c, w1, w2, k, trans, code);
    ShutdownKeeps(TrySend(c, Rst(trans, code)), w1, w2, k);
  }

  // ---------------------------------------------------------------- sender

  /** The sender's books change. */
  lemma TxChangeKeeps(c: Conn, w1: Wire, w2: Wire, k: nat, t': Tx)
    requires Keeps(c, w1, w2, k) && Agree(Up(c, w1, k).(tx := Some(t')))
    ensures Keeps(c.(tx := Some(t')), w1, w2, k)
  {
    hide Agree;
    assert Up(c.(tx := Some(t')), w1, k) == Up(c, w1, k).(tx := Some(t'));
  }

  lemma FinishKeeps(c: Conn, w1: Wire, w2: Wire, k: nat)
    requires Keeps(c, w1, w2, k) && c.tx.Some? && c.tx.value.doneReceived && AllAcked(c.tx.value)
    requires c.tx.value.phase in {TxWaitConfirm, TxSending, TxWaitDone, TxDone, Failed}
    ensures Keeps(Finish(c), w1, w2, k)
  {
    hide Agree, FailTx, AllAcked;
    var t := c.tx.value;
    var f := DoneAck(t.trans, Ids(t.files));
    if !(t.doneAckSent || t.phase == TxDone || t.phase == Failed) {
      if Works(c) {
        var d := Finish(c);
        TxFinishes(Up(c, w1, k), Ids(t.files));
        assert (c.out + [f])[k..] == c.out[k..] + [f];
        assert Up(d, w1, k) == Up(c, w1, k).(tx := d.tx, fwd := c.out[k..] + [f]);
        ReplyNeutral(Down(c, w2, k), f);
        assert Down(d, w2, k) == Down(c, w2, k).(back := c.out[k..] + [f]);
      } else {
        FailTxKeeps(TrySend(c, f), w1, w2, k, false);
      }
    }
  }

  lemma MaybeFinishKeeps(c: Conn, w1: Wire, w2: Wire, k: nat)
    requires Keeps(c, w1, w2, k) && c.tx.Some?
    requires c.tx.value.phase in {TxWaitConfirm, TxSending, TxWaitDone, TxDone, Failed}
    ensures Keeps(MaybeFinish(c), w1, w2, k)
  {
    hide Keeps, Finish, AllAcked;
    if c.tx.value.doneReceived && AllAcked(c.tx.value) {
      FinishKeeps(c, w1, w2, k);
    }
  }

  lemma AfterPumpKeeps(c: Conn, w1: Wire, w2: Wire, k: nat)
    requires Keeps(c, w1, w2, k) && c.tx.Some?
    requires c.tx.value.phase in {TxWaitConfirm, TxSending, TxWaitDone, TxDone, Failed}
    ensures Keeps(AfterPump(c), w1, w2, k)
  {
    hide Agree, MaybeFinish, AllSent;
    var t := c.tx.value;
    var t' := if t.phase == TxSending && AllSent(t) then t.(phase := TxWaitDone) else t;
    TxFacts(Up(c, w1, k));
    SameSelf(t.files);
    if t' != t {
      TxChanges(Up(c, w1, k), t');
    } else {
      assert Up(c, w1, k).(tx := Some(t')) == Up(c, w1, k);
    }
    TxChangeKeeps(c, w1, w2, k, t');
    MaybeFinishKeeps(c.(tx := Some(t')), w1, w2, k);
  }

  lemma SendBlockKeeps(c: Conn, w1: Wire, w2: Wire, k: nat, due: bool)
    requires Keeps(c, w1, w2, k) && c.tx.Some? && TxOk(c.tx.value) && c.tx.value.phase in {TxSending, TxWaitDone}
             && Works(c)
    requires Pick(c.tx.value.files, due) < |c.tx.value.files|
    ensures Wants(c.tx.value.files[Pick(c.tx.value.files, due)], true)
    ensures Keeps(SendBlock(c, Pick(c.tx.value.files, due)), w1, w2, k)
  {
    hide Agree, TxFilesOk, DataFrame, Advance;
    var t := c.tx.value;
    var i := Pick(t.files, due);
    DataSent(Up(c, w1, k), due);
    var f := DataFrame(t.trans, t.files[i]);
    var d := SendBlock(c, i);
    assert (c.out + [f])[k..] == c.out[k..] + [f];
    assert Up(d, w1, k) == Up(c, w1, k).(tx := d.tx, fwd := c.out[k..] + [f]);
    IsDataFrame(t.trans, t.files[i]);
    ReplyNeutral(Down(c, w2, k), f);
    assert Down(d, w2, k) == Down(c, w2, k).(back := c.out[k..] + [f]);
  }

  lemma IsDataFrame(trans: u16, f: TxFile)
    requires TxFileOk(f) && Wants(f, true)
    ensures DataFrame(trans, f).Data?
  {
  }

  lemma {:induction false} PumpKeeps(c: Conn, w1: Wire, w2: Wire, k: nat, due: bool, budget: nat, readable: nat)
    requires DR.Sound(c) && Keeps(c, w1, w2, k) && c.tx.Some? && c.tx.value.phase in {TxSending, TxWaitDone}
    ensures ConnOk(c) && Keeps(Pump(c, due, budget, readable), w1, w2, k)
    decreases budget
  {
    hide Keeps, TrySend, FailTx, DataFrame, SendBlock, TxFilesOk, DR.Sound, Wants;
    DR.SoundRx(c);
    var t := c.tx.value;
    var i := Pick(t.files, due);
    if budget != 0 && i != |t.files| {
      DR.WantsDue(t.files[i], due);
      if readable == 0 {
        FailTxKeeps(c, w1, w2, k, true);
      } else if !Works(c) {
        DR.FileOk(t, i);
        SendFailsKeeps(c, w1, w2, k, DataFrame(t.trans, t.files[i]));
        FailTxKeeps(TrySend(c, DataFrame(t.trans, t.files[i])), w1, w2, k, false);
      } else {
        DR.SendBlockGood(c, i);
        SendBlockKeeps(c, w1, w2, k, due);
        PumpKeeps(SendBlock(c, i), w1, w2, k, due && t.files[i].next < t.files[i].total, budget - 1, readable - 1);
      }
    }
  }

  lemma SendFailsKeeps(c: Conn, w1: Wire, w2: Wire, k: nat, f: Frame)
    requires Keeps(c, w1, w2, k) && !Works(c)
    ensures Keeps(TrySend(c, f), w1, w2, k)
  {
    hide Agree;
  }

  /** How much of a list of frames goes out. */
  lemma {:induction false} SendAllSends(c: Conn, frames: seq<Frame>) returns (j: nat)
    ensures j <= |frames| && var s := SendAll(c, frames);
            && s.conn == c.(out := s.conn.out, tries := s.conn.tries) && s.conn.out == c.out + frames[..j]
            && (s.ok <==> j == |frames|) && (!s.ok && DR.Sticky(c.link) ==> !Works(s.conn))
    decreases |frames|
  {
    if frames == [] {
      j := 0;
    } else if !Works(c) {
      j := 0;
    } else {
      j := SendAllSends(TrySend(c, frames[0]), frames[1..]);
      assert frames[..j + 1] == [frames[0]] + frames[1..][..j];
      j := j + 1;
    }
  }

  /** Frames of the sender go out; the other direction does not mind. */
  lemma {:induction false} ForwardFrames(w: Wire, frames: seq<Frame>)
    requires Agree(w) && forall i | 0 <= i < |frames| :: !Backward(frames[i])
    ensures Agree(w.(back := w.back + frames))
    decreases |frames|
  {
    hide Agree;
    if frames == [] {
      assert w.back + frames == w.back;
    } else {
      ReplyNeutral(w, frames[0]);
      var w' := w.(back := w.back + [frames[0]]);
      ForwardFrames(w', frames[1..]);
      assert w'.back + frames[1..] == w.back + frames;
    }
  }

  lemma EntriesMatch(o: Offered, files: seq<TxFile>, m: nat)
    requires OfferOk(o) && TxFilesFor(o, files, m)
    ensures (forall i | 0 <= i < |files| :: |files[i].content| <= MAX_SIZE) && EntriesOf(files) == Entries(o)
  {
    hide TxFileOk, Share;
    assert forall i | 0 <= i < |files| :: TxFileFor(o, i, files[i], m);
    assert forall i | 0 <= i < |files| :: |o.items[i].content| <= MAX_SIZE;
  }

  /** The file list, or its beginning, goes out. */
  lemma ListKeeps(c: Conn, w1: Wire, w2: Wire, k: nat, frames: seq<Frame>, j: nat)
    requires Keeps(c, w1, w2, k) && w1.o.Some? && OfferOk(w1.o.value)
    requires frames == HeaderFrames(w1.o.value.trans, |w1.o.value.items|, Entries(w1.o.value)) && j <= |frames|
    ensures Keeps(c.(out := c.out + frames[..j]), w1, w2, k)
  {
    hide Agree, HeaderFrames, Entries;
    var o := w1.o.value;
    var d := c.(out := c.out + frames[..j]);
    assert d.out[k..] == c.out[k..] + frames[..j];
    assert Entries(o)[0..] == Entries(o);
    CoveredZero(Up(c, w1, k));
    HeadersSent(Up(c, w1, k), 0, j);
    DR.HeaderFramesKind(o.trans, |o.items|, Entries(o));
    ForwardFrames(Down(c, w2, k), frames[..j]);
  }

  lemma CoveredZero(w: Wire)
    ensures Covered(w, 0)
  {
  }

  lemma RetryKeeps(c: Conn, w1: Wire, w2: Wire, k: nat, due: bool)
    requires DR.Sound(c) && Keeps(c, w1, w2, k)
    ensures ConnOk(c) && Keeps(TickRetry(c, due), w1, w2, k)
  {
    hide Agree, TxFilesOk, RxFilesOk, FailTx, SendAll, HeaderFrames, EntriesOf, DR.Sound;
    DR.SoundRx(c);
    if c.tx.Some? && c.tx.value.phase == TxWaitConfirm && due {
      var t := c.tx.value.(retries := c.tx.value.retries + 1);
      var d := c.(tx := Some(t));
      TxFacts(Up(c, w1, k));
      SameSelf(t.files);
      TxChanges(Up(c, w1, k), t);
      TxChangeKeeps(c, w1, w2, k, t);
      FailTxKeeps(d, w1, w2, k, true);
      DR.FilesSmall(t);
      EntriesOfTx(Up(d, w1, k));
      var frames := HeaderFrames(t.trans, |t.files|, EntriesOf(t.files));
      var j := SendAllSends(d, frames);
      ListKeeps(d, w1, w2, k, frames, j);
      var e := SendAll(d, frames).conn;
      assert Keeps(e, w1, w2, k);
      FailTxKeeps(e, w1, w2, k, false);
    }
  }

  lemma EntriesOfTx(w: Wire)
    requires Agree(w) && w.tx.Some?
    ensures w.o.Some? && OfferOk(w.o.value) && |w.tx.value.files| == |w.o.value.items|
            && w.tx.value.trans == w.o.value.trans
    ensures (forall i | 0 <= i < |w.tx.value.files| :: |w.tx.value.files[i].content| <= MAX_SIZE)
    ensures EntriesOf(w.tx.value.files) == Entries(w.o.value)
  {
    hide RxPart, Fwd, Back, Flow, Cross, EntriesOf, Entries;
    var e: nat, m: nat :| AgreeAt(w, e, m);
    EntriesMatch(w.o.value, w.tx.value.files, m);
  }

  // ---------------------------------------------------------------- sender: answers

  lemma OnConfirmKeeps(c: Conn, w1: Wire, w2: Wire, k: nat, trans: u16, ids: seq<u16>)
    requires Keeps(c, w1, w2, k) && w1.o.Some? && BackOk(w1.o.value, FilesOf(w1.rx), Confirm(trans, ids))
    ensures Keeps(OnConfirm(c, trans, ids), w1, w2, k)
  {
    hide Agree, Shutdown, ConfirmIds, SameStream, AckedFor;
    ShutdownKeeps(c, w1, w2, k);
    if c.tx.Some? && c.tx.value.phase == TxWaitConfirm {
      var t := c.tx.value;
      TxFacts(Up(c, w1, k));
      ConfirmSame(t.files, ids);
      var files := ConfirmIds(t.files, ids);
      ConfirmAcked(w1.o.value, t.files, files, FilesOf(w1.rx));
      var t' := Armed(t.(files := files, allConfirmed := forall i | 0 <= i < |files| :: files[i].confirmed));
      TxChanges(Up(c, w1, k), t');
      TxChangeKeeps(c, w1, w2, k, t');
    }
  }

  lemma ConfirmAcked(o: Offered, files: seq<TxFile>, files': seq<TxFile>, rx: seq<RxFile>)
    requires SameStream(files, files') && |files| == |o.items|
    requires forall i | 0 <= i < |files| ::
               files'[i].lastAcked == files[i].lastAcked && files'[i].ackedAll == files[i].ackedAll
    requires forall i | 0 <= i < |o.items| :: AckedFor(o, i, files[i], rx)
    ensures |files'| == |o.items| && forall i | 0 <= i < |o.items| :: AckedFor(o, i, files'[i], rx)
  {
    forall i | 0 <= i < |o.items|
      ensures AckedFor(o, i, files'[i], rx)
    {
      AckedSame(o, i, files[i], files'[i], rx);
    }
  }

  lemma OnRequestKeeps(c: Conn, w1: Wire, w2: Wire, k: nat, trans: u16, ids: seq<u16>)
    requires Keeps(c, w1, w2, k) && w1.o.Some? && BackOk(w1.o.value, FilesOf(w1.rx), Request(trans, ids))
    ensures Keeps(OnRequest(c, trans), w1, w2, k)
  {
    hide Agree, Shutdown, AckedFor;
    ShutdownKeeps(c, w1, w2, k);
    if c.tx.Some? && c.tx.value.phase == TxWaitConfirm {
      TxFacts(Up(c, w1, k));
      SameSelf(c.tx.value.files);
      var t' := Armed(c.tx.value.(requested := true));
      TxChanges(Up(c, w1, k), t');
      TxChangeKeeps(c, w1, w2, k, t');
    }
  }

  lemma OnAckKeeps(c: Conn, w1: Wire, w2: Wire, k: nat, trans: u16, acks: seq<AckEntry>)
    requires Keeps(c, w1, w2, k) && w1.o.Some? && BackOk(w1.o.value, FilesOf(w1.rx), Ack(trans, acks))
    ensures Keeps(OnAck(c, trans, acks), w1, w2, k)
  {
    hide Agree, Shutdown, AckEach, SameStream, AckedFor, MaybeFinish, AckOk, TxFilesOk;
    ShutdownKeeps(c, w1, w2, k);
    if c.tx.Some? && (c.tx.value.phase == TxSending || c.tx.value.phase == TxWaitDone) {
      var t := c.tx.value;
      TxFacts(Up(c, w1, k));
      AcksKeep(w1.o.value, t.files, acks, FilesOf(w1.rx));
      var t' := t.(files := AckEach(t.files, acks));
      SameLength(t.files, t'.files);
      TxChanges(Up(c, w1, k), t');
      TxChangeKeeps(c, w1, w2, k, t');
      MaybeFinishKeeps(c.(tx := Some(t')), w1, w2, k);
    }
  }

  lemma SameLength(a: seq<TxFile>, b: seq<TxFile>)
    requires SameStream(a, b)
    ensures |a| == |b|
  {
  }

  lemma OnDoneKeeps(c: Conn, w1: Wire, w2: Wire, k: nat, trans: u16, ids: seq<u16>)
    requires Keeps(c, w1, w2, k) && w1.o.Some? && BackOk(w1.o.value, FilesOf(w1.rx), Done(trans, ids))
    requires c.tx.Some? ==> c.tx.value.phase in {TxWaitConfirm, TxSending, TxWaitDone, TxDone, Failed}
    ensures Keeps(OnDone(c, trans), w1, w2, k)
  {
    hide Agree, Shutdown, AckedFor, MaybeFinish, Written;
    ShutdownKeeps(c, w1, w2, k);
    if c.tx.Some? && c.tx.value.phase != Failed && c.tx.value.phase != TxDone {
      var t := c.tx.value;
      TxFacts(Up(c, w1, k));
      SameSelf(t.files);
      var t' := t.(doneReceived := true, phase := if t.phase == TxSending then TxWaitDone else t.phase);
      TxChanges(Up(c, w1, k), t');
      TxChangeKeeps(c, w1, w2, k, t');
      MaybeFinishKeeps(c.(tx := Some(t')), w1, w2, k);
    }
  }

  // ---------------------------------------------------------------- receiver

  /** The receiver's books change. */
  lemma RxChangeKeeps(c: Conn, w1: Wire, w2: Wire, k: nat, t': Rx)
    requires Keeps(c, w1, w2, k) && Agree(Down(c, w2, k).(rx := Some(t')))
    ensures Keeps(c.(rx := Some(t')), w1, w2, k)
  {
    hide Agree;
    assert Down(c.(rx := Some(t')), w2, k) == Down(c, w2, k).(rx := Some(t'));
  }

  /** A truthful answer goes out. */
  lemma AnswerKeeps(c: Conn, w1: Wire, w2: Wire, k: nat, f: Frame)
    requires Keeps(c, w1, w2, k) && Backward(f) && w2.o.Some? && BackOk(w2.o.value, FilesOf(c.rx), f)
    ensures Keeps(TrySend(c, f), w1, w2, k)
  {
    hide Agree, BackOk;
    if Works(c) {
      var d := TrySend(c, f);
      assert (c.out + [f])[k..] == c.out[k..] + [f];
      BackSent(Down(c, w2, k), f);
      assert Down(d, w2, k) == Down(c, w2, k).(back := c.out[k..] + [f]);
      SendNeutral(Up(c, w1, k), f);
      assert Up(d, w1, k) == Up(c, w1, k).(fwd := c.out[k..] + [f]);
    }
  }

  lemma FlushAckKeeps(c: Conn, w1: Wire, w2: Wire, k: nat)
    requires Keeps(c, w1, w2, k) && RxPhase(c.rx, RxWaitData) && RxOk(c.rx.value)
    ensures Keeps(FlushAck(c), w1, w2, k)
  {
    hide Agree, RxFilesOk, TrySend, FailRx, AckList, BackOk, Opened, AllComplete, Entries;
    var t := c.rx.value.(ackPending := false);
    RxFacts(Down(c, w2, k));
    RxChanges(Down(c, w2, k), t);
    RxChangeKeeps(c, w1, w2, k, t);
    var d := c.(rx := Some(t));
    AckAnswer(Down(d, w2, k));
    var f := Ack(t.trans, AckList(t.files, MAX_ACKS));
    AnswerKeeps(d, w1, w2, k, f);
    FailRxKeeps(TrySend(d, f), w1, w2, k, false);
  }

  lemma SendDoneKeeps(c: Conn, w1: Wire, w2: Wire, k: nat, shaOk: bool)
    requires Keeps(c, w1, w2, k) && c.rx.Some? && AllComplete(c.rx.value.files) && c.rx.value.files != []
    requires c.rx.value.phase == RxWaitData || (c.rx.value.phase == Failed && !Works(c))
    ensures Keeps(SendDone(c, shaOk), w1, w2, k)
  {
    hide Agree, FailRx, AllComplete, TrySend, BackOk;
    var t := c.rx.value;
    if !t.doneSent {
      RstKeeps(c, w1, w2, k, t.trans, RST_INTERNAL);
      FailRxKeeps(TrySend(c, Rst(t.trans, RST_INTERNAL)), w1, w2, k, false);
      var f := Done(t.trans, RxIds(t.files));
      if Works(c) {
        DoneFacts(Down(c, w2, k), f);
        AnswerKeeps(c, w1, w2, k, f);
        var d := TrySend(c, f);
        var t' := t.(doneSent := true, phase := RxWaitDoneAck);
        SentBooks(c, f);
        DoneHead(w2.o.value, t);
        RxChanges(Down(d, w2, k), t');
        RxChangeKeeps(d, w1, w2, k, t');
      } else {
        SendFailsKeeps(c, w1, w2, k, f);
        FailRxKeeps(TrySend(c, f), w1, w2, k, false);
      }
    }
  }

  lemma SentBooks(c: Conn, f: Frame)
    ensures TrySend(c, f).rx == c.rx && TrySend(c, f).tx == c.tx && TrySend(c, f).state == c.state
  {
  }

  lemma DoneFacts(w: Wire, f: Frame)
    requires Agree(w) && RxPhase(w.rx, RxWaitData) && AllComplete(w.rx.value.files)
    requires f.Done? && f.trans == w.rx.value.trans
    ensures w.o.Some? && OfferOk(w.o.value) && RxHead(w.o.value, w.rx.value) && BackOk(w.o.value, FilesOf(w.rx), f)
  {
    RxFacts(w);
    hide Agree, AllComplete, Entries;
  }

  lemma DoneHead(o: Offered, t: Rx)
    requires OfferOk(o) && RxHead(o, t) && t.phase == RxWaitData && AllComplete(t.files)
    ensures RxHead(o, t.(doneSent := true, phase := RxWaitDoneAck))
  {
    hide Entries;
  }

  lemma TickRxKeeps(c: Conn, w1: Wire, w2: Wire, k: nat, shaOk: bool)
    requires DR.Sound(c) && DR.Sticky(c.link) && Keeps(c, w1, w2, k) && c.state != Closing
    ensures ConnOk(c) && Keeps(TickRx(c, shaOk), w1, w2, k)
  {
    hide Keeps, DR.Sound, FlushAck, SendDone, AllComplete;
    DR.SoundRx(c);
    if RxPhase(c.rx, RxWaitData) {
      FlushAckKeeps(c, w1, w2, k);
      DR.FlushAckGood(c);
      var d := if c.rx.value.ackPending then FlushAck(c) else c;
      if d.rx.value.files != [] && AllComplete(d.rx.value.files) {
        if !Works(c) {
          StuckStays(c, d);
        }
        SendDoneKeeps(d, w1, w2, k, shaOk);
      }
    }
  }

  /** The header is complete: open the destinations and answer. */
  lemma HeaderCompleteKeeps(c: Conn, w1: Wire, w2: Wire, k: nat, opens: nat)
    requires Keeps(c, w1, w2, k) && c.rx.Some? && |c.rx.value.hdr| >= c.rx.value.node
    ensures Keeps(HeaderComplete(c, opens), w1, w2, k)
  {
    hide Agree, OpenFiles, SendAll, RxFilesFor, Entries;
    FailRxKeeps(c, w1, w2, k, false);
    var t := c.rx.value;
    if t.phase == Idle && c.hasDir {
      RxFacts(Down(c, w2, k));
      var o := w2.o.value;
      var files := OpenFiles(t.hdr, opens);
      AllOpened(o, t.hdr, opens);
      var d := c.(rx := Some(t.(files := files)));
      if |files| < |t.hdr| {
        OpenedKeeps(c, w1, w2, k, files, Failed, if Works(c) then [Rst(t.trans, RST_NO_STORAGE)] else []);
        KeepsOnly(HeaderComplete(c, opens), c.(rx := Some(t.(files := files, phase := Failed)),
            out := c.out + if Works(c) then [Rst(t.trans, RST_NO_STORAGE)] else []), w1, w2, k);
      } else {
        var frames := [Confirm(t.trans, EntryIds(t.hdr)), Request(t.trans, EntryIds(t.hdr))];
        assert |t.hdr| <= MAX_FILES;
        var j := SendAllSends(d, frames);
        var s := SendAll(d, frames);
        var p := if s.ok then RxWaitData else Failed;
        AnswersOk(o, files, frames, j);
        OpenedKeeps(c, w1, w2, k, files, p, frames[..j]);
        KeepsOnly(HeaderComplete(c, opens), c.(rx := Some(t.(files := files, phase := p)), out := c.out + frames[..j]),
                  w1, w2, k);
      }
    }
  }

  /** Only the transfers, the frames sent and whether the connection is closed matter. */
  lemma KeepsOnly(c: Conn, d: Conn, w1: Wire, w2: Wire, k: nat)
    requires Keeps(d, w1, w2, k) && c.tx == d.tx && c.rx == d.rx && c.out == d.out
             && (c.state == Closing <==> d.state == Closing)
    ensures Keeps(c, w1, w2, k)
  {
    hide Agree;
  }

  lemma AnswersOk(o: Offered, files: seq<RxFile>, frames: seq<Frame>, j: nat)
    requires Opened(o, files) && j <= |frames|
    requires forall i | 0 <= i < |frames| :: (frames[i].Confirm? || frames[i].Request?) && frames[i].trans == o.trans
    ensures forall i | 0 <= i < |frames[..j]| :: BackOk(o, files, frames[..j][i])
  {
  }

  lemma AllOpened(o: Offered, hdr: seq<Entry>, opens: nat)
    requires OfferOk(o) && |hdr| == |o.items| && hdr == Entries(o)[..|hdr|]
    ensures RxFilesFor(o, OpenFiles(hdr, opens), 0)
    ensures |OpenFiles(hdr, opens)| <= |hdr|
  {
    assert hdr == Entries(o)[0..];
    OpenFilesFor(o, 0, opens);
    hide RxFileFor;
  }

  lemma OpenedKeeps(c: Conn, w1: Wire, w2: Wire, k: nat, files: seq<RxFile>, p: Phase, answer: seq<Frame>)
    requires Keeps(c, w1, w2, k) && RxPhase(c.rx, Idle) && w2.o.Some? && p in {RxWaitData, Failed}
    requires RxFilesFor(w2.o.value, files, 0)
    requires p == RxWaitData ==> Opened(w2.o.value, files) && |c.rx.value.hdr| == |w2.o.value.items|
    requires forall i | 0 <= i < |answer| :: BackOk(w2.o.value, files, answer[i])
    requires forall i | 0 <= i < |answer| :: !Forward(answer[i])
    ensures Keeps(c.(rx := Some(c.rx.value.(files := files, phase := p)), out := c.out + answer), w1, w2, k)
  {
    hide Agree, RxFilesFor, BackOk;
    var d := c.(rx := Some(c.rx.value.(files := files, phase := p)), out := c.out + answer);
    assert d.out[k..] == c.out[k..] + answer;
    FilesOpened(Down(c, w2, k), files, p, answer);
    assert Down(d, w2, k) == Down(c, w2, k).(rx := d.rx, back := c.out[k..] + answer);
    BackFrames(Up(c, w1, k), answer);
    assert Up(d, w1, k) == Up(c, w1, k).(fwd := c.out[k..] + answer);
  }

  lemma {:induction false} BackFrames(w: Wire, frames: seq<Frame>)
    requires Agree(w) && forall i | 0 <= i < |frames| :: !Forward(frames[i])
    ensures Agree(w.(fwd := w.fwd + frames))
    decreases |frames|
  {
    hide Agree;
    if frames == [] {
      assert w.fwd + frames == w.fwd;
    } else {
      SendNeutral(w, frames[0]);
      var w' := w.(fwd := w.fwd + [frames[0]]);
      BackFrames(w', frames[1..]);
      assert w'.fwd + frames[1..] == w.fwd + frames;
    }
  }

  lemma OnHeaderKeeps(c: Conn, w1: Wire, w2: Wire, k: nat, opens: nat)
    requires Keeps(c, w1, w2, k) && c.state != Closing && w2.fwd != [] && w2.fwd[0].FileHeader?
    ensures var f := w2.fwd[0]; Keeps(OnHeader(c, f.trans, f.node, f.entries, opens), w1, Pop(w2), k)
  {
    hide Agree, Accumulate, HeaderComplete;
    var f := w2.fwd[0];
    var w := Down(c, w2, k);
    if RxPhase(c.rx, Failed) {
      HeaderDropped(w);
      assert Down(c, Pop(w2), k) == w.(fwd := w2.fwd[1..]);
    } else {
      HeaderTaken(w);
      var t := RxOr(c.rx, f.trans, f.node);
      var t' := t.(hdr := Accumulate(t.hdr, f.entries, f.node).0);
      var d := c.(rx := Some(t'));
      assert Down(d, Pop(w2), k) == w.(fwd := w2.fwd[1..], rx := Some(t'));
      assert Up(d, w1, k) == Up(c, w1, k);
      if RxPhase(c.rx, RxDone) {
        assert d.rx == c.rx;
      } else if |t'.hdr| >= f.node {
        HeaderCompleteKeeps(d, w1, Pop(w2), k, opens);
      }
    }
  }

  lemma OnDataKeeps(c: Conn, w1: Wire, w2: Wire, k: nat, writes: bool)
    requires Keeps(c, w1, w2, k) && c.state != Closing && w2.fwd != [] && w2.fwd[0].Data?
    requires c.rx.Some? ==> RxOk(c.rx.value)
    ensures var f := w2.fwd[0]; Keeps(OnData(c, f.trans, f.id, f.num, f.payload, writes), w1, Pop(w2), k)
  {
    hide AgreeAt, Reset, WriteBlock, RxFileOk;
    var f := w2.fwd[0];
    ResetKeeps(c, w1, w2, k, f.trans, RST_INTERNAL);
    ResetKeeps(c, w1, w2, k, f.trans, RST_WRITE_ERROR);
    if RxPhase(c.rx, RxWaitData) {
      var w := Down(c, w2, k);
      SomeOffer(w);
      var e: nat, m: nat :| AgreeAt(w, e, m);
      DataExpected(w, e, m);
      var t := c.rx.value;
      var i := FindRx(t.files, f.id);
      if f.num < t.files[i].expected {
        DataDropped(w, e, m);
        assert Down(c, Pop(w2), k) == w.(fwd := w2.fwd[1..]);
      } else {
        DataTaken(w, e, m);
        var d := c.(rx := Some(t.(files := t.files[i := WriteBlock(t.files[i], f.payload)], ackPending := true)));
        assert Down(d, Pop(w2), k) == w.(fwd := w2.fwd[1..], rx := d.rx);
        assert Up(d, w1, k) == Up(c, w1, k);
      }
    }
  }

  lemma OnDoneAckKeeps(c: Conn, w1: Wire, w2: Wire, k: nat)
    requires Keeps(c, w1, w2, k) && c.state != Closing && w2.fwd != [] && w2.fwd[0].DoneAck?
    ensures Keeps(OnDoneAck(c, w2.fwd[0].trans), w1, Pop(w2), k)
  {
    hide Agree, Shutdown, AllComplete, Entries;
    var w := Down(c, w2, k);
    DoneAckHead(w);
    DoneAckTaken(w);
    assert Down(c, Pop(w2), k) == w.(fwd := w2.fwd[1..]);
    if RxPhase(c.rx, RxWaitDoneAck) {
      RxFacts(w);
      var t' := c.rx.value.(phase := RxDone);
      RxChanges(Down(c, Pop(w2), k), t');
      RxChangeKeeps(c, w1, Pop(w2), k, t');
    }
  }

  // ---------------------------------------------------------------- two ends

  /** A connection, what its application offered, and how many of the peer's frames it has taken. */
  datatype End = End(conn: Conn, offer: Option<Offered>, taken: nat)
  datatype Pair = Pair(a: End, b: End)

  datatype Action =
    | Offer(items: seq<Item>, canOpen: bool)
    | Close                     // by the application
    | Lost                      // end of stream or socket error
    | Receive(disk: Disk)       // the next frame of the peer
    | Timer(env: Env)

  datatype Move = Move(byA: bool, act: Action)

  predicate Enabled(act: Action, me: End, you: End) {
    match act
    case Offer(items, _) => ItemsOk(items)
    case Receive(_) => me.taken < |you.conn.out| && me.conn.state != Closing
    case _ => true
  }

  function Event(act: Action, me: End, you: End): DR.Event
    requires Enabled(act, me, you)
  {
    match act
    case Offer(items, canOpen) => DR.Offer(items, canOpen)
    case Close => DR.Close
    case Lost => DR.Lost
    case Receive(disk) => DR.Arrive(you.conn.out[me.taken], disk)
    case Timer(env) => DR.Timer(env)
  }

  /** An offer is on record as soon as a frame of it has left. */
  function Act(act: Action, me: End, you: End): End
    requires Enabled(act, me, you) && ConnOk(me.conn)
  {
    var c := DR.Step(me.conn, Event(act, me, you));
    End(c,
        if act.Offer? && me.offer.None? && |c.out| > |me.conn.out| then Some(Offered(me.conn.nextTrans, act.items))
        else me.offer,
        if act.Receive? then me.taken + 1 else me.taken)
  }

  function Line(s: End, r: End): Wire
    requires r.taken <= |s.conn.out| && s.taken <= |r.conn.out|
  {
    Wire(s.offer, s.conn.tx, s.conn.out[r.taken..], r.conn.rx, r.conn.state != Closing, r.conn.out[s.taken..])
  }

  /** A transfer that was announced only in part will never be announced again. */
  predicate Stuck(e: End) {
    e.offer.Some? && e.conn.tx.None? ==> !Works(e.conn)
  }

  ghost predicate Inv2(me: End, you: End) {
    && me.taken <= |you.conn.out| && you.taken <= |me.conn.out|
    && DR.Sound(me.conn) && DR.Sound(you.conn) && DR.Sticky(me.conn.link) && DR.Sticky(you.conn.link)
    && Stuck(me) && Stuck(you)
    && Agree(Line(me, you)) && Agree(Line(you, me))
  }

  ghost predicate Inv(p: Pair) {
    Inv2(p.a, p.b)
  }

  lemma {:induction false} OfferedList(items: seq<Item>, trans: u16)
    requires 0 < |items| <= MAX_FILES && ItemsOk(items) && forall it | it in items :: |it.content| <= MAX_SIZE
    ensures OfferOk(Offered(trans, items))
    ensures forall i | 0 <= i < |items| :: |NewTx(trans, items).files[i].content| <= MAX_SIZE
    ensures EntriesOf(NewTx(trans, items).files) == Entries(Offered(trans, items))
    ensures HeaderFrames(trans, |items|, Entries(Offered(trans, items))) != []
  {
    assert forall i | 0 <= i < |items| :: items[i] in items;
    var es := Entries(Offered(trans, items));
    assert NameOk(items[0].name) && es[0] == EntryAt(Offered(trans, items), 0);
    assert EntrySize(es[0]) <= HEADER_CAP - 10;
    assert Fitting(es, HEADER_CAP - 10) > 0;
  }

  /** The application offers files. */
  lemma OfferKeeps(c: Conn, w1: Wire, w2: Wire, k: nat, items: seq<Item>, canOpen: bool)
    requires Keeps(c, w1, w2, k) && ItemsOk(items) && DR.Sticky(c.link) && (w1.o.Some? && c.tx.None? ==> !Works(c))
    ensures var d := SendFiles(c, items, canOpen).conn;
            && Keeps(d, if w1.o.None? && |d.out| > |c.out| then w1.(o := Some(Offered(c.nextTrans, items))) else w1,
                     w2, k)
            && (d.tx.None? && |d.out| > |c.out| ==> !Works(d))
  {
    hide Agree, HeaderFrames, SendAll, NewTx, EntriesOf, Entries, OfferOk;
    if c.state == Ready && c.tx.None? && 0 < |items| <= MAX_FILES && canOpen
        && forall it | it in items :: |it.content| <= MAX_SIZE {
      var o := Offered(c.nextTrans, items);
      OfferedList(items, c.nextTrans);
      DR.NewTxShape(c.nextTrans, items);
      var t := NewTx(c.nextTrans, items);
      var frames := HeaderFrames(t.trans, |items|, EntriesOf(t.files));
      var d := c.(nextTrans := Next16(c.nextTrans));
      var j := SendAllSends(d, frames);
      assert j == 0 ==> c.out + frames[..j] == c.out;
      if w1.o.Some? {
        NothingSent(d, frames);
        assert SendFiles(c, items, canOpen).conn.out == c.out;
      } else if j > 0 {
        var w := w1.(o := Some(o));
        OfferMade(Up(c, w1, k), o);
        assert Up(c, w, k) == Up(c, w1, k).(o := Some(o));
        ListKeeps(c, w, w2, k, frames, j);
        var e := c.(out := c.out + frames[..j]);
        if j == |frames| {
          TransferStarts(Up(e, w, k), t);
          TxChangeKeeps(e, w, w2, k, t);
        }
      }
    }
  }

  lemma NothingSent(c: Conn, frames: seq<Frame>)
    requires !Works(c) && frames != []
    ensures !SendAll(c, frames).ok && SendAll(c, frames).conn.out == c.out
  {
  }

  // ---------------------------------------------------------------- every action keeps the agreement

  function PopBack(w: Wire): Wire
    requires w.back != []
  {
    w.(back := w.back[1..])
  }

  lemma TakeKeeps(c: Conn, w1: Wire, w2: Wire, k: nat)
    requires Keeps(c, w1, w2, k) && w1.back != [] && w2.fwd != []
    ensures Keeps(c, PopBack(w1), w2, k)
    ensures !Forward(w2.fwd[0]) ==> Keeps(c, PopBack(w1), Pop(w2), k)
  {
    hide Agree;
    TakeNeutral(Up(c, w1, k));
    assert Up(c, PopBack(w1), k) == Up(c, w1, k).(back := w1.back[1..]);
    TakeNeutral(Down(c, w2, k));
    assert Down(c, Pop(w2), k) == Down(c, w2, k).(fwd := w2.fwd[1..]);
  }

  /** An answer of the peer is read by the sender. */
  lemma AnswerRead(c: Conn, w1: Wire, w2: Wire, k: nat, f: Frame)
    requires DR.Sound(c) && Keeps(c, w1, w2, k) && Backward(f) && w1.o.Some? && BackOk(w1.o.value, FilesOf(w1.rx), f)
    requires c.state != Closing
    ensures ConnOk(c) && Keeps(Handle(c, f, Disk(0, false)), w1, w2, k)
  {
    hide Keeps, BackOk, OnConfirm, OnRequest, OnAck, OnDone;
    match f
    case Confirm(trans, ids) => OnConfirmKeeps(c, w1, w2, k, trans, ids);
    case Request(trans, ids) => OnRequestKeeps(c, w1, w2, k, trans, ids);
    case Ack(trans, acks) => OnAckKeeps(c, w1, w2, k, trans, acks);
    case Done(trans, ids) => OnDoneKeeps(c, w1, w2, k, trans, ids);
  }

  /** A frame that belongs to no transfer. */
  lemma PlainRead(c: Conn, w1: Wire, w2: Wire, k: nat, f: Frame)
    requires DR.Sound(c) && Keeps(c, w1, w2, k) && !Backward(f) && !Forward(f) && c.state != Closing
    ensures ConnOk(c) && Keeps(Handle(c, f, Disk(0, false)), w1, w2, k)
  {
    hide Keeps, Shutdown, FailTx, FailRx, Looks;
    ShutdownKeeps(c, w1, w2, k);
    FailTxKeeps(c, w1, w2, k, false);
    FailRxKeeps(c, w1, w2, k, false);
    RstKeeps(c, w1, w2, k, 0, RST_WITHOUT_SETTING);
    ShutdownKeeps(TrySend(c, Rst(0, RST_WITHOUT_SETTING)), w1, w2, k);
    KeepsOnly(c.(state := Ready), c, w1, w2, k);
  }

  lemma DiskMatters(c: Conn, f: Frame, disk: Disk)
    requires ConnOk(c) && !Forward(f)
    ensures Handle(c, f, disk) == Handle(c, f, Disk(0, false))
  {
    hide OnConfirm, OnRequest, OnAck, OnDone, OnSetting, OnRst, Shutdown, Looks;
  }

  lemma HandleKeeps(c: Conn, w1: Wire, w2: Wire, k: nat, disk: Disk)
    requires DR.Sound(c) && Keeps(c, w1, w2, k) && c.state != Closing && w2.fwd != [] && w1.back == w2.fwd
    ensures ConnOk(c) && Keeps(Handle(c, w2.fwd[0], disk), PopBack(w1), Pop(w2), k)
  {
    hide Keeps, OnHeader, OnData, OnDoneAck, Handle, BackOk;
    var f := w2.fwd[0];
    DR.SoundRx(c);
    TakeKeeps(c, w1, w2, k);
    if Forward(f) {
      ForwardRead(c, PopBack(w1), w2, k, disk);
    } else {
      DiskMatters(c, f, disk);
      if Backward(f) {
        KeepsParts(c, w1, w2, k);
        BackHead(Up(c, w1, k));
        AnswerRead(c, PopBack(w1), Pop(w2), k, f);
      } else {
        PlainRead(c, PopBack(w1), Pop(w2), k, f);
      }
    }
  }

  lemma KeepsParts(c: Conn, w1: Wire, w2: Wire, k: nat)
    requires Keeps(c, w1, w2, k)
    ensures k <= |c.out| && Agree(Up(c, w1, k)) && Agree(Down(c, w2, k))
  {
  }

  lemma ForwardRead(c: Conn, w1: Wire, w2: Wire, k: nat, disk: Disk)
    requires DR.Sound(c) && Keeps(c, w1, w2, k) && c.state != Closing && w2.fwd != [] && Forward(w2.fwd[0])
    ensures ConnOk(c) && Keeps(Handle(c, w2.fwd[0], disk), w1, Pop(w2), k)
  {
    hide Keeps, OnHeader, OnData, OnDoneAck;
    match w2.fwd[0]
    case FileHeader(_, _, _) => OnHeaderKeeps(c, w1, w2, k, disk.opens);
    case Data(_, _, _, _, _) => OnDataKeeps(c, w1, w2, k, disk.writes);
    case DoneAck(_, _) => OnDoneAckKeeps(c, w1, w2, k);
  }

  lemma TickKeeps(c: Conn, w1: Wire, w2: Wire, k: nat, env: Env)
    requires DR.Sound(c) && DR.Sticky(c.link) && Keeps(c, w1, w2, k)
    ensures ConnOk(c) && Keeps(Tick(c, env), w1, w2, k)
  {
    hide Keeps, DR.Sound, DR.Onward, Shutdown, TickRx, TickTx, TickRetry, Timeouts, ConnOk;
    DR.SoundRx(c);
    if c.state != Closing {
      ShutdownKeeps(c, w1, w2, k);
      TimeoutsKeeps(c, w1, w2, k, env);
      DR.TimeoutsGood(c, env);
      var c1 := Timeouts(c, env);
      DR.SoundRx(c1);
      TickRxKeeps(c1, w1, w2, k, env.shaOk);
      DR.TickRxGood(c1, env.shaOk);
      var d := TickRx(c1, env.shaOk);
      DR.SoundRx(d);
      TickTxKeeps(d, w1, w2, k, env.retranDue, env.readable);
      DR.TickTxGood(d, env.retranDue, env.readable);
      RetryKeeps(TickTx(d, env.retranDue, env.readable), w1, w2, k, env.retryDue);
    }
  }

  lemma TimeoutsKeeps(c: Conn, w1: Wire, w2: Wire, k: nat, env: Env)
    requires ConnOk(c) && Keeps(c, w1, w2, k)
    ensures Keeps(Timeouts(c, env), w1, w2, k)
  {
    hide Keeps, FailTx, FailRx, ConnOk;
    FailTxKeeps(c, w1, w2, k, true);
    FailRxKeeps(if env.txTimeout then FailTx(c, true) else c, w1, w2, k, true);
  }

  lemma TickTxKeeps(c: Conn, w1: Wire, w2: Wire, k: nat, due: bool, readable: nat)
    requires DR.Sound(c) && Keeps(c, w1, w2, k)
    ensures ConnOk(c) && Keeps(TickTx(c, due, readable), w1, w2, k)
  {
    hide Keeps, Pump, AfterPump, DR.Sound;
    DR.SoundRx(c);
    if c.tx.Some? && c.tx.value.phase in {TxSending, TxWaitDone} {
      PumpKeeps(c, w1, w2, k, due, SEND_BUDGET, readable);
      DR.PumpGood(c, due, SEND_BUDGET, readable);
      DR.SoundRx(Pump(c, due, SEND_BUDGET, readable));
      AfterPumpKeeps(Pump(c, due, SEND_BUDGET, readable), w1, w2, k);
    }
  }

  /** Both lines, seen from the end that acts. */
  lemma Seen(me: End, you: End)
    requires me.taken <= |you.conn.out| && you.taken <= |me.conn.out|
    ensures Up(me.conn, Line(me, you), you.taken) == Line(me, you)
    ensures Down(me.conn, Line(you, me), you.taken) == Line(you, me)
  {
  }

  lemma StuckStays(c: Conn, d: Conn)
    requires DR.Sticky(c.link) && !Works(c) && d.link == c.link && d.tries >= c.tries
    ensures !Works(d)
  {
  }

  /** What the acting end makes of the two lines. */
  lemma LinesAfter(act: Action, me: End, you: End)
    requires Inv2(me, you) && Enabled(act, me, you)
    ensures ConnOk(me.conn)
    ensures var me' := Act(act, me, you);
            && you.taken <= |me'.conn.out| && me'.taken <= |you.conn.out|
            && Keeps(me'.conn, Line(me, you).(o := me'.offer, back := you.conn.out[me'.taken..]),
                     Line(you, me).(fwd := you.conn.out[me'.taken..]), you.taken)
  {
    hide Agree, Handle, Tick, Shutdown, SendFiles, DR.Sound;
    DR.SoundRx(me.conn);
    Seen(me, you);
    var c := me.conn;
    var w1 := Line(me, you);
    var w2 := Line(you, me);
    assert Keeps(c, w1, w2, you.taken);
    match act
    case Offer(items, canOpen) => OfferKeeps(c, w1, w2, you.taken, items, canOpen);
    case Receive(disk) =>
      HandleKeeps(c, w1, w2, you.taken, disk);
      assert w2.fwd[0] == you.conn.out[me.taken] && w2.fwd[1..] == you.conn.out[me.taken + 1..];
    case Timer(env) => TickKeeps(c, w1, w2, you.taken, env);
    case _ => ShutdownKeeps(c, w1, w2, you.taken);
  }

  lemma {:induction false} ActKeeps(act: Action, me: End, you: End)
    requires Inv2(me, you) && Enabled(act, me, you)
    ensures ConnOk(me.conn) && Inv2(Act(act, me, you), you)
  {
    LinesAfter(act, me, you);
    StuckAfter(act, me, you);
    DR.StepGood(me.conn, Event(act, me, you));
    hide Agree, DR.Sound, DR.Step, DR.Onward, Stuck, Event;
    var me' := Act(act, me, you);
    var w1 := Line(me, you).(o := me'.offer, back := you.conn.out[me'.taken..]);
    var w2 := Line(you, me).(fwd := you.conn.out[me'.taken..]);
    assert Up(me'.conn, w1, you.taken) == Line(me', you);
    assert Down(me'.conn, w2, you.taken) == Line(you, me');
  }

  lemma StuckAfter(act: Action, me: End, you: End)
    requires Inv2(me, you) && Enabled(act, me, you)
    ensures ConnOk(me.conn) && Stuck(Act(act, me, you))
  {
    hide Agree, Handle, Tick, Shutdown, SendFiles, DR.Sound;
    DR.SoundRx(me.conn);
    DR.StepGood(me.conn, Event(act, me, you));
    var me' := Act(act, me, you);
    if me.offer.Some? && me.conn.tx.None? {
      StuckStays(me.conn, me'.conn);
    }
    if act.Offer? {
      Seen(me, you);
      OfferKeeps(me.conn, Line(me, you), Line(you, me), you.taken, act.items, act.canOpen);
    } else if me.offer.Some? && me'.conn.tx.None? {
      assert me.conn.tx.None?;
    }
  }

  // ---------------------------------------------------------------- runs

  function Start(dirA: bool, linkA: seq<bool>, dirB: bool, linkB: seq<bool>): Pair {
    Pair(End(DR.Open(dirA, linkA), None, 0), End(DR.Open(dirB, linkB), None, 0))
  }

  ghost predicate CanMove(p: Pair, m: Move) {
    && ConnOk(p.a.conn) && ConnOk(p.b.conn)
    && if m.byA then Enabled(m.act, p.a, p.b) else Enabled(m.act, p.b, p.a)
  }

  function Next(p: Pair, m: Move): Pair
    requires CanMove(p, m)
  {
    if m.byA then p.(a := Act(m.act, p.a, p.b)) else p.(b := Act(m.act, p.b, p.a))
  }

  lemma InvSwap(me: End, you: End)
    requires Inv2(me, you)
    ensures Inv2(you, me)
  {
    hide Agree, DR.Sound;
  }

  lemma MoveKeeps(p: Pair, m: Move)
    requires Inv(p) && CanMove(p, m)
    ensures Inv(Next(p, m))
  {
    hide Inv2, Act;
    InvSwap(p.a, p.b);
    if m.byA {
      ActKeeps(m.act, p.a, p.b);
    } else {
      ActKeeps(m.act, p.b, p.a);
      InvSwap(Act(m.act, p.b, p.a), p.a);
    }
  }

  ghost predicate IsRun(p: Pair, moves: seq<Move>)
    decreases |moves|
  {
    moves == [] || (CanMove(p, moves[0]) && IsRun(Next(p, moves[0]), moves[1..]))
  }

  function After(p: Pair, moves: seq<Move>): Pair
    requires IsRun(p, moves)
    decreases |moves|
  {
    if moves == [] then p else After(Next(p, moves[0]), moves[1..])
  }

  lemma StartInv(dirA: bool, linkA: seq<bool>, dirB: bool, linkB: seq<bool>)
    requires DR.Sticky(linkA) && DR.Sticky(linkB)
    ensures Inv(Start(dirA, linkA, dirB, linkB))
  {
    hide DR.Sound, DR.Open, AgreeAt, Forward, Backward;
    DR.OpenSound(dirA, linkA);
    DR.OpenSound(dirB, linkB);
    OpenShape(dirA, linkA);
    OpenShape(dirB, linkB);
  }

  lemma OpenShape(dir: bool, link: seq<bool>)
    ensures var c := DR.Open(dir, link);
            && c.tx.None? && c.rx.None?
            && forall i | 0 <= i < |c.out| :: !Forward(c.out[i]) && !Backward(c.out[i])
  {
  }

  lemma {:induction false} RunKeeps(p: Pair, moves: seq<Move>)
    requires Inv(p) && IsRun(p, moves)
    ensures Inv(After(p, moves))
    decreases |moves|
  {
    hide Inv, CanMove, Next;
    if moves != [] {
      MoveKeeps(p, moves[0]);
      RunKeeps(Next(p, moves[0]), moves[1..]);
    }
  }
}
