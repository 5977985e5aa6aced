/**
 * Reporting discipline of one DFile connection against any peer: whatever frames arrive, every registered
 * transfer reports one result before the application is told that the connection is closed, and that is told
 * once; and exactly when a transfer reports one result too many, on a link that fails and works again.
 */
module DFileResults {
  import opened Bytes
  import opened DFileCore
  import DF = DFileFrame

  datatype Event =
    | Offer(items: seq<Item>, canOpen: bool)   // dfile_conn_send_files
    | Close                                    // the application closes
    | Lost                                     // end of stream or socket error
    | Arrive(frame: Frame, disk: Disk)
    | Timer(env: Env)

  /** A new connection, whose first act is to send its SETTING. */
  function Open(hasDir: bool, link: seq<bool>): Conn {
    var c := NewConn(hasDir, link);
    if Works(c) then TrySend(c, Setting(1472, 0)) else Shutdown(TrySend(c, Setting(1472, 0)))
  }

  /** The application names its files. */
  predicate EventOk(ev: Event) {
    ev.Offer? ==> ItemsOk(ev.items)
  }

  function Step(c: Conn, ev: Event): Conn
    requires ConnOk(c)
  {
    match ev
    case Offer(items, canOpen) => SendFiles(c, items, canOpen).conn
    case Close => Shutdown(c)
    case Lost => Shutdown(c)
    case Arrive(f, disk) => Handle(c, f, disk)
    case Timer(env) => Tick(c, env)
  }

  /** Once a send has failed, every later send fails. */
  predicate Sticky(link: seq<bool>) {
    forall i, j | 0 <= i < j < |link| :: link[j] ==> link[i]
  }

  /** The results a transfer in this phase has reported. */
  function Told(p: Phase): seq<bool> {
    if p == Failed then [false] else if p == TxDone || p == RxDone then [true] else []
  }

  /** A receive transfer has reported one result more than its phase tells. */
  predicate Revived(c: Conn) {
    c.rx.Some? && |c.rxResults| > |Told(c.rx.value.phase)|
  }

  /** A transfer has reported what its phase tells; a revived one had reported failure before. */
  predicate Reported(c: Conn) {
    && c.txResults == (if c.tx.None? then [] else Told(c.tx.value.phase))
    && (c.rx.None? ==> c.rxResults == [])
    && (c.rx.Some? ==> c.rxResults == (if Revived(c) then [false] else []) + Told(c.rx.value.phase))
    && (Revived(c) ==> c.rx.value.doneSent)
    && c.closed == (if c.state == Closing then 1 else 0)
    && (c.state == Closing ==> c.tx.None? || Terminal(c.tx.value.phase))
    && (c.state == Closing ==> c.rx.None? || Terminal(c.rx.value.phase))
  }

  function TxFiles(c: Conn): seq<TxFile> {
    if c.tx.None? then [] else c.tx.value.files
  }

  /** How often a block has been sent. */
  function Sends(out: seq<Frame>, id: int, num: int): nat {
    if out == [] then 0
    else
      var f := out[|out| - 1];
      Sends(out[..|out| - 1], id, num) + if f.Data? && f.id == id && f.num == num then 1 else 0
  }

  /** A block waiting for its retransmission was sent once, an earlier one at most twice, a later one never. */
  function Allowance(files: seq<TxFile>, id: int, num: int): nat {
    if !(1 <= id <= |files|) || num >= files[id - 1].next then 0
    else if num >= files[id - 1].next - |files[id - 1].retrans| then 1
    else 2
  }

  ghost predicate Twice(out: seq<Frame>, files: seq<TxFile>) {
    forall id: int, num: int :: Sends(out, id, num) <= Allowance(files, id, num)
  }

  /** Everything sent can be encoded, so the peer decodes it to what was meant. */
  ghost predicate Encodable(out: seq<Frame>) {
    forall i | 0 <= i < |out| :: DF.Sendable(out[i])
  }

  ghost predicate Sound(c: Conn) {
    ConnOk(c) && Reported(c) && Twice(c.out, TxFiles(c)) && Encodable(c.out)
  }

  /** Finished transfers are never touched again, and neither is a closed connection. */
  predicate Onward(c: Conn, d: Conn) {
    && (c.tx.Some? && Terminal(c.tx.value.phase) ==> d.tx == c.tx)
    && (c.rx.Some? && Terminal(c.rx.value.phase) ==> d.rx == c.rx)
    && (c.state == Closing ==> d.state == Closing)
    && (c.tx.Some? ==> d.tx.Some?) && (c.rx.Some? ==> d.rx.Some?)
    && d.link == c.link && d.tries >= c.tries
  }

  ghost predicate Good(c: Conn, d: Conn) {
    Sound(d) && Onward(c, d) && (Revived(d) <==> Revived(c))
  }

  // ---------------------------------------------------------------- primitive steps

  lemma SendsAppend(out: seq<Frame>, f: Frame, files: seq<TxFile>)
    requires Twice(out, files) && !f.Data?
    ensures Twice(out + [f], files)
  {
    forall id: int, num: int
      ensures Sends(out + [f], id, num) <= Allowance(files, id, num)
    {
      assert (out + [f])[..|out|] == out;
      assert Sends(out, id, num) <= Allowance(files, id, num);
    }
  }

  /** Sending a block uses up one of its two chances. */
  lemma {:induction false} SendsBlock(out: seq<Frame>, files: seq<TxFile>, i: nat, trans: u16)
    requires Twice(out, files) && TxFilesOk(files) && i < |files| && Wants(files[i], true)
    ensures TxFileOk(files[i]) && Twice(out + [DataFrame(trans, files[i])], files[i := Advance(files[i])])
  {
    var f := DataFrame(trans, files[i]);
    var files' := files[i := Advance(files[i])];
    forall id: int, num: int
      ensures Sends(out + [f], id, num) <= Allowance(files', id, num)
    {
      assert (out + [f])[..|out|] == out;
      assert Sends(out, id, num) <= Allowance(files, id, num);
      if files[i].next >= files[i].total {
        assert files[i].retrans[0] == files[i].next - |files[i].retrans|;
      }
    }
  }

  predicate Shorter(files: seq<TxFile>, files': seq<TxFile>) {
    && |files'| == |files|
    && forall i | 0 <= i < |files| :: files'[i].next == files[i].next && |files'[i].retrans| <= |files[i].retrans|
  }

  /** Acks only shorten the list of blocks to repeat. */
  lemma TwiceGrows(out: seq<Frame>, files: seq<TxFile>, files': seq<TxFile>)
    requires Twice(out, files) && Shorter(files, files')
    ensures Twice(out, files')
  {
    forall id: int, num: int
      ensures Sends(out, id, num) <= Allowance(files', id, num)
    {
      assert Sends(out, id, num) <= Allowance(files, id, num);
    }
  }

  lemma TrySendGood(c: Conn, f: Frame)
    requires Sound(c) && ((!f.Data? && DF.Sendable(f)) || !Works(c))
    ensures Sound(TrySend(c, f)) && TrySend(c, f) == c.(out := TrySend(c, f).out, tries := c.tries + 1)
  {
    hide TxOk, RxOk, Twice, DF.Sendable;
    if Works(c) {
      SendsAppend(c.out, f, TxFiles(c));
    }
  }

  lemma {:induction false} SendAllGood(c: Conn, frames: seq<Frame>)
    requires Sound(c) && Encodable(frames) && forall i | 0 <= i < |frames| :: !frames[i].Data?
    ensures var d := SendAll(c, frames).conn; Sound(d) && d == c.(out := d.out, tries := d.tries) && d.tries >= c.tries
    decreases |frames|
  {
    hide Sound, DF.Sendable;
    if frames != [] {
      TrySendGood(c, frames[0]);
      if Works(c) {
        SendAllGood(TrySend(c, frames[0]), frames[1..]);
      }
    }
  }

  lemma FailTxGood(c: Conn, rst: bool)
    requires Sound(c)
    ensures Good(c, FailTx(c, rst)) && FailTx(c, rst).rx == c.rx && FailTx(c, rst).state == c.state
  {
    hide TxOk, RxOk, TrySend;
    if c.tx.Some? && !Terminal(c.tx.value.phase) {
      var d := c.(tx := Some(c.tx.value.(phase := Failed)), txResults := c.txResults + [false]);
      SameFilesTx(c, d);
      assert Sound(d);
      TrySendGood(d, Rst(c.tx.value.trans, RST_CANCEL));
    }
  }

  lemma SameFilesTx(c: Conn, d: Conn)
    requires c.tx.Some? && d.tx.Some? && TxOk(c.tx.value) && d.tx.value.files == c.tx.value.files
    ensures TxOk(d.tx.value)
  {
  }

  lemma FailRxGood(c: Conn, rst: bool)
    requires Sound(c)
    ensures Good(c, FailRx(c, rst)) && FailRx(c, rst).tx == c.tx && FailRx(c, rst).state == c.state
  {
    hide TxOk, RxOk, TrySend;
    if c.rx.Some? && !Terminal(c.rx.value.phase) {
      var d := c.(rx := Some(c.rx.value.(phase := Failed)), rxResults := c.rxResults + [false]);
      SameFilesRx(c, d);
      assert Sound(d);
      TrySendGood(d, Rst(c.rx.value.trans, RST_CANCEL));
    }
  }

  lemma SameFilesRx(c: Conn, d: Conn)
    requires c.rx.Some? && d.rx.Some? && RxOk(c.rx.value) && d.rx.value.files == c.rx.value.files
    ensures RxOk(d.rx.value)
  {
  }

  lemma ShutdownGood(c: Conn)
    requires Sound(c)
    ensures Good(c, Shutdown(c)) && Shutdown(c).state == Closing
  {
    hide Sound;
    if c.state != Closing {
      FailTxGood(c, false);
      FailRxGood(FailTx(c, false), false);
      CloseGood(FailRx(FailTx(c, false), false));
    }
  }

  /** Nothing is under way any more. */
  lemma CloseGood(c: Conn)
    requires Sound(c) && c.state != Closing
    requires (c.tx.None? || Terminal(c.tx.value.phase)) && (c.rx.None? || Terminal(c.rx.value.phase))
    ensures Good(c, c.(state := Closing, closed := c.closed + 1))
  {
    hide TxFilesOk, RxFilesOk, Twice, Encodable;
  }

  lemma ResetGood(c: Conn, trans: u16, code: u16)
    requires Sound(c)
    ensures Good(c, Reset(c, trans, code))
  {
    TrySendGood(c, Rst(trans, code));
    ShutdownGood(TrySend(c, Rst(trans, code)));
    hide Sound, TrySend, Shutdown;
  }

  // ---------------------------------------------------------------- what is sent can be encoded

  lemma DoneAckSendable(t: Tx)
    requires TxOk(t)
    ensures DF.Sendable(DoneAck(t.trans, Ids(t.files)))
  {
  }

  lemma DataSendable(trans: u16, f: TxFile)
    requires TxFileOk(f) && Wants(f, true)
    ensures DataFrame(trans, f).Data? && DF.Sendable(DataFrame(trans, f))
  {
    NextBlockInFile(f);
    BlockInside(|f.content|, NextBlock(f));
  }

  lemma {:induction false} AckListSize(files: seq<RxFile>, room: nat)
    requires RxFilesOk(files)
    ensures |AckList(files, room)| <= room
    decreases |files|
  {
    hide RxFileOk;
    if files != [] && room > 0 {
      AckListSize(files[1..], if files[0].expected > 0 then room - 1 else room);
    }
  }

  /** The entries that fit a frame do fit it. */
  lemma {:induction false} FittingSize(es: seq<Entry>, room: int)
    requires 0 <= room && forall i | 0 <= i < |es| :: |es[i].name| <= 255
    ensures |DF.EntriesBytes(es[..Fitting(es, room)])| <= room
    decreases |es|
  {
    if es != [] && EntrySize(es[0]) <= room {
      FittingSize(es[1..], room - EntrySize(es[0]));
      var n := Fitting(es, room);
      assert es[..n][0] == es[0] && es[..n][1..] == es[1..][..n - 1];
    }
  }

  predicate EntryNamed(e: Entry) {
    e.id != 0 && NameOk(e.name)
  }

  lemma {:induction false} HeaderFramesSendable(trans: u16, node: u16, es: seq<Entry>)
    requires |es| <= node && forall i | 0 <= i < |es| :: EntryNamed(es[i])
    ensures Encodable(HeaderFrames(trans, node, es))
    decreases |es|
  {
    hide EntryNamed, Fitting;
    var n := Fitting(es, HEADER_CAP - 10);
    if n > 0 {
      OneHeaderSendable(trans, node, es);
      HeaderFramesSendable(trans, node, es[n..]);
    }
  }

  lemma OneHeaderSendable(trans: u16, node: u16, es: seq<Entry>)
    requires |es| <= node && forall i | 0 <= i < |es| :: EntryNamed(es[i])
    requires Fitting(es, HEADER_CAP - 10) > 0
    ensures DF.Sendable(FileHeader(trans, node, es[..Fitting(es, HEADER_CAP - 10)]))
  {
    FittingSize(es, HEADER_CAP - 10);
    var part := es[..Fitting(es, HEADER_CAP - 10)];
    assert forall i | 0 <= i < |part| :: part[i] == es[i] && EntryNamed(es[i]);
  }

  lemma EntriesNamed(t: Tx)
    requires TxOk(t)
    ensures |t.files| <= MAX_FILES && forall i | 0 <= i < |t.files| :: |t.files[i].content| <= MAX_SIZE
    ensures forall i | 0 <= i < |EntriesOf(t.files)| :: EntryNamed(EntriesOf(t.files)[i])
    ensures |EntriesOf(t.files)| == |t.files|
  {
    assert forall i | 0 <= i < |t.files| :: TxFileOk(t.files[i]);
  }

  // ---------------------------------------------------------------- sender

  lemma FinishGood(c: Conn)
    requires Sound(c) && c.tx.Some? && c.state != Closing
    ensures Good(c, Finish(c)) && Finish(c).rx == c.rx && Finish(c).state == c.state
  {
    hide TxFilesOk, RxFilesOk, Twice, Encodable, TrySend, FailTx, Ids;
    var t := c.tx.value;
    DoneAckSendable(t);
    TrySendGood(c, DoneAck(t.trans, Ids(t.files)));
    FailTxGood(TrySend(c, DoneAck(t.trans, Ids(t.files))), false);
  }

  ghost predicate GoodTx(c: Conn, d: Conn) {
    Good(c, d) && d.rx == c.rx && d.state == c.state
  }

  lemma GoodTxMeans(c: Conn, d: Conn)
    requires GoodTx(c, d)
    ensures Good(c, d) && d.rx == c.rx && d.state == c.state
  {
  }

  lemma {:induction false} PumpGood(c: Conn, due: bool, budget: nat, readable: nat)
    requires Sound(c) && c.tx.Some? && c.tx.value.phase in {TxSending, TxWaitDone}
    ensures ConnOk(c) && GoodTx(c, Pump(c, due, budget, readable))
    decreases budget
  {
    hide TrySend, FailTx, DataFrame, SendBlock, TxFilesOk, Sound, Wants, GoodTx, Onward, Good;
    GoodSelf(c);
    SoundRx(c);
    var t := c.tx.value;
    var i := Pick(t.files, due);
    if budget != 0 && i != |t.files| {
      WantsDue(t.files[i], due);
      FileOk(t, i);
      if readable == 0 || !Works(c) {
        PumpStops(c, i);
      } else {
        SendBlockGood(c, i);
        var d := SendBlock(c, i);
        var e := Pump(d, due && t.files[i].next < t.files[i].total, budget - 1, readable - 1);
        PumpGood(d, due && t.files[i].next < t.files[i].total, budget - 1, readable - 1);
        GoodTxMeans(d, e);
        GoodOn(c, d, e);
      }
    }
  }

  lemma PumpStops(c: Conn, i: nat)
    requires Sound(c) && c.tx.Some? && c.tx.value.phase in {TxSending, TxWaitDone}
    requires i < |c.tx.value.files| && TxFileOk(c.tx.value.files[i]) && Wants(c.tx.value.files[i], true)
    ensures GoodTx(c, FailTx(c, true))
    ensures !Works(c) ==> GoodTx(c, FailTx(TrySend(c, DataFrame(c.tx.value.trans, c.tx.value.files[i])), false))
  {
    hide FailTx, TrySend, DataFrame, Sound, Onward;
    FailTxGood(c, true);
    if !Works(c) {
      var f := DataFrame(c.tx.value.trans, c.tx.value.files[i]);
      TrySendGood(c, f);
      FailTxGood(TrySend(c, f), false);
      GoodOn(c, TrySend(c, f), FailTx(TrySend(c, f), false));
    }
  }

  lemma GoodSelf(c: Conn)
    requires Sound(c)
    ensures GoodTx(c, c)
  {
  }

  /** A step of the sender, then another. */
  lemma GoodOn(c: Conn, d: Conn, e: Conn)
    requires c.tx.Some? && d.tx.Some? && c.tx.value.phase in {TxSending, TxWaitDone}
    requires d.rx == c.rx && d.rxResults == c.rxResults && d.state == c.state && d.link == c.link && d.tries >= c.tries
    requires Good(d, e) && e.rx == d.rx && e.state == d.state
    ensures GoodTx(c, e)
  {
    hide Sound;
  }

  lemma WantsDue(f: TxFile, due: bool)
    requires Wants(f, due)
    ensures Wants(f, true)
  {
  }

  lemma FileOk(t: Tx, i: nat)
    requires TxOk(t) && i < |t.files|
    ensures TxFileOk(t.files[i])
  {
  }

  lemma EncodableMore(out: seq<Frame>, f: Frame)
    requires Encodable(out) && DF.Sendable(f)
    ensures Encodable(out + [f])
  {
    hide DF.Sendable;
  }

  lemma SendBlockGood(c: Conn, i: nat)
    requires Sound(c) && c.tx.Some? && i < |c.tx.value.files| && Wants(c.tx.value.files[i], true) && Works(c)
    ensures ConnOk(c) && Sound(SendBlock(c, i)) && SendBlock(c, i).tx.value.phase == c.tx.value.phase
    ensures var d := SendBlock(c, i);
            && d.rx == c.rx && d.rxResults == c.rxResults && d.state == c.state
            && d.link == c.link && d.tries >= c.tries
  {
    hide RxFilesOk, TxFilesOk, Twice, Encodable, DataFrame, Advance;
    SoundRx(c);
    FileOk(c.tx.value, i);
    DataSendable(c.tx.value.trans, c.tx.value.files[i]);
    EncodableMore(c.out, DataFrame(c.tx.value.trans, c.tx.value.files[i]));
    SendsBlock(c.out, c.tx.value.files, i, c.tx.value.trans);
  }

  lemma AfterPumpGood(c: Conn)
    requires Sound(c) && c.tx.Some? && c.state != Closing
    ensures Good(c, AfterPump(c)) && AfterPump(c).rx == c.rx && AfterPump(c).state == c.state
  {
    hide TxFilesOk, RxFilesOk, Twice, Encodable, Finish, AllAcked, AllSent;
    var t := c.tx.value;
    var d := c.(tx := Some(if t.phase == TxSending && AllSent(t) then t.(phase := TxWaitDone) else t));
    assert Sound(d);
    FinishGood(d);
  }

  lemma MaybeFinishGood(c: Conn)
    requires Sound(c) && c.tx.Some? && c.state != Closing
    ensures Good(c, MaybeFinish(c)) && MaybeFinish(c).rx == c.rx && MaybeFinish(c).state == c.state
  {
    FinishGood(c);
    hide Sound, Finish;
  }

  lemma {:induction false} ConfirmIdsOk(files: seq<TxFile>, ids: seq<u16>)
    requires TxFilesOk(files)
    ensures TxFilesOk(ConfirmIds(files, ids)) && Shorter(files, ConfirmIds(files, ids))
    decreases |ids|
  {
    if ids != [] {
      var i := FindTx(files, ids[0]);
      var files' := if i < |files| then files[i := files[i].(confirmed := true)] else files;
      assert i < |files| ==> TxFileOk(files'[i]);
      hide TxFileOk;
      ConfirmIdsOk(files', ids[1..]);
    }
  }

  lemma {:induction false} DropAckedTail(retrans: seq<nat>, last: nat)
    ensures |DropAcked(retrans, last)| <= |retrans|
    ensures DropAcked(retrans, last) == retrans[|retrans| - |DropAcked(retrans, last)|..]
  {
    if retrans != [] && retrans[0] <= last {
      DropAckedTail(retrans[1..], last);
    }
  }

  lemma AckFileOk(f: TxFile, last: u32)
    requires TxFileOk(f)
    ensures TxFileOk(AckFile(f, last)) && AckFile(f, last).id == f.id && AckFile(f, last).content == f.content
    ensures AckFile(f, last).next == f.next && |AckFile(f, last).retrans| <= |f.retrans|
  {
    DropAckedTail(f.retrans, last);
  }

  lemma {:induction false} AckEachOk(files: seq<TxFile>, acks: seq<AckEntry>)
    requires TxFilesOk(files)
    ensures TxFilesOk(AckEach(files, acks)) && Shorter(files, AckEach(files, acks))
    decreases |acks|
  {
    hide TxFileOk, AckFile;
    if acks != [] {
      var i := FindTx(files, acks[0].id);
      if i < |files| {
        AckFileOk(files[i], acks[0].last);
      }
      AckEachOk(AckOne(files, acks[0]), acks[1..]);
    }
  }

  /** The sender's books change in the middle of a transfer. */
  lemma SenderMoves(c: Conn, t: Tx)
    requires Sound(c) && c.tx.Some? && !Terminal(c.tx.value.phase)
    requires TxFilesOk(t.files) && Twice(c.out, t.files) && t.phase in {TxWaitConfirm, TxSending, TxWaitDone}
    ensures Good(c, c.(tx := Some(t)))
  {
    hide TxFilesOk, RxFilesOk, Twice, Encodable;
  }

  lemma OnAckGood(c: Conn, trans: u16, acks: seq<AckEntry>)
    requires Sound(c) && c.state != Closing
    ensures Good(c, OnAck(c, trans, acks))
  {
    hide TxFilesOk, RxFilesOk, Twice, Encodable, MaybeFinish, Shutdown, Revived, Shorter, AckEach;
    ShutdownGood(c);
    if c.tx.Some? && (c.tx.value.phase == TxSending || c.tx.value.phase == TxWaitDone) {
      AckEachOk(c.tx.value.files, acks);
      TwiceGrows(c.out, c.tx.value.files, AckEach(c.tx.value.files, acks));
      SenderMoves(c, c.tx.value.(files := AckEach(c.tx.value.files, acks)));
      MaybeFinishGood(c.(tx := Some(c.tx.value.(files := AckEach(c.tx.value.files, acks)))));
    }
  }

  lemma OnDoneGood(c: Conn, trans: u16)
    requires Sound(c) && c.state != Closing
    ensures Good(c, OnDone(c, trans))
  {
    hide TxFilesOk, RxFilesOk, Twice, Encodable, MaybeFinish, Shutdown;
    ShutdownGood(c);
    if c.tx.Some? && !Terminal(c.tx.value.phase) {
      var t := c.tx.value;
      var d := c.(tx := Some(t.(doneReceived := true, phase := if t.phase == TxSending then TxWaitDone else t.phase)));
      assert Sound(d);
      MaybeFinishGood(d);
    }
  }

  lemma ArmedGood(c: Conn, t: Tx)
    requires Sound(c) && c.tx.Some? && c.tx.value.phase == TxWaitConfirm && c.state != Closing
    requires TxFilesOk(t.files) && t.phase == TxWaitConfirm && Twice(c.out, t.files)
    ensures Good(c, c.(tx := Some(Armed(t))))
  {
    hide TxFilesOk, RxFilesOk, Twice, Encodable;
  }

  lemma OnConfirmGood(c: Conn, trans: u16, ids: seq<u16>)
    requires Sound(c) && c.state != Closing
    ensures Good(c, OnConfirm(c, trans, ids))
  {
    hide TxFilesOk, RxFilesOk, Twice, Encodable, Shutdown, Armed;
    ShutdownGood(c);
    if c.tx.Some? && c.tx.value.phase == TxWaitConfirm {
      var files := ConfirmIds(c.tx.value.files, ids);
      ConfirmIdsOk(c.tx.value.files, ids);
      TwiceGrows(c.out, c.tx.value.files, files);
      ArmedGood(c, c.tx.value.(files := files, allConfirmed := forall i | 0 <= i < |files| :: files[i].confirmed));
    }
  }

  lemma OnRequestGood(c: Conn, trans: u16)
    requires Sound(c) && c.state != Closing
    ensures Good(c, OnRequest(c, trans))
  {
    hide TxFilesOk, RxFilesOk, Twice, Encodable, Shutdown, Armed;
    ShutdownGood(c);
    if c.tx.Some? && c.tx.value.phase == TxWaitConfirm {
      ArmedGood(c, c.tx.value.(requested := true));
    }
  }

  lemma {:induction false} NewTxOk(trans: u16, items: seq<Item>)
    requires 0 < |items| <= MAX_FILES && ItemsOk(items) && forall it | it in items :: |it.content| <= MAX_SIZE
    ensures TxOk(NewTx(trans, items))
  {
    var files := NewTx(trans, items).files;
    forall i | 0 <= i < |files|
      ensures TxFileOk(files[i]) && files[i].id == i + 1
    {
      assert items[i] in items;
    }
  }

  lemma SendFilesGood(c: Conn, items: seq<Item>, canOpen: bool)
    requires Sound(c) && ItemsOk(items)
    ensures Good(c, SendFiles(c, items, canOpen).conn)
  {
    hide TxFilesOk, RxFilesOk, Twice, Encodable, SendAll, HeaderFrames, NewTx, EntriesOf, EntryNamed;
    if c.state == Ready && c.tx.None? && 0 < |items| <= MAX_FILES {
      var d := c.(nextTrans := Next16(c.nextTrans));
      assert Sound(d);
      if canOpen && forall it | it in items :: |it.content| <= MAX_SIZE {
        var t := NewTx(c.nextTrans, items);
        NewTxOk(c.nextTrans, items);
        NewTxShape(c.nextTrans, items);
        EntriesNamed(t);
        HeaderFramesKind(t.trans, |items|, EntriesOf(t.files));
        HeaderFramesSendable(t.trans, |items|, EntriesOf(t.files));
        SendAllGood(d, HeaderFrames(t.trans, |items|, EntriesOf(t.files)));
        NothingYet(SendAll(d, HeaderFrames(t.trans, |items|, EntriesOf(t.files))).conn, t);
      }
    }
  }

  /** No block has been sent before the transfer starts. */
  lemma NothingYet(c: Conn, t: Tx)
    requires Sound(c) && c.tx.None?
    ensures Twice(c.out, t.files)
  {
    hide ConnOk, Reported;
    forall id: int, num: int
      ensures Sends(c.out, id, num) <= Allowance(t.files, id, num)
    {
      assert Sends(c.out, id, num) <= Allowance(TxFiles(c), id, num);
    }
  }

  lemma {:induction false} HeaderFramesKind(trans: u16, node: u16, es: seq<Entry>)
    ensures forall i | 0 <= i < |HeaderFrames(trans, node, es)| :: HeaderFrames(trans, node, es)[i].FileHeader?
    decreases |es|
  {
    var n := Fitting(es, HEADER_CAP - 10);
    if n > 0 {
      HeaderFramesKind(trans, node, es[n..]);
    }
  }

  lemma NewTxShape(trans: u16, items: seq<Item>)
    requires |items| <= MAX_FILES && forall it | it in items :: |it.content| <= MAX_SIZE
    ensures var t := NewTx(trans, items);
            && t.trans == trans && t.phase == TxWaitConfirm && |t.files| == |items|
            && forall i | 0 <= i < |t.files| :: |t.files[i].content| <= MAX_SIZE
  {
    assert forall i | 0 <= i < |items| :: items[i] in items;
  }

  // ---------------------------------------------------------------- receiver

  lemma {:induction false} OpenFilesOk(hdr: seq<Entry>, opens: nat)
    ensures RxFilesOk(OpenFiles(hdr, opens)) && |OpenFiles(hdr, opens)| <= |hdr|
    decreases |hdr|
  {
    if hdr != [] && opens != 0 && hdr[0].size <= MAX_SIZE {
      OpenFilesOk(hdr[1..], opens - 1);
      assert RxFileOk(NewRxFile(hdr[0]));
      hide RxFileOk, NewRxFile;
    }
  }

  lemma NoFilesOk()
    ensures RxFilesOk([])
  {
  }

  lemma AnswersEncodable(t: Rx)
    requires 0 < |t.hdr| <= MAX_FILES
    ensures Encodable([Confirm(t.trans, EntryIds(t.hdr)), Request(t.trans, EntryIds(t.hdr))])
  {
  }

  /** The receiver's books change in the middle of a transfer. */
  lemma ReceiverMoves(c: Conn, t: Rx)
    requires Sound(c) && c.rx.Some? && !Terminal(c.rx.value.phase)
    requires RxFilesOk(t.files) && t.doneSent == c.rx.value.doneSent && t.phase in {Idle, RxWaitData, RxWaitDoneAck}
    requires t.phase == RxWaitData ==> |t.files| <= MAX_FILES
    ensures Good(c, c.(rx := Some(t)))
  {
    hide TxFilesOk, RxFilesOk, Twice, Encodable;
  }

  lemma HeaderCompleteGood(c: Conn, opens: nat)
    requires Sound(c) && c.rx.Some? && c.state != Closing && c.rx.value.hdr != []
    ensures Good(c, HeaderComplete(c, opens))
  {
    hide Sound, SendAll, FailRx, TrySend, OpenFiles;
    FailRxGood(c, false);
    var t := c.rx.value;
    OpenFilesOk(t.hdr, opens);
    if t.phase == Idle {
      var d := c.(rx := Some(t.(files := OpenFiles(t.hdr, opens))));
      ReceiverMoves(c, d.rx.value);
      TrySendGood(d, Rst(t.trans, RST_NO_STORAGE));
      FailRxGood(TrySend(d, Rst(t.trans, RST_NO_STORAGE)), false);
      FailRxGood(d, false);
      if |t.hdr| <= MAX_FILES {
        var frames := [Confirm(t.trans, EntryIds(t.hdr)), Request(t.trans, EntryIds(t.hdr))];
        AnswersEncodable(t);
        SendAllGood(d, frames);
        FailRxGood(SendAll(d, frames).conn, false);
        ReceiverMoves(SendAll(d, frames).conn, d.rx.value.(phase := RxWaitData));
      }
    }
  }

  lemma OnHeaderGood(c: Conn, trans: u16, node: u16, es: seq<Entry>, opens: nat)
    requires Sound(c) && c.state != Closing
    ensures Good(c, OnHeader(c, trans, node, es, opens))
  {
    hide TxFilesOk, RxFilesOk, Twice, Encodable, Shutdown, HeaderComplete, Accumulate;
    ShutdownGood(c);
    if !(c.rx.Some? && Terminal(c.rx.value.phase)) {
      var t := if c.rx.None? then FreshRx(trans, node) else c.rx.value;
      var (hdr, fits) := Accumulate(t.hdr, es, node);
      var d := c.(rx := Some(t.(hdr := hdr)));
      NoFilesOk();
      assert Sound(d);
      ShutdownGood(d);
      if |hdr| >= node > 0 {
        HeaderCompleteGood(d, opens);
      }
    }
  }

  /** The expected block is written. */
  lemma WriteGood(c: Conn, i: nat, payload: seq<byte>)
    requires Sound(c) && c.rx.Some? && c.rx.value.phase == RxWaitData && i < |c.rx.value.files|
    requires var f := c.rx.value.files[i];
             RxFileOk(f) && f.expected < f.total && f.expected * BLOCK <= f.size
             && |payload| == BlockLen(f.size, f.expected)
    ensures var t := c.rx.value;
            Good(c, c.(rx := Some(t.(files := t.files[i := WriteBlock(t.files[i], payload)], ackPending := true))))
  {
    hide Sound, WriteBlock, RxFileOk, BlockLen;
    SoundRx(c);
    WriteBlockOk(c.rx.value.files[i], payload);
    WaitsForFew(c);
    var t := c.rx.value;
    ReceiverMoves(c, t.(files := t.files[i := WriteBlock(t.files[i], payload)], ackPending := true));
  }

  lemma WaitsForFew(c: Conn)
    requires Sound(c) && c.rx.Some? && c.rx.value.phase == RxWaitData
    ensures |c.rx.value.files| <= MAX_FILES
  {
  }

  lemma OnDataGood(c: Conn, trans: u16, id: u16, num: u32, payload: seq<byte>, writes: bool)
    requires Sound(c) && c.state != Closing
    ensures Good(c, OnData(c, trans, id, num, payload, writes))
  {
    hide Sound, Reset, WriteBlock, RxFileOk, Revived, BlockLen;
    SoundRx(c);
    ResetGood(c, trans, RST_INTERNAL);
    ResetGood(c, trans, RST_WRITE_ERROR);
    if c.rx.Some? && c.rx.value.phase == RxWaitData {
      var t := c.rx.value;
      var i := FindRx(t.files, id);
      if i < |t.files| && num == t.files[i].expected < t.files[i].total {
        BlockStarts(t.files[i]);
        if |payload| == BlockLen(t.files[i].size, num) {
          WriteGood(c, i, payload);
        }
      }
    }
  }

  lemma BlockStarts(f: RxFile)
    requires RxFileOk(f) && f.expected < f.total
    ensures f.expected * BLOCK <= f.size
  {
  }

  lemma WriteBlockOk(f: RxFile, payload: seq<byte>)
    ensures RxFileOk(f) && f.expected < f.total && |payload| == BlockLen(f.size, f.expected)
            ==> RxFileOk(WriteBlock(f, payload))
  {
  }

  lemma OnDoneAckGood(c: Conn, trans: u16)
    requires Sound(c) && c.state != Closing
    ensures Good(c, OnDoneAck(c, trans))
  {
    hide TxFilesOk, RxFilesOk, Twice, Encodable, Shutdown;
    ShutdownGood(c);
  }

  lemma FlushAckGood(c: Conn)
    requires Sound(c) && c.rx.Some? && c.rx.value.phase == RxWaitData && c.state != Closing
    ensures var d := FlushAck(c);
            && Good(c, d) && d.state == c.state && d.tx == c.tx
            && d.rx.value == c.rx.value.(ackPending := false, phase := d.rx.value.phase)
            && if AckList(c.rx.value.files, MAX_ACKS) != [] && !Works(c) then
                 d.rx.value.phase == Failed && d.tries == c.tries + 1
               else
                 d.rx.value.phase == RxWaitData
  {
    hide TxFilesOk, RxFilesOk, Twice, Encodable, TrySend, AckList;
    var t := c.rx.value.(ackPending := false);
    var d := c.(rx := Some(t));
    assert Sound(d);
    var acks := AckList(t.files, MAX_ACKS);
    AckListSize(t.files, MAX_ACKS);
    TrySendGood(d, Ack(t.trans, acks));
    var e := TrySend(d, Ack(t.trans, acks));
    FailRxGood(e, false);
  }

  lemma SendDoneGood(c: Conn, shaOk: bool)
    requires Sound(c) && c.rx.Some? && c.state != Closing && !c.rx.value.doneSent
    requires c.rx.value.phase == RxWaitData || c.rx.value.phase == Failed
    requires 0 < |c.rx.value.files| <= MAX_FILES
    ensures var d := SendDone(c, shaOk);
            && Sound(d) && d.tx == c.tx && d.rx.Some? && d.state == c.state && d.link == c.link && d.tries >= c.tries
            && (Revived(d) <==> c.rx.value.phase == Failed && shaOk && Works(c))
            && (Revived(d) ==> d.rx.value.phase == RxWaitDoneAck)
  {
    hide TxFilesOk, RxFilesOk, Twice, Encodable, TrySend, FailRx;
    var t := c.rx.value;
    var f := if shaOk then Done(t.trans, RxIds(t.files)) else Rst(t.trans, RST_INTERNAL);
    TrySendGood(c, f);
    FailRxGood(TrySend(c, f), false);
  }

  /**
   * The guard under which a failed transfer comes back: acks are due, their send fails, the next send works,
   * and every file is there with a matching checksum.
   */
  predicate Revives(c: Conn, shaOk: bool)
    requires c.rx.Some? ==> RxOk(c.rx.value)
  {
    && c.rx.Some? && c.rx.value.phase == RxWaitData
    && var t := c.rx.value;
       && t.ackPending && AckList(t.files, MAX_ACKS) != [] && !Works(c)
       && !t.doneSent && t.files != [] && AllComplete(t.files) && shaOk
       && c.tries + 1 < |c.link| && c.link[c.tries + 1]
  }

  lemma TickRxGood(c: Conn, shaOk: bool)
    requires Sound(c) && c.state != Closing
    ensures ConnOk(c)
    ensures var d := TickRx(c, shaOk);
            && Sound(d) && Onward(c, d) && d.state == c.state
            && (Revived(d) <==> Revived(c) || Revives(c, shaOk))
            && (Revives(c, shaOk) ==> d.rx.value.phase == RxWaitDoneAck)
  {
    hide Sound, FlushAck, SendDone, AllComplete, AckList;
    SoundRx(c);
    if c.rx.Some? && c.rx.value.phase == RxWaitData {
      FlushAckGood(c);
      if Revived(c) {
        DoneBefore(c);
      }
      var d := if c.rx.value.ackPending then FlushAck(c) else c;
      if !d.rx.value.doneSent && d.rx.value.files != [] {
        SendDoneGood(d, shaOk);
      }
    }
  }

  lemma DoneBefore(c: Conn)
    requires Sound(c) && Revived(c)
    ensures c.rx.value.doneSent
  {
  }

  lemma SoundRx(c: Conn)
    requires Sound(c)
    ensures ConnOk(c) && (c.rx.Some? ==> RxOk(c.rx.value)) && (c.tx.Some? ==> TxOk(c.tx.value))
  {
  }

  // ---------------------------------------------------------------- everything

  lemma TickTxGood(c: Conn, due: bool, readable: nat)
    requires Sound(c) && c.state != Closing
    ensures var d := TickTx(c, due, readable); Good(c, d) && d.state == c.state && d.rx == c.rx
  {
    SoundRx(c);
    if c.tx.Some? && c.tx.value.phase in {TxSending, TxWaitDone} {
      PumpGood(c, due, SEND_BUDGET, readable);
      AfterPumpGood(Pump(c, due, SEND_BUDGET, readable));
    }
    hide Sound, Pump, AfterPump;
  }

  lemma TickRetryGood(c: Conn, due: bool)
    requires Sound(c) && c.state != Closing
    ensures var d := TickRetry(c, due); Good(c, d) && d.state == c.state && d.rx == c.rx
  {
    hide Sound, FailTx, SendAll, HeaderFrames, EntriesOf, EntryNamed;
    if c.tx.Some? && c.tx.value.phase == TxWaitConfirm {
      var t := c.tx.value.(retries := c.tx.value.retries + 1);
      var d := c.(tx := Some(t));
      TwiceOf(c);
      SenderMoves(c, t);
      FailTxGood(d, true);
      FilesSmall(t);
      var frames := HeaderFrames(t.trans, |t.files|, EntriesOf(t.files));
      EntriesNamed(t);
      HeaderFramesKind(t.trans, |t.files|, EntriesOf(t.files));
      HeaderFramesSendable(t.trans, |t.files|, EntriesOf(t.files));
      SendAllGood(d, frames);
      FailTxGood(SendAll(d, frames).conn, false);
    }
  }

  lemma TwiceOf(c: Conn)
    requires Sound(c) && c.tx.Some?
    ensures TxFilesOk(c.tx.value.files) && Twice(c.out, c.tx.value.files)
  {
  }

  lemma FilesSmall(t: Tx)
    requires TxOk(t)
    ensures |t.files| <= MAX_FILES && forall i | 0 <= i < |t.files| :: |t.files[i].content| <= MAX_SIZE
  {
  }

  lemma TimeoutsGood(c: Conn, env: Env)
    requires Sound(c) && c.state != Closing
    ensures var d := Timeouts(c, env); Good(c, d) && d.state == c.state && d.link == c.link
  {
    FailTxGood(c, true);
    var d := if env.txTimeout then FailTx(c, true) else c;
    FailRxGood(d, true);
    hide Sound, FailTx, FailRx;
  }

  /** Whether this event brings a failed receive transfer back. */
  predicate RevivesStep(c: Conn, ev: Event)
    requires ConnOk(c)
  {
    && ev.Timer? && c.state != Closing && !(c.state == Negotiating && ev.env.negotiation)
    && Revives(Timeouts(c, ev.env), ev.env.shaOk)
  }

  lemma TickGood(c: Conn, env: Env)
    requires Sound(c)
    ensures ConnOk(c)
    ensures var d := Tick(c, env);
            && Sound(d) && Onward(c, d)
            && (Revived(d) <==> Revived(c) || RevivesStep(c, Timer(env)))
            && (RevivesStep(c, Timer(env)) ==> d.state != Closing && d.rx.value.phase == RxWaitDoneAck)
  {
    hide Sound, Shutdown, TickRx, TickTx, TickRetry, Timeouts, Revives, Revived;
    SoundRx(c);
    if c.state != Closing {
      ShutdownGood(c);
      TimeoutsGood(c, env);
      var c1 := Timeouts(c, env);
      TickRxGood(c1, env.shaOk);
      var d := TickRx(c1, env.shaOk);
      TickTxGood(d, env.retranDue, env.readable);
      TickRetryGood(TickTx(d, env.retranDue, env.readable), env.retryDue);
    }
  }

  lemma HandleGood(c: Conn, f: Frame, disk: Disk)
    requires Sound(c)
    ensures Good(c, Handle(c, f, disk))
  {
    hide Sound, Shutdown, Reset, FailTx, FailRx, OnHeader, OnConfirm, OnRequest, OnData, OnAck, OnDone, OnDoneAck,
      Looks;
    if c.state != Closing {
      ShutdownGood(c);
      match f
      case Setting(mtu, _) =>
        ResetGood(c, 0, RST_WITHOUT_SETTING);
        if c.state == Negotiating {
          ReadyGood(c);
        }
      case FileHeader(trans, node, es) => OnHeaderGood(c, trans, node, es, disk.opens);
      case Confirm(trans, ids) => OnConfirmGood(c, trans, ids);
      case Request(trans, _) => OnRequestGood(c, trans);
      case Data(trans, _, id, num, payload) => OnDataGood(c, trans, id, num, payload, disk.writes);
      case Ack(trans, acks) => OnAckGood(c, trans, acks);
      case Done(trans, _) => OnDoneGood(c, trans);
      case DoneAck(trans, _) => OnDoneAckGood(c, trans);
      case Rst(trans, _) =>
        FailTxGood(c, false);
        FailRxGood(c, false);
      case _ =>
    }
  }

  lemma ReadyGood(c: Conn)
    requires Sound(c) && c.state == Negotiating
    ensures Sound(c.(state := Ready))
  {
    hide TxFilesOk, RxFilesOk, Twice, Encodable;
  }

  /** One event: the discipline holds again, what was finished stays finished, and only the guard revives. */
  lemma {:induction false} StepGood(c: Conn, ev: Event)
    requires Sound(c) && EventOk(ev)
    ensures ConnOk(c)
    ensures var d := Step(c, ev);
            Sound(d) && Onward(c, d) && (Revived(d) <==> Revived(c) || RevivesStep(c, ev))
  {
    hide Sound, Shutdown, SendFiles, Handle, Tick, Revives, Revived, Timeouts;
    SoundRx(c);
    ShutdownGood(c);
    match ev
    case Offer(items, canOpen) => SendFilesGood(c, items, canOpen);
    case Arrive(f, disk) => HandleGood(c, f, disk);
    case Timer(env) => TickGood(c, env);
    case _ =>
  }

  // ---------------------------------------------------------------- runs

  ghost predicate Possible(c: Conn, events: seq<Event>)
    decreases |events|
  {
    events == [] || (ConnOk(c) && Possible(Step(c, events[0]), events[1..]))
  }

  function After(c: Conn, events: seq<Event>): Conn
    requires Possible(c, events)
    decreases |events|
  {
    if events == [] then c else After(Step(c, events[0]), events[1..])
  }

  /** Some event of the run meets the guard. */
  predicate EverRevives(c: Conn, events: seq<Event>)
    requires Possible(c, events)
    decreases |events|
  {
    events != [] && (RevivesStep(c, events[0]) || EverRevives(Step(c, events[0]), events[1..]))
  }

  lemma {:induction false} RunGood(c: Conn, events: seq<Event>)
    requires Sound(c) && forall i | 0 <= i < |events| :: EventOk(events[i])
    ensures Possible(c, events)
    ensures var d := After(c, events);
            Sound(d) && Onward(c, d) && (Revived(d) <==> Revived(c) || EverRevives(c, events))
    decreases |events|
  {
    hide Sound, Step, RevivesStep, Revived;
    if events != [] {
      StepGood(c, events[0]);
      RunGood(Step(c, events[0]), events[1..]);
    }
  }

  lemma OpenSound(hasDir: bool, link: seq<bool>)
    ensures Sound(Open(hasDir, link)) && !Revived(Open(hasDir, link)) && Open(hasDir, link).link == link
  {
    var c := NewConn(hasDir, link);
    assert Sound(c);
    TrySendGood(c, Setting(1472, 0));
    ShutdownGood(TrySend(c, Setting(1472, 0)));
    hide Sound, TrySend, Shutdown;
  }

  /** In one tick a receive transfer reports failure and yet announces that it is done, exactly under the guard. */
  lemma TickRxRevivesIff(c: Conn, shaOk: bool)
    requires ConnOk(c) && c.rx.Some? && c.rx.value.phase == RxWaitData
    ensures var e := TickRx(c, shaOk);
            && (e.rx.value.phase == RxWaitDoneAck && e.rxResults == c.rxResults + [false] <==> Revives(c, shaOk))
            && (Revives(c, shaOk) ==> FlushAck(c).rx.value.phase == Failed)
  {
    assert |c.rxResults + [false]| != |c.rxResults|;
  }

  /** The peer's DONE_ACK then makes it report a second result. */
  lemma {:induction false} RevivedSucceeds(c: Conn, env: Env, disk: Disk)
    requires Sound(c) && ConnOk(c) && RevivesStep(c, Timer(env))
    ensures var d := Step(c, Timer(env));
            && ConnOk(d) && d.rx.Some?
            && Step(d, Arrive(DoneAck(d.rx.value.trans, []), disk)).rxResults == [false, true]
  {
    hide Sound, Tick;
    StepGood(c, Timer(env));
    TickGood(c, env);
    SoundRx(Tick(c, env));
    ReportsOf(Tick(c, env));
  }

  lemma ReportsOf(c: Conn)
    requires Sound(c)
    ensures Reported(c)
  {
  }

  /**
   * Over any link and against any peer: no run is stuck on a broken precondition, the close is reported at
   * most once, a transfer has one result exactly when it is in a terminal phase, and when the close is
   * reported every registered transfer has exactly one result; except that a receive transfer has reported
   * failure once more exactly when some tick of the run met the guard.
   */
  lemma {:induction false} ExactlyOneResult(hasDir: bool, link: seq<bool>, events: seq<Event>)
    requires forall i | 0 <= i < |events| :: EventOk(events[i])
    ensures Possible(Open(hasDir, link), events)
    ensures var c := After(Open(hasDir, link), events);
            var early := if EverRevives(Open(hasDir, link), events) then [false] else [];
            && c.closed <= 1
            && |c.txResults| == (if c.tx.Some? && Terminal(c.tx.value.phase) then 1 else 0)
            && c.rxResults == early + (if c.rx.Some? then Told(c.rx.value.phase) else [])
            && (c.closed == 1 ==> |c.txResults| == (if c.tx.Some? then 1 else 0))
            && (c.closed == 1 ==> |c.rxResults| == |early| + if c.rx.Some? then 1 else 0)
  {
    OpenSound(hasDir, link);
    RunGood(Open(hasDir, link), events);
    ReportsOf(After(Open(hasDir, link), events));
    hide Possible, After, Sound, Open, EverRevives;
  }

  /** On a link whose failures stay the guard is never met. */
  lemma {:induction false} StickyNeverRevives(c: Conn, events: seq<Event>)
    requires Sound(c) && Sticky(c.link) && forall i | 0 <= i < |events| :: EventOk(events[i])
    ensures Possible(c, events) && !EverRevives(c, events)
    decreases |events|
  {
    hide Sound, Step, Timeouts, Revived;
    if events != [] {
      StepGood(c, events[0]);
      if events[0].Timer? && c.state != Closing {
        TimeoutsGood(c, events[0].env);
      }
      StickyNeverRevives(Step(c, events[0]), events[1..]);
    }
  }

  /** Between two calls a finished transfer is never touched again, whatever follows and whatever the link. */
  lemma {:induction false} TerminalIsFinal(hasDir: bool, link: seq<bool>, first: seq<Event>, second: seq<Event>)
    requires forall i | 0 <= i < |first + second| :: EventOk((first + second)[i])
    ensures Possible(Open(hasDir, link), first)
    ensures var c := After(Open(hasDir, link), first);
            Possible(c, second) && Onward(c, After(c, second))
  {
    OpenSound(hasDir, link);
    assert forall i | 0 <= i < |first| :: first[i] == (first + second)[i];
    assert forall i | 0 <= i < |second| :: second[i] == (first + second)[|first| + i];
    RunGood(Open(hasDir, link), first);
    RunGood(After(Open(hasDir, link), first), second);
    hide Possible, After, Sound, Open;
  }
}
