/**
 * What closes a DFile connection: the frames a peer must not send, told apart by what was agreed so far, and
 * that over every run a connection is closed exactly when one of them came, a block could not be written, the
 * negotiation took too long, or the application or the link ended it.
 */
module DFileRules {
  import opened Bytes
  import opened DFileCore
  import DR = DFileResults

  // ---------------------------------------------------------------- the list so far

  ghost function Known(hdr: seq<Entry>): set<u16> {
    set i | 0 <= i < |hdr| :: hdr[i].id
  }

  predicate Distinct(hdr: seq<Entry>) {
    forall i, j | 0 <= i < j < |hdr| :: hdr[i].id != hdr[j].id
  }

  /** The entries known are distinct and not too many; the files opened are the first of them. */
  ghost predicate Listed(c: Conn) {
    c.rx.Some? ==>
      var t := c.rx.value;
      && Distinct(t.hdr) && |t.hdr| <= t.node && |t.files| <= |t.hdr|
      && forall i | 0 <= i < |t.files| :: t.files[i].id == t.hdr[i].id
  }

  lemma {:induction false} KnownSize(hdr: seq<Entry>)
    requires Distinct(hdr)
    ensures |Known(hdr)| == |hdr|
  {
    if hdr != [] {
      var n := |hdr| - 1;
      KnownSize(hdr[..n]);
      KnownMore(hdr[..n], hdr[n]);
      assert hdr == hdr[..n] + [hdr[n]];
      assert hdr[n].id !in Known(hdr[..n]);
    }
  }

  lemma KnownMore(hdr: seq<Entry>, e: Entry)
    ensures Known(hdr + [e]) == Known(hdr) + {e.id}
  {
    var more := hdr + [e];
    assert more[|hdr|] == e;
    assert forall i | 0 <= i < |hdr| :: more[i] == hdr[i];
  }

  lemma KnownFirst(es: seq<Entry>)
    requires es != []
    ensures Known(es) == {es[0].id} + Known(es[1..])
  {
    assert forall i | 0 < i < |es| :: es[i] == es[1..][i - 1];
  }

  lemma SubsetSize(a: set<u16>, b: set<u16>)
    requires a <= b
    ensures |a| <= |b|
  {
    assert b == a + (b - a);
  }

  lemma EmptyList()
    ensures Distinct([]) && Known([]) == {}
  {
  }

  lemma HasIdIff(hdr: seq<Entry>, id: u16)
    ensures HasId(hdr, id) <==> id in Known(hdr)
  {
    if HasId(hdr, id) {
      var e :| e in hdr && e.id == id;
    }
    assert forall i | 0 <= i < |hdr| :: hdr[i] in hdr;
  }

  lemma DistinctMore(hdr: seq<Entry>, e: Entry)
    requires Distinct(hdr) && !HasId(hdr, e.id)
    ensures Distinct(hdr + [e])
  {
    assert forall i | 0 <= i < |hdr| :: hdr[i] in hdr;
  }

  /** A list overflows exactly when the number of different ids exceeds what was announced. */
  lemma {:induction false} AccumulateIff(hdr: seq<Entry>, es: seq<Entry>, node: u16)
    requires Distinct(hdr) && |hdr| <= node
    ensures var r := Accumulate(hdr, es, node);
            && Distinct(r.0) && hdr <= r.0 && |r.0| <= node
            && (r.1 <==> |Known(hdr) + Known(es)| <= node)
            && (r.1 ==> Known(r.0) == Known(hdr) + Known(es))
    decreases |es|
  {
    hide Known, Distinct, HasId;
    if es == [] {
      KnownSize(hdr);
      EmptyList();
      assert Known(hdr) + Known(es) == Known(hdr);
    } else {
      KnownFirst(es);
      var e := es[0];
      HasIdIff(hdr, e.id);
      if HasId(hdr, e.id) {
        AccumulateIff(hdr, es[1..], node);
        assert Known(hdr) + Known(es) == Known(hdr) + Known(es[1..]);
      } else {
        DistinctMore(hdr, e);
        KnownMore(hdr, e);
        if |hdr| + 1 > node {
          KnownSize(hdr + [e]);
          SubsetSize(Known(hdr + [e]), Known(hdr) + Known(es));
        } else {
          AccumulateIff(hdr + [e], es[1..], node);
          assert Known(hdr) + Known(es) == Known(hdr + [e]) + Known(es[1..]);
        }
      }
    }
  }

  // ---------------------------------------------------------------- what a peer must not send

  /** The sender is at this stage, and the frame is about another transfer. */
  predicate Stranger(c: Conn, trans: u16, phases: set<Phase>) {
    c.tx.Some? && c.tx.value.phase in phases && c.tx.value.trans != trans
  }

  /** A list that contradicts itself or what was announced, while lists are still heard. */
  ghost predicate BadList(c: Conn, trans: u16, node: u16, es: seq<Entry>) {
    && (c.rx.Some? ==> c.rx.value.phase !in {Failed, RxDone})
    && (|| node == 0
        || (c.rx.Some? && (c.rx.value.trans != trans || c.rx.value.node != node))
        || |(if c.rx.Some? then Known(c.rx.value.hdr) else {}) + Known(es)| > node)
  }

  /** The block belongs to a file of the transfer being received. */
  ghost predicate Fits(c: Conn, trans: u16, id: u16, num: u32, i: nat) {
    && c.rx.Some? && c.rx.value.phase == RxWaitData && c.rx.value.trans == trans
    && i < |c.rx.value.files| && c.rx.value.files[i].id == id && num < c.rx.value.files[i].total
  }

  ghost predicate Repeats(c: Conn, trans: u16, id: u16, num: u32) {
    exists i: nat :: Fits(c, trans, id, num, i) && num < c.rx.value.files[i].expected
  }

  /** A whole block, or what is left of the file. */
  function LengthOf(size: nat, num: nat): int {
    if (num + 1) * BLOCK <= size then BLOCK else size - num * BLOCK
  }

  /** The block is the next of its file and as long as it should be: a full one, or the rest of the file. */
  ghost predicate NextDue(c: Conn, trans: u16, id: u16, num: u32, payload: seq<byte>) {
    exists i: nat :: Fits(c, trans, id, num, i) && num == c.rx.value.files[i].expected
                     && |payload| == LengthOf(c.rx.value.files[i].size, num)
  }

  /** Frames of these types are heard at this stage, so an undecodable one is noticed. */
  predicate Listens(c: Conn, kind: byte) {
    if kind == 1 then c.rx.Some? ==> c.rx.value.phase !in {Failed, RxDone}
    else if kind in {2, 3} then c.tx.Some? && c.tx.value.phase == TxWaitConfirm
    else if kind == 5 then c.tx.Some? && c.tx.value.phase in {TxSending, TxWaitDone}
    else if kind == 6 then c.tx.Some? && c.tx.value.phase !in {Failed, TxDone}
    else if kind == 7 then c.rx.Some? && c.rx.value.phase == RxWaitDoneAck
    else kind == 8 ==> c.state == Negotiating
  }

  ghost predicate Breaks(c: Conn, f: Frame) {
    match f
    case Setting(mtu, _) => c.state == Negotiating && mtu == 0
    case FileHeader(trans, node, es) => BadList(c, trans, node, es)
    case Confirm(trans, _) => Stranger(c, trans, {TxWaitConfirm})
    case Request(trans, _) => Stranger(c, trans, {TxWaitConfirm})
    case Data(trans, _, id, num, payload) => !Repeats(c, trans, id, num) && !NextDue(c, trans, id, num, payload)
    case Ack(trans, _) => Stranger(c, trans, {TxSending, TxWaitDone})
    case Done(trans, _) => Stranger(c, trans, {Idle, TxWaitConfirm, TxSending, TxWaitDone})
    case DoneAck(trans, _) => c.rx.Some? && c.rx.value.phase == RxWaitDoneAck && c.rx.value.trans != trans
    case Bad(kind) => Listens(c, kind)
    case Rst(_, _) => false
    case Ignored => false
  }

  /** A block the receiver wants but cannot write. */
  ghost predicate Unwritable(c: Conn, f: Frame, disk: Disk) {
    f.Data? && NextDue(c, f.trans, f.id, f.num, f.payload) && !disk.writes
  }

  /** The RST that goes out before the connection is closed. */
  ghost function Farewell(c: Conn, f: Frame): seq<Frame> {
    if f.Setting? then [Rst(0, 201)]
    else if f.Data? then [Rst(f.trans, if NextDue(c, f.trans, f.id, f.num, f.payload) then 202 else 209)]
    else []
  }

  // ---------------------------------------------------------------- what closing does

  predicate Over(t: Option<Phase>) {
    t.None? || Terminal(t.value)
  }

  function TxPhase(c: Conn): Option<Phase> {
    if c.tx.Some? then Some(c.tx.value.phase) else None
  }

  function RxPhase(c: Conn): Option<Phase> {
    if c.rx.Some? then Some(c.rx.value.phase) else None
  }

  /** The connection is closed: said once, with one failure for every transfer that was not over. */
  predicate Ended(c: Conn, d: Conn) {
    && d.state == Closing && d.closed == c.closed + 1 && Over(TxPhase(d)) && Over(RxPhase(d))
    && d.txResults == c.txResults + (if Over(TxPhase(c)) then [] else [false])
    && d.rxResults == c.rxResults + (if d.rx.None? || (c.rx.Some? && Over(RxPhase(c))) then [] else [false])
    && (Over(TxPhase(c)) ==> d.tx == c.tx) && (c.rx.Some? && Over(RxPhase(c)) ==> d.rx == c.rx)
  }

  lemma ShutdownEnds(c: Conn)
    requires c.state != Closing
    ensures Ended(c, Shutdown(c)) && Shutdown(c).out == c.out
  {
  }

  lemma ResetEnds(c: Conn, trans: u16, code: u16)
    requires c.state != Closing
    ensures Ended(c, Reset(c, trans, code))
    ensures Reset(c, trans, code).out == c.out + if Works(c) then [Rst(trans, code)] else []
  {
    ShutdownEnds(TrySend(c, Rst(trans, code)));
    hide Shutdown;
  }

  // ---------------------------------------------------------------- handlers that leave the connection open

  lemma FailOpen(c: Conn, rst: bool)
    ensures FailTx(c, rst).state == c.state && FailRx(c, rst).state == c.state
  {
  }

  lemma {:induction false} SendAllOpen(c: Conn, frames: seq<Frame>)
    ensures SendAll(c, frames).conn.state == c.state && SendAll(c, frames).conn.rx == c.rx
    decreases |frames|
  {
    if frames != [] && Works(c) {
      SendAllOpen(TrySend(c, frames[0]), frames[1..]);
    }
  }

  lemma FinishOpen(c: Conn)
    requires c.tx.Some?
    ensures MaybeFinish(c).state == c.state && MaybeFinish(c).rx == c.rx
  {
    hide AllAcked, Ids;
  }

  lemma CompleteOpen(c: Conn, opens: nat)
    requires c.rx.Some?
    ensures HeaderComplete(c, opens).state == c.state
  {
    hide SendAll, OpenFiles, FailRx;
    var t := c.rx.value;
    var d := c.(rx := Some(t.(files := OpenFiles(t.hdr, opens))));
    FailOpen(c, false);
    FailOpen(d, false);
    FailOpen(TrySend(d, Rst(t.trans, RST_NO_STORAGE)), false);
    var answers := [Confirm(t.trans, EntryIds(t.hdr)), Request(t.trans, EntryIds(t.hdr))];
    SendAllOpen(d, answers);
    FailOpen(SendAll(d, answers).conn, false);
  }

  lemma JudgedList(c: Conn, t: Rx, trans: u16, node: u16, es: seq<Entry>, opens: nat)
    requires c.state != Closing && Distinct(t.hdr) && |t.hdr| <= node
    requires (c.rx == Some(t) && !Terminal(t.phase)) || (c.rx.None? && t == FreshRx(trans, node))
    ensures var (hdr, fits) := Accumulate(t.hdr, es, node); var d := c.(rx := Some(t.(hdr := hdr)));
            && (fits <==> |Known(t.hdr) + Known(es)| <= node)
            && Ended(c, Shutdown(d)) && Shutdown(d).out == c.out
            && HeaderComplete(d, opens).state == c.state
  {
    hide Accumulate, Known, Distinct, HeaderComplete, Shutdown;
    AccumulateIff(t.hdr, es, node);
    var d := c.(rx := Some(t.(hdr := Accumulate(t.hdr, es, node).0)));
    CompleteOpen(d, opens);
    ShutdownSame(c, d);
  }

  /** Closing with the list of the receive transfer put on record. */
  lemma ShutdownSame(c: Conn, d: Conn)
    requires c.state != Closing && d == c.(rx := d.rx) && d.rx.Some?
    requires c.rx.Some? ==> d.rx.value == c.rx.value.(hdr := d.rx.value.hdr)
    requires c.rx.None? ==> !Terminal(d.rx.value.phase)
    requires c.rx.Some? ==> !Terminal(c.rx.value.phase)
    ensures Ended(c, Shutdown(d)) && Shutdown(d).out == c.out
  {
  }

  lemma ListClosesIff(c: Conn, f: Frame, disk: Disk)
    requires f.FileHeader? && ConnOk(c) && Listed(c) && c.state != Closing
    ensures var d := Handle(c, f, disk); d.state == Closing <==> Breaks(c, f)
    ensures var d := Handle(c, f, disk); d.state == Closing ==> Ended(c, d) && d.out == c.out
  {
    hide Shutdown, HeaderComplete, Accumulate, Known, Distinct, TxFilesOk, RxFilesOk;
    if Listens(c, 1) && f.node != 0 {
      var t := if c.rx.None? then FreshRx(f.trans, f.node) else c.rx.value;
      if t.trans == f.trans && t.node == f.node {
        EmptyList();
        JudgedList(c, t, f.trans, f.node, f.entries, disk.opens);
      } else {
        ShutdownEnds(c);
      }
    } else {
      ShutdownEnds(c);
    }
  }

  lemma SenderClosesIff(c: Conn, f: Frame, disk: Disk)
    requires (f.Confirm? || f.Request? || f.Ack? || f.Done?) && ConnOk(c) && c.state != Closing
    ensures var d := Handle(c, f, disk); d.state == Closing <==> Breaks(c, f)
    ensures var d := Handle(c, f, disk); d.state == Closing ==> Ended(c, d) && d.out == c.out
  {
    hide Shutdown, MaybeFinish, ConfirmIds, AckEach, Armed, TxFilesOk, RxFilesOk;
    ShutdownEnds(c);
    if c.tx.Some? {
      var t := c.tx.value;
      if f.Ack? {
        FinishOpen(c.(tx := Some(t.(files := AckEach(t.files, f.acks)))));
      } else if f.Done? {
        var phase := if t.phase == TxSending then TxWaitDone else t.phase;
        FinishOpen(c.(tx := Some(t.(doneReceived := true, phase := phase))));
      }
    }
  }

  lemma OneFile(c: Conn, trans: u16, id: u16, num: u32, i: nat)
    requires Listed(c) && Fits(c, trans, id, num, i)
    ensures FindRx(c.rx.value.files, id) == i
  {
    var k := FindRx(c.rx.value.files, id);
    var t := c.rx.value;
    assert k <= i;
    assert t.files[k].id == t.hdr[k].id && t.files[i].id == t.hdr[i].id;
  }

  lemma LengthIs(size: nat, num: nat)
    requires num * BLOCK <= size
    ensures LengthOf(size, num) == BlockLen(size, num)
  {
  }

  lemma DataClosesIff(c: Conn, f: Frame, disk: Disk)
    requires f.Data? && ConnOk(c) && Listed(c) && c.state != Closing
    ensures var d := Handle(c, f, disk); d.state == Closing <==> Breaks(c, f) || Unwritable(c, f, disk)
    ensures var d := Handle(c, f, disk);
            d.state == Closing ==> Ended(c, d) && d.out == c.out + if Works(c) then Farewell(c, f) else []
  {
    hide Reset, WriteBlock, TxFilesOk, Works, LengthOf, BlockLen;
    ResetEnds(c, f.trans, RST_INTERNAL);
    ResetEnds(c, f.trans, RST_WRITE_ERROR);
    hide Ended;
    forall i | Fits(c, f.trans, f.id, f.num, i)
      ensures FindRx(c.rx.value.files, f.id) == i
    {
      OneFile(c, f.trans, f.id, f.num, i);
    }
    if c.rx.Some? && c.rx.value.phase == RxWaitData && c.rx.value.trans == f.trans {
      var i := FindRx(c.rx.value.files, f.id);
      if i < |c.rx.value.files| && f.num < c.rx.value.files[i].total {
        assert Fits(c, f.trans, f.id, f.num, i);
        BlockInside(c.rx.value.files[i].size, f.num);
        LengthIs(c.rx.value.files[i].size, f.num);
      }
    }
  }

  lemma OtherClosesIff(c: Conn, f: Frame, disk: Disk)
    requires (f.Setting? || f.DoneAck? || f.Rst? || f.Bad? || f.Ignored?) && ConnOk(c) && c.state != Closing
    ensures var d := Handle(c, f, disk); d.state == Closing <==> Breaks(c, f)
    ensures var d := Handle(c, f, disk);
            d.state == Closing ==> Ended(c, d) && d.out == c.out + if Works(c) then Farewell(c, f) else []
  {
    hide Shutdown, Reset, FailTx, FailRx, TxFilesOk, RxFilesOk, Works;
    ShutdownEnds(c);
    ResetEnds(c, 0, RST_WITHOUT_SETTING);
    FailOpen(c, false);
    assert c.out + [] == c.out;
  }

  /**
   * Any frame from any peer: an open connection is closed if and only if the frame breaks the rules or carries
   * the next block and the disk fails; then the peer is told with the right code where the source tells it, the
   * close is reported once, and every transfer that was not over has failed.
   */
  lemma {:induction false} ClosesIff(c: Conn, f: Frame, disk: Disk)
    requires ConnOk(c) && Listed(c) && c.state != Closing
    ensures var d := Handle(c, f, disk); d.state == Closing <==> Breaks(c, f) || Unwritable(c, f, disk)
    ensures var d := Handle(c, f, disk);
            d.state == Closing ==> Ended(c, d) && d.out == c.out + if Works(c) then Farewell(c, f) else []
  {
    hide Handle, Breaks, Ended, NextDue, TxFilesOk, RxFilesOk, Listed, Works;
    assert c.out + [] == c.out;
    match f
    case FileHeader(_, _, _) => ListClosesIff(c, f, disk);
    case Confirm(_, _) => SenderClosesIff(c, f, disk);
    case Request(_, _) => SenderClosesIff(c, f, disk);
    case Ack(_, _) => SenderClosesIff(c, f, disk);
    case Done(_, _) => SenderClosesIff(c, f, disk);
    case Data(_, _, _, _, _) => DataClosesIff(c, f, disk);
    case _ => OtherClosesIff(c, f, disk);
  }

  // ---------------------------------------------------------------- the list along a run

  /** The receive transfer has the list and the files it had, whatever else changed about them. */
  ghost predicate SameList(c: Conn, d: Conn) {
    && (c.rx.Some? <==> d.rx.Some?)
    && (c.rx.Some? ==>
          && d.rx.value.node == c.rx.value.node && d.rx.value.hdr == c.rx.value.hdr
          && |d.rx.value.files| == |c.rx.value.files|
          && forall i | 0 <= i < |c.rx.value.files| :: d.rx.value.files[i].id == c.rx.value.files[i].id)
  }

  lemma StillListed(c: Conn, d: Conn)
    requires Listed(c) && SameList(c, d)
    ensures Listed(d)
  {
  }

  lemma FailSame(c: Conn, rst: bool)
    ensures SameList(c, FailTx(c, rst)) && SameList(c, FailRx(c, rst))
  {
  }

  lemma ShutdownLists(c: Conn)
    ensures SameList(c, Shutdown(c))
  {
  }

  lemma OfferLists(c: Conn, items: seq<Item>, canOpen: bool)
    ensures SendFiles(c, items, canOpen).conn.rx == c.rx
  {
    hide SendAll, HeaderFrames, EntriesOf, NewTx;
    if c.state == Ready && c.tx.None? && 0 < |items| <= MAX_FILES && canOpen
        && forall it | it in items :: |it.content| <= MAX_SIZE {
      DR.NewTxShape(c.nextTrans, items);
      var t := NewTx(c.nextTrans, items);
      SendAllOpen(c.(nextTrans := Next16(c.nextTrans)), HeaderFrames(t.trans, |items|, EntriesOf(t.files)));
    }
  }

  lemma {:induction false} OpenedIds(hdr: seq<Entry>, opens: nat)
    ensures var files := OpenFiles(hdr, opens);
            |files| <= |hdr| && forall i | 0 <= i < |files| :: files[i].id == hdr[i].id
    decreases |hdr|
  {
    if hdr != [] && opens > 0 {
      OpenedIds(hdr[1..], opens - 1);
    }
  }

  lemma FailListed(c: Conn, rst: bool)
    requires Listed(c)
    ensures Listed(FailRx(c, rst)) && Listed(FailTx(c, rst))
  {
    FailSame(c, rst);
    hide FailRx, FailTx;
    StillListed(c, FailRx(c, rst));
    StillListed(c, FailTx(c, rst));
  }

  lemma CompleteLists(c: Conn, opens: nat)
    requires c.rx.Some? && Listed(c)
    ensures Listed(HeaderComplete(c, opens))
  {
    var t := c.rx.value;
    OpenedIds(t.hdr, opens);
    hide SendAll, OpenFiles, FailRx, Distinct;
    var files := OpenFiles(t.hdr, opens);
    var d := c.(rx := Some(t.(files := files)));
    FailListed(c, false);
    FailListed(d, false);
    FailListed(TrySend(d, Rst(t.trans, RST_NO_STORAGE)), false);
    var answers := [Confirm(t.trans, EntryIds(t.hdr)), Request(t.trans, EntryIds(t.hdr))];
    SendAllOpen(d, answers);
    FailListed(SendAll(d, answers).conn, false);
  }

  lemma HeaderLists(c: Conn, trans: u16, node: u16, es: seq<Entry>, opens: nat)
    requires Listed(c)
    ensures Listed(OnHeader(c, trans, node, es, opens))
  {
    hide Shutdown, HeaderComplete, Accumulate, Distinct;
    ShutdownLists(c);
    StillListed(c, Shutdown(c));
    if Listens(c, 1) && node != 0 {
      var t := if c.rx.None? then FreshRx(trans, node) else c.rx.value;
      if t.trans == trans && t.node == node {
        EmptyList();
        AccumulateIff(t.hdr, es, node);
        var d := c.(rx := Some(t.(hdr := Accumulate(t.hdr, es, node).0)));
        assert Listed(d);
        ShutdownLists(d);
        StillListed(d, Shutdown(d));
        CompleteLists(d, opens);
      }
    }
  }

  lemma SenderLists(c: Conn, f: Frame)
    requires f.Confirm? || f.Request? || f.Ack? || f.Done?
    ensures f.Confirm? ==> SameList(c, OnConfirm(c, f.trans, f.ids))
    ensures f.Request? ==> SameList(c, OnRequest(c, f.trans))
    ensures f.Ack? ==> SameList(c, OnAck(c, f.trans, f.acks))
    ensures f.Done? ==> SameList(c, OnDone(c, f.trans))
  {
    hide Shutdown, MaybeFinish, ConfirmIds, AckEach, Armed;
    ShutdownLists(c);
    if c.tx.Some? {
      var t := c.tx.value;
      if f.Ack? {
        FinishOpen(c.(tx := Some(t.(files := AckEach(t.files, f.acks)))));
      } else if f.Done? {
        var phase := if t.phase == TxSending then TxWaitDone else t.phase;
        FinishOpen(c.(tx := Some(t.(doneReceived := true, phase := phase))));
      }
    }
  }

  lemma DataLists(c: Conn, f: Frame, disk: Disk)
    requires ConnOk(c) && f.Data?
    ensures SameList(c, Handle(c, f, disk))
  {
    hide Shutdown, TxFilesOk;
    ShutdownLists(TrySend(c, Rst(f.trans, RST_INTERNAL)));
    ShutdownLists(TrySend(c, Rst(f.trans, RST_WRITE_ERROR)));
  }

  lemma ReceiverLists(c: Conn, f: Frame, disk: Disk)
    requires ConnOk(c) && (f.Data? || f.DoneAck? || f.Rst? || f.Setting?)
    ensures SameList(c, Handle(c, f, disk))
  {
    if f.Data? {
      DataLists(c, f, disk);
    } else {
      hide Shutdown, FailTx, FailRx, TxFilesOk, RxFilesOk;
      FailSame(c, false);
      ShutdownLists(c);
      ShutdownLists(TrySend(c, Rst(0, RST_WITHOUT_SETTING)));
    }
  }

  lemma HandleLists(c: Conn, f: Frame, disk: Disk)
    requires ConnOk(c) && Listed(c)
    ensures Listed(Handle(c, f, disk))
  {
    hide Shutdown, SameList, Listed, OnHeader, OnConfirm, OnRequest, OnAck, OnDone, OnData, OnDoneAck, OnRst, OnSetting,
      TxFilesOk, RxFilesOk;
    ShutdownLists(c);
    StillListed(c, Shutdown(c));
    match f
    case FileHeader(trans, node, es) => HeaderLists(c, trans, node, es, disk.opens);
    case Confirm(_, _) => SenderLists(c, f); StillIf(c, Handle(c, f, disk));
    case Request(_, _) => SenderLists(c, f); StillIf(c, Handle(c, f, disk));
    case Ack(_, _) => SenderLists(c, f); StillIf(c, Handle(c, f, disk));
    case Done(_, _) => SenderLists(c, f); StillIf(c, Handle(c, f, disk));
    case Bad(_) =>
    case Ignored =>
    case _ => ReceiverLists(c, f, disk); StillIf(c, Handle(c, f, disk));
  }

  lemma StillIf(c: Conn, d: Conn)
    requires Listed(c)
    ensures SameList(c, d) ==> Listed(d)
  {
  }

  lemma TickRxLists(c: Conn, shaOk: bool)
    requires c.rx.Some? ==> RxOk(c.rx.value)
    ensures SameList(c, TickRx(c, shaOk))
  {
    hide FlushAck, SendDone, RxFilesOk, AllComplete;
    if c.rx.Some? && c.rx.value.phase == RxWaitData {
      FlushLists(c);
      DoneLists(c, shaOk);
      DoneLists(FlushAck(c), shaOk);
    }
  }

  lemma FlushLists(c: Conn)
    requires c.rx.Some? && RxOk(c.rx.value)
    ensures SameList(c, FlushAck(c)) && FlushAck(c).rx.Some?
  {
    hide AckList, RxFilesOk;
  }

  lemma DoneLists(c: Conn, shaOk: bool)
    requires c.rx.Some?
    ensures SameList(c, SendDone(c, shaOk))
  {
    hide RxIds;
  }

  /** A tick closes an open connection exactly when the negotiation has taken too long; it keeps the list. */
  lemma TickClosesIff(c: Conn, env: Env)
    requires DR.Sound(c) && c.state != Closing
    ensures ConnOk(c) && (Tick(c, env).state == Closing <==> c.state == Negotiating && env.negotiation)
    ensures SameList(c, Tick(c, env))
  {
    hide DR.Sound, Shutdown, TickRx, TickTx, TickRetry, FailTx, FailRx, SameList;
    DR.SoundRx(c);
    ShutdownEnds(c);
    ShutdownLists(c);
    DR.TimeoutsGood(c, env);
    FailSame(c, true);
    FailSame(if env.txTimeout then FailTx(c, true) else c, true);
    var c1 := Timeouts(c, env);
    SameBoth(c, if env.txTimeout then FailTx(c, true) else c, c1);
    DR.TickRxGood(c1, env.shaOk);
    DR.SoundRx(c1);
    TickRxLists(c1, env.shaOk);
    var d := TickRx(c1, env.shaOk);
    SameBoth(c, c1, d);
    DR.TickTxGood(d, env.retranDue, env.readable);
    DR.TickRetryGood(TickTx(d, env.retranDue, env.readable), env.retryDue);
    if !(c.state == Negotiating && env.negotiation) {
      OnlyRx(c, d, Tick(c, env));
    }
  }

  lemma OnlyRx(c: Conn, d: Conn, e: Conn)
    requires e.rx == d.rx
    ensures SameList(c, d) ==> SameList(c, e)
  {
  }

  lemma SameBoth(c: Conn, d: Conn, e: Conn)
    ensures SameList(c, c) && (SameList(c, d) && SameList(d, e) ==> SameList(c, e))
  {
  }

  // ---------------------------------------------------------------- every run

  /** This event ends an open connection. */
  ghost predicate Ends(c: Conn, ev: DR.Event) {
    match ev
    case Offer(_, _) => false
    case Close => true
    case Lost => true
    case Arrive(f, disk) => Breaks(c, f) || Unwritable(c, f, disk)
    case Timer(env) => c.state == Negotiating && env.negotiation
  }

  lemma StepClosesIff(c: Conn, ev: DR.Event)
    requires DR.Sound(c) && Listed(c) && DR.EventOk(ev)
    ensures ConnOk(c) && Listed(DR.Step(c, ev)) && DR.Sound(DR.Step(c, ev))
    ensures DR.Step(c, ev).state == Closing <==> c.state == Closing || Ends(c, ev)
  {
    DR.StepGood(c, ev);
    hide DR.Sound, Listed, SendFiles, Shutdown, Handle, Tick, Breaks, Unwritable, SameList;
    DR.SoundRx(c);
    ShutdownLists(c);
    StillIf(c, Shutdown(c));
    match ev
    case Offer(items, canOpen) =>
      OfferLists(c, items, canOpen);
      OfferOpen(c, items, canOpen);
      OnlyRx(c, c, SendFiles(c, items, canOpen).conn);
      SameBoth(c, c, c);
      StillIf(c, SendFiles(c, items, canOpen).conn);
    case Arrive(f, disk) =>
      HandleLists(c, f, disk);
      if c.state != Closing {
        ClosesIff(c, f, disk);
      } else {
        ClosedStays(c, ev);
      }
    case Timer(env) =>
      if c.state != Closing {
        TickClosesIff(c, env);
        StillIf(c, Tick(c, env));
      } else {
        ClosedStays(c, ev);
      }
    case _ =>
      if c.state != Closing {
        ShutdownEnds(c);
      } else {
        ClosedStays(c, ev);
      }
  }

  lemma ClosedStays(c: Conn, ev: DR.Event)
    requires ConnOk(c) && c.state == Closing && !ev.Offer?
    ensures DR.Step(c, ev) == c
  {
  }

  lemma OfferOpen(c: Conn, items: seq<Item>, canOpen: bool)
    ensures SendFiles(c, items, canOpen).conn.state == c.state
  {
    hide SendAll, HeaderFrames, EntriesOf, NewTx;
    if c.state == Ready && c.tx.None? && 0 < |items| <= MAX_FILES && canOpen
        && forall it | it in items :: |it.content| <= MAX_SIZE {
      DR.NewTxShape(c.nextTrans, items);
      var t := NewTx(c.nextTrans, items);
      SendAllOpen(c.(nextTrans := Next16(c.nextTrans)), HeaderFrames(t.trans, |items|, EntriesOf(t.files)));
    }
  }

  /** Some event of the run ends the connection. */
  ghost predicate EverEnds(c: Conn, events: seq<DR.Event>)
    requires DR.Possible(c, events)
    decreases |events|
  {
    events != [] && (Ends(c, events[0]) || EverEnds(DR.Step(c, events[0]), events[1..]))
  }

  lemma {:induction false} RunClosesIff(c: Conn, events: seq<DR.Event>)
    requires DR.Sound(c) && Listed(c) && forall i | 0 <= i < |events| :: DR.EventOk(events[i])
    ensures DR.Possible(c, events)
    ensures DR.After(c, events).state == Closing <==> c.state == Closing || EverEnds(c, events)
    decreases |events|
  {
    hide DR.Sound, Listed, DR.Step, Ends;
    if events != [] {
      StepClosesIff(c, events[0]);
      RunClosesIff(DR.Step(c, events[0]), events[1..]);
    }
  }

  /**
   * Over every sequence of events, against any peer and on any link: a connection whose SETTING went out is
   * closed if and only if some event of the run ended it.
   */
  lemma {:induction false} ClosedIff(hasDir: bool, link: seq<bool>, events: seq<DR.Event>)
    requires forall i | 0 <= i < |events| :: DR.EventOk(events[i])
    ensures DR.Possible(DR.Open(hasDir, link), events)
    ensures DR.After(DR.Open(hasDir, link), events).state == Closing <==>
              link == [] || !link[0] || EverEnds(DR.Open(hasDir, link), events)
  {
    DR.OpenSound(hasDir, link);
    ShutdownEnds(TrySend(NewConn(hasDir, link), Setting(1472, 0)));
    RunClosesIff(DR.Open(hasDir, link), events);
    hide DR.Possible, DR.After, EverEnds, DR.Sound, Shutdown;
  }
}
