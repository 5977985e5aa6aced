/**
 * What a sender believes: its flags are exactly the sum of what its peer said while it was asked, and it
 * reports success if and only if the peer has said that it is done and has acknowledged the last block of
 * every file, whether or not those blocks were ever sent.
 */
module DFileHeard {
  import opened Bytes
  import opened DFileCore
  import opened DFileRules
  import DR = DFileResults

  /** What the peer has said about the transfer: the ids it confirmed, and those whose last block it acknowledged. */
  datatype Evidence = Evidence(requested: bool, confirmed: set<u16>, acked: set<u16>, done: bool)

  const NOTHING := Evidence(false, {}, {}, false)

  /** The entry reaches the last block of its file. */
  predicate ReachesEnd(files: seq<TxFile>, e: AckEntry) {
    e.last != NO_SEQ && exists i | 0 <= i < |files| :: files[i].id == e.id && e.last + 1 >= files[i].total
  }

  ghost function EndsReached(files: seq<TxFile>, acks: seq<AckEntry>): set<u16> {
    set k | 0 <= k < |acks| && ReachesEnd(files, acks[k]) :: acks[k].id
  }

  ghost function Named(ids: seq<u16>): set<u16> {
    set k | 0 <= k < |ids| :: ids[k]
  }

  /** What one event adds: answers to the list count before the transfer is armed, acknowledgements after. */
  ghost function Learn(ev: Evidence, c: Conn, event: DR.Event): Evidence {
    if !event.Arrive? || c.state == Closing || Over(TxPhase(c)) then ev
    else
      var t := c.tx.value;
      match event.frame
      case Confirm(trans, ids) =>
        if trans == t.trans && t.phase == TxWaitConfirm
        then ev.(confirmed := ev.confirmed + Named(ids)) else ev
      case Request(trans, _) =>
        if trans == t.trans && t.phase == TxWaitConfirm then ev.(requested := true) else ev
      case Ack(trans, acks) =>
        if trans == t.trans && t.phase != TxWaitConfirm
        then ev.(acked := ev.acked + EndsReached(t.files, acks)) else ev
      case Done(trans, _) => if trans == t.trans then ev.(done := true) else ev
      case _ => ev
  }

  /** The flags of an unfinished transfer. */
  ghost predicate Flags(t: Tx, ev: Evidence) {
    && TxOk(t) && !t.doneAckSent && (t.requested <==> ev.requested) && (t.doneReceived <==> ev.done)
    && (forall i | 0 <= i < |t.files| :: FileFlags(t.files[i], ev))
    && (t.allConfirmed <==> forall i | 0 <= i < |t.files| :: t.files[i].confirmed)
    && (t.phase == TxWaitConfirm <==> !(t.requested && t.allConfirmed))
  }

  ghost predicate FileFlags(f: TxFile, ev: Evidence) {
    && (f.confirmed <==> f.id in ev.confirmed)
    && (f.ackedAll <==> f.total == 0 || f.id in ev.acked)
    && (f.lastAcked >= 0 && f.lastAcked + 1 >= f.total ==> f.ackedAll)
  }

  /** The peer is done and has acknowledged the end of every file that has one. */
  ghost predicate Complete(t: Tx, ev: Evidence) {
    ev.done && forall i | 0 <= i < |t.files| :: t.files[i].total == 0 || t.files[i].id in ev.acked
  }

  /** The evidence is on the books, and complete exactly when success was reported. */
  ghost predicate Booked(c: Conn, ev: Evidence) {
    && (c.tx.None? ==> ev == NOTHING)
    && (c.tx.Some? && !Terminal(c.tx.value.phase) ==> Flags(c.tx.value, ev) && !Complete(c.tx.value, ev))
    && (c.tx.Some? && c.tx.value.phase == TxDone ==> Complete(c.tx.value, ev))
  }

  // ---------------------------------------------------------------- finishing

  lemma FinishBooked(c: Conn, ev: Evidence)
    requires c.tx.Some? && Flags(c.tx.value, ev) && c.tx.value.phase in {TxWaitConfirm, TxSending, TxWaitDone}
    ensures Booked(MaybeFinish(c), ev)
  {
    hide TxFilesOk, Ids;
    var t := c.tx.value;
    assert AllAcked(t) && t.doneReceived <==> Complete(t, ev);
  }

  lemma FailBooked(c: Conn, ev: Evidence, rst: bool)
    requires Booked(c, ev)
    ensures Booked(FailTx(c, rst), ev) && Booked(FailRx(c, rst), ev)
  {
    hide Flags, Complete;
  }

  lemma ShutdownBooked(c: Conn, ev: Evidence)
    requires Booked(c, ev)
    ensures Booked(Shutdown(c), ev)
  {
    hide Flags, Complete;
  }

  /** An event that leaves the transfer alone. */
  lemma SameTx(c: Conn, d: Conn, ev: Evidence)
    requires d.tx == c.tx
    ensures Booked(c, ev) <==> Booked(d, ev)
  {
  }

  // ---------------------------------------------------------------- what is heard

  predicate SameButConfirmed(f: TxFile, g: TxFile) {
    g == f.(confirmed := g.confirmed)
  }

  lemma {:induction false} ConfirmsAre(files: seq<TxFile>, ids: seq<u16>)
    requires TxFilesOk(files)
    ensures var r := ConfirmIds(files, ids);
            && |r| == |files|
            && forall i | 0 <= i < |files| ::
                 SameButConfirmed(files[i], r[i]) && (r[i].confirmed <==> files[i].confirmed || files[i].id in ids)
    decreases |ids|
  {
    if ids != [] {
      var i := FindTx(files, ids[0]);
      var more := if i < |files| then files[i := files[i].(confirmed := true)] else files;
      OneConfirmed(files, ids[0]);
      ConfirmsAre(more, ids[1..]);
      assert ids == [ids[0]] + ids[1..];
    }
  }

  lemma OneConfirmed(files: seq<TxFile>, id: u16)
    requires TxFilesOk(files)
    ensures var i := FindTx(files, id);
            var more := if i < |files| then files[i := files[i].(confirmed := true)] else files;
            && TxFilesOk(more)
            && forall k | 0 <= k < |files| ::
                 SameButConfirmed(files[k], more[k]) && (more[k].confirmed <==> files[k].confirmed || files[k].id == id)
  {
  }

  function Confirmed(t: Tx, ids: seq<u16>): Tx {
    var files := ConfirmIds(t.files, ids);
    Armed(t.(files := files, allConfirmed := forall i | 0 <= i < |files| :: files[i].confirmed))
  }

  lemma ConfirmArms(t: Tx, ev: Evidence, ids: seq<u16>)
    requires Flags(t, ev) && t.phase == TxWaitConfirm
    ensures var after := ev.(confirmed := ev.confirmed + Named(ids)); var u := Confirmed(t, ids);
            && Flags(u, after) && (Complete(u, after) ==> Complete(t, ev)) && u.phase in {TxWaitConfirm, TxSending}
  {
    DR.ConfirmIdsOk(t.files, ids);
    ConfirmFlags(t, ev, ids);
    hide TxFilesOk, ConfirmIds, FileFlags, Complete, Named;
    var files := ConfirmIds(t.files, ids);
    var u := t.(files := files, allConfirmed := forall i | 0 <= i < |files| :: files[i].confirmed);
    ArmedFlags(u, ev.(confirmed := ev.confirmed + Named(ids)));
  }

  lemma ConfirmBooked(c: Conn, ev: Evidence, trans: u16, ids: seq<u16>)
    requires Booked(c, ev) && c.tx.Some? && c.tx.value.phase == TxWaitConfirm && trans == c.tx.value.trans
    ensures Booked(OnConfirm(c, trans, ids), ev.(confirmed := ev.confirmed + Named(ids)))
  {
    hide Flags, Complete, ConfirmIds, Armed, Named;
    ConfirmArms(c.tx.value, ev, ids);
    assert OnConfirm(c, trans, ids) == c.(tx := Some(Confirmed(c.tx.value, ids)));
  }

  lemma ArmedFlags(t: Tx, ev: Evidence)
    requires TxOk(t) && t.phase == TxWaitConfirm && !t.doneAckSent
    requires (t.requested <==> ev.requested) && (t.doneReceived <==> ev.done)
    requires forall i | 0 <= i < |t.files| :: FileFlags(t.files[i], ev)
    requires t.allConfirmed <==> forall i | 0 <= i < |t.files| :: t.files[i].confirmed
    ensures Flags(Armed(t), ev) && Armed(t).files == t.files && Armed(t).phase in {TxWaitConfirm, TxSending}
  {
    hide TxFilesOk, FileFlags;
  }

  lemma ConfirmFlags(t: Tx, ev: Evidence, ids: seq<u16>)
    requires Flags(t, ev)
    ensures var files := ConfirmIds(t.files, ids);
            var after := ev.(confirmed := ev.confirmed + Named(ids));
            && (forall i | 0 <= i < |files| :: FileFlags(files[i], after))
            && (Complete(t.(files := files), after) ==> Complete(t, ev))
            && forall u: Tx | u.files == files :: Complete(u, after) <==> Complete(t.(files := files), after)
  {
    ConfirmsAre(t.files, ids);
    hide TxFilesOk, ConfirmIds;
    var files := ConfirmIds(t.files, ids);
    var after := ev.(confirmed := ev.confirmed + Named(ids));
    forall i | 0 <= i < |files|
      ensures FileFlags(files[i], after)
    {
      assert SameButConfirmed(t.files[i], files[i]) && FileFlags(t.files[i], ev);
    }
    assert forall i | 0 <= i < |files| :: SameButConfirmed(t.files[i], files[i]);
  }

  lemma RequestBooked(c: Conn, ev: Evidence, trans: u16)
    requires Booked(c, ev) && c.tx.Some? && c.tx.value.phase == TxWaitConfirm && trans == c.tx.value.trans
    ensures Booked(OnRequest(c, trans), ev.(requested := true))
  {
    hide TxFilesOk;
    var t := c.tx.value;
    var after := ev.(requested := true);
    assert forall i | 0 <= i < |t.files| :: FileFlags(t.files[i], ev) ==> FileFlags(t.files[i], after);
  }

  predicate SameButAcked(f: TxFile, g: TxFile) {
    g == f.(lastAcked := g.lastAcked, retrans := g.retrans, ackedAll := g.ackedAll)
  }

  /** An acknowledgement past the end is remembered. */
  predicate EndNoted(f: TxFile) {
    (f.total == 0 ==> f.ackedAll) && (f.lastAcked >= 0 && f.lastAcked + 1 >= f.total ==> f.ackedAll)
  }

  predicate AllNoted(files: seq<TxFile>) {
    forall i | 0 <= i < |files| :: EndNoted(files[i])
  }

  lemma OneAcked(files: seq<TxFile>, e: AckEntry)
    requires TxFilesOk(files) && AllNoted(files)
    ensures var more := AckOne(files, e);
            && |more| == |files| && AllNoted(more)
            && forall k | 0 <= k < |files| ::
                 && SameButAcked(files[k], more[k])
                 && (more[k].ackedAll <==> files[k].ackedAll || (files[k].id == e.id && ReachesEnd(files, e)))
  {
    hide DropAcked, TxFileOk;
    var i := FindTx(files, e.id);
    if i < |files| {
      assert ReachesEnd(files, e) <==> e.last != NO_SEQ && e.last + 1 >= files[i].total;
    }
  }

  lemma SameEnds(files: seq<TxFile>, more: seq<TxFile>, e: AckEntry)
    requires |more| == |files| && forall k | 0 <= k < |files| :: SameButAcked(files[k], more[k])
    ensures ReachesEnd(more, e) <==> ReachesEnd(files, e)
  {
  }

  lemma {:induction false} AcksAre(files: seq<TxFile>, acks: seq<AckEntry>)
    requires TxFilesOk(files) && AllNoted(files)
    ensures var r := AckEach(files, acks);
            && |r| == |files| && AllNoted(r)
            && forall k | 0 <= k < |files| ::
                 && SameButAcked(files[k], r[k])
                 && (r[k].ackedAll <==> files[k].ackedAll || files[k].id in EndsReached(files, acks))
    decreases |acks|
  {
    hide TxFilesOk, AckOne, EndNoted, ReachesEnd;
    if acks != [] {
      var more := AckOne(files, acks[0]);
      OneAcked(files, acks[0]);
      DR.AckEachOk(files, [acks[0]]);
      AckEachOne(files, acks[0]);
      AcksAre(more, acks[1..]);
      EndsFirst(files, more, acks);
    }
  }

  lemma AckEachOne(files: seq<TxFile>, e: AckEntry)
    ensures AckEach(files, [e]) == AckOne(files, e)
  {
    assert [e][1..] == [];
    hide AckOne;
  }

  lemma EndsFirst(files: seq<TxFile>, more: seq<TxFile>, acks: seq<AckEntry>)
    requires acks != [] && |more| == |files| && forall k | 0 <= k < |files| :: SameButAcked(files[k], more[k])
    ensures EndsReached(files, acks)
            == EndsReached(more, acks[1..]) + if ReachesEnd(files, acks[0]) then {acks[0].id} else {}
  {
    forall k | 0 <= k < |acks|
      ensures ReachesEnd(files, acks[k]) <==> ReachesEnd(more, acks[k])
    {
      SameEnds(files, more, acks[k]);
    }
    hide ReachesEnd, SameButAcked;
    assert forall k | 0 < k < |acks| :: acks[k] == acks[1..][k - 1];
  }

  lemma AckBooked(c: Conn, ev: Evidence, trans: u16, acks: seq<AckEntry>)
    requires Booked(c, ev) && c.tx.Some? && c.tx.value.phase in {TxSending, TxWaitDone} && trans == c.tx.value.trans
    ensures Booked(OnAck(c, trans, acks), ev.(acked := ev.acked + EndsReached(c.tx.value.files, acks)))
  {
    var t := c.tx.value;
    assert AllNoted(t.files) by {
      assert forall i | 0 <= i < |t.files| :: FileFlags(t.files[i], ev);
    }
    AcksAre(t.files, acks);
    DR.AckEachOk(t.files, acks);
    hide TxFilesOk, AckEach, MaybeFinish, EndsReached;
    var u := t.(files := AckEach(t.files, acks));
    var after := ev.(acked := ev.acked + EndsReached(t.files, acks));
    forall i | 0 <= i < |u.files|
      ensures FileFlags(u.files[i], after)
    {
      assert SameButAcked(t.files[i], u.files[i]) && FileFlags(t.files[i], ev) && EndNoted(u.files[i]);
    }
    assert forall i | 0 <= i < |u.files| :: SameButAcked(t.files[i], u.files[i]);
    assert Flags(u, after);
    FinishBooked(c.(tx := Some(u)), after);
  }

  lemma DoneBooked(c: Conn, ev: Evidence, trans: u16)
    requires Booked(c, ev) && c.tx.Some? && c.tx.value.phase in {TxWaitConfirm, TxSending, TxWaitDone}
    requires trans == c.tx.value.trans
    ensures Booked(OnDone(c, trans), ev.(done := true))
  {
    hide TxFilesOk, MaybeFinish;
    var t := c.tx.value;
    var after := ev.(done := true);
    assert forall i | 0 <= i < |t.files| :: FileFlags(t.files[i], ev) ==> FileFlags(t.files[i], after);
    var u := t.(doneReceived := true, phase := if t.phase == TxSending then TxWaitDone else t.phase);
    FinishBooked(c.(tx := Some(u)), after);
  }

  lemma SenderHears(c: Conn, ev: Evidence, f: Frame, disk: Disk)
    requires ConnOk(c) && c.state != Closing && Booked(c, ev) && (f.Confirm? || f.Request? || f.Ack? || f.Done?)
    ensures Booked(Handle(c, f, disk), Learn(ev, c, DR.Arrive(f, disk)))
  {
    hide Booked, Shutdown, OnConfirm, OnRequest, OnAck, OnDone, TxFilesOk, RxFilesOk, EndsReached;
    ShutdownBooked(c, ev);
    Unheard(c, f);
    if c.tx.Some? && f.trans == c.tx.value.trans {
      match f
      case Confirm(trans, ids) =>
        if c.tx.value.phase == TxWaitConfirm {
          ConfirmBooked(c, ev, trans, ids);
        }
      case Request(trans, _) =>
        if c.tx.value.phase == TxWaitConfirm {
          RequestBooked(c, ev, trans);
        }
      case Ack(trans, acks) =>
        if c.tx.value.phase in {TxSending, TxWaitDone} {
          AckBooked(c, ev, trans, acks);
        }
      case Done(trans, _) =>
        if c.tx.value.phase in {TxWaitConfirm, TxSending, TxWaitDone} {
          DoneBooked(c, ev, trans);
        }
    }
  }

  /** A control frame that is not for the current stage is ignored or closes the connection. */
  lemma Unheard(c: Conn, f: Frame)
    requires ConnOk(c) && c.state != Closing && (f.Confirm? || f.Request? || f.Ack? || f.Done?)
    ensures var d := Handle(c, f, Disk(0, false));
            var phases := if f.Confirm? || f.Request? then {TxWaitConfirm}
                          else if f.Ack? then {TxSending, TxWaitDone} else {TxWaitConfirm, TxSending, TxWaitDone};
            && (c.tx.None? || c.tx.value.phase !in phases ==> d == c)
            && (c.tx.Some? && c.tx.value.phase in phases && f.trans != c.tx.value.trans ==> d == Shutdown(c))
  {
    hide Shutdown, ConfirmIds, AckEach, MaybeFinish, TxFilesOk, RxFilesOk;
  }

  // ---------------------------------------------------------------- everything else

  lemma {:induction false} SendAllTx(c: Conn, frames: seq<Frame>)
    ensures SendAll(c, frames).conn.tx == c.tx
    decreases |frames|
  {
    if frames != [] && Works(c) {
      SendAllTx(TrySend(c, frames[0]), frames[1..]);
    }
  }

  lemma CompleteTx(c: Conn, opens: nat)
    requires c.rx.Some?
    ensures HeaderComplete(c, opens).tx == c.tx
  {
    hide SendAll, OpenFiles;
    var t := c.rx.value;
    SendAllTx(c.(rx := Some(t.(files := OpenFiles(t.hdr, opens)))),
              [Confirm(t.trans, EntryIds(t.hdr)), Request(t.trans, EntryIds(t.hdr))]);
  }

  lemma ReceiverHears(c: Conn, ev: Evidence, f: Frame, disk: Disk)
    requires ConnOk(c) && c.state != Closing && Booked(c, ev) && !(f.Confirm? || f.Request? || f.Ack? || f.Done?)
    ensures Booked(Handle(c, f, disk), ev)
  {
    hide Booked, Shutdown, Accumulate, HeaderComplete, FailTx, FailRx, WriteBlock, Looks, TxFilesOk;
    ShutdownBooked(c, ev);
    FailBooked(c, ev, false);
    match f
    case Setting(_, _) =>
      ResetBooked(c, ev, 0, RST_WITHOUT_SETTING);
      SameTx(c, c.(state := Ready), ev);
    case FileHeader(trans, node, es) =>
      ListBooked(c, ev, f, disk);
    case Data(trans, _, id, num, payload) =>
      ResetBooked(c, ev, trans, RST_INTERNAL);
      ResetBooked(c, ev, trans, RST_WRITE_ERROR);
      DataTx(c, ev, f, disk);
    case DoneAck(_, _) =>
      if c.rx.Some? && c.rx.value.phase == RxWaitDoneAck && f.trans == c.rx.value.trans {
        SameTx(c, Handle(c, f, disk), ev);
      }
    case _ =>
  }

  lemma ResetBooked(c: Conn, ev: Evidence, trans: u16, code: u16)
    requires Booked(c, ev)
    ensures Booked(Reset(c, trans, code), ev)
  {
    hide Booked, Shutdown;
    SameTx(c, TrySend(c, Rst(trans, code)), ev);
    ShutdownBooked(TrySend(c, Rst(trans, code)), ev);
  }

  lemma DataTx(c: Conn, ev: Evidence, f: Frame, disk: Disk)
    requires ConnOk(c) && c.state != Closing && Booked(c, ev) && f.Data?
    requires Booked(Reset(c, f.trans, RST_INTERNAL), ev) && Booked(Reset(c, f.trans, RST_WRITE_ERROR), ev)
    ensures Booked(Handle(c, f, disk), ev)
  {
    hide Booked, Reset, WriteBlock, TxFilesOk;
    var d := Handle(c, f, disk);
    if d.tx == c.tx {
      SameTx(c, d, ev);
    }
  }

  lemma ListBooked(c: Conn, ev: Evidence, f: Frame, disk: Disk)
    requires ConnOk(c) && c.state != Closing && Booked(c, ev) && f.FileHeader?
    ensures Booked(Handle(c, f, disk), ev)
  {
    hide Booked, Shutdown, Accumulate, HeaderComplete, TxFilesOk, RxFilesOk;
    ShutdownBooked(c, ev);
    if Listens(c, 1) && f.node != 0 {
      var t := if c.rx.None? then FreshRx(f.trans, f.node) else c.rx.value;
      if t.trans == f.trans && t.node == f.node {
        var d := c.(rx := Some(t.(hdr := Accumulate(t.hdr, f.entries, f.node).0)));
        SameTx(c, d, ev);
        ShutdownBooked(d, ev);
        CompleteTx(d, disk.opens);
        SameTx(c, HeaderComplete(d, disk.opens), ev);
      }
    }
  }

  /** Sending blocks touches none of the flags. */
  predicate SameFlags(t: Tx, u: Tx) {
    && u == t.(files := u.files) && |u.files| == |t.files|
    && forall i | 0 <= i < |t.files| ::
         u.files[i] == t.files[i].(next := u.files[i].next, retrans := u.files[i].retrans)
  }

  lemma FlagsStay(t: Tx, u: Tx, ev: Evidence)
    requires Flags(t, ev) && SameFlags(t, u) && TxOk(u)
    ensures Flags(u, ev) && (Complete(u, ev) <==> Complete(t, ev))
  {
    hide TxFilesOk;
    assert forall i | 0 <= i < |t.files| :: FileFlags(t.files[i], ev);
    assert forall i | 0 <= i < |t.files| :: u.files[i].confirmed == t.files[i].confirmed;
    assert forall i | 0 <= i < |t.files| :: FileFlags(u.files[i], ev);
  }

  lemma SendBlockFlags(c: Conn, i: nat)
    requires c.tx.Some? && TxOk(c.tx.value) && i < |c.tx.value.files| && Wants(c.tx.value.files[i], true)
    ensures SameFlags(c.tx.value, SendBlock(c, i).tx.value)
  {
    hide DataFrame, TxFileOk;
  }

  lemma SendBlockBooked(c: Conn, ev: Evidence, i: nat)
    requires c.tx.Some? && TxOk(c.tx.value) && i < |c.tx.value.files| && Wants(c.tx.value.files[i], true)
    requires Booked(c, ev) && c.tx.value.phase in {TxSending, TxWaitDone}
    ensures Booked(SendBlock(c, i), ev) && SendBlock(c, i).tx.value.phase == c.tx.value.phase
  {
    hide TxFilesOk, Wants, SendBlock, Flags, Complete;
    SendBlockFlags(c, i);
    FlagsStay(c.tx.value, SendBlock(c, i).tx.value, ev);
  }

  lemma FailPhase(c: Conn, rst: bool)
    requires c.tx.Some?
    ensures FailTx(c, rst).tx.Some? && FailTx(c, rst).tx.value.phase in {c.tx.value.phase, Failed}
  {
  }

  lemma {:induction false} PumpBooked(c: Conn, ev: Evidence, due: bool, budget: nat, readable: nat)
    requires c.tx.Some? && TxOk(c.tx.value) && Booked(c, ev) && c.tx.value.phase in {TxSending, TxWaitDone}
    ensures var d := Pump(c, due, budget, readable);
            Booked(d, ev) && (d.tx.value.phase == c.tx.value.phase || d.tx.value.phase == Failed)
    decreases budget
  {
    hide TxFilesOk, DataFrame, Wants, SendBlock, Booked, FailTx;
    var t := c.tx.value;
    var i := Pick(t.files, due);
    if budget != 0 && i != |t.files| {
      DR.WantsDue(t.files[i], due);
      DR.FileOk(t, i);
      var f := DataFrame(t.trans, t.files[i]);
      FailBooked(c, ev, true);
      SameTx(c, TrySend(c, f), ev);
      FailBooked(TrySend(c, f), ev, false);
      FailPhase(c, true);
      FailPhase(TrySend(c, f), false);
      if readable > 0 && Works(c) {
        SendBlockBooked(c, ev, i);
        PumpBooked(SendBlock(c, i), ev, due && t.files[i].next < t.files[i].total, budget - 1, readable - 1);
      }
    }
  }

  lemma AfterPumpBooked(c: Conn, ev: Evidence)
    requires c.tx.Some? && Booked(c, ev) && c.tx.value.phase in {TxSending, TxWaitDone, Failed}
    ensures Booked(AfterPump(c), ev)
  {
    hide MaybeFinish, AllSent, TxFilesOk, FileFlags;
    var t := c.tx.value;
    if t.phase == Failed {
      FailedStays(c);
    } else {
      var u := if t.phase == TxSending && AllSent(t) then t.(phase := TxWaitDone) else t;
      FinishBooked(c.(tx := Some(u)), ev);
    }
  }

  lemma FailedStays(c: Conn)
    requires c.tx.Some? && c.tx.value.phase == Failed
    ensures AfterPump(c) == c
  {
    hide AllSent, AllAcked, Ids;
  }

  lemma TickTxBooked(c: Conn, ev: Evidence, due: bool, readable: nat)
    requires (c.tx.Some? ==> TxOk(c.tx.value)) && Booked(c, ev)
    ensures Booked(TickTx(c, due, readable), ev)
  {
    hide Booked, Pump, AfterPump, TxFilesOk;
    if c.tx.Some? && c.tx.value.phase in {TxSending, TxWaitDone} {
      PumpBooked(c, ev, due, SEND_BUDGET, readable);
      AfterPumpBooked(Pump(c, due, SEND_BUDGET, readable), ev);
    }
  }

  lemma RetryBooked(c: Conn, ev: Evidence, due: bool)
    requires (c.tx.Some? ==> TxOk(c.tx.value)) && Booked(c, ev)
    ensures Booked(TickRetry(c, due), ev)
  {
    hide Booked, FailTx, SendAll, HeaderFrames, EntriesOf, TxFilesOk;
    if c.tx.Some? && c.tx.value.phase == TxWaitConfirm && due {
      var t := c.tx.value.(retries := c.tx.value.retries + 1);
      var d := c.(tx := Some(t));
      RetriesAside(c, ev);
      FailBooked(d, ev, true);
      DR.EntriesNamed(c.tx.value);
      var frames := HeaderFrames(t.trans, |t.files|, EntriesOf(t.files));
      SendAllTx(d, frames);
      SameTx(d, SendAll(d, frames).conn, ev);
      FailBooked(SendAll(d, frames).conn, ev, false);
    }
  }

  lemma RetriesAside(c: Conn, ev: Evidence)
    requires c.tx.Some? && Booked(c, ev)
    ensures Booked(c.(tx := Some(c.tx.value.(retries := c.tx.value.retries + 1))), ev)
  {
    hide TxFilesOk, FileFlags;
  }

  lemma TickBooked(c: Conn, ev: Evidence, env: Env)
    requires DR.Sound(c) && Booked(c, ev)
    ensures ConnOk(c) && Booked(Tick(c, env), ev)
  {
    hide DR.Sound, Booked, Shutdown, TickRx, TickTx, TickRetry, FailTx, FailRx;
    DR.SoundRx(c);
    ShutdownBooked(c, ev);
    if c.state != Closing {
      DR.TimeoutsGood(c, env);
      FailBooked(c, ev, true);
      FailBooked(if env.txTimeout then FailTx(c, true) else c, ev, true);
      var c1 := Timeouts(c, env);
      DR.SoundRx(c1);
      DR.TickRxGood(c1, env.shaOk);
      var d := TickRx(c1, env.shaOk);
      SameTx(c1, d, ev);
      DR.SoundRx(d);
      DR.TickTxGood(d, env.retranDue, env.readable);
      TickTxBooked(d, ev, env.retranDue, env.readable);
      var e := TickTx(d, env.retranDue, env.readable);
      DR.SoundRx(e);
      RetryBooked(e, ev, env.retryDue);
    }
  }

  lemma OfferBooked(c: Conn, ev: Evidence, items: seq<Item>, canOpen: bool)
    requires DR.Sound(c) && Booked(c, ev) && ItemsOk(items)
    ensures Booked(SendFiles(c, items, canOpen).conn, ev)
  {
    var d := SendFiles(c, items, canOpen).conn;
    if c.state == Ready && c.tx.None? && 0 < |items| <= MAX_FILES && canOpen
        && forall it | it in items :: |it.content| <= MAX_SIZE {
      DR.NewTxOk(c.nextTrans, items);
      DR.NewTxShape(c.nextTrans, items);
      var t := NewTx(c.nextTrans, items);
      FreshFlags(c.nextTrans, items);
      hide SendAll, HeaderFrames, EntriesOf, NewTx, Flags, Complete;
      SendAllTx(c.(nextTrans := Next16(c.nextTrans)), HeaderFrames(t.trans, |items|, EntriesOf(t.files)));
    }
  }

  lemma FreshFlags(trans: u16, items: seq<Item>)
    requires 0 < |items| <= MAX_FILES && ItemsOk(items) && forall it | it in items :: |it.content| <= MAX_SIZE
    ensures var t := NewTx(trans, items); Flags(t, NOTHING) && !Complete(t, NOTHING) && t.phase == TxWaitConfirm
  {
    DR.NewTxOk(trans, items);
    hide TxFilesOk;
    var t := NewTx(trans, items);
    assert forall i | 0 <= i < |t.files| :: FileFlags(t.files[i], NOTHING);
    assert !t.files[0].confirmed;
  }

  // ---------------------------------------------------------------- every run

  lemma StepBooked(c: Conn, ev: Evidence, event: DR.Event)
    requires DR.Sound(c) && Booked(c, ev) && DR.EventOk(event)
    ensures ConnOk(c) && Booked(DR.Step(c, event), Learn(ev, c, event))
  {
    hide DR.Sound, Booked, SendFiles, Shutdown, Handle, Tick, EndsReached;
    DR.SoundRx(c);
    ShutdownBooked(c, ev);
    match event
    case Offer(items, canOpen) => OfferBooked(c, ev, items, canOpen);
    case Arrive(f, disk) =>
      if c.state == Closing {
        ClosedStays(c, event);
      } else if f.Confirm? || f.Request? || f.Ack? || f.Done? {
        SenderHears(c, ev, f, disk);
      } else {
        ReceiverHears(c, ev, f, disk);
      }
    case Timer(env) => TickBooked(c, ev, env);
    case _ =>
  }

  /** All that was learned in a run. */
  ghost function Learned(ev: Evidence, c: Conn, events: seq<DR.Event>): Evidence
    requires DR.Possible(c, events)
    decreases |events|
  {
    if events == [] then ev else Learned(Learn(ev, c, events[0]), DR.Step(c, events[0]), events[1..])
  }

  lemma {:induction false} RunBooked(c: Conn, ev: Evidence, events: seq<DR.Event>)
    requires DR.Sound(c) && Booked(c, ev) && forall i | 0 <= i < |events| :: DR.EventOk(events[i])
    ensures DR.Possible(c, events) && Booked(DR.After(c, events), Learned(ev, c, events))
    decreases |events|
  {
    hide DR.Sound, Booked, DR.Step, Learn;
    if events != [] {
      StepBooked(c, ev, events[0]);
      DR.StepGood(c, events[0]);
      RunBooked(DR.Step(c, events[0]), Learn(ev, c, events[0]), events[1..]);
    }
  }

  /**
   * Over every sequence of events, against any peer and on any link: a transfer that has not failed has reported
   * success if and only if the peer has said DONE and acknowledged the last block of every nonempty file; while
   * it is unfinished, it is armed if and only if the peer has requested it and confirmed every file.
   */
  lemma {:induction false} SucceedsOnWord(hasDir: bool, link: seq<bool>, events: seq<DR.Event>)
    requires forall i | 0 <= i < |events| :: DR.EventOk(events[i])
    ensures DR.Possible(DR.Open(hasDir, link), events)
    ensures var c := DR.After(DR.Open(hasDir, link), events);
            var ev := Learned(NOTHING, DR.Open(hasDir, link), events);
            c.tx.Some? && c.tx.value.phase != Failed ==>
              var t := c.tx.value;
              && (c.txResults == [true] <==> Complete(t, ev))
              && (c.txResults == [] ==>
                    (t.phase in {TxSending, TxWaitDone} <==>
                       ev.requested && forall i | 0 <= i < |t.files| :: t.files[i].id in ev.confirmed))
  {
    DR.OpenSound(hasDir, link);
    OpenBooked(hasDir, link);
    RunBooked(DR.Open(hasDir, link), NOTHING, events);
    DR.RunGood(DR.Open(hasDir, link), events);
    var c := DR.After(DR.Open(hasDir, link), events);
    DR.ReportsOf(c);
    DR.SoundRx(c);
    hide DR.Possible, DR.After, DR.Open, DR.Sound, Learned, TxFilesOk, RxFilesOk;
  }

  lemma OpenBooked(hasDir: bool, link: seq<bool>)
    ensures Booked(DR.Open(hasDir, link), NOTHING)
  {
  }
}
