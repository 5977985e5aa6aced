/**
 * The connection object of src/proto/dfile_conn.c: its fields are updated in place by the frame handlers
 * and the tick, with the source's loops. Every method is proved to do to the fields what the functions of
 * `DFileCore` do to the value `View()`, so the theorems about runs are theorems about this object.
 */
module DFileConn {
  import opened Bytes
  import opened DFileCore

  lemma PickIs(files: seq<TxFile>, due: bool, i: nat)
    requires i <= |files| && (i < |files| ==> Wants(files[i], due)) && forall k | 0 <= k < i :: !Wants(files[k], due)
    ensures Pick(files, due) == i
  {
  }

  lemma AckListStep(files: seq<RxFile>, i: nat, room: nat)
    requires RxFilesOk(files) && i < |files| && room > 0
    ensures RxFilesOk(files[i..]) && RxFilesOk(files[i + 1..])
    ensures AckList(files[i..], room)
            == if files[i].expected > 0 then [AckOf(files[i])] + AckList(files[i + 1..], room - 1)
               else AckList(files[i + 1..], room)
  {
    assert files[i..][0] == files[i] && files[i..][1..] == files[i + 1..];
  }

  lemma NewFiles(trans: u16, items: seq<Item>)
    requires |items| <= MAX_FILES && forall it | it in items :: |it.content| <= MAX_SIZE
    ensures var t := NewTx(trans, items);
            t.trans == trans && forall i | 0 <= i < |t.files| :: |t.files[i].content| <= MAX_SIZE
  {
    assert forall i | 0 <= i < |items| :: items[i] in items;
  }

  lemma NoRoom(files: seq<RxFile>, i: nat)
    requires RxFilesOk(files) && i < |files|
    ensures RxFilesOk(files[i..]) && RxFilesOk(files[i + 1..])
            && AckList(files[i..], 0) == AckList(files[i + 1..], 0) == []
  {
  }

  lemma NoAcks(room: nat)
    ensures RxFilesOk([]) && AckList([], room) == []
  {
  }

  class Connection {
    var state: ConnState
    var tx: Option<Tx>
    var rx: Option<Rx>
    var nextTrans: u16
    var hasDir: bool
    var link: seq<bool>
    var tries: nat
    var out: seq<Frame>
    var txResults: seq<bool>
    var rxResults: seq<bool>
    var closed: nat

    ghost function View(): Conn
      reads this
    {
      Conn(state, tx, rx, nextTrans, hasDir, link, tries, out, txResults, rxResults, closed)
    }

    ghost predicate Valid()
      reads this
    {
      ConnOk(View())
    }

    constructor (hasDir: bool, link: seq<bool>)
      ensures Valid() && View() == NewConn(hasDir, link)
    {
      state, tx, rx, nextTrans, closed := Negotiating, None, None, 1, 0;
      this.hasDir, this.link, tries, out, txResults, rxResults := hasDir, link, 0, [], [], [];
    }

    /** `dc_send`. */
    method SendFrame(f: Frame) returns (ok: bool)
      modifies `out, `tries
      ensures View() == TrySend(old(View()), f) && ok == Works(old(View()))
    {
      ok := tries < |link| && link[tries];
      if ok {
        out := out + [f];
      }
      tries := tries + 1;
    }

    /** The frames of a file list, one after the other. */
    method SendFrames(frames: seq<Frame>) returns (ok: bool)
      modifies `out, `tries
      ensures Sent(View(), ok) == SendAll(old(View()), frames)
    {
      var i := 0;
      while i < |frames|
        invariant 0 <= i <= |frames|
        invariant SendAll(View(), frames[i..]) == SendAll(old(View()), frames)
      {
        assert frames[i..][0] == frames[i] && frames[i..][1..] == frames[i + 1..];
        var sent := SendFrame(frames[i]);
        if !sent {
          return false;
        }
        i := i + 1;
      }
      assert frames[i..] == [];
      return true;
    }

    method FailSending(rst: bool)
      modifies `tx, `txResults, `out, `tries
      ensures View() == FailTx(old(View()), rst)
    {
      if tx.None? || Terminal(tx.value.phase) {
        return;
      }
      var trans := tx.value.trans;
      tx, txResults := Some(tx.value.(phase := Failed)), txResults + [false];
      if rst {
        var _ := SendFrame(Rst(trans, RST_CANCEL));
      }
    }

    method FailReceiving(rst: bool)
      modifies `rx, `rxResults, `out, `tries
      ensures View() == FailRx(old(View()), rst)
    {
      if rx.None? || Terminal(rx.value.phase) {
        return;
      }
      var trans := rx.value.trans;
      rx, rxResults := Some(rx.value.(phase := Failed)), rxResults + [false];
      if rst {
        var _ := SendFrame(Rst(trans, RST_CANCEL));
      }
    }

    /** Idempotent: the close is reported once. */
    method CloseDown()
      modifies this
      ensures View() == Shutdown(old(View()))
    {
      if state == Closing {
        return;
      }
      state := Closing;
      FailSending(false);
      FailReceiving(false);
      closed := closed + 1;
    }

    method ResetPeer(trans: u16, code: u16)
      modifies this
      ensures View() == Reset(old(View()), trans, code)
    {
      var _ := SendFrame(Rst(trans, code));
      CloseDown();
    }

    // ---------------------------------------------------------------- sender

    /** Send the next block of file `i`; on failure the transfer fails. */
    method PumpBlock(i: nat, readable: nat) returns (ok: bool)
      requires tx.Some? && TxOk(tx.value) && i < |tx.value.files| && Wants(tx.value.files[i], true)
      modifies `tx, `txResults, `out, `tries
      ensures ok <==> readable > 0 && Works(old(View()))
      ensures ok ==> View() == SendBlock(old(View()), i)
      ensures !ok && readable == 0 ==> View() == FailTx(old(View()), true)
      ensures !ok && readable > 0 ==>
                View() == FailTx(TrySend(old(View()), DataFrame(old(tx).value.trans, old(tx).value.files[i])), false)
    {
      hide DataFrame, Advance, Wants, TxFileOk;
      if readable == 0 {
        FailSending(true);
        return false;
      }
      var t := tx.value;
      ok := SendFrame(DataFrame(t.trans, t.files[i]));
      if !ok {
        FailSending(false);
        return;
      }
      tx := Some(SetFile(t, i, Advance(t.files[i])));
    }

    /** The new blocks of one file, in order. */
    method PumpNewBlocks(fi: nat, repeat: bool, budget: nat, readable: nat) returns (ok: bool, b: nat, left: nat)
      requires tx.Some? && TxOk(tx.value) && fi < |tx.value.files|
      requires forall k | 0 <= k < fi :: !Wants(tx.value.files[k], repeat)
      modifies `tx, `txResults, `out, `tries
      ensures !ok ==> View() == Pump(old(View()), repeat, budget, readable)
      ensures ok ==>
                && tx.Some? && TxOk(tx.value) && |tx.value.files| == |old(tx).value.files|
                && (forall k | 0 <= k < fi :: tx.value.files[k] == old(tx).value.files[k])
                && (b > 0 ==> tx.value.files[fi].next >= tx.value.files[fi].total)
                && Pump(View(), repeat, b, left) == Pump(old(View()), repeat, budget, readable)
    {
      hide TxFilesOk, SendBlock, FailTx, TrySend, DataFrame, Advance;
      b, left := budget, readable;
      while b > 0 && tx.value.files[fi].next < tx.value.files[fi].total
        invariant tx.Some? && TxOk(tx.value) && |tx.value.files| == |old(tx).value.files|
        invariant forall k | 0 <= k < fi :: tx.value.files[k] == old(tx).value.files[k]
        invariant Pump(View(), repeat, b, left) == Pump(old(View()), repeat, budget, readable)
        decreases b
      {
        PickIs(tx.value.files, repeat, fi);
        SentLength(View(), fi);
        ok := PumpBlock(fi, left);
        if !ok {
          return;
        }
        b, left := b - 1, left - 1;
      }
      ok := true;
    }

    /** One file: its new blocks, then the repetition that is due. */
    method PumpFile(fi: nat, repeat: bool, budget: nat, readable: nat)
        returns (ok: bool, again: bool, b: nat, left: nat)
      requires tx.Some? && TxOk(tx.value) && fi < |tx.value.files| && budget > 0
      requires forall k | 0 <= k < fi :: !Wants(tx.value.files[k], repeat)
      modifies `tx, `txResults, `out, `tries
      ensures !ok ==> View() == Pump(old(View()), repeat, budget, readable)
      ensures ok ==>
                && tx.Some? && TxOk(tx.value) && |tx.value.files| == |old(tx).value.files|
                && (b > 0 ==> forall k | 0 <= k <= fi :: !Wants(tx.value.files[k], again))
                && Pump(View(), again, b, left) == Pump(old(View()), repeat, budget, readable)
    {
      hide TxFilesOk, SendBlock, FailTx, TrySend, DataFrame, Advance, Wants;
      again := repeat;
      ok, b, left := PumpNewBlocks(fi, repeat, budget, readable);
      if !ok || b == 0 {
        return;
      }
      if repeat && tx.value.files[fi].retrans != [] {
        RepeatStep(View(), fi);
        PickIs(tx.value.files, true, fi);
        ok := PumpBlock(fi, left);
        if !ok {
          return;
        }
        b, left, again := b - 1, left - 1, false;
      } else {
        Settled(tx.value.files[fi], repeat);
      }
    }

    /** At most 64 data frames: new blocks file by file, and at most one retransmission. */
    method PumpFiles(due: bool, readable: nat)
      requires tx.Some? && TxOk(tx.value)
      modifies `tx, `txResults, `out, `tries
      ensures View() == Pump(old(View()), due, SEND_BUDGET, readable)
    {
      hide TxFilesOk, SendBlock, FailTx, TrySend, DataFrame, Advance, Wants;
      var budget: nat, fi: nat, repeat, left: nat := SEND_BUDGET, 0, due, readable;
      while fi < |tx.value.files| && budget > 0
        invariant tx.Some? && TxOk(tx.value) && 0 <= fi <= |tx.value.files|
        invariant budget > 0 ==> forall k | 0 <= k < fi :: !Wants(tx.value.files[k], repeat)
        invariant Pump(View(), repeat, budget, left) == Pump(old(View()), due, SEND_BUDGET, readable)
        decreases |tx.value.files| - fi
      {
        var ok;
        ok, repeat, budget, left := PumpFile(fi, repeat, budget, left);
        if !ok {
          return;
        }
        fi := fi + 1;
      }
      if budget > 0 {
        PickIs(tx.value.files, repeat, fi);
      }
    }

    /** `tx_finish`. */
    method FinishSending()
      requires tx.Some?
      modifies `tx, `txResults, `out, `tries
      ensures View() == Finish(old(View()))
    {
      var t := tx.value;
      if t.doneAckSent || t.phase == TxDone || t.phase == Failed {
        return;
      }
      var ok := SendFrame(DoneAck(t.trans, Ids(t.files)));
      if !ok {
        FailSending(false);
        return;
      }
      tx, txResults := Some(t.(doneAckSent := true, phase := TxDone)), txResults + [true];
    }

    method MaybeFinishSending()
      requires tx.Some?
      modifies `tx, `txResults, `out, `tries
      ensures View() == MaybeFinish(old(View()))
    {
      if tx.value.doneReceived && AllAcked(tx.value) {
        FinishSending();
      }
    }

    /** Cumulative acks: drop what they cover from the blocks to repeat. */
    method TakeAcks(trans: u16, acks: seq<AckEntry>)
      modifies this
      ensures View() == OnAck(old(View()), trans, acks)
    {
      hide MaybeFinish, Shutdown;
      if tx.None? || (tx.value.phase != TxSending && tx.value.phase != TxWaitDone) {
        return;
      }
      if trans != tx.value.trans {
        CloseDown();
        return;
      }
      var files, k := tx.value.files, 0;
      while k < |acks|
        invariant 0 <= k <= |acks|
        invariant AckEach(files, acks[k..]) == AckEach(tx.value.files, acks)
        modifies {}
      {
        var e := acks[k];
        assert acks[k..][0] == e && acks[k..][1..] == acks[k + 1..];
        var i := FindTx(files, e.id);
        if i < |files| && e.last != NO_SEQ {
          var f := TakeAck(files[i], e.last);
          files := files[i := f];
        }
        k := k + 1;
      }
      assert acks[k..] == [];
      tx := Some(tx.value.(files := files));
      MaybeFinishSending();
    }

    method TakeAck(f: TxFile, last: u32) returns (g: TxFile)
      ensures g == AckFile(f, last)
    {
      g := f;
      if f.lastAcked == -1 || last > f.lastAcked {
        var retrans := f.retrans;
        while retrans != [] && retrans[0] <= last
          invariant DropAcked(retrans, last) == DropAcked(f.retrans, last)
          decreases |retrans|
        {
          retrans := retrans[1..];
        }
        g := f.(lastAcked := last, retrans := retrans);
        if f.total == 0 || last + 1 >= f.total {
          g := g.(ackedAll := true);
        }
      }
    }

    method TakeDone(trans: u16)
      modifies this
      ensures View() == OnDone(old(View()), trans)
    {
      hide MaybeFinish, Shutdown;
      if tx.None? || tx.value.phase == Failed || tx.value.phase == TxDone {
        return;
      }
      if trans != tx.value.trans {
        CloseDown();
        return;
      }
      tx := Some(tx.value.(doneReceived := true));
      if tx.value.phase == TxSending {
        tx := Some(tx.value.(phase := TxWaitDone));
      }
      MaybeFinishSending();
    }

    method ConfirmAll(files: seq<TxFile>, ids: seq<u16>) returns (r: seq<TxFile>)
      ensures r == ConfirmIds(files, ids)
    {
      r := files;
      var k := 0;
      while k < |ids|
        invariant 0 <= k <= |ids|
        invariant ConfirmIds(r, ids[k..]) == ConfirmIds(files, ids)
      {
        assert ids[k..][0] == ids[k] && ids[k..][1..] == ids[k + 1..];
        var i := FindTx(r, ids[k]);
        if i < |r| {
          r := r[i := r[i].(confirmed := true)];
        }
        k := k + 1;
      }
      assert ids[k..] == [];
    }

    method TakeConfirm(trans: u16, ids: seq<u16>)
      modifies this
      ensures View() == OnConfirm(old(View()), trans, ids)
    {
      hide Shutdown;
      if tx.None? || tx.value.phase != TxWaitConfirm {
        return;
      }
      if trans != tx.value.trans {
        CloseDown();
        return;
      }
      var files := ConfirmAll(tx.value.files, ids);
      tx := Some(Armed(tx.value.(files := files, allConfirmed := forall i | 0 <= i < |files| :: files[i].confirmed)));
    }

    method TakeRequest(trans: u16)
      modifies this
      ensures View() == OnRequest(old(View()), trans)
    {
      if tx.None? || tx.value.phase != TxWaitConfirm {
        return;
      }
      if trans != tx.value.trans {
        CloseDown();
        return;
      }
      tx := Some(Armed(tx.value.(requested := true)));
    }

    /** `send_files_impl`: nothing is registered unless the whole list went out. */
    method OfferFiles(items: seq<Item>, canOpen: bool) returns (ok: bool)
      modifies this
      ensures Sent(View(), ok) == SendFiles(old(View()), items, canOpen)
    {
      hide SendAll, HeaderFrames, EntriesOf, NewTx;
      if state != Ready || tx.Some? || |items| == 0 || |items| > MAX_FILES {
        return false;
      }
      var trans := nextTrans;
      nextTrans := Next16(nextTrans);
      if !canOpen || exists it | it in items :: |it.content| > MAX_SIZE {
        return false;
      }
      NewFiles(trans, items);
      var t := NewTx(trans, items);
      ok := SendFrames(HeaderFrames(t.trans, |items|, EntriesOf(t.files)));
      if ok {
        tx := Some(t);
      }
    }

    // ---------------------------------------------------------------- receiver

    /** Ack what every file has, up to 39 files. */
    method FlushAcks()
      requires rx.Some? && RxOk(rx.value)
      modifies `rx, `rxResults, `out, `tries
      ensures View() == FlushAck(old(View()))
    {
      hide FailRx, TrySend, RxFilesOk, AckList, RxFileOk;
      rx := Some(rx.value.(ackPending := false));
      var t := rx.value;
      var acks, i := [], 0;
      assert t.files[0..] == t.files;
      while i < |t.files|
        invariant 0 <= i <= |t.files| && |acks| <= MAX_ACKS && RxFilesOk(t.files[i..])
        invariant acks + AckList(t.files[i..], MAX_ACKS - |acks|) == AckList(t.files, MAX_ACKS)
        modifies {}
      {
        if |acks| < MAX_ACKS {
          AckListStep(t.files, i, MAX_ACKS - |acks|);
          if t.files[i].expected > 0 {
            FileFine(t.files, i);
            ghost var rest := AckList(t.files[i + 1..], MAX_ACKS - |acks| - 1);
            assert acks + ([AckOf(t.files[i])] + rest) == (acks + [AckOf(t.files[i])]) + rest;
            acks := acks + [AckEntry(t.files[i].id, t.files[i].expected - 1)];
          }
        } else {
          NoRoom(t.files, i);
        }
        i := i + 1;
      }
      assert t.files[i..] == [];
      NoAcks(MAX_ACKS - |acks|);
      assert acks == AckList(t.files, MAX_ACKS);
      if acks == [] {
        return;
      }
      var ok := SendFrame(Ack(t.trans, acks));
      if !ok {
        FailReceiving(false);
      }
    }

    /** `rx_send_done`. */
    method AnnounceDone(shaOk: bool)
      requires rx.Some?
      modifies `rx, `rxResults, `out, `tries
      ensures View() == SendDone(old(View()), shaOk)
    {
      var t := rx.value;
      if t.doneSent {
        return;
      }
      if !shaOk {
        var _ := SendFrame(Rst(t.trans, RST_INTERNAL));
        FailReceiving(false);
        return;
      }
      var ok := SendFrame(Done(t.trans, RxIds(t.files)));
      if !ok {
        FailReceiving(false);
        return;
      }
      rx := Some(t.(doneSent := true, phase := RxWaitDoneAck));
    }

    /** Add the entries not yet known; false when they overflow the announced number. */
    method AddEntries(hdr: seq<Entry>, es: seq<Entry>, node: u16) returns (all: seq<Entry>, fits: bool)
      ensures (all, fits) == Accumulate(hdr, es, node)
    {
      all := hdr;
      var i := 0;
      while i < |es|
        invariant 0 <= i <= |es|
        invariant Accumulate(all, es[i..], node) == Accumulate(hdr, es, node)
      {
        assert es[i..][0] == es[i] && es[i..][1..] == es[i + 1..];
        var dup, j := false, 0;
        while j < |all| && !dup
          invariant 0 <= j <= |all|
          invariant dup ==> HasId(all, es[i].id)
          invariant !dup ==> forall k | 0 <= k < j :: all[k].id != es[i].id
          decreases |all| - j, !dup
        {
          if all[j].id == es[i].id {
            assert all[j] in all;
            dup := true;
          }
          j := j + 1;
        }
        if !dup {
          if |all| + 1 > node {
            return all, false;
          }
          all := all + [es[i]];
        }
        i := i + 1;
      }
      assert es[i..] == [];
      return all, true;
    }

    /** Open the destinations in order, stopping at the first that cannot be opened. */
    method OpenAll(hdr: seq<Entry>, opens: nat) returns (files: seq<RxFile>)
      ensures files == OpenFiles(hdr, opens)
    {
      files := [];
      var i, left := 0, opens;
      while i < |hdr|
        invariant 0 <= i <= |hdr| && 0 <= left
        invariant files + OpenFiles(hdr[i..], left) == OpenFiles(hdr, opens)
      {
        assert hdr[i..][0] == hdr[i] && hdr[i..][1..] == hdr[i + 1..];
        if left == 0 || hdr[i].size > MAX_SIZE {
          return;
        }
        ghost var rest := OpenFiles(hdr[i + 1..], left - 1);
        assert files + ([NewRxFile(hdr[i])] + rest) == (files + [NewRxFile(hdr[i])]) + rest;
        files := files + [NewRxFile(hdr[i])];
        i, left := i + 1, left - 1;
      }
    }

    method CompleteHeader(opens: nat)
      requires rx.Some?
      modifies `rx, `rxResults, `out, `tries
      ensures View() == HeaderComplete(old(View()), opens)
    {
      hide FailRx, TrySend, SendAll, OpenFiles;
      var t := rx.value;
      if t.phase != Idle {
        return;
      }
      if !hasDir {
        FailReceiving(false);
        return;
      }
      var files := OpenAll(t.hdr, opens);
      rx := Some(t.(files := files));
      if |files| < |t.hdr| {
        var _ := SendFrame(Rst(t.trans, RST_NO_STORAGE));
        FailReceiving(false);
        return;
      }
      if |t.hdr| > MAX_FILES {
        FailReceiving(false);
        return;
      }
      var ok := SendFrames([Confirm(t.trans, EntryIds(t.hdr)), Request(t.trans, EntryIds(t.hdr))]);
      if !ok {
        FailReceiving(false);
        return;
      }
      rx := Some(t.(files := files, phase := RxWaitData));
    }

    method TakeHeader(trans: u16, node: u16, es: seq<Entry>, opens: nat)
      modifies this
      ensures View() == OnHeader(old(View()), trans, node, es, opens)
    {
      hide Shutdown, HeaderComplete, Accumulate;
      if rx.Some? && (rx.value.phase == Failed || rx.value.phase == RxDone) {
        return;
      }
      if node == 0 {
        CloseDown();
        return;
      }
      var t := FreshRx(trans, node);
      if rx.Some? {
        t := rx.value;
        if t.trans != trans || t.node != node {
          CloseDown();
          return;
        }
      }
      var hdr, fits := AddEntries(t.hdr, es, node);
      rx := Some(t.(hdr := hdr));
      if !fits {
        CloseDown();
        return;
      }
      if |hdr| >= node {
        CompleteHeader(opens);
      }
    }

    method TakeDoneAck(trans: u16)
      modifies this
      ensures View() == OnDoneAck(old(View()), trans)
    {
      if rx.None? || rx.value.phase != RxWaitDoneAck {
        return;
      }
      if trans != rx.value.trans {
        CloseDown();
        return;
      }
      rx, rxResults := Some(rx.value.(phase := RxDone)), rxResults + [true];
    }

    /** `handle_frame`. */
    method HandleFrame(f: Frame, disk: Disk)
      requires Valid()
      modifies this
      ensures View() == Handle(old(View()), f, disk)
    {
      hide Shutdown, Reset, FailTx, FailRx, OnHeader, OnConfirm, OnRequest, OnData, OnAck, OnDone, OnDoneAck, Looks,
        TxFilesOk, RxFilesOk;
      if state == Closing {
        return;
      }
      match f
      case Setting(mtu, _) =>
        if state == Negotiating {
          if mtu == 0 {
            ResetPeer(0, RST_WITHOUT_SETTING);
          } else {
            state := Ready;
          }
        }
      case FileHeader(trans, node, es) => TakeHeader(trans, node, es, disk.opens);
      case Confirm(trans, ids) => TakeConfirm(trans, ids);
      case Request(trans, _) => TakeRequest(trans);
      case Data(trans, _, id, num, payload) => TakeData(trans, id, num, payload, disk.writes);
      case Ack(trans, acks) => TakeAcks(trans, acks);
      case Done(trans, _) => TakeDone(trans);
      case DoneAck(trans, _) => TakeDoneAck(trans);
      case Rst(trans, _) =>
        if tx.Some? && tx.value.trans == trans {
          FailSending(false);
        } else if rx.Some? && rx.value.trans == trans {
          FailReceiving(false);
        }
      case Bad(kind) =>
        if Looks(Conn(state, tx, rx, nextTrans, hasDir, link, tries, out, txResults, rxResults, closed), kind) {
          CloseDown();
        }
      case Ignored =>
    }

    /** One block: the next one is written, an earlier one dropped, anything else closes the connection. */
    method TakeData(trans: u16, id: u16, num: u32, payload: seq<byte>, writes: bool)
      requires rx.Some? ==> RxOk(rx.value)
      modifies this
      ensures View() == OnData(old(View()), trans, id, num, payload, writes)
    {
      hide Reset, WriteBlock, RxFileOk;
      if rx.None? || rx.value.phase != RxWaitData || trans != rx.value.trans {
        ResetPeer(trans, RST_INTERNAL);
        return;
      }
      var t := rx.value;
      var i := FindRx(t.files, id);
      if i == |t.files| {
        ResetPeer(trans, RST_INTERNAL);
        return;
      }
      var f := t.files[i];
      FileFine(t.files, i);
      if num >= f.total {
        ResetPeer(trans, RST_INTERNAL);
        return;
      }
      if num < f.expected {
        return;
      }
      if num > f.expected {
        ResetPeer(trans, RST_INTERNAL);
        return;
      }
      BlockFits(f, num);
      if |payload| != BlockLen(f.size, num) {
        ResetPeer(trans, RST_INTERNAL);
        return;
      }
      if !writes {
        ResetPeer(trans, RST_WRITE_ERROR);
        return;
      }
      rx := Some(t.(files := t.files[i := WriteBlock(f, payload)], ackPending := true));
    }

    // ---------------------------------------------------------------- tick

    method TickReceiver(shaOk: bool)
      requires rx.Some? ==> RxOk(rx.value)
      modifies `rx, `rxResults, `out, `tries
      ensures View() == TickRx(old(View()), shaOk)
    {
      hide FlushAck, SendDone, RxFilesOk;
      if rx.None? || rx.value.phase != RxWaitData {
        return;
      }
      if rx.value.ackPending {
        FlushStays(View());
        FlushAcks();
      }
      if !rx.value.doneSent && rx.value.files != [] && AllComplete(rx.value.files) {
        AnnounceDone(shaOk);
      }
    }

    method TickSender(due: bool, readable: nat)
      requires tx.Some? ==> TxOk(tx.value)
      modifies `tx, `txResults, `out, `tries
      ensures View() == TickTx(old(View()), due, readable)
    {
      hide Pump, MaybeFinish, TxFilesOk;
      if tx.None? || (tx.value.phase != TxSending && tx.value.phase != TxWaitDone) {
        return;
      }
      PumpFiles(due, readable);
      if tx.value.phase == TxSending && AllSent(tx.value) {
        tx := Some(tx.value.(phase := TxWaitDone));
      }
      MaybeFinishSending();
    }

    method TickHeader(due: bool)
      requires tx.Some? ==> TxOk(tx.value)
      modifies `tx, `txResults, `out, `tries
      ensures View() == TickRetry(old(View()), due)
    {
      hide FailTx, SendAll, HeaderFrames;
      if tx.None? || tx.value.phase != TxWaitConfirm || !due {
        return;
      }
      tx := Some(tx.value.(retries := tx.value.retries + 1));
      if tx.value.retries > MAX_RETRIES {
        FailSending(true);
        return;
      }
      var t := tx.value;
      var ok := SendFrames(HeaderFrames(t.trans, |t.files|, EntriesOf(t.files)));
      if !ok {
        FailSending(false);
      }
    }

    method OnTick(env: Env)
      requires Valid()
      modifies this
      ensures View() == Tick(old(View()), env)
    {
      hide Shutdown, FailTx, FailRx, TickRx, TickTx, TickRetry, TxFilesOk, RxFilesOk;
      if state == Closing {
        return;
      }
      if state == Negotiating && env.negotiation {
        CloseDown();
        return;
      }
      ghost var c := View();
      if env.txTimeout {
        FailSending(true);
      }
      if env.rxTimeout {
        FailReceiving(true);
      }
      ghost var d := Timeouts(c, env);
      assert View() == d;
      TickReceiver(env.shaOk);
      TickSender(env.retranDue, env.readable);
      TickHeader(env.retryDue);
    }
  }

  lemma SentLength(c: Conn, i: nat)
    requires c.tx.Some? && TxOk(c.tx.value) && i < |c.tx.value.files| && Wants(c.tx.value.files[i], true)
    ensures var d := SendBlock(c, i);
            && d.tx.Some? && |d.tx.value.files| == |c.tx.value.files|
            && d.tx.value.files[i] == Advance(c.tx.value.files[i])
            && forall k | 0 <= k < |c.tx.value.files| && k != i :: d.tx.value.files[k] == c.tx.value.files[k]
  {
    hide DataFrame, TxFileOk;
  }

  lemma Settled(f: TxFile, repeat: bool)
    requires f.next >= f.total && (!repeat || f.retrans == [])
    ensures !Wants(f, repeat)
  {
  }

  /** The one retransmission of a pump, after which only new blocks count. */
  lemma RepeatStep(c: Conn, i: nat)
    requires c.tx.Some? && TxOk(c.tx.value) && i < |c.tx.value.files|
    requires c.tx.value.files[i].next >= c.tx.value.files[i].total && c.tx.value.files[i].retrans != []
    requires forall k | 0 <= k < i :: !Wants(c.tx.value.files[k], true)
    ensures Wants(c.tx.value.files[i], true)
    ensures var d := SendBlock(c, i);
            && d.tx.Some? && |d.tx.value.files| == |c.tx.value.files|
            && forall k | 0 <= k <= i :: !Wants(d.tx.value.files[k], false)
  {
    SentLength(c, i);
    hide SendBlock, TxFilesOk;
  }

  lemma FileFine(files: seq<RxFile>, i: nat)
    requires RxFilesOk(files) && i < |files|
    ensures RxFileOk(files[i])
  {
  }

  lemma BlockFits(f: RxFile, num: nat)
    requires RxFileOk(f) && num < f.total
    ensures num * BLOCK <= f.size
  {
    BlockInside(f.size, num);
  }

  lemma FlushStays(c: Conn)
    requires c.rx.Some? && RxOk(c.rx.value)
    ensures FlushAck(c).rx.Some?
  {
    hide AckList, RxFilesOk;
  }
}
