/**
 * A transfer can succeed exactly when at most 39 of its files are not empty: a run that completes it, for
 * every list of files that satisfies the limit.
 */
module DFileComplete {
  import opened Bytes
  import opened DFileCore
  import opened DFileLink
  import opened DFileSides
  import opened DFileNet
  import opened DFileTheorems
  import DR = DFileResults

  /** The next `n` sends will work. */
  ghost predicate Room(c: Conn, n: nat) {
    c.tries + n <= |c.link| && forall i | c.tries <= i < c.tries + n :: c.link[i]
  }

  const QUIET := Env(false, false, false, false, false, SEND_BUDGET, true)

  // ---------------------------------------------------------------- runs

  lemma {:induction false} RunAppend(p: Pair, first: seq<Move>, second: seq<Move>)
    requires IsRun(p, first) && IsRun(After(p, first), second)
    ensures IsRun(p, first + second) && After(p, first + second) == After(After(p, first), second)
    decreases |first|
  {
    hide CanMove, Next;
    if first == [] {
      assert first + second == second;
    } else {
      assert (first + second)[1..] == first[1..] + second;
      RunAppend(Next(p, first[0]), first[1..], second);
    }
  }

  /** One action of an end in a state that satisfies the invariant. */
  lemma OneMove(p: Pair, m: Move)
    requires Inv(p) && (if m.byA then Enabled(m.act, p.a, p.b) else Enabled(m.act, p.b, p.a))
    ensures CanMove(p, m) && IsRun(p, [m]) && After(p, [m]) == Next(p, m) && Inv(Next(p, m))
  {
    hide Act, Agree;
    InvOk(p);
    MoveKeeps(p, m);
    assert [m][1..] == [];
    EmptyRun(Next(p, m));
  }

  lemma EmptyRun(p: Pair)
    ensures IsRun(p, []) && After(p, []) == p
  {
  }

  lemma InvOk(p: Pair)
    requires Inv(p)
    ensures ConnOk(p.a.conn) && ConnOk(p.b.conn)
    ensures p.a.taken <= |p.b.conn.out| && p.b.taken <= |p.a.conn.out|
  {
    hide Agree;
    DR.SoundRx(p.a.conn);
    DR.SoundRx(p.b.conn);
  }

  // ---------------------------------------------------------------- the file list

  function Waiting(o: Offered): Rx
    requires OfferOk(o)
  {
    FreshRx(o.trans, |o.items|).(phase := RxWaitData, hdr := Entries(o), files := OpenFiles(Entries(o), |o.items|))
  }

  function Heard(o: Offered, k: nat): Option<Rx>
    requires OfferOk(o) && k <= |o.items|
  {
    if k == 0 then None else Some(FreshRx(o.trans, |o.items|).(hdr := Entries(o)[..k]))
  }

  function Answers(o: Offered): seq<Frame>
    requires OfferOk(o)
  {
    [Confirm(o.trans, EntryIds(Entries(o))), Request(o.trans, EntryIds(Entries(o)))]
  }

  lemma {:induction false} SendAllWorks(c: Conn, frames: seq<Frame>)
    requires Room(c, |frames|)
    ensures SendAll(c, frames) == Sent(c.(out := c.out + frames, tries := c.tries + |frames|), true)
    decreases |frames|
  {
    if frames == [] {
      assert c.out + frames == c.out;
    } else {
      var d := TrySend(c, frames[0]);
      SendAllWorks(d, frames[1..]);
      assert c.out + [frames[0]] + frames[1..] == c.out + frames;
    }
  }

  /** Reading the header frame that carries entries `k` to `k + n`. */
  lemma HearHeader(c: Conn, o: Offered, k: nat, n: nat)
    requires OfferOk(o) && n > 0 && k + n <= |o.items| && c.rx == Heard(o, k) && c.hasDir && Room(c, 2)
    ensures OnHeader(c, o.trans, |o.items|, Entries(o)[k..k + n], |o.items|)
            == if k + n < |o.items| then c.(rx := Heard(o, k + n))
               else c.(rx := Some(Waiting(o)), out := c.out + Answers(o), tries := c.tries + 2)
  {
    hide Entries, Accumulate, OpenFiles;
    ListSize(o);
    AccumulatePrefix(o, k, k, k + n);
    assert Entries(o)[..0] == [];
    var t := RxOr(c.rx, o.trans, |o.items|);
    assert t == FreshRx(o.trans, |o.items|).(hdr := Entries(o)[..k]);
    var d := c.(rx := Some(t.(hdr := Entries(o)[..k + n])));
    if k + n == |o.items| {
      assert Entries(o)[..k + n] == Entries(o);
      AllOpen(o);
      var e := d.(rx := Some(d.rx.value.(files := OpenFiles(Entries(o), |o.items|))));
      SendAllWorks(e, Answers(o));
    }
  }

  lemma {:induction false} OpenCount(hdr: seq<Entry>, opens: nat)
    requires |hdr| <= opens && forall i | 0 <= i < |hdr| :: hdr[i].size <= MAX_SIZE
    ensures |OpenFiles(hdr, opens)| == |hdr|
    decreases |hdr|
  {
    if hdr != [] {
      OpenCount(hdr[1..], opens - 1);
    }
  }

  lemma AllOpen(o: Offered)
    requires OfferOk(o)
    ensures |OpenFiles(Entries(o), |o.items|)| == |o.items|
  {
    OpenCount(Entries(o), |o.items|);
  }

  /** The next frame of end A. */
  function FrameFor(p: Pair): Frame
    requires p.b.taken < |p.a.conn.out|
  {
    p.a.conn.out[p.b.taken]
  }

  lemma HearMove(p: Pair, disk: Disk)
    requires Inv(p) && p.b.taken < |p.a.conn.out| && p.b.conn.state != Closing
    ensures ConnOk(p.b.conn)
    ensures var m := Move(false, Receive(disk));
            var t := p.(b := p.b.(conn := Handle(p.b.conn, FrameFor(p), disk), taken := p.b.taken + 1));
            CanMove(p, m) && IsRun(p, [m]) && After(p, [m]) == t && Inv(t)
  {
    hide Handle, Inv2;
    InvOk(p);
    OneMove(p, Move(false, Receive(disk)));
  }

  lemma ReadMove(p: Pair)
    requires Inv(p) && p.a.taken < |p.b.conn.out| && p.a.conn.state != Closing
    ensures ConnOk(p.a.conn)
    ensures var m := Move(true, Receive(Disk(0, false)));
            var t := p.(a := p.a.(conn := Handle(p.a.conn, p.b.conn.out[p.a.taken], Disk(0, false)),
                                  taken := p.a.taken + 1));
            CanMove(p, m) && IsRun(p, [m]) && After(p, [m]) == t && Inv(t)
  {
    hide Handle, Inv2;
    InvOk(p);
    OneMove(p, Move(true, Receive(Disk(0, false))));
  }

  lemma TickMove(p: Pair, byA: bool, env: Env)
    requires Inv(p)
    ensures ConnOk(p.a.conn) && ConnOk(p.b.conn)
    ensures var m := Move(byA, Timer(env));
            var t := if byA then p.(a := p.a.(conn := Tick(p.a.conn, env)))
                     else p.(b := p.b.(conn := Tick(p.b.conn, env)));
            CanMove(p, m) && IsRun(p, [m]) && After(p, [m]) == t && Inv(t)
  {
    hide Tick, Inv2;
    InvOk(p);
    OneMove(p, Move(byA, Timer(env)));
  }

  /** All header frames are read and answered. */
  lemma {:induction false} HearHeaders(p: Pair, o: Offered, k: nat) returns (moves: seq<Move>)
    requires Inv(p) && OfferOk(o) && k < |o.items|
    requires p.b.conn.state == Ready && p.b.conn.hasDir && p.b.conn.rx == Heard(o, k) && Room(p.b.conn, 2)
    requires p.b.taken <= |p.a.conn.out|
    requires p.a.conn.out[p.b.taken..] == HeaderFrames(o.trans, |o.items|, Entries(o)[k..])
    ensures IsRun(p, moves)
    ensures After(p, moves)
            == p.(b := p.b.(conn := p.b.conn.(rx := Some(Waiting(o)), out := p.b.conn.out + Answers(o),
                                              tries := p.b.conn.tries + 2),
                            taken := |p.a.conn.out|))
    decreases |o.items| - k
  {
    hide IsRun, After, Inv, Entries, OnHeader, Fitting, Room, Waiting, Answers, Heard;
    ListSize(o);
    SplitProgress(o, k);
    var es := Entries(o)[k..];
    var n := Fitting(es, HEADER_CAP - 10);
    var frames := HeaderFrames(o.trans, |o.items|, es);
    assert es[..n] == Entries(o)[k..k + n] && es[n..] == Entries(o)[k + n..];
    var rest := HeaderFrames(o.trans, |o.items|, es[n..]);
    assert frames == [FileHeader(o.trans, |o.items|, Entries(o)[k..k + n])] + rest;
    assert FrameFor(p) == p.a.conn.out[p.b.taken..][0] == frames[0];
    var disk := Disk(|o.items|, true);
    HearMove(p, disk);
    HearHeader(p.b.conn, o, k, n);
    var m := Move(false, Receive(disk));
    var t := After(p, [m]);
    assert p.a.conn.out[p.b.taken + 1..] == p.a.conn.out[p.b.taken..][1..] == rest;
    if k + n < |o.items| {
      SameRoom(p.b.conn, t.b.conn, 2);
      var more := HearHeaders(t, o, k + n);
      RunAppend(p, [m], more);
      moves := [m] + more;
    } else {
      assert es[n..] == [];
      NoFrames(o.trans, |o.items|);
      moves := [m];
    }
  }

  lemma SameRoom(c: Conn, d: Conn, n: nat)
    requires Room(c, n) && d.link == c.link && d.tries == c.tries
    ensures Room(d, n)
  {
  }

  // ---------------------------------------------------------------- armed

  /** Confirming every id in order confirms every file. */
  lemma {:induction false} ConfirmRest(files: seq<TxFile>, ids: seq<u16>, j: nat)
    requires |files| == |ids| && j <= |ids| && forall i | 0 <= i < |files| :: files[i].id == i + 1 == ids[i]
    requires forall i | 0 <= i < j :: files[i].confirmed
    ensures var r := ConfirmIds(files, ids[j..]); |r| == |files| && forall i | 0 <= i < |r| :: r[i].confirmed
    decreases |ids| - j
  {
    if j == |ids| {
      assert ids[j..] == [];
    } else {
      assert ids[j..][0] == ids[j] && ids[j..][1..] == ids[j + 1..];
      assert FindTx(files, ids[j]) == j;
      ConfirmRest(files[j := files[j].(confirmed := true)], ids, j + 1);
    }
  }

  /** Nothing acked yet. */
  predicate Untouched(f: TxFile) {
    f.lastAcked == -1 && (f.ackedAll <==> f.total == 0)
  }

  ghost predicate SenderReady(c: Conn, o: Offered) {
    && c.state == Ready && c.rx.None? && c.tx.Some? && c.tx.value.phase in {TxSending, TxWaitDone}
    && !c.tx.value.doneReceived && !c.tx.value.doneAckSent
    && c.tx.value.trans == o.trans && TxOk(c.tx.value) && |c.tx.value.files| == |o.items|
    && forall i | 0 <= i < |c.tx.value.files| :: Untouched(c.tx.value.files[i])
  }

  /** Nothing has been sent yet of the files. */
  ghost predicate Fresh(c: Conn) {
    c.tx.Some? && forall i | 0 <= i < |c.tx.value.files| :: c.tx.value.files[i].next == 0
  }

  lemma NewTxFresh(o: Offered)
    requires OfferOk(o)
    ensures var t := NewTx(o.trans, o.items);
            && t.phase == TxWaitConfirm && t.trans == o.trans && |t.files| == |o.items| && TxOk(t)
            && !t.doneReceived && !t.doneAckSent && !t.requested
            && forall i | 0 <= i < |t.files| :: Untouched(t.files[i]) && t.files[i].id == i + 1 && t.files[i].next == 0
  {
    assert forall it | it in o.items :: |it.content| <= MAX_SIZE;
    DR.NewTxOk(o.trans, o.items);
  }

  lemma ConfirmedTx(o: Offered)
    requires OfferOk(o)
    ensures var files := ConfirmIds(NewTx(o.trans, o.items).files, EntryIds(Entries(o)));
            && TxFilesOk(files) && |files| == |o.items| && (forall i | 0 <= i < |files| :: files[i].confirmed)
            && (forall i | 0 <= i < |files| :: Untouched(files[i]) && files[i].next == 0)
  {
    hide TxFileOk;
    var t := NewTx(o.trans, o.items);
    var ids := EntryIds(Entries(o));
    NewTxFresh(o);
    assert ids[0..] == ids;
    ConfirmRest(t.files, ids, 0);
    ConfirmSame(t.files, ids);
    DR.ConfirmIdsOk(t.files, ids);
    var files := ConfirmIds(t.files, ids);
    forall i | 0 <= i < |files|
      ensures Untouched(files[i]) && files[i].next == 0
    {
      assert SamePlace(t.files[i], files[i]) && Untouched(t.files[i]);
      SameTotal(t.files, files, i);
    }
  }

  lemma SameTotal(a: seq<TxFile>, b: seq<TxFile>, i: nat)
    requires TxFilesOk(a) && TxFilesOk(b) && i < |a| && i < |b| && a[i].content == b[i].content
    ensures a[i].total == b[i].total
  {
  }

  /** Both answers read: the sender is armed. */
  lemma AnswersArm(c: Conn, o: Offered)
    requires OfferOk(o) && c.state == Ready && c.rx.None? && c.tx == Some(NewTx(o.trans, o.items))
    ensures var d := OnRequest(OnConfirm(c, o.trans, EntryIds(Entries(o))), o.trans);
            SenderReady(d, o) && d == c.(tx := d.tx) && Fresh(d)
    ensures OnConfirm(c, o.trans, EntryIds(Entries(o))).state == Ready
  {
    hide ConfirmIds, NewTx, Entries, TxFilesOk, Untouched;
    NewTxFresh(o);
    ConfirmedTx(o);
  }

  ghost predicate ReceiverReady(c: Conn) {
    && c.state == Ready && c.tx.None? && RxPhase(c.rx, RxWaitData) && !c.rx.value.doneSent
    && (c.rx.value.ackPending || forall i | 0 <= i < |c.rx.value.files| :: c.rx.value.files[i].expected == 0)
  }

  /** Both ends are in the middle of the transfer and nothing is on the way. */
  ghost predicate Sending(p: Pair, o: Offered) {
    && Inv(p) && OfferOk(o) && p.a.offer == Some(o) && p.a.taken == |p.b.conn.out| && p.b.taken == |p.a.conn.out|
    && SenderReady(p.a.conn, o) && ReceiverReady(p.b.conn)
  }

  lemma WaitingReady(o: Offered, c: Conn)
    requires OfferOk(o) && c.state == Ready && c.tx.None? && c.rx == Some(Waiting(o))
    ensures ReceiverReady(c)
  {
    hide OpenFiles, Faithful;
    OpenFilesFor(o, 0, |o.items|);
    assert Entries(o)[0..] == Entries(o);
    var fs := c.rx.value.files;
    assert forall i | 0 <= i < |fs| :: RxFileFor(o, 0 + i, fs[i], 0);
  }

  lemma {:induction false} Arm(p: Pair, o: Offered) returns (moves: seq<Move>)
    requires Inv(p) && OfferOk(o) && p.a.offer == Some(o) && p.b.taken == |p.a.conn.out|
    requires p.a.conn.state == Ready && p.a.conn.rx.None? && p.a.conn.tx == Some(NewTx(o.trans, o.items))
    requires p.b.conn.state == Ready && p.b.conn.tx.None? && p.b.conn.rx == Some(Waiting(o))
    requires p.a.taken <= |p.b.conn.out| && p.b.conn.out[p.a.taken..] == Answers(o)
    ensures IsRun(p, moves)
    ensures var t := After(p, moves);
            && Sending(t, o) && Fresh(t.a.conn) && t.b == p.b
            && t.a.conn == p.a.conn.(tx := t.a.conn.tx)
  {
    hide IsRun, After, Inv, SenderReady, ReceiverReady, Entries, NewTx, Waiting, OnConfirm, OnRequest, OfferOk;
    var out := p.b.conn.out;
    assert out[p.a.taken] == out[p.a.taken..][0] && out[p.a.taken + 1] == out[p.a.taken..][1];
    AnswersArm(p.a.conn, o);
    ReadMove(p);
    var m := Move(true, Receive(Disk(0, false)));
    var t := After(p, [m]);
    ReadMove(t);
    var u := After(t, [m]);
    RunAppend(p, [m], [m]);
    WaitingReady(o, p.b.conn);
    moves := [m] + [m];
  }

  // ---------------------------------------------------------------- the blocks

  /** The blocks not yet sent. */
  function Left(files: seq<TxFile>): int {
    if files == [] then 0 else Left(files[..|files| - 1]) + (files[|files| - 1].total - files[|files| - 1].next)
  }

  lemma {:induction false} LeftUpdate(files: seq<TxFile>, i: nat, g: TxFile)
    requires i < |files|
    ensures Left(files[i := g]) == Left(files) - (files[i].total - files[i].next) + (g.total - g.next)
    decreases |files|
  {
    var k := |files| - 1;
    if i < k {
      LeftUpdate(files[..k], i, g);
      assert files[i := g][..k] == files[..k][i := g];
    } else {
      assert files[i := g][..k] == files[..k];
    }
  }

  lemma {:induction false} LeftBounds(files: seq<TxFile>)
    requires forall i | 0 <= i < |files| :: files[i].next <= files[i].total
    ensures Left(files) >= 0
    ensures Left(files) == 0 <==> forall i | 0 <= i < |files| :: files[i].next == files[i].total
    decreases |files|
  {
    if files != [] {
      LeftBounds(files[..|files| - 1]);
    }
  }

  predicate AllData(frames: seq<Frame>) {
    forall i | 0 <= i < |frames| :: frames[i].Data?
  }

  /** The same transfer, further on. */
  ghost predicate Further(c: Conn, d: Conn, n: nat) {
    && c.tx.Some? && d.tx.Some? && d == c.(tx := d.tx, out := d.out, tries := c.tries + n)
    && d.tx.value == c.tx.value.(files := d.tx.value.files) && |d.tx.value.files| == |c.tx.value.files|
    && (forall i | 0 <= i < |c.tx.value.files| :: Untouched(c.tx.value.files[i]) ==> Untouched(d.tx.value.files[i]))
    && |d.out| == |c.out| + n && d.out[..|c.out|] == c.out && AllData(d.out[|c.out|..])
    && Left(d.tx.value.files) == Left(c.tx.value.files) - n
  }

  lemma FurtherStep(c: Conn, i: nat)
    requires c.tx.Some? && TxOk(c.tx.value) && i < |c.tx.value.files| && Works(c)
    requires c.tx.value.files[i].next < c.tx.value.files[i].total
    ensures Wants(c.tx.value.files[i], true) && Further(c, SendBlock(c, i), 1)
  {
    hide TxFilesOk, DataFrame;
    var f := c.tx.value.files[i];
    LeftUpdate(c.tx.value.files, i, Advance(f));
    DR.FileOk(c.tx.value, i);
    IsDataFrame(c.tx.value.trans, f);
    hide Left;
  }

  lemma FurtherTrans(c: Conn, d: Conn, e: Conn, m: nat, n: nat)
    requires Further(c, d, m) && Further(d, e, n)
    ensures Further(c, e, m + n)
  {
    hide Untouched, Left;
    assert e.out[..|c.out|] == e.out[..|d.out|][..|c.out|];
    forall j | |c.out| <= j < |e.out|
      ensures e.out[j].Data?
    {
      if j < |d.out| {
        assert d.out[|c.out|..][j - |c.out|].Data?;
        assert e.out[j] == e.out[..|d.out|][j];
      } else {
        assert e.out[|d.out|..][j - |d.out|].Data?;
      }
    }
  }

  lemma FurtherSelf(c: Conn)
    requires c.tx.Some?
    ensures Further(c, c, 0)
  {
    assert c.out[|c.out|..] == [];
  }

  /** Without a repetition due and with a working link, a pump sends new blocks until the budget or the blocks end. */
  lemma {:induction false} PumpQuiet(c: Conn, budget: nat, readable: nat) returns (n: nat)
    requires c.tx.Some? && TxOk(c.tx.value) && Room(c, budget) && readable >= budget
    ensures n <= budget && Further(c, Pump(c, false, budget, readable), n)
    ensures n == budget || Left(Pump(c, false, budget, readable).tx.value.files) == 0
    decreases budget
  {
    hide TxFilesOk, SendBlock, Further, Left;
    var t := c.tx.value;
    var i := Pick(t.files, false);
    n := 0;
    FurtherSelf(c);
    if budget > 0 {
      if i < |t.files| {
        FurtherStep(c, i);
        var d := SendBlock(c, i);
        StepRoom(c, d, budget);
        n := PumpQuiet(d, budget - 1, readable - 1);
        FurtherTrans(c, d, Pump(c, false, budget, readable), 1, n);
        n := n + 1;
      } else {
        NothingLeft(t);
      }
    }
  }

  lemma StepRoom(c: Conn, d: Conn, n: nat)
    requires n > 0 && Room(c, n) && Further(c, d, 1)
    ensures Works(c) && Room(d, n - 1)
  {
    hide Left, AllData, Untouched;
  }

  lemma NothingLeft(t: Tx)
    requires TxOk(t) && Pick(t.files, false) == |t.files|
    ensures Left(t.files) == 0
  {
    assert forall i | 0 <= i < |t.files| :: !Wants(t.files[i], false) && TxFileOk(t.files[i]);
    LeftBounds(t.files);
  }

  /** The tick of the sender: a pump, after which the phase may say that everything is sent. */
  lemma QuietTick(c: Conn, o: Offered) returns (n: nat)
    requires SenderReady(c, o) && ConnOk(c) && Room(c, SEND_BUDGET)
    ensures var d := Tick(c, QUIET);
            && n <= SEND_BUDGET && (n == SEND_BUDGET || Left(DR.TxFiles(d)) == 0)
            && SenderReady(d, o) && d == c.(tx := d.tx, out := d.out, tries := c.tries + n)
            && |d.out| == |c.out| + n && d.out[..|c.out|] == c.out && AllData(d.out[|c.out|..])
            && Left(DR.TxFiles(d)) == Left(DR.TxFiles(c)) - n
  {
    hide Pump, TxFilesOk, Left, AllData, Untouched, AllSent, AllAcked, Finish, RxFilesOk;
    n := PumpQuiet(c, SEND_BUDGET, SEND_BUDGET);
    var d := Pump(c, false, SEND_BUDGET, SEND_BUDGET);
    assert Timeouts(c, QUIET) == c && TickRx(c, true) == c;
    var e := AfterPump(d);
    assert e == d.(tx := e.tx) && e.tx.value == d.tx.value.(phase := e.tx.value.phase);
    assert TickRetry(e, false) == e;
  }

  // ---------------------------------------------------------------- the blocks arrive

  /** Reading one data frame: the receiver stays ready. */
  lemma HearOne(p: Pair)
    requires Inv(p) && p.b.taken < |p.a.conn.out| && FrameFor(p).Data? && ReceiverReady(p.b.conn)
    ensures ConnOk(p.b.conn)
    ensures var d := Handle(p.b.conn, FrameFor(p), Disk(0, true)); ReceiverReady(d) && d == p.b.conn.(rx := d.rx)
  {
    hide Inv, RxOk, ConnOk, RxFileOk;
    InvOk(p);
    HeadWelcome(p);
    StaysReady(p.b.conn, FrameFor(p));
  }

  lemma HeadWelcome(p: Pair)
    requires Inv(p) && p.b.taken < |p.a.conn.out| && FrameFor(p).Data? && ReceiverReady(p.b.conn)
    ensures Welcome(p.b.conn.rx.value, FrameFor(p))
  {
    hide AgreeAt, DR.Sound;
    var w := Line(p.a, p.b);
    assert w.fwd[0] == FrameFor(p);
    SomeOffer(w);
    var e: nat, m: nat :| AgreeAt(w, e, m);
    DataExpected(w, e, m);
  }

  lemma StaysReady(c: Conn, f: Frame)
    requires ConnOk(c) && f.Data? && ReceiverReady(c) && Welcome(c.rx.value, f)
    ensures var d := Handle(c, f, Disk(0, true)); ReceiverReady(d) && d == c.(rx := d.rx)
  {
    hide WriteBlock, TxFilesOk, Reset;
  }

  lemma {:induction false} HearData(p: Pair) returns (moves: seq<Move>)
    requires Inv(p) && p.b.taken <= |p.a.conn.out| && AllData(p.a.conn.out[p.b.taken..]) && ReceiverReady(p.b.conn)
    ensures IsRun(p, moves)
    ensures var t := After(p, moves);
            && Inv(t) && t.a == p.a && ReceiverReady(t.b.conn) && t.b.conn == p.b.conn.(rx := t.b.conn.rx)
            && t.b == p.b.(conn := t.b.conn, taken := |p.a.conn.out|)
    decreases |p.a.conn.out| - p.b.taken
  {
    hide IsRun, After, Inv, ReceiverReady, Handle;
    if p.b.taken == |p.a.conn.out| {
      EmptyRun(p);
      moves := [];
    } else {
      assert FrameFor(p) == p.a.conn.out[p.b.taken..][0];
      ReadyOpen(p.b.conn);
      HearOne(p);
      HearMove(p, Disk(0, true));
      var m := Move(false, Receive(Disk(0, true)));
      var t := After(p, [m]);
      assert t.a.conn.out[t.b.taken..] == p.a.conn.out[p.b.taken..][1..];
      var more := HearData(t);
      RunAppend(p, [m], more);
      moves := [m] + more;
    }
  }

  lemma ReadyOpen(c: Conn)
    requires ReceiverReady(c)
    ensures c.state != Closing
  {
  }

  /** One tick of the sender, and all it sent is read. */
  lemma {:induction false} OneRound(p: Pair, o: Offered) returns (moves: seq<Move>, n: nat)
    requires Sending(p, o) && Room(p.a.conn, SEND_BUDGET)
    ensures IsRun(p, moves)
    ensures var t := After(p, moves);
            && Sending(t, o) && t.b.conn == p.b.conn.(rx := t.b.conn.rx)
            && t.a.conn.link == p.a.conn.link && t.a.conn.tries == p.a.conn.tries + n && t.a.taken == p.a.taken
            && Left(DR.TxFiles(t.a.conn)) == Left(DR.TxFiles(p.a.conn)) - n
            && n <= SEND_BUDGET && (n == SEND_BUDGET || Left(DR.TxFiles(t.a.conn)) == 0)
  {
    hide IsRun, After, Inv, Left, SenderReady, ReceiverReady, AllData, Room;
    TickMove(p, true, QUIET);
    n := QuietTick(p.a.conn, o);
    var m := Move(true, Timer(QUIET));
    var q := After(p, [m]);
    var heard := HearData(q);
    RunAppend(p, [m], heard);
    moves := [m] + heard;
  }

  /** Round by round, every block is sent and read. */
  lemma {:induction false} SendBlocks(p: Pair, o: Offered, room: nat) returns (moves: seq<Move>)
    requires Sending(p, o) && Room(p.a.conn, Needed(Left(DR.TxFiles(p.a.conn)), room))
    ensures IsRun(p, moves)
    ensures var t := After(p, moves);
            && Sending(t, o) && Left(DR.TxFiles(t.a.conn)) == 0 && Room(t.a.conn, room)
            && t.b.conn == p.b.conn.(rx := t.b.conn.rx)
    decreases Left(DR.TxFiles(p.a.conn))
  {
    hide IsRun, After, Left, Sending, Room, Needed;
    SendingLeft(p, o);
    var left := Left(DR.TxFiles(p.a.conn));
    NeededEnough(left, room);
    if left == 0 {
      EmptyRun(p);
      LessRoom(p.a.conn, Needed(left, room), room);
      moves := [];
    } else {
      LessRoom(p.a.conn, Needed(left, room), SEND_BUDGET);
      var first, n := OneRound(p, o);
      var u := After(p, first);
      SendingLeft(u, o);
      NeededLess(left, left - n, n, room);
      SpentRoom(p.a.conn, u.a.conn, n, Needed(left, room), Needed(left - n, room));
      var more := SendBlocks(u, o, room);
      RunAppend(p, first, more);
      moves := first + more;
    }
  }

  /** Sends to provide for that many blocks and `room` more. */
  function Needed(left: int, room: nat): nat {
    SEND_BUDGET * (Rounds(left) + 1) + room
  }

  lemma NeededEnough(left: int, room: nat)
    ensures Needed(left, room) >= SEND_BUDGET && Needed(left, room) >= room
  {
  }

  lemma NeededLess(before: int, after: int, n: nat, room: nat)
    requires before > 0 && after >= 0 && after == before - n && (n == SEND_BUDGET || after == 0) && n <= SEND_BUDGET
    ensures n + Needed(after, room) <= Needed(before, room) && after < before
  {
    RoundsLess(before, after, n);
  }

  lemma SendingLeft(p: Pair, o: Offered)
    requires Sending(p, o)
    ensures Left(DR.TxFiles(p.a.conn)) >= 0
  {
    hide Inv;
    SenderLeft(p.a.conn, o);
  }

  /** Ticks needed for that many blocks. */
  function Rounds(left: int): nat {
    if left <= 0 then 0 else (left + SEND_BUDGET - 1) / SEND_BUDGET
  }

  lemma RoundsLess(before: int, after: int, n: nat)
    requires before > 0 && after >= 0 && after == before - n && (n == SEND_BUDGET || after == 0)
    ensures Rounds(after) + 1 <= Rounds(before) && after < before
  {
  }

  lemma SenderLeft(c: Conn, o: Offered)
    requires SenderReady(c, o)
    ensures c.tx.Some? && Left(DR.TxFiles(c)) >= 0
  {
    assert forall i | 0 <= i < |c.tx.value.files| :: TxFileOk(c.tx.value.files[i]);
    LeftBounds(c.tx.value.files);
  }

  lemma LessRoom(c: Conn, m: nat, n: nat)
    requires Room(c, m) && n <= m
    ensures Room(c, n)
  {
  }

  lemma SpentRoom(c: Conn, d: Conn, n: nat, m: nat, k: nat)
    requires Room(c, m) && d.link == c.link && d.tries == c.tries + n && n + k <= m
    ensures Room(d, k)
  {
  }

  // ---------------------------------------------------------------- done

  /** Every block has arrived: what the receiver expects next is beyond the end of every file. */
  ghost predicate Everything(o: Offered, files: seq<RxFile>) {
    |files| == |o.items| && forall i | 0 <= i < |files| :: Finished(o, i, files[i])
  }

  ghost predicate Finished(o: Offered, i: nat, f: RxFile)
    requires i < |o.items|
  {
    RxFileOk(f) && f.id == i + 1 && f.expected == f.total == Total(o, i) && f.complete
  }

  lemma AllArrived(p: Pair, o: Offered)
    requires Sending(p, o) && Left(DR.TxFiles(p.a.conn)) == 0
    ensures Everything(o, p.b.conn.rx.value.files) && p.b.conn.rx.value.trans == o.trans
  {
    var w := Line(p.a, p.b);
    assert w.fwd == [];
    var e: nat, m: nat :| AgreeAt(w, e, m);
    assert DataSpans(o, []) == [];
    assert e == m;
    var files := p.b.conn.rx.value.files;
    var sent := p.a.conn.tx.value.files;
    hide Fwd, Back, Cross, Share, Total, Faithful, Entries, Inv, OfferOk, Left;
    LeftNone(sent);
    forall i | 0 <= i < |files|
      ensures Finished(o, i, files[i])
    {
      assert RxFileFor(o, i, files[i], e) && TxFileFor(o, i, sent[i], m);
      PlaceOf(o, i, sent[i], m);
      FileTotals(o, i, files[i]);
    }
  }

  lemma LeftNone(files: seq<TxFile>)
    requires TxFilesOk(files) && Left(files) == 0
    ensures forall i | 0 <= i < |files| :: files[i].next == files[i].total
  {
    assert forall i | 0 <= i < |files| :: TxFileOk(files[i]);
    LeftBounds(files);
  }

  function AckFrames(trans: u16, files: seq<RxFile>): seq<Frame>
    requires RxFilesOk(files)
  {
    if AckList(files, MAX_ACKS) == [] then [] else [Ack(trans, AckList(files, MAX_ACKS))]
  }

  lemma {:induction false} NoneExpected(files: seq<RxFile>, room: nat)
    requires RxFilesOk(files) && forall i | 0 <= i < |files| :: files[i].expected == 0
    ensures AckList(files, room) == []
    decreases |files|
  {
    if files != [] && room > 0 {
      NoneExpected(files[1..], room);
    }
  }

  /** The tick of a receiver that has everything: acks, then DONE. */
  lemma DoneTick(c: Conn, o: Offered)
    requires ConnOk(c) && ReceiverReady(c) && Room(c, 2) && 0 < |o.items| && Everything(o, c.rx.value.files)
    ensures var t := c.rx.value; var d := Tick(c, QUIET);
            && RxOk(t) && d.out == c.out + AckFrames(t.trans, t.files) + [Done(t.trans, RxIds(t.files))]
            && d.state == Ready && d.rx == Some(t.(ackPending := false, doneSent := true, phase := RxWaitDoneAck))
            && d.tx.None?
  {
    hide AckList, RxFileOk, Total;
    var t := c.rx.value;
    assert AllComplete(t.files);
    if !t.ackPending {
      NoneExpected(t.files, MAX_ACKS);
      assert t == t.(ackPending := false);
    }
    assert c.out + [] == c.out;
    assert Timeouts(c, QUIET) == c;
    var d := TickRx(c, true);
    assert TickTx(d, false, SEND_BUDGET) == d && TickRetry(d, false) == d;
  }

  lemma {:induction false} RankMono(o: Offered, i: nat, j: nat)
    requires i <= j <= |o.items|
    ensures Rank(o, i) <= Rank(o, j)
    decreases j
  {
    hide Total;
    if i < j {
      RankMono(o, i, j - 1);
    }
  }

  /** With room for every nonempty file, one flush acks every block of every file. */
  lemma {:induction false} AckEverything(o: Offered, tx: seq<TxFile>, files: seq<RxFile>, k: nat, room: nat)
    requires Everything(o, files) && |tx| == |files| && k <= |files| && RxFilesOk(files[k..])
             && Rank(o, |o.items|) - Rank(o, k) <= room
    requires forall i | 0 <= i < |tx| :: tx[i].id == i + 1 && tx[i].total == Total(o, i) < 0x1_0000_0000
    requires forall i | 0 <= i < k :: tx[i].ackedAll
    requires forall i | k <= i < |tx| :: Untouched(tx[i])
    ensures var r := AckEach(tx, AckList(files[k..], room)); |r| == |tx| && forall i | 0 <= i < |r| :: r[i].ackedAll
    decreases |files| - k
  {
    hide RxFileOk, Total, AckFile, AckEach, Rank, Untouched, AckList;
    if k == |files| {
      assert files[k..] == [];
      NoMoreAcks(tx, room);
    } else {
      var f := files[k];
      assert files[k..][0] == f && files[k..][1..] == files[k + 1..];
      assert Finished(o, k, f) && RxFileOk(files[k..][0]);
      RankMono(o, k + 1, |o.items|);
      RankNext(o, k);
      RestOk(files, k);
      if f.expected > 0 {
        assert FindTx(tx, f.id) == k;
        AckLast(tx[k], f.expected - 1);
        var tx' := AckOne(tx, AckOf(f));
        assert tx' == tx[k := AckFile(tx[k], f.expected - 1)];
        AckEverything(o, tx', files, k + 1, room - 1);
        AckFor(files, k, room);
        AckEachCons(tx, AckOf(f), AckList(files[k + 1..], room - 1));
      } else {
        EmptyAcked(tx[k]);
        AckEverything(o, tx, files, k + 1, room);
        NoAckFor(files, k, room);
      }
    }
  }

  lemma NoMoreAcks(tx: seq<TxFile>, room: nat)
    ensures RxFilesOk([]) && AckEach(tx, AckList([], room)) == tx
  {
  }

  lemma RankNext(o: Offered, k: nat)
    requires k < |o.items|
    ensures Rank(o, k + 1) == Rank(o, k) + if Total(o, k) > 0 then 1 else 0
  {
  }

  lemma AckLast(f: TxFile, last: u32)
    requires Untouched(f) && last + 1 == f.total
    ensures AckFile(f, last).ackedAll && AckFile(f, last).id == f.id && AckFile(f, last).total == f.total
  {
  }

  lemma EmptyAcked(f: TxFile)
    requires Untouched(f) && f.total == 0
    ensures f.ackedAll
  {
  }

  lemma AckFor(files: seq<RxFile>, k: nat, room: nat)
    requires k < |files| && RxFilesOk(files[k..]) && RxFilesOk(files[k + 1..]) && RxFileOk(files[k])
    requires files[k].expected > 0 && room > 0
    ensures AckList(files[k..], room) == [AckOf(files[k])] + AckList(files[k + 1..], room - 1)
  {
    assert files[k..][0] == files[k] && files[k..][1..] == files[k + 1..];
  }

  lemma RestOk(files: seq<RxFile>, k: nat)
    requires k < |files| && RxFilesOk(files[k..])
    ensures RxFilesOk(files[k + 1..])
  {
    assert files[k + 1..] == files[k..][1..];
  }

  lemma AckEachCons(tx: seq<TxFile>, e: AckEntry, rest: seq<AckEntry>)
    ensures AckEach(tx, [e] + rest) == AckEach(AckOne(tx, e), rest)
  {
    assert ([e] + rest)[1..] == rest;
  }

  lemma NoAckFor(files: seq<RxFile>, k: nat, room: nat)
    requires k < |files| && RxFilesOk(files[k..]) && RxFilesOk(files[k + 1..]) && files[k].expected == 0
    ensures AckList(files[k..], room) == AckList(files[k + 1..], room)
  {
    assert files[k..][0] == files[k] && files[k..][1..] == files[k + 1..];
  }

  /** Everything is acked; only DONE is missing. */
  ghost predicate Acked(c: Conn, o: Offered) {
    && c.state == Ready && c.tx.Some? && c.tx.value.phase in {TxSending, TxWaitDone}
    && !c.tx.value.doneReceived && !c.tx.value.doneAckSent && c.tx.value.trans == o.trans && AllAcked(c.tx.value)
  }

  lemma TakesAcks(c: Conn, o: Offered, files: seq<RxFile>)
    requires SenderReady(c, o) && ConnOk(c) && Everything(o, files) && RxFilesOk(files)
             && Rank(o, |o.items|) <= MAX_ACKS
    requires forall i | 0 <= i < |o.items| :: c.tx.value.files[i].total == Total(o, i)
    ensures var acks := AckList(files, MAX_ACKS);
            if acks == [] then Acked(c, o)
            else var d := Handle(c, Ack(o.trans, acks), Disk(0, false)); Acked(d, o) && d == c.(tx := d.tx)
  {
    hide AckList, Total, Rank, RxFileOk, Everything, Untouched, RxFilesOk, Finish, AckEach;
    assert files[0..] == files;
    assert forall i | 0 <= i < |c.tx.value.files| :: TxFileOk(c.tx.value.files[i]);
    NoMoreAcks(c.tx.value.files, MAX_ACKS);
    EverythingSize(o, files);
    NoAcksNoChange(c.tx.value.files);
    forall i | 0 <= i < |c.tx.value.files|
      ensures c.tx.value.files[i].total < 0x1_0000_0000
    {
      TotalFits(c.tx.value.files[i]);
    }
    RankZero(o);
    AckEverything(o, c.tx.value.files, files, 0, MAX_ACKS);
  }

  lemma EverythingSize(o: Offered, files: seq<RxFile>)
    requires Everything(o, files)
    ensures |files| == |o.items|
  {
  }

  lemma NoAcksNoChange(tx: seq<TxFile>)
    ensures AckEach(tx, []) == tx
  {
  }

  lemma RankZero(o: Offered)
    ensures Rank(o, 0) == 0
  {
  }

  lemma TakesDone(c: Conn, o: Offered, ids: seq<u16>)
    requires ConnOk(c) && Acked(c, o) && Works(c)
    ensures var d := Handle(c, Done(o.trans, ids), Disk(0, false));
            && d.state == Ready && IsPhase(d.tx, TxDone) && d.txResults == c.txResults + [true]
            && d.out == c.out + [DoneAck(o.trans, Ids(c.tx.value.files))]
  {
    hide TxFilesOk, RxFilesOk, Ids;
  }

  lemma TotalsOf(p: Pair, o: Offered)
    requires Sending(p, o)
    ensures forall i | 0 <= i < |o.items| :: p.a.conn.tx.value.files[i].total == Total(o, i)
  {
    var w := Line(p.a, p.b);
    var e: nat, m: nat :| AgreeAt(w, e, m);
    hide Fwd, Back, Cross, Share, Total, Inv, RxPart, Flow, OfferOk;
    forall i | 0 <= i < |o.items|
      ensures p.a.conn.tx.value.files[i].total == Total(o, i)
    {
      assert TxFileFor(o, i, p.a.conn.tx.value.files[i], m);
      PlaceOf(o, i, p.a.conn.tx.value.files[i], m);
    }
  }

  /** The sender reads the acks of everything, then DONE, and reports success. */
  lemma {:induction false} ReadDone(p: Pair, o: Offered, files: seq<RxFile>, ids: seq<u16>) returns (moves: seq<Move>)
    requires Inv(p) && p.a.taken <= |p.b.conn.out| && SenderReady(p.a.conn, o) && Room(p.a.conn, 1)
    requires Everything(o, files) && RxFilesOk(files) && Rank(o, |o.items|) <= MAX_ACKS
    requires forall i | 0 <= i < |o.items| :: p.a.conn.tx.value.files[i].total == Total(o, i)
    requires p.b.conn.out[p.a.taken..] == AckFrames(o.trans, files) + [Done(o.trans, ids)]
    ensures IsRun(p, moves)
    ensures var t := After(p, moves);
            && Inv(t) && t == p.(a := t.a) && IsPhase(t.a.conn.tx, TxDone) && t.a.offer == p.a.offer
            && t.a.conn.txResults == p.a.conn.txResults + [true] && |t.a.conn.out| == |p.a.conn.out| + 1
            && t.a.conn.out[..|p.a.conn.out|] == p.a.conn.out && t.a.conn.out[|p.a.conn.out|].DoneAck?
            && t.a.conn.out[|p.a.conn.out|].trans == o.trans
  {
    hide IsRun, After, Inv, Rank, Total, Handle, Everything, AckList;
    var acks := AckList(files, MAX_ACKS);
    var unread := p.b.conn.out[p.a.taken..];
    var read := Move(true, Receive(Disk(0, false)));
    InvOk(p);
    TakesAcks(p.a.conn, o, files);
    moves := [read];
    var r := p;
    if acks != [] {
      assert p.b.conn.out[p.a.taken] == unread[0] && p.b.conn.out[p.a.taken + 1] == unread[1];
      ReadMove(p);
      r := After(p, [read]);
      RoomWorks(p.a.conn, r.a.conn);
      ReadMove(r);
      RunAppend(p, [read], [read]);
      moves := [read] + [read];
    } else {
      assert p.b.conn.out[p.a.taken] == unread[0];
      RoomWorks(p.a.conn, p.a.conn);
      ReadMove(p);
    }
    TakesDone(r.a.conn, o, ids);
  }

  /** The end of the transfer, once every block has been read. */
  lemma {:induction false} Finishing(p: Pair, o: Offered) returns (moves: seq<Move>)
    requires Sending(p, o) && Left(DR.TxFiles(p.a.conn)) == 0 && Room(p.a.conn, 1) && Room(p.b.conn, 2)
    requires Rank(o, |o.items|) <= MAX_ACKS
    ensures IsRun(p, moves)
    ensures var t := After(p, moves);
            IsPhase(t.a.conn.tx, TxDone) && RxPhase(t.b.conn.rx, RxDone) && t.a.offer == Some(o)
  {
    hide IsRun, After, Inv, Rank, Total, Left, Handle, Tick, Everything, AckFrames, SenderReady;
    AllArrived(p, o);
    TotalsOf(p, o);
    SomeItems(o);
    TickMove(p, false, QUIET);
    DoneTick(p.b.conn, o);
    var m := Move(false, Timer(QUIET));
    var q := After(p, [m]);
    var t := p.b.conn.rx.value;
    assert q.b.conn.out[q.a.taken..] == AckFrames(o.trans, t.files) + [Done(o.trans, RxIds(t.files))];
    var read := ReadDone(q, o, t.files, RxIds(t.files));
    var s := After(q, read);
    RunAppend(p, [m], read);
    HearMove(s, Disk(0, false));
    DoneAckEnds(s.b.conn, FrameFor(s));
    var hear := Move(false, Receive(Disk(0, false)));
    RunAppend(p, [m] + read, [hear]);
    moves := [m] + read + [hear];
  }

  lemma RoomWorks(c: Conn, d: Conn)
    requires Room(c, 1) && d.link == c.link && d.tries == c.tries
    ensures Works(d)
  {
  }

  lemma DoneAckEnds(c: Conn, f: Frame)
    requires ConnOk(c) && c.state == Ready && RxPhase(c.rx, RxWaitDoneAck) && f.DoneAck? && f.trans == c.rx.value.trans
    ensures RxPhase(Handle(c, f, Disk(0, false)).rx, RxDone)
  {
  }

  // ---------------------------------------------------------------- from the start

  function Trues(n: nat): seq<bool> {
    seq(n, _ => true)
  }

  lemma TruesRoom(c: Conn, n: nat, k: nat)
    requires c.link == Trues(n) && c.tries + k <= n
    ensures Room(c, k) && DR.Sticky(c.link)
  {
  }

  lemma OpenIs(hasDir: bool, n: nat)
    requires n > 0
    ensures DR.Open(hasDir, Trues(n)) == NewConn(hasDir, Trues(n)).(out := [Setting(1472, 0)], tries := 1)
  {
    assert [] + [Setting(1472, 0)] == [Setting(1472, 0)];
  }

  lemma SettingReady(c: Conn)
    requires ConnOk(c) && c.state == Negotiating
    ensures Handle(c, Setting(1472, 0), Disk(0, false)) == c.(state := Ready)
  {
  }

  /** The list goes out whole. */
  lemma OfferOut(c: Conn, items: seq<Item>)
    requires c.state == Ready && c.tx.None? && OfferOk(Offered(c.nextTrans, items))
    requires Room(c, |HeaderFrames(c.nextTrans, |items|, Entries(Offered(c.nextTrans, items)))|)
    ensures var o := Offered(c.nextTrans, items); var frames := HeaderFrames(o.trans, |items|, Entries(o));
            && frames != []
            && SendFiles(c, items, true) == Sent(c.(nextTrans := Next16(c.nextTrans), tx := Some(NewTx(o.trans, items)),
                                                    out := c.out + frames, tries := c.tries + |frames|), true)
  {
    hide HeaderFrames, Entries, EntriesOf, NewTx, SendAll;
    assert forall it | it in items :: |it.content| <= MAX_SIZE;
    var o := Offered(c.nextTrans, items);
    OfferedList(items, c.nextTrans);
    DR.NewTxShape(c.nextTrans, items);
    SendAllWorks(c.(nextTrans := Next16(c.nextTrans)), HeaderFrames(o.trans, |items|, Entries(o)));
  }

  /** Both SETTINGs read, then the offer. */
  lemma {:induction false} Beginning(items: seq<Item>, na: nat, nb: nat) returns (moves: seq<Move>, t: Pair)
    requires OfferOk(Offered(1, items)) && nb > 0
    requires na > |HeaderFrames(1, |items|, Entries(Offered(1, items)))|
    ensures var o := Offered(1, items); var frames := HeaderFrames(1, |items|, Entries(o));
            var p := Start(false, Trues(na), true, Trues(nb));
            && IsRun(p, moves) && After(p, moves) == t && Inv(t)
            && t.a == End(NewConn(false, Trues(na)).(state := Ready, nextTrans := 2, tx := Some(NewTx(1, items)),
                                                     out := [Setting(1472, 0)] + frames, tries := 1 + |frames|),
                          Some(o), 1)
            && t.b == End(NewConn(true, Trues(nb)).(state := Ready, out := [Setting(1472, 0)], tries := 1), None, 1)
  {
    hide IsRun, After, Inv, HeaderFrames, Entries, NewTx, Trues, Handle, OfferOk, SendFiles;
    var o := Offered(1, items);
    ListSize(o);
    var frames := HeaderFrames(1, |items|, Entries(o));
    var p := Start(false, Trues(na), true, Trues(nb));
    var read := Move(true, Receive(Disk(0, false)));
    var hear := Move(false, Receive(Disk(0, false)));
    TruesRoom(NewConn(false, Trues(na)), na, 0);
    TruesRoom(NewConn(true, Trues(nb)), nb, 0);
    StartInv(false, Trues(na), true, Trues(nb));
    OpenIs(false, na);
    OpenIs(true, nb);
    ReadMove(p);
    SettingReady(p.a.conn);
    var q := After(p, [read]);
    HearMove(q, Disk(0, false));
    SettingReady(q.b.conn);
    var r := After(q, [hear]);
    RunAppend(p, [read], [hear]);
    TruesRoom(r.a.conn, na, |frames|);
    OfferOut(r.a.conn, items);
    var offer := Move(true, Offer(items, true));
    OfferNames(o);
    OneMove(r, offer);
    t := After(r, [offer]);
    RunAppend(p, [read] + [hear], [offer]);
    moves := [read] + [hear] + [offer];
  }

  lemma OfferNames(o: Offered)
    requires OfferOk(o)
    ensures ItemsOk(o.items)
  {
  }

  /** From the start to a sender that may send its first block. */
  lemma {:induction false} Begun(items: seq<Item>, na: nat, nb: nat) returns (moves: seq<Move>, t: Pair)
    requires OfferOk(Offered(1, items)) && nb >= 3
    requires na > |HeaderFrames(1, |items|, Entries(Offered(1, items)))|
    ensures var o := Offered(1, items); var frames := HeaderFrames(1, |items|, Entries(o));
            var p := Start(false, Trues(na), true, Trues(nb));
            && IsRun(p, moves) && After(p, moves) == t && Sending(t, o) && Fresh(t.a.conn)
            && t.a.conn.link == Trues(na) && t.a.conn.tries == 1 + |frames| && t.a.conn.txResults == []
            && t.b.conn.rx == Some(Waiting(o)) && t.b.conn.rxResults == [] && t.b.conn.closed == 0
            && t.b.conn.link == Trues(nb) && t.b.conn.tries == 3
  {
    hide IsRun, After, Inv, HeaderFrames, Entries, NewTx, Trues, OfferOk, Waiting, SenderReady, ReceiverReady, Answers;
    var o := Offered(1, items);
    ListSize(o);
    var start := Start(false, Trues(na), true, Trues(nb));
    var first, p := Beginning(items, na, nb);
    SomeItems(o);
    TruesRoom(p.b.conn, nb, 2);
    HeardNothing(o);
    assert Entries(o)[0..] == Entries(o);
    assert p.a.conn.out[p.b.taken..] == HeaderFrames(1, |items|, Entries(o));
    var heard := HearHeaders(p, o, 0);
    RunAppend(start, first, heard);
    var q := After(p, heard);
    RunInv(p, heard);
    assert q.b.conn.out[q.a.taken..] == Answers(o);
    var armed := Arm(q, o);
    RunAppend(start, first + heard, armed);
    moves := first + heard + armed;
    t := After(start, moves);
  }

  lemma {:induction false} Completes(items: seq<Item>) returns (na: nat, nb: nat, moves: seq<Move>)
    requires OfferOk(Offered(1, items)) && NonEmpty(items) <= MAX_ACKS
    ensures IsRun(Start(false, Trues(na), true, Trues(nb)), moves)
    ensures var t := After(Start(false, Trues(na), true, Trues(nb)), moves);
            IsPhase(t.a.conn.tx, TxDone) && RxPhase(t.b.conn.rx, RxDone) && t.a.offer == Some(Offered(1, items))
  {
    hide IsRun, After, Inv, HeaderFrames, Entries, NewTx, Trues, OfferOk, Left, Needed, SenderReady, ReceiverReady,
      Rank;
    var o := Offered(1, items);
    ListSize(o);
    var frames := HeaderFrames(1, |items|, Entries(o));
    var blocks := Left(NewTx(1, items).files);
    na, nb := 1 + |frames| + Needed(blocks, 1), 5;
    NeededEnough(blocks, 1);
    var start := Start(false, Trues(na), true, Trues(nb));
    var first, r := Begun(items, na, nb);
    SameLeft(r, o);
    TruesRoom(r.a.conn, na, Needed(blocks, 1));
    var sent := SendBlocks(r, o, 1);
    RunAppend(start, first, sent);
    var s := After(r, sent);
    TruesRoom(s.b.conn, nb, 2);
    RankIsNonEmpty(o, |items|);
    assert items[..|items|] == items;
    var last := Finishing(s, o);
    RunAppend(start, first + sent, last);
    moves := first + sent + last;
  }

  lemma HeardNothing(o: Offered)
    requires OfferOk(o)
    ensures Heard(o, 0) == None
  {
  }

  lemma RunInv(p: Pair, moves: seq<Move>)
    requires Inv(p) && IsRun(p, moves)
    ensures Inv(After(p, moves))
  {
    hide IsRun, After, Inv;
    RunKeeps(p, moves);
  }

  lemma NewTotals(o: Offered)
    requires OfferOk(o)
    ensures forall i | 0 <= i < |o.items| :: NewTx(o.trans, o.items).files[i].total == Total(o, i)
  {
  }

  /** Arming changes no block count. */
  lemma SameLeft(p: Pair, o: Offered)
    requires Sending(p, o) && Fresh(p.a.conn)
    ensures Left(DR.TxFiles(p.a.conn)) == Left(NewTx(o.trans, o.items).files)
  {
    TotalsOf(p, o);
    hide Inv, OfferOk, Untouched, Total, NewTx, TxFilesOk, ReceiverReady, Left;
    FreshLeft(p.a.conn, o);
  }

  lemma FreshLeft(c: Conn, o: Offered)
    requires OfferOk(o) && Fresh(c) && |c.tx.value.files| == |o.items|
    requires forall i | 0 <= i < |o.items| :: c.tx.value.files[i].total == Total(o, i)
    ensures Left(DR.TxFiles(c)) == Left(NewTx(o.trans, o.items).files)
  {
    hide OfferOk, Untouched, Total, NewTx, TxFileOk;
    NewTxFresh(o);
    NewTotals(o);
    LeftSame(c.tx.value.files, NewTx(o.trans, o.items).files);
  }

  lemma {:induction false} LeftSame(a: seq<TxFile>, b: seq<TxFile>)
    requires |a| == |b| && forall i | 0 <= i < |a| :: a[i].total == b[i].total && a[i].next == b[i].next
    ensures Left(a) == Left(b)
    decreases |a|
  {
    if a != [] {
      LeftSame(a[..|a| - 1], b[..|b| - 1]);
    }
  }

  /** Some run ends with the sender reporting success for exactly these files. */
  ghost predicate CanSucceed(items: seq<Item>) {
    exists dirA: bool, linkA: seq<bool>, dirB: bool, linkB: seq<bool>, moves: seq<Move> ::
      Succeeds(items, dirA, linkA, dirB, linkB, moves)
  }

  ghost predicate Succeeds(items: seq<Item>, dirA: bool, linkA: seq<bool>, dirB: bool, linkB: seq<bool>,
                           moves: seq<Move>) {
    && DR.Sticky(linkA) && DR.Sticky(linkB) && IsRun(Start(dirA, linkA, dirB, linkB), moves)
    && var p := After(Start(dirA, linkA, dirB, linkB), moves);
       IsPhase(p.a.conn.tx, TxDone) && p.a.offer.Some? && p.a.offer.value.items == items
  }

  /** Of the lists the sender accepts, exactly those with at most 39 nonempty files can be transferred. */
  lemma {:induction false} SucceedsIff(items: seq<Item>)
    requires OfferOk(Offered(1, items))
    ensures CanSucceed(items) <==> NonEmpty(items) <= MAX_ACKS
  {
    hide IsRun, After, Inv, Start, DR.Sticky, OfferOk, Trues, NonEmpty;
    if NonEmpty(items) <= MAX_ACKS {
      var na, nb, moves := Completes(items);
      TruesRoom(NewConn(false, Trues(na)), na, 0);
      TruesRoom(NewConn(true, Trues(nb)), nb, 0);
      assert Succeeds(items, false, Trues(na), true, Trues(nb), moves);
    }
    if CanSucceed(items) {
      var dirA: bool, linkA: seq<bool>, dirB: bool, linkB: seq<bool>, moves: seq<Move> :|
        Succeeds(items, dirA, linkA, dirB, linkB, moves);
      TransfersAgree(dirA, linkA, dirB, linkB, moves);
    }
  }
}
