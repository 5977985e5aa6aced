/**
 * What an end of a DFile connection owes its peer and itself, whoever the peer is: a timeout is announced, an
 * unanswered list is repeated three times and then given up, and a complete list or a complete file is answered
 * in exactly one way.
 */
module DFileAnswers {
  import opened Bytes
  import opened DFileCore
  import opened DFileComplete
  import opened DFileRst
  import opened DFileRules
  import opened DFileNet
  import DR = DFileResults

  // ---------------------------------------------------------------- timeouts

  /** What was sent stays sent. */
  predicate SentStays(c: Conn, d: Conn) {
    c.out <= d.out
  }

  lemma SaidMore(c: Conn, d: Conn)
    requires Says(c, d)
    ensures SentStays(c, d)
  {
  }

  lemma TickRxFurther(c: Conn, shaOk: bool)
    requires c.rx.Some? ==> RxOk(c.rx.value)
    ensures SentStays(c, TickRx(c, shaOk))
  {
    hide AckList, RxFilesOk, AllComplete, RxIds, Says;
    if c.rx.Some? && c.rx.value.phase == RxWaitData {
      FlushAckSays(c);
      SaidMore(c, FlushAck(c));
    }
  }

  lemma AfterTimeouts(c: Conn, env: Env)
    requires DR.Sound(c) && c.state != Closing && !(c.state == Negotiating && env.negotiation)
    ensures ConnOk(c) && DR.Sound(Timeouts(c, env)) && DR.Sound(Tick(c, env))
    ensures SentStays(Timeouts(c, env), Tick(c, env)) && DR.Onward(Timeouts(c, env), Tick(c, env))
  {
    hide DR.Sound, DR.Onward, SentStays, Says, TickRx, TickTx, TickRetry, Timeouts, DR.Revives;
    DR.SoundRx(c);
    DR.TimeoutsGood(c, env);
    var c1 := Timeouts(c, env);
    DR.SoundRx(c1);
    DR.TickRxGood(c1, env.shaOk);
    TickRxFurther(c1, env.shaOk);
    var d := TickRx(c1, env.shaOk);
    DR.SoundRx(d);
    DR.TickTxGood(d, env.retranDue, env.readable);
    TickTxSays(d, env.retranDue, env.readable);
    var e := TickTx(d, env.retranDue, env.readable);
    SaidMore(d, e);
    DR.TickRetryGood(e, env.retryDue);
    RetrySays(e, env.retryDue);
    SaidMore(e, TickRetry(e, env.retryDue));
    Chain(c1, d, e, TickRetry(e, env.retryDue));
  }

  lemma Chain(a: Conn, b: Conn, c: Conn, d: Conn)
    requires SentStays(a, b) && SentStays(b, c) && SentStays(c, d)
    requires DR.Onward(a, b) && DR.Onward(b, c) && DR.Onward(c, d)
    ensures SentStays(a, d) && DR.Onward(a, d)
  {
  }

  lemma TimeoutsOut(c: Conn, env: Env)
    requires ConnOk(c)
    ensures var d := Timeouts(c, env); var sends, receives := !Over(TxPhase(c)), !Over(RxPhase(c));
            && (env.txTimeout && sends ==> d.tx.Some? && d.tx.value.phase == Failed)
            && (env.rxTimeout && receives ==> d.rx.Some? && d.rx.value.phase == Failed)
            && (Works(c) && env.txTimeout && sends ==>
                  c.out + [Rst(c.tx.value.trans, 210)] <= d.out)
            && (Works(c) && env.rxTimeout && receives && !(env.txTimeout && sends) ==>
                  c.out + [Rst(c.rx.value.trans, 210)] <= d.out)
  {
    hide TxFilesOk, RxFilesOk;
  }

  /**
   * A transfer of an open connection whose time is over has failed after the tick, with one result, whatever else
   * the tick does; where the link works the first thing the tick puts on it is the RST that says so.
   */
  lemma {:induction false} TimeoutAnnounced(c: Conn, env: Env)
    requires DR.Sound(c) && c.state != Closing && !(c.state == Negotiating && env.negotiation)
    ensures ConnOk(c)
    ensures var d := Tick(c, env); var sends, receives := !Over(TxPhase(c)), !Over(RxPhase(c));
            && (env.txTimeout && sends ==>
                  TxPhase(d) == Some(Failed) && c.txResults == [] && d.txResults == [false])
            && (env.rxTimeout && receives ==> RxPhase(d) == Some(Failed) && false in d.rxResults)
            && (Works(c) && env.txTimeout && sends ==> c.out + [Rst(c.tx.value.trans, 210)] <= d.out)
            && (Works(c) && env.rxTimeout && receives && !(env.txTimeout && sends) ==>
                  c.out + [Rst(c.rx.value.trans, 210)] <= d.out)
  {
    hide DR.Sound, Tick, Timeouts;
    AfterTimeouts(c, env);
    TimeoutsOut(c, env);
    ToldSo(c);
    ToldSo(Tick(c, env));
  }

  // ---------------------------------------------------------------- an unanswered list

  /** The list is offered and nothing is being received. */
  ghost predicate Offering(c: Conn) {
    ConnOk(c) && c.state == Ready && c.rx.None? && c.tx.Some? && c.tx.value.phase == TxWaitConfirm
  }

  function ListOf(c: Conn): seq<Frame>
    requires c.tx.Some? && TxOk(c.tx.value)
  {
    HeaderFrames(c.tx.value.trans, |c.tx.value.files|, EntriesOf(c.tx.value.files))
  }

  function Times(frames: seq<Frame>, n: nat): seq<Frame> {
    if n == 0 then [] else frames + Times(frames, n - 1)
  }

  predicate AllDue(envs: seq<Env>) {
    forall i | 0 <= i < |envs| :: envs[i].retryDue && !envs[i].txTimeout
  }

  function Ticks(envs: seq<Env>): seq<DR.Event> {
    seq(|envs|, i requires 0 <= i < |envs| => DR.Timer(envs[i]))
  }

  lemma OneRetry(c: Conn, env: Env)
    requires Offering(c) && env.retryDue && !env.txTimeout && Room(c, |ListOf(c)| + 1)
    ensures var t := c.tx.value; var u := t.(retries := t.retries + 1);
            Tick(c, env)
            == if t.retries < 3 then
                 c.(tx := Some(u), out := c.out + ListOf(c), tries := c.tries + |ListOf(c)|)
               else
                 c.(tx := Some(u.(phase := Failed)), txResults := c.txResults + [false],
                    out := c.out + [Rst(t.trans, 210)], tries := c.tries + 1)
  {
    hide TxFilesOk, RxFilesOk, HeaderFrames, EntriesOf, SendAll;
    var t := c.tx.value.(retries := c.tx.value.retries + 1);
    SendAllWorks(c.(tx := Some(t)), ListOf(c));
  }

  lemma IdleTick(c: Conn, env: Env)
    requires ConnOk(c) && c.state == Ready && c.rx.None? && TxPhase(c) == Some(Failed)
    ensures Tick(c, env) == c
  {
    hide TxFilesOk;
  }

  lemma TicksStep(envs: seq<Env>)
    requires envs != []
    ensures Ticks(envs)[0] == DR.Timer(envs[0]) && Ticks(envs)[1..] == Ticks(envs[1..])
  {
  }

  lemma {:induction false} NothingMore(c: Conn, envs: seq<Env>)
    requires ConnOk(c) && c.state == Ready && c.rx.None? && TxPhase(c) == Some(Failed)
    ensures DR.Possible(c, Ticks(envs)) && DR.After(c, Ticks(envs)) == c
    decreases |envs|
  {
    hide Tick, ConnOk;
    if envs != [] {
      IdleTick(c, envs[0]);
      TicksStep(envs);
      NothingMore(c, envs[1..]);
    }
  }

  /** After `n` due ticks: the list was repeated as often, or three times and then given up. */
  ghost predicate Insisted(c: Conn, n: nat, d: Conn)
    requires c.tx.Some? && TxOk(c.tx.value) && c.tx.value.retries <= 3
  {
    var t := c.tx.value;
    var left := 3 - t.retries;
    && (n <= left ==>
          && d.out == c.out + Times(ListOf(c), n) && d.txResults == c.txResults
          && d.tx == Some(t.(retries := t.retries + n)))
    && (n > left ==>
          && d.out == c.out + Times(ListOf(c), left) + [Rst(t.trans, 210)]
          && d.txResults == c.txResults + [false] && TxPhase(d) == Some(Failed))
  }

  lemma InsistedMore(c: Conn, n: nat, e: Conn, d: Conn)
    requires c.tx.Some? && TxOk(c.tx.value) && c.tx.value.retries < 3 && n > 0
    requires e == c.(tx := e.tx, out := c.out + ListOf(c), tries := e.tries)
    requires e.tx == Some(c.tx.value.(retries := c.tx.value.retries + 1)) && TxOk(e.tx.value) && Insisted(e, n - 1, d)
    ensures Insisted(c, n, d)
  {
    hide TxFilesOk, HeaderFrames, EntriesOf, Times;
    MoreTimes(c.out, ListOf(c), n);
    MoreTimes(c.out, ListOf(c), 3 - c.tx.value.retries);
  }

  lemma InsistedStart(c: Conn)
    requires c.tx.Some? && TxOk(c.tx.value) && c.tx.value.retries <= 3
    ensures Insisted(c, 0, c)
  {
    hide TxFilesOk, ListOf;
    NoTimes(c.out, ListOf(c));
  }

  lemma InsistedLast(c: Conn, n: nat, d: Conn)
    requires c.tx.Some? && TxOk(c.tx.value) && c.tx.value.retries == 3 && n > 0
    requires d.out == c.out + [Rst(c.tx.value.trans, 210)] && d.txResults == c.txResults + [false]
    requires TxPhase(d) == Some(Failed)
    ensures Insisted(c, n, d)
  {
    hide TxFilesOk, ListOf;
    NoTimes(c.out, ListOf(c));
  }

  /**
   * A peer that never answers: with a working link the list goes out once more with each due tick until it has
   * been repeated three times; the next due tick gives the transfer up with one failure and an RST, and nothing
   * more is ever sent.
   */
  lemma {:induction false} Unanswered(c: Conn, envs: seq<Env>)
    requires Offering(c) && c.tx.value.retries <= 3 && AllDue(envs)
    requires Room(c, |envs| * (|ListOf(c)| + 1))
    ensures DR.Possible(c, Ticks(envs)) && Insisted(c, |envs|, DR.After(c, Ticks(envs)))
    decreases |envs|
  {
    hide Tick, TxFilesOk, RxFilesOk, ListOf, Room, Insisted;
    if envs == [] {
      InsistedStart(c);
    } else {
      OneTurn(c, envs[0], |envs|);
      TicksStep(envs);
      var e := Tick(c, envs[0]);
      if c.tx.value.retries < 3 {
        Unanswered(e, envs[1..]);
        InsistedMore(c, |envs|, e, DR.After(e, Ticks(envs[1..])));
      } else {
        NothingMore(e, envs[1..]);
        InsistedLast(c, |envs|, e);
      }
    }
  }

  /** One due tick, and what is left of the link. */
  lemma OneTurn(c: Conn, env: Env, n: nat)
    requires Offering(c) && c.tx.value.retries <= 3 && env.retryDue && !env.txTimeout && n > 0
    requires Room(c, n * (|ListOf(c)| + 1))
    ensures var t := c.tx.value; var u := t.(retries := t.retries + 1); var e := Tick(c, env);
            && e == (if t.retries < 3 then
                       c.(tx := Some(u), out := c.out + ListOf(c), tries := c.tries + |ListOf(c)|)
                     else
                       c.(tx := Some(u.(phase := Failed)), txResults := c.txResults + [false],
                          out := c.out + [Rst(t.trans, 210)], tries := c.tries + 1))
            && ConnOk(e) && (t.retries < 3 ==> Offering(e) && ListOf(e) == ListOf(c)
                                               && Room(e, (n - 1) * (|ListOf(c)| + 1)))
  {
    var k := |ListOf(c)| + 1;
    assert n * k == k + (n - 1) * k;
    OneRetry(c, env);
    hide Tick, TxFilesOk, RxFilesOk, HeaderFrames, EntriesOf;
  }

  lemma NoTimes(out: seq<Frame>, frames: seq<Frame>)
    ensures Times(frames, 0) == [] && out + [] == out
  {
  }

  lemma MoreTimes(out: seq<Frame>, frames: seq<Frame>, n: nat)
    requires n > 0
    ensures out + frames + Times(frames, n - 1) == out + Times(frames, n)
  {
  }

  // ---------------------------------------------------------------- a complete list

  predicate Openable(hdr: seq<Entry>, opens: nat) {
    |hdr| <= opens && forall i | 0 <= i < |hdr| :: hdr[i].size <= MAX_SIZE
  }

  lemma {:induction false} EveryOpened(hdr: seq<Entry>, opens: nat)
    ensures |OpenFiles(hdr, opens)| == |hdr| <==> Openable(hdr, opens)
    decreases |hdr|
  {
    DR.OpenFilesOk(hdr, opens);
    if hdr != [] && opens > 0 && hdr[0].size <= MAX_SIZE {
      EveryOpened(hdr[1..], opens - 1);
      DR.OpenFilesOk(hdr[1..], opens - 1);
      assert Openable(hdr, opens) <==> Openable(hdr[1..], opens - 1) by {
        assert forall i | 0 < i < |hdr| :: hdr[i] == hdr[1..][i - 1];
        if Openable(hdr, opens) {
          assert forall i | 0 <= i < |hdr[1..]| :: hdr[1..][i] == hdr[i + 1];
        }
      }
    }
  }

  /** The receiver before or amid a list. */
  predicate Collecting(c: Conn, trans: u16, node: u16) {
    c.rx.None? || (c.rx.value.phase == Idle && c.rx.value.trans == trans && c.rx.value.node == node)
  }

  /** What is done about a list that has just become complete. */
  ghost predicate ListAnswer(c: Conn, d: Conn, hdr: seq<Entry>, trans: u16, opens: nat) {
    var ids := EntryIds(hdr);
    var fine := c.hasDir && Openable(hdr, opens) && |hdr| <= 500;
    && (RxPhase(d) == Some(RxWaitData) <==> fine && Room(c, 2))
    && (RxPhase(d) == Some(RxWaitData) ==>
          d.out == c.out + [Confirm(trans, ids), Request(trans, ids)] && d.rxResults == c.rxResults)
    && (RxPhase(d) != Some(RxWaitData) ==>
          RxPhase(d) == Some(Failed) && d.rxResults == c.rxResults + [false])
    && (!c.hasDir ==> d.out == c.out)
    && (c.hasDir && !Openable(hdr, opens) ==> d.out == c.out + if Works(c) then [Rst(trans, 204)] else [])
  }

  lemma CompleteAnswers(c: Conn, opens: nat)
    requires c.rx.Some? && c.rx.value.phase == Idle
    ensures ListAnswer(c, HeaderComplete(c, opens), c.rx.value.hdr, c.rx.value.trans, opens)
  {
    hide OpenFiles, EntryIds, Openable;
    var t := c.rx.value;
    EveryOpened(t.hdr, opens);
    DR.OpenFilesOk(t.hdr, opens);
    hide RxFilesOk;
    var d := c.(rx := Some(t.(files := OpenFiles(t.hdr, opens))));
    var answers := [Confirm(t.trans, EntryIds(t.hdr)), Request(t.trans, EntryIds(t.hdr))];
    TwoFrames(d, answers);
    hide SendAll;
    assert c.out + [] == c.out;
  }

  lemma TwoFrames(c: Conn, frames: seq<Frame>)
    requires |frames| == 2
    ensures SendAll(c, frames).ok <==> Room(c, 2)
    ensures SendAll(c, frames).ok ==> SendAll(c, frames).conn.out == c.out + frames
    ensures SendAll(c, frames).conn.rx == c.rx && SendAll(c, frames).conn.rxResults == c.rxResults
  {
    var d := TrySend(c, frames[0]);
    var e := TrySend(d, frames[1]);
    assert frames[1..][0] == frames[1] && frames[1..][1..] == [];
    assert SendAll(c, frames) == if !Works(c) then Sent(d, false) else SendAll(d, frames[1..]);
    assert SendAll(d, frames[1..]) == if !Works(d) then Sent(e, false) else SendAll(e, []);
    assert SendAll(e, []) == Sent(e, true);
    assert c.out + [frames[0]] + [frames[1]] == c.out + frames;
  }

  /**
   * A list from any peer that does not break the rules: while ids are missing nothing is answered; when the last
   * one arrives it is confirmed and requested if and only if every destination can be opened and the answer goes
   * out, and the transfer fails otherwise, with RST 204 when a destination could not be opened.
   */
  lemma {:induction false} ListAnswered(c: Conn, trans: u16, node: u16, es: seq<Entry>, disk: Disk)
    requires ConnOk(c) && Listed(c) && c.state != Closing && Collecting(c, trans, node)
    requires !Breaks(c, FileHeader(trans, node, es))
    ensures var d := Handle(c, FileHeader(trans, node, es), disk);
            var before := if c.rx.Some? then c.rx.value.hdr else [];
            && d.rx.Some? && before <= d.rx.value.hdr && Distinct(d.rx.value.hdr)
            && Known(d.rx.value.hdr) == Known(before) + Known(es)
            && (|d.rx.value.hdr| < node ==> RxPhase(d) == Some(Idle) && d.out == c.out && d.rxResults == c.rxResults)
            && (|d.rx.value.hdr| == node ==> ListAnswer(c, d, d.rx.value.hdr, trans, disk.opens))
            && |d.rx.value.hdr| <= node
  {
    hide Accumulate, HeaderComplete, Shutdown, Known, Distinct, TxFilesOk, RxFilesOk, Openable;
    EmptyList();
    var t := if c.rx.None? then FreshRx(trans, node) else c.rx.value;
    AccumulateIff(t.hdr, es, node);
    var d := c.(rx := Some(t.(hdr := Accumulate(t.hdr, es, node).0)));
    CompleteAnswers(d, disk.opens);
    CompleteKeepsList(d, disk.opens);
  }

  lemma CompleteKeepsList(c: Conn, opens: nat)
    requires c.rx.Some?
    ensures HeaderComplete(c, opens).rx.Some? && HeaderComplete(c, opens).rx.value.hdr == c.rx.value.hdr
  {
    hide OpenFiles, SendAll, FailRx;
    var t := c.rx.value;
    var d := c.(rx := Some(t.(files := OpenFiles(t.hdr, opens))));
    var answers := [Confirm(t.trans, EntryIds(t.hdr)), Request(t.trans, EntryIds(t.hdr))];
    SendAllOpen(d, answers);
    FailKeepsList(c);
    FailKeepsList(d);
    FailKeepsList(TrySend(d, Rst(t.trans, RST_NO_STORAGE)));
    FailKeepsList(SendAll(d, answers).conn);
  }

  lemma FailKeepsList(c: Conn)
    requires c.rx.Some?
    ensures FailRx(c, false).rx.Some? && FailRx(c, false).rx.value.hdr == c.rx.value.hdr
  {
  }

  // ---------------------------------------------------------------- complete files

  /** Everything is written and acknowledged. */
  ghost predicate AllHere(c: Conn) {
    && c.rx.Some? && c.rx.value.phase == RxWaitData && !c.rx.value.ackPending && !c.rx.value.doneSent
    && c.rx.value.files != [] && forall i | 0 <= i < |c.rx.value.files| :: c.rx.value.files[i].complete
  }

  /** The checksums named by the files decide what the peer is told. */
  lemma {:induction false} ChecksumDecides(c: Conn, shaOk: bool)
    requires ConnOk(c) && AllHere(c) && Works(c)
    ensures var d := TickRx(c, shaOk); var t := c.rx.value;
            && d.out == c.out + [if shaOk then Done(t.trans, RxIds(t.files)) else Rst(t.trans, 209)]
            && RxPhase(d) == Some(if shaOk then RxWaitDoneAck else Failed)
            && d.rxResults == if shaOk then c.rxResults else c.rxResults + [false]
  {
    hide RxIds, TxFilesOk, RxFilesOk;
  }

  // ---------------------------------------------------------------- starting a transfer

  predicate Tried(c: Conn, items: seq<Item>) {
    c.state == Ready && c.tx.None? && 0 < |items| <= 500
  }

  predicate Readable(items: seq<Item>, canOpen: bool) {
    canOpen && forall it | it in items :: |it.content| <= 0x7F_FFFF_FFFF
  }

  function OfferList(trans: u16, items: seq<Item>): seq<Frame>
    requires |items| <= 500 && forall it | it in items :: |it.content| <= 0x7F_FFFF_FFFF
  {
    DR.NewTxShape(trans, items);
    HeaderFrames(trans, |items|, EntriesOf(NewTx(trans, items).files))
  }

  lemma RoomFirst(c: Conn, n: nat)
    requires n > 0
    ensures Room(c, n) ==> Works(c)
  {
  }

  lemma {:induction false} AllGoOut(c: Conn, frames: seq<Frame>)
    requires frames != []
    ensures SendAll(c, frames).ok <==> Room(c, |frames|)
    decreases |frames|
  {
    var d := TrySend(c, frames[0]);
    RoomFirst(c, |frames|);
    if Works(c) && |frames| == 1 {
      assert SendAll(d, frames[1..]).ok;
    } else if Works(c) {
      AllGoOut(d, frames[1..]);
      assert Room(c, |frames|) <==> Room(d, |frames| - 1);
    }
  }

  /**
   * A transfer is registered if and only if the connection is ready and has none, there are 1 to 500 readable
   * files of an allowed size, and the whole list goes out. A number is used up by every try, even a failed one,
   * and nothing is sent for files that cannot be read.
   */
  lemma {:induction false} OfferedIff(c: Conn, items: seq<Item>, canOpen: bool)
    requires ItemsOk(items)
    ensures var r := SendFiles(c, items, canOpen); var d := r.conn;
            && d.nextTrans == (if Tried(c, items) then (c.nextTrans + 1) % 0x1_0000 else c.nextTrans)
            && (r.ok <==> Tried(c, items) && Readable(items, canOpen) && Room(c, |OfferList(c.nextTrans, items)|))
            && (r.ok ==>
                  && d.out == c.out + OfferList(c.nextTrans, items)
                  && d.tx.Some? && d.tx.value.trans == c.nextTrans && d.tx.value.phase == TxWaitConfirm)
            && (!r.ok ==> d.tx == c.tx)
            && (!(Tried(c, items) && Readable(items, canOpen)) ==> d.out == c.out)
            && d.rx == c.rx && d.state == c.state
  {
    hide HeaderFrames, EntriesOf, SendAll, NewTx, Room;
    if Tried(c, items) && Readable(items, canOpen) {
      var t := NewTx(c.nextTrans, items);
      DR.NewTxShape(c.nextTrans, items);
      var list := OfferList(c.nextTrans, items);
      var d := c.(nextTrans := Next16(c.nextTrans));
      ListGoes(c.nextTrans, items);
      AllGoOut(d, list);
      RoomSame(c, d, |list|);
      var j := SendAllSends(d, list);
      if j == |list| {
        assert list[..j] == list;
      }
      WaitsAtFirst(c.nextTrans, items);
    }
  }

  /** The first entry of a list always fits a frame. */
  lemma ListGoes(trans: u16, items: seq<Item>)
    requires 0 < |items| <= 500 && ItemsOk(items) && forall it | it in items :: |it.content| <= 0x7F_FFFF_FFFF
    ensures OfferList(trans, items) != []
  {
    DR.NewTxShape(trans, items);
    var es := EntriesOf(NewTx(trans, items).files);
    assert es != [] && |es[0].name| <= 255;
    assert Fitting(es, HEADER_CAP - 10) > 0;
  }

  lemma RoomSame(c: Conn, d: Conn, n: nat)
    requires d.link == c.link && d.tries == c.tries
    ensures Room(c, n) <==> Room(d, n)
  {
  }

  lemma WaitsAtFirst(trans: u16, items: seq<Item>)
    requires |items| <= 500
    ensures NewTx(trans, items).phase == TxWaitConfirm && NewTx(trans, items).trans == trans
  {
  }

  // ---------------------------------------------------------------- one tick of a sender

  /** After the tick a sender that is sending waits for DONE exactly when it has nothing left to send or repeat. */
  lemma {:induction false} WaitsWhenSent(c: Conn, due: bool, readable: nat)
    requires c.tx.Some? && TxOk(c.tx.value) && c.tx.value.phase == TxSending
    ensures var d := TickTx(c, due, readable);
            && d.tx.Some? && d.tx.value.phase in {TxSending, TxWaitDone, TxDone, Failed}
            && (d.tx.value.phase == TxWaitDone ==> AllSent(d.tx.value))
            && (d.tx.value.phase == TxSending ==> !AllSent(d.tx.value))
  {
    hide Pump, AllSent, TxFilesOk, Ids, AllAcked;
    var e := Pump(c, due, SEND_BUDGET, readable);
    PumpPhase(c, due, SEND_BUDGET, readable);
    var t := e.tx.value;
    SameSent(t, AfterPump(e).tx.value);
  }

  lemma SameSent(t: Tx, u: Tx)
    requires t.files == u.files
    ensures AllSent(t) <==> AllSent(u)
  {
  }

  lemma {:induction false} PumpPhase(c: Conn, due: bool, budget: nat, readable: nat)
    requires c.tx.Some? && TxOk(c.tx.value) && c.tx.value.phase == TxSending
    ensures Pump(c, due, budget, readable).tx.value.phase in {TxSending, Failed}
    decreases budget
  {
    hide TxFilesOk, DataFrame, Wants, SendBlock, FailTx;
    var t := c.tx.value;
    var i := Pick(t.files, due);
    if budget != 0 && i != |t.files| {
      DR.WantsDue(t.files[i], due);
      DR.FileOk(t, i);
      FailedPhase(c, true);
      FailedPhase(TrySend(c, DataFrame(t.trans, t.files[i])), false);
      if readable > 0 && Works(c) {
        SendBlockSays(c, i);
        PumpPhase(SendBlock(c, i), due && t.files[i].next < t.files[i].total, budget - 1, readable - 1);
      }
    }
  }

  lemma FailedPhase(c: Conn, rst: bool)
    requires c.tx.Some?
    ensures FailTx(c, rst).tx.Some? && FailTx(c, rst).tx.value.phase in {c.tx.value.phase, Failed}
  {
  }

  /** A flush leaves nothing to acknowledge, and says nothing when nothing has arrived. */
  lemma {:induction false} FlushedOnce(c: Conn, shaOk: bool)
    requires c.rx.Some? && RxOk(c.rx.value) && c.rx.value.phase == RxWaitData
    ensures var d := TickRx(c, shaOk);
            && d.rx.Some? && !d.rx.value.ackPending
            && (!c.rx.value.ackPending && !AllComplete(c.rx.value.files) ==> d == c)
            && (c.rx.value.ackPending && Works(c) && !AllComplete(c.rx.value.files) ==>
                  d.out == c.out + if AckList(c.rx.value.files, 39) == [] then [] else
                             [Ack(c.rx.value.trans, AckList(c.rx.value.files, 39))])
  {
    hide AckList, RxFilesOk, AllComplete, RxIds;
    assert c.out + [] == c.out;
  }

  // ---------------------------------------------------------------- what a data frame says about its block

  /**
   * The flag of a block that is sent for the first time: 1 unless it is the first of its file, 2 more when it is
   * the last. A repeated block always carries 5, so neither the first nor the last one can be told by it.
   */
  lemma {:induction false} BlockFlags(trans: u16, f: TxFile)
    requires TxFileOk(f) && Wants(f, true)
    ensures var d := DataFrame(trans, f); var n := (|f.content| + BLOCK - 1) / BLOCK;
            && d.Data? && d.trans == trans && d.id == f.id && d.num < n
            && d.payload == f.content[d.num * BLOCK..Min((d.num + 1) * BLOCK, |f.content|)]
            && (d.num == f.next ==> d.flag == (if d.num == 0 then 0 else 1) + (if d.num + 1 == n then 2 else 0))
            && (d.num != f.next ==> d.num < f.next && d.flag == 5)
  {
    NextBlockInFile(f);
    TotalFits(f);
    BlockInside(|f.content|, NextBlock(f));
    if f.next == f.total {
      assert f.retrans[0] == f.next - |f.retrans|;
    }
  }
}
