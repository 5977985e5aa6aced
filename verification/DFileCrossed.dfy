/**
 * Two ends that each send a file, both as transfer 1: the RST of a send transfer that has failed makes the peer
 * fail its own send transfer, while the receive transfer that was meant goes on.
 */
module DFileCrossed {
  import opened Bytes
  import opened DFileCore
  import opened DFileLink
  import opened DFileNet
  import opened DFileComplete
  import opened DFileRst
  import DR = DFileResults

  const ITEM := Item([97], [66])
  const ENTRY := Entry(1, 1, [97])
  const LINK: seq<bool> := [true, true, true, true, true]
  const SAID: seq<Frame> :=
    [Setting(1472, 0), FileHeader(1, 1, [ENTRY]), Confirm(1, [1]), Request(1, [1]), Rst(1, RST_CANCEL)]
  const TIMEOUT := Env(false, true, false, false, false, 0, true)

  function Sender(phase: Phase, confirmed: bool, requested: bool): Option<Tx> {
    Some(Tx(1, phase, [TxFile(1, [97], [66], 1, 0, [], -1, false, confirmed)], 0, requested, confirmed, false, false))
  }

  function Receiver(): Option<Rx> {
    Some(Rx(1, RxWaitData, 1, [ENTRY], [RxFile(1, 1, 1, 0, false, [0])], false, false))
  }

  /** A connection that has said the first `n` frames. */
  function Stage(state: ConnState, tx: Option<Tx>, rx: Option<Rx>, n: nat, results: seq<bool>): Conn
    requires n <= 5
  {
    Conn(state, tx, rx, if tx.None? then 1 else 2, true, LINK, n, SAID[..n], results, [], 0)
  }

  function Conn0(): Conn { Stage(Negotiating, None, None, 1, []) }
  function Conn1(): Conn { Stage(Ready, None, None, 1, []) }
  function Conn2(): Conn { Stage(Ready, Sender(TxWaitConfirm, false, false), None, 2, []) }
  function Conn3(): Conn { Stage(Ready, Sender(TxWaitConfirm, false, false), Receiver(), 4, []) }
  function Timed(): Conn { Stage(Ready, Sender(Failed, false, false), Receiver(), 5, [false]) }
  function Conn4(): Conn { Stage(Ready, Sender(TxWaitConfirm, true, false), Receiver(), 4, []) }
  function Conn5(): Conn { Stage(Ready, Sender(TxSending, true, true), Receiver(), 4, []) }
  function Conn6(): Conn { Stage(Ready, Sender(Failed, true, true), Receiver(), 4, [false]) }

  lemma Opens()
    ensures DR.Open(true, LINK) == Conn0()
  {
    assert [] + [SAID[0]] == SAID[..1];
  }

  lemma StagesOk()
    ensures ConnOk(Conn0()) && ConnOk(Conn1()) && ConnOk(Conn2()) && ConnOk(Conn3())
    ensures ConnOk(Timed()) && ConnOk(Conn4()) && ConnOk(Conn5()) && ConnOk(Conn6())
  {
  }

  lemma HearsSetting()
    ensures ConnOk(Conn0()) && Handle(Conn0(), SAID[0], Disk(0, true)) == Conn1()
  {
  }

  lemma Offers()
    ensures SendFiles(Conn1(), [ITEM], true).conn == Conn2()
  {
    var t := NewTx(1, [ITEM]);
    assert t == Sender(TxWaitConfirm, false, false).value;
    assert EntriesOf(t.files) == [ENTRY];
    assert Fitting([ENTRY], HEADER_CAP - 10) == 1;
    assert [ENTRY][..1] == [ENTRY] && [ENTRY][1..] == [] && HeaderFrames(1, 1, []) == [];
    assert HeaderFrames(1, 1, [ENTRY]) == [SAID[1]];
    assert SAID[..1] + [SAID[1]] == SAID[..2];
    var d := Conn1().(nextTrans := 2);
    assert [SAID[1]][1..] == [];
    assert SendAll(d, [SAID[1]]) == Sent(d.(out := SAID[..2], tries := 2), true);
    assert forall it | it in [ITEM] :: |it.content| <= MAX_SIZE;
    assert SendFiles(Conn1(), [ITEM], true) == Sent(d.(out := SAID[..2], tries := 2, tx := Some(t)), true);
  }

  lemma HearsHeader()
    ensures ConnOk(Conn2()) && Handle(Conn2(), SAID[1], Disk(1, true)) == Conn3()
  {
    assert !HasId([], ENTRY.id) && [] + [ENTRY] == [ENTRY];
    assert Accumulate([ENTRY], [ENTRY][1..], 1) == ([ENTRY], true);
    assert Accumulate([], [ENTRY], 1) == ([ENTRY], true);
    assert Zeros(1) == [0];
    assert OpenFiles([ENTRY], 1) == Receiver().value.files;
    assert EntryIds([ENTRY]) == [1];
    var c := Conn2().(rx := Some(Rx(1, Idle, 1, [ENTRY], [], false, false)));
    var d := c.(rx := Some(Rx(1, Idle, 1, [ENTRY], Receiver().value.files, false, false)));
    Answers(d);
    assert HeaderComplete(c, 1) == Conn3();
    assert OnHeader(Conn2(), 1, 1, [ENTRY], 1) == HeaderComplete(c, 1);
  }

  lemma Answers(d: Conn)
    requires d.link == LINK && d.tries == 2 && d.out == SAID[..2]
    ensures SendAll(d, [SAID[2], SAID[3]]) == Sent(d.(out := SAID[..4], tries := 4), true)
  {
    assert SAID[..2] + [SAID[2]] == SAID[..3] && SAID[..3] + [SAID[3]] == SAID[..4];
    assert [SAID[2], SAID[3]][1..] == [SAID[3]] && [SAID[3]][1..] == [];
    var e := d.(out := SAID[..3], tries := 3);
    assert TrySend(d, SAID[2]) == e && TrySend(e, SAID[3]) == d.(out := SAID[..4], tries := 4);
    assert SendAll(e, [SAID[3]]) == Sent(d.(out := SAID[..4], tries := 4), true);
  }

  lemma TimesOut()
    ensures ConnOk(Conn3()) && Tick(Conn3(), TIMEOUT) == Timed()
  {
    assert SAID[..4] + [SAID[4]] == SAID[..5];
    assert FailTx(Conn3(), true) == Timed();
    assert Timeouts(Conn3(), TIMEOUT) == Timed();
    assert !Receiver().value.files[0].complete;
    assert TickRx(Timed(), true) == Timed();
  }

  lemma HearsConfirm()
    ensures ConnOk(Conn3()) && Handle(Conn3(), SAID[2], Disk(0, true)) == Conn4()
  {
    var files := Conn3().tx.value.files;
    assert FindTx(files, 1) == 0;
    assert ConfirmIds(files, [1]) == Conn4().tx.value.files;
  }

  lemma HearsRequest()
    ensures ConnOk(Conn4()) && Handle(Conn4(), SAID[3], Disk(0, true)) == Conn5()
  {
  }

  lemma HearsRst()
    ensures ConnOk(Conn5()) && Handle(Conn5(), SAID[4], Disk(0, true)) == Conn6()
  {
  }

  // ---------------------------------------------------------------- the run

  function Told(c: Conn, offered: bool, taken: nat): End {
    End(c, if offered then Some(Offered(1, [ITEM])) else None, taken)
  }

  /** One move of either end, from the step it makes of its connection. */
  lemma Moves(p: Pair, m: Move, e: End) returns (q: Pair)
    requires ConnOk(p.a.conn) && ConnOk(p.b.conn)
    requires if m.byA then Enabled(m.act, p.a, p.b) && Act(m.act, p.a, p.b) == e
             else Enabled(m.act, p.b, p.a) && Act(m.act, p.b, p.a) == e
    ensures q == if m.byA then p.(a := e) else p.(b := e)
    ensures IsRun(p, [m]) && After(p, [m]) == q
  {
    hide Act, Enabled, ConnOk;
    q := Next(p, m);
    assert [m][1..] == [];
  }

  lemma ReadAs(me: End, you: End, disk: Disk, d: Conn)
    requires ConnOk(me.conn) && me.conn.state != Closing
    requires ConnOk(me.conn) && me.taken < |you.conn.out| && Handle(me.conn, you.conn.out[me.taken], disk) == d
    ensures Enabled(Receive(disk), me, you)
    ensures Act(Receive(disk), me, you) == End(d, me.offer, me.taken + 1)
  {
    hide Handle, ConnOk;
  }

  lemma OfferAs(me: End, you: End)
    requires me == Told(Conn1(), false, me.taken)
    ensures ConnOk(me.conn) && Enabled(Offer([ITEM], true), me, you)
    ensures Act(Offer([ITEM], true), me, you) == Told(Conn2(), true, me.taken)
  {
    Offers();
    hide SendFiles;
  }

  lemma TimeAs(me: End, you: End)
    requires me == Told(Conn3(), true, me.taken)
    ensures ConnOk(me.conn) && Enabled(Timer(TIMEOUT), me, you)
    ensures Act(Timer(TIMEOUT), me, you) == Told(Timed(), true, me.taken)
  {
    TimesOut();
    hide Tick;
  }

  /** Both ends have their settings, have offered their file and opened the other's. */
  lemma BothUnderWay() returns (moves: seq<Move>)
    ensures IsRun(Start(true, LINK, true, LINK), moves)
    ensures After(Start(true, LINK, true, LINK), moves) == Pair(Told(Conn3(), true, 2), Told(Conn3(), true, 2))
  {
    hide IsRun, After, Handle, Act, ConnOk, Conn0, Conn1, Conn2, Conn3, SAID;
    Opens();
    StagesOk();
    HearsSetting();
    HearsHeader();
    Outs();
    var s := Start(true, LINK, true, LINK);
    var got0, got1 := Receive(Disk(0, true)), Receive(Disk(1, true));
    var offer := Offer([ITEM], true);
    assert s == Pair(Told(Conn0(), false, 0), Told(Conn0(), false, 0));
    ReadAs(s.a, s.b, Disk(0, true), Conn1());
    var p1 := Moves(s, Move(true, got0), Told(Conn1(), false, 1));
    ReadAs(p1.b, p1.a, Disk(0, true), Conn1());
    var p2 := Moves(p1, Move(false, got0), Told(Conn1(), false, 1));
    OfferAs(p2.a, p2.b);
    var p3 := Moves(p2, Move(true, offer), Told(Conn2(), true, 1));
    OfferAs(p3.b, p3.a);
    var p4 := Moves(p3, Move(false, offer), Told(Conn2(), true, 1));
    ReadAs(p4.a, p4.b, Disk(1, true), Conn3());
    var p5 := Moves(p4, Move(true, got1), Told(Conn3(), true, 2));
    ReadAs(p5.b, p5.a, Disk(1, true), Conn3());
    var p6 := Moves(p5, Move(false, got1), Told(Conn3(), true, 2));
    moves := [Move(true, got0)] + [Move(false, got0)];
    RunAppend(s, [Move(true, got0)], [Move(false, got0)]);
    RunAppend(s, moves, [Move(true, offer)]);
    moves := moves + [Move(true, offer)];
    RunAppend(s, moves, [Move(false, offer)]);
    moves := moves + [Move(false, offer)];
    RunAppend(s, moves, [Move(true, got1)]);
    moves := moves + [Move(true, got1)];
    RunAppend(s, moves, [Move(false, got1)]);
    moves := moves + [Move(false, got1)];
  }

  /** What each connection has said, and that it reads. */
  lemma Outs()
    ensures Conn0().out == SAID[..1] && Conn1().out == SAID[..1] && Conn2().out == SAID[..2]
    ensures Conn3().out == SAID[..4] && Timed().out == SAID && |SAID| == 5
    ensures Conn0().state == Negotiating && Conn1().state == Ready && Conn2().state == Ready && Conn3().state == Ready
    ensures Conn4().state == Ready && Conn5().state == Ready
  {
    assert SAID[..5] == SAID;
  }

  /**
   * Two honest ends on links that never fail: end A's send transfer times out and A says so with an RST; B reads
   * it and fails its own send transfer. Both have reported one failure, of two different transfers, and
   * both receive transfers go on.
   */
  lemma {:induction false} RstMisses() returns (moves: seq<Move>)
    ensures IsRun(Start(true, LINK, true, LINK), moves)
    ensures var p := After(Start(true, LINK, true, LINK), moves);
            && SameNumber(p.a, p.b)
            && IsPhase(p.a.conn.tx, Failed) && p.a.conn.txResults == [false]
            && 0 < p.b.taken == |p.a.conn.out| && p.a.conn.out[p.b.taken - 1] == Rst(1, RST_CANCEL)
            && IsPhase(p.b.conn.tx, Failed) && p.b.conn.txResults == [false]
            && RxPhase(p.a.conn.rx, RxWaitData) && p.a.conn.rxResults == []
            && RxPhase(p.b.conn.rx, RxWaitData) && p.b.conn.rxResults == []
  {
    var p := Pair(Told(Conn3(), true, 2), Told(Conn3(), true, 2));
    assert Timed().tx == Sender(Failed, false, false) && Conn6().tx == Sender(Failed, true, true);
    assert Timed().rx == Receiver() == Conn6().rx && Timed().txResults == [false] == Conn6().txResults;
    assert Timed().rxResults == [] == Conn6().rxResults;
    Outs();
    assert SAID[4] == Rst(1, RST_CANCEL);
    hide IsRun, After, Handle, Act, ConnOk, Conn3, Conn4, Conn5, Conn6, Timed, SAID;
    moves := BothUnderWay();
    StagesOk();
    HearsConfirm();
    HearsRequest();
    HearsRst();
    var s := Start(true, LINK, true, LINK);
    var got := Receive(Disk(0, true));
    TimeAs(p.a, p.b);
    var p1 := Moves(p, Move(true, Timer(TIMEOUT)), Told(Timed(), true, 2));
    ReadAs(p1.b, p1.a, Disk(0, true), Conn4());
    var p2 := Moves(p1, Move(false, got), Told(Conn4(), true, 3));
    ReadAs(p2.b, p2.a, Disk(0, true), Conn5());
    var p3 := Moves(p2, Move(false, got), Told(Conn5(), true, 4));
    ReadAs(p3.b, p3.a, Disk(0, true), Conn6());
    var p4 := Moves(p3, Move(false, got), Told(Conn6(), true, 5));
    RunAppend(s, moves, [Move(true, Timer(TIMEOUT))]);
    moves := moves + [Move(true, Timer(TIMEOUT))];
    RunAppend(s, moves, [Move(false, got)]);
    moves := moves + [Move(false, got)];
    RunAppend(s, moves, [Move(false, got)]);
    moves := moves + [Move(false, got)];
    RunAppend(s, moves, [Move(false, got)]);
    moves := moves + [Move(false, got)];
  }
}
