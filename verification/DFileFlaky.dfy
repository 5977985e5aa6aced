/**
 * A link that fails once and works again: a receive transfer that has reported failure comes back and reports
 * success.
 */
module DFileFlaky {
  import opened Bytes
  import opened DFileCore
  import opened DFileResults

  /** A peer, a link and a tick that bring a failed transfer back: the file of one byte is reported twice. */
  function FlakyRun(): (events: seq<Event>)
    ensures |events| == 5
  {
    [Arrive(Setting(1472, 0), Disk(0, false)),
     Arrive(FileHeader(1, 1, [Entry(1, 1, [65])]), Disk(1, true)),
     Arrive(Data(1, FLAG_END, 1, 0, [66]), Disk(0, true)),
     Timer(Env(false, false, false, false, false, 0, true)),
     Arrive(DoneAck(1, [1]), Disk(0, false))]
  }

  const FLAKY_LINK: seq<bool> := [true, true, true, false, true]

  function FlakyFile(expected: nat): RxFile {
    RxFile(1, 1, 1, expected, expected == 1, if expected == 1 then [66] else [0])
  }

  /** The receive transfer once its destination is open. */
  function FlakyRx(phase: Phase, expected: nat, ackPending: bool, doneSent: bool): Rx {
    Rx(1, phase, 1, [Entry(1, 1, [65])], [FlakyFile(expected)], ackPending, doneSent)
  }

  function FlakyConn(tries: nat, out: seq<Frame>, t: Rx, results: seq<bool>): Conn {
    Conn(Ready, None, Some(t), 1, true, FLAKY_LINK, tries, out, [], results, 0)
  }

  lemma FlakyStart()
    ensures var c := Open(true, FLAKY_LINK); ConnOk(c)
    ensures var d := Step(Open(true, FLAKY_LINK), FlakyRun()[0]);
            d == Conn(Ready, None, None, 1, true, FLAKY_LINK, 1, [Setting(1472, 0)], [], [], 0)
  {
  }

  function FlakyOut(n: nat): seq<Frame>
    requires n <= 4
  {
    [Setting(1472, 0), Confirm(1, [1]), Request(1, [1]), Done(1, [1])][..n]
  }

  lemma FlakyHeader()
    ensures var c := Conn(Ready, None, None, 1, true, FLAKY_LINK, 1, [Setting(1472, 0)], [], [], 0);
            ConnOk(c) && Step(c, FlakyRun()[1]) == FlakyConn(3, FlakyOut(3), FlakyRx(RxWaitData, 0, false, false), [])
  {
    var c := Conn(Ready, None, None, 1, true, FLAKY_LINK, 1, [Setting(1472, 0)], [], [], 0);
    var e := Entry(1, 1, [65]);
    assert !HasId([], e.id) && [] + [e] == [e] && [e][1..] == [];
    assert Accumulate([e], [], 1) == ([e], true);
    assert Accumulate([], [e], 1) == ([e], true);
    assert Zeros(1) == [0];
    assert OpenFiles([e], 1) == [FlakyFile(0)];
    assert EntryIds([e]) == [1];
  }

  lemma FlakyData()
    ensures var c := FlakyConn(3, FlakyOut(3), FlakyRx(RxWaitData, 0, false, false), []);
            ConnOk(c) && Step(c, FlakyRun()[2]) == FlakyConn(3, FlakyOut(3), FlakyRx(RxWaitData, 1, true, false), [])
  {
    assert FindRx([FlakyFile(0)], 1) == 0;
    assert WriteBlock(FlakyFile(0), [66]) == FlakyFile(1);
    assert [FlakyFile(0)][0 := FlakyFile(1)] == [FlakyFile(1)];
  }

  lemma FlakyTick()
    ensures var c := FlakyConn(3, FlakyOut(3), FlakyRx(RxWaitData, 1, true, false), []);
            && ConnOk(c) && RevivesStep(c, FlakyRun()[3])
            && Step(c, FlakyRun()[3]) == FlakyConn(5, FlakyOut(4), FlakyRx(RxWaitDoneAck, 1, false, true), [false])
  {
    assert AckList([FlakyFile(1)], MAX_ACKS) == [AckEntry(1, 0)];
    assert RxIds([FlakyFile(1)]) == [1];
  }

  lemma FlakyDoneAck()
    ensures var c := FlakyConn(5, FlakyOut(4), FlakyRx(RxWaitDoneAck, 1, false, true), [false]);
            && ConnOk(c)
            && Step(c, FlakyRun()[4]) == FlakyConn(5, FlakyOut(4), FlakyRx(RxDone, 1, false, true), [false, true])
  {
  }

  lemma StepThenRun(c: Conn, events: seq<Event>, i: nat)
    requires i < |events| && ConnOk(c) && Possible(Step(c, events[i]), events[i + 1..])
    ensures Possible(c, events[i..])
    ensures After(c, events[i..]) == After(Step(c, events[i]), events[i + 1..])
    ensures EverRevives(c, events[i..])
            <==> RevivesStep(c, events[i]) || EverRevives(Step(c, events[i]), events[i + 1..])
  {
    hide ConnOk, Step, RevivesStep;
    assert events[i..][0] == events[i] && events[i..][1..] == events[i + 1..];
  }

  /** From the opening of the connection: the run meets the guard, and the transfer fails and then succeeds. */
  lemma {:induction false} FlakyLinkRevives() returns (c: Conn, events: seq<Event>)
    ensures c == Open(true, FLAKY_LINK) && events == FlakyRun() && Possible(c, events)
    ensures EverRevives(c, events)
    ensures var d := After(c, events); d.rx.Some? && d.rx.value.phase == RxDone && d.rxResults == [false, true]
  {
    hide Step, Open, FlakyOut, ConnOk, RevivesStep, FlakyRun, Possible, After, EverRevives;
    c, events := Open(true, FLAKY_LINK), FlakyRun();
    FlakyStart();
    FlakyHeader();
    FlakyData();
    FlakyTick();
    FlakyDoneAck();
    var c4 := FlakyConn(5, FlakyOut(4), FlakyRx(RxWaitDoneAck, 1, false, true), [false]);
    NothingLeft(Step(c4, events[4]), events);
    StepThenRun(c4, events, 4);
    StepThenRun(FlakyConn(3, FlakyOut(3), FlakyRx(RxWaitData, 1, true, false), []), events, 3);
    StepThenRun(FlakyConn(3, FlakyOut(3), FlakyRx(RxWaitData, 0, false, false), []), events, 2);
    StepThenRun(Step(c, events[0]), events, 1);
    StepThenRun(c, events, 0);
    assert events[0..] == events;
  }

  lemma NothingLeft(c: Conn, events: seq<Event>)
    ensures Possible(c, events[|events|..]) && After(c, events[|events|..]) == c
  {
  }
}
