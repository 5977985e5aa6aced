/**
 * End to end with a full session at each end: both send a file and receive one, and within a session a
 * failure of either half fails the other (`sf_fail`).
 */
module StreamBoth {
  import opened Bytes
  import opened FillpNet
  import opened Vtp
  import SF = StreamFile
  import SS = StreamSession
  import opened StreamStory
  import opened StreamRun

  /**
   * `calm` is what the receive half would be had nothing local failed it, and `upset` says that something
   * has: the session's own send failed before the receive half was finished, or the disk did.
   */
  datatype Side = Side(tx: SF.SfTx, rx: SF.SfRx, calm: SF.SfRx, story: Story, lost: bool, upset: bool)

  datatype Both = Both(sys: Sys, a: Side, b: Side)

  /** A fillp move, the acting end's environment of a fill, and whether its disk works. */
  datatype BothStep = BothStep(move: Move, env: SF.FillEnv, io: bool)

  function Begin(file: seq<byte>, name: seq<byte>): Side {
    Side(SF.SfTx(SF.TxActive, file, name, 0, false), SF.FRESH_RX, SF.FRESH_RX, Story(file, name, []), false, false)
  }

  function StartBoth(fileA: seq<byte>, nameA: seq<byte>, fileB: seq<byte>, nameB: seq<byte>): Both {
    Both(START, Begin(fileA, nameA), Begin(fileB, nameB))
  }

  function Turned(sys: Sys): Sys {
    Sys(sys.b, sys.a)
  }

  function TurnMove(m: Move): Move {
    m.(byA := !m.byA)
  }

  /** One direction of the two, seen by itself. */
  function Along(sys: Sys, snd: Side, rcv: Side): Duo {
    Duo(sys, snd.tx, rcv.calm, snd.story, snd.lost)
  }

  function There(s: Both): Duo {
    Along(s.sys, s.a, s.b)
  }

  function Back(s: Both): Duo {
    Along(Turned(s.sys), s.b, s.a)
  }

  function StepThere(step: BothStep): Step {
    Step(step.move, step.env)
  }

  function StepBack(step: BothStep): Step {
    Step(TurnMove(step.move), step.env)
  }

  predicate Permitted(g: Gcm, s: Both, step: BothStep) {
    Allowed(g, There(s), StepThere(step)) && Allowed(g, Back(s), StepBack(step))
  }

  function Deliver(g: Gcm, rx: SF.SfRx, before: seq<byte>, after: seq<byte>, io: bool): SF.SfRx
    requires GcmOk(g)
  {
    if |before| < |after| then SF.OnData(g, rx, after[|before|..], io) else rx
  }

  predicate Refused(g: Gcm, rx: SF.SfRx, before: seq<byte>, after: seq<byte>, io: bool)
    requires GcmOk(g)
  {
    |before| < |after| && SS.Refuses(g, rx.(buf := rx.buf + after[|before|..]), io)
  }

  /** One session after a move: its send half from `d`, then what a failure of one half does to the other. */
  function SideNext(g: Gcm, side: Side, d: Duo, calm: SF.SfRx, before: seq<byte>, after: seq<byte>, io: bool): Side
    requires GcmOk(g)
  {
    var rx := Deliver(g, side.rx, before, after, io);
    var refused := Refused(g, side.rx, before, after, io);
    var failed := side.tx.state == SF.TxActive && d.tx.state == SF.TxFailed;
    Side(if refused then SF.FailTx(d.tx) else d.tx,
         if failed then SF.FailRx(rx) else rx,
         calm, d.story, d.lost,
         side.upset || (refused && !io) || (failed && !SF.Finished(rx)))
  }

  function NextBoth(g: Gcm, s: Both, step: BothStep): Both
    requires GcmOk(g) && SysOk(s.sys) && Permitted(g, s, step)
  {
    var out := Next2(g, There(s), StepThere(step));
    var back := Next2(g, Back(s), StepBack(step));
    Both(out.sys,
         SideNext(g, s.a, out, back.rx, s.sys.a.peer.rx.delivered, out.sys.a.peer.rx.delivered, step.io),
         SideNext(g, s.b, back, out.rx, s.sys.b.peer.rx.delivered, out.sys.b.peer.rx.delivered, step.io))
  }

  // ---------------------------------------------------------------- the invariant

  /** The real receive half and the undisturbed one. */
  ghost predicate Upright(side: Side, file: seq<byte>) {
    && (!side.upset ==> side.rx == side.calm)
    && (side.upset ==> side.rx.state == SF.RxFailed && side.rx.written <= file)
  }

  ghost predicate BothInv(g: Gcm, s: Both) {
    && DuoInv(g, There(s)) && DuoInv(g, Back(s))
    && Upright(s.a, s.b.tx.file) && Upright(s.b, s.a.tx.file)
  }

  lemma StartBothInv(g: Gcm, fileA: seq<byte>, nameA: seq<byte>, fileB: seq<byte>, nameB: seq<byte>)
    requires NameOk(nameA) && |fileA| < 0x1_0000_0000_0000_0000
    requires NameOk(nameB) && |fileB| < 0x1_0000_0000_0000_0000
    ensures BothInv(g, StartBoth(fileA, nameA, fileB, nameB))
  {
    hide DuoInv, NameOk;
    StartDuoInv(g, fileA, nameA);
    StartDuoInv(g, fileB, nameB);
    assert There(StartBoth(fileA, nameA, fileB, nameB)) == Start(fileA, nameA);
    assert Back(StartBoth(fileA, nameA, fileB, nameB)) == Start(fileB, nameB);
  }

  lemma TurnedNext(sys: Sys, m: Move)
    requires SysOk(sys) && CanMove(sys, m)
    ensures SysOk(Turned(sys)) && CanMove(Turned(sys), TurnMove(m))
    ensures Next(Turned(sys), TurnMove(m)) == Turned(Next(sys, m))
  {
    hide Act, Enabled, EndOk;
  }

  /** Failing the send half breaks nothing. */
  lemma FailedKeeps(g: Gcm, d: Duo)
    requires DuoInv(g, d)
    ensures DuoInv(g, d.(tx := SF.FailTx(d.tx)))
  {
    hide Inv, StoryOk, Follows, Flat, Wires;
  }

  // ---------------------------------------------------------------- a failing disk

  /** A frame taken although the disk fails did not touch it; a frame refused leaves the file as it was. */
  lemma DiskOfFrame(g: Gcm, rx: SF.SfRx, frame: seq<byte>)
    requires GcmOk(g)
    ensures var s := SF.ProcessFrame(g, rx, frame, false);
            && s.rx.written == rx.written && s.rx.hasDir == rx.hasDir
            && (s.cont ==> s == SF.ProcessFrame(g, rx, frame, true))
  {
    hide Parse, SF.GoodName, SF.CStr;
    assert forall out: seq<byte> | out == [] :: rx.written + out == rx.written;
  }

  /** So a delivery either ends as it would have with a working disk, or in failure with the file as it was. */
  lemma {:induction false} DiskOfDrain(g: Gcm, rx: SF.SfRx)
    requires GcmOk(g) && rx.hasDir
    ensures var d := SF.Drain(g, rx, false);
            && d.written == rx.written
            && (if SS.Refuses(g, rx, false) then d.state == SF.RxFailed else d == SF.Drain(g, rx, true))
    decreases |rx.buf|
  {
    hide SF.ProcessFrame, GetU32;
    if !SF.Finished(rx) && SF.FrameReady(rx.buf) {
      var total := 4 + GetU32(rx.buf, 0);
      if total <= |rx.buf| {
        var frame := rx.buf[..total];
        DiskOfFrame(g, rx, frame);
        var s := SF.ProcessFrame(g, rx, frame, false);
        if s.cont {
          DiskOfDrain(g, s.rx.(buf := rx.buf[total..]));
        } else {
          SF.RefusalIsFinal(g, rx, frame, false);
        }
      }
    }
  }

  lemma SideKeeps(g: Gcm, side: Side, d: Duo, before: seq<byte>, after: seq<byte>, io: bool, file: seq<byte>)
    requires GcmOk(g) && Upright(side, file) && side.calm.hasDir && side.calm.written <= file
    requires Receiver(g, side.calm, before, after).written <= file
    requires Receiver(g, side.calm, before, after).hasDir
    ensures Upright(SideNext(g, side, d, Receiver(g, side.calm, before, after), before, after, io), file)
  {
    hide SF.Drain, SS.Refuses;
    if |before| < |after| {
      var rx := side.rx.(buf := side.rx.buf + after[|before|..]);
      if side.upset {
        NoMore(g, rx, io);
      } else if !io {
        DiskOfDrain(g, rx);
      }
    }
  }

  lemma NoMore(g: Gcm, rx: SF.SfRx, io: bool)
    requires GcmOk(g) && rx.state == SF.RxFailed
    ensures SF.Drain(g, rx, io) == rx
  {
  }

  // ---------------------------------------------------------------- runs

  /** What the invariant of one direction says of its receiver. */
  lemma CalmFacts(g: Gcm, d: Duo)
    requires DuoInv(g, d)
    ensures d.rx.hasDir && d.rx.written <= d.tx.file
  {
    WrittenIsPrefix(g, d.story, d.rx, d.sys.b.peer.rx.delivered);
    hide Inv, StoryOk, At, Flat, Wires;
  }

  lemma {:induction false} BothKeeps(g: Gcm, s: Both, step: BothStep)
    requires GcmOk(g) && BothInv(g, s) && SysOk(s.sys) && Permitted(g, s, step)
    ensures BothInv(g, NextBoth(g, s, step))
    ensures var t := NextBoth(g, s, step);
            && t.a.tx.file == s.a.tx.file && t.a.tx.name == s.a.tx.name
            && t.b.tx.file == s.b.tx.file && t.b.tx.name == s.b.tx.name
  {
    hide DuoInv, Sender, Receiver, Next, CallsFill, Allowed, Deliver, Refused, SF.FillOnce;
    MoveOf(g, s, step);
    TurnedNext(s.sys, step.move);
    DuoKeeps(g, There(s), StepThere(step));
    DuoKeeps(g, Back(s), StepBack(step));
    SameFile(g, There(s), StepThere(step));
    SameFile(g, Back(s), StepBack(step));
    var out := Next2(g, There(s), StepThere(step));
    var back := Next2(g, Back(s), StepBack(step));
    FailedKeeps(g, out);
    FailedKeeps(g, back);
    CalmFacts(g, There(s));
    CalmFacts(g, Back(s));
    CalmFacts(g, out);
    CalmFacts(g, back);
    var t := NextBoth(g, s, step);
    SideKeeps(g, s.a, out, s.sys.a.peer.rx.delivered, t.sys.a.peer.rx.delivered, step.io, s.b.tx.file);
    SideKeeps(g, s.b, back, s.sys.b.peer.rx.delivered, t.sys.b.peer.rx.delivered, step.io, s.a.tx.file);
    assert There(t) == out || There(t) == out.(tx := SF.FailTx(out.tx));
    assert Back(t) == back || Back(t) == back.(tx := SF.FailTx(back.tx));
  }

  lemma MoveOf(g: Gcm, s: Both, step: BothStep)
    requires Permitted(g, s, step)
    ensures CanMove(s.sys, step.move)
  {
  }

  lemma BothOk(g: Gcm, s: Both)
    requires BothInv(g, s)
    ensures SysOk(s.sys)
  {
    hide Follows, StoryOk, Link, NetOk, CallbackOk;
    InvSys(s.sys);
  }

  ghost predicate IsBothRun(g: Gcm, s: Both, steps: seq<BothStep>)
    requires GcmOk(g)
    decreases |steps|
  {
    steps == [] || (SysOk(s.sys) && Permitted(g, s, steps[0]) && IsBothRun(g, NextBoth(g, s, steps[0]), steps[1..]))
  }

  function AfterBoth(g: Gcm, s: Both, steps: seq<BothStep>): Both
    requires GcmOk(g) && IsBothRun(g, s, steps)
    decreases |steps|
  {
    if steps == [] then s else AfterBoth(g, NextBoth(g, s, steps[0]), steps[1..])
  }

  lemma {:induction false} BothRunKeeps(g: Gcm, s: Both, steps: seq<BothStep>)
    requires GcmOk(g) && BothInv(g, s) && IsBothRun(g, s, steps)
    ensures BothInv(g, AfterBoth(g, s, steps))
    ensures var t := AfterBoth(g, s, steps);
            && t.a.tx.file == s.a.tx.file && t.a.tx.name == s.a.tx.name
            && t.b.tx.file == s.b.tx.file && t.b.tx.name == s.b.tx.name
    decreases |steps|
  {
    hide BothInv, NextBoth, Permitted, SysOk;
    if steps != [] {
      BothKeeps(g, s, steps[0]);
      BothRunKeeps(g, NextBoth(g, s, steps[0]), steps[1..]);
    }
  }

  /** What the receiver holds of the sender's file, and what the sender's report says about it. */
  ghost predicate Outcome(snd: Side, rcv: Side, file: seq<byte>, name: seq<byte>) {
    && rcv.rx.written <= file
    && (snd.tx.state == SF.TxDone ==>
          (rcv.rx.state == SF.RxDone && rcv.rx.written == file && rcv.rx.name == name
           <==> !snd.lost && file != [] && !rcv.upset))
  }

  lemma OutcomeOf(g: Gcm, sys: Sys, snd: Side, rcv: Side)
    requires DuoInv(g, Along(sys, snd, rcv)) && Upright(rcv, snd.tx.file)
    ensures Outcome(snd, rcv, snd.tx.file, snd.tx.name)
  {
    hide DuoInv;
    CalmFacts(g, Along(sys, snd, rcv));
    if snd.tx.state == SF.TxDone {
      DoneMeans(g, Along(sys, snd, rcv));
    }
  }

  /**
   * Two full sessions over the lossy network, in every run and in both directions: the received file is a
   * prefix of the sent one at all times. When a sender reports success, the other end is done with exactly
   * that file under that name if and only if the file is not empty, the sender's fill callback was never
   * asked for a frame after its peer left ESTABLISHED, and nothing local failed the receiving session.
   */
  lemma {:induction false} SessionsEndToEnd(g: Gcm, fileA: seq<byte>, nameA: seq<byte>, fileB: seq<byte>,
                                            nameB: seq<byte>, steps: seq<BothStep>)
    requires GcmOk(g) && NameOk(nameA) && NameOk(nameB)
    requires |fileA| < 0x1_0000_0000_0000_0000 && |fileB| < 0x1_0000_0000_0000_0000
    requires IsBothRun(g, StartBoth(fileA, nameA, fileB, nameB), steps)
    ensures var s := AfterBoth(g, StartBoth(fileA, nameA, fileB, nameB), steps);
            Outcome(s.a, s.b, fileA, nameA) && Outcome(s.b, s.a, fileB, nameB)
  {
    hide IsBothRun, AfterBoth, DuoInv, NameOk, Outcome;
    StartBothInv(g, fileA, nameA, fileB, nameB);
    BothRunKeeps(g, StartBoth(fileA, nameA, fileB, nameB), steps);
    var s := AfterBoth(g, StartBoth(fileA, nameA, fileB, nameB), steps);
    OutcomeOf(g, s.sys, s.a, s.b);
    OutcomeOf(g, Turned(s.sys), s.b, s.a);
  }
}
