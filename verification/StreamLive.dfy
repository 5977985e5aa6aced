/**
 * Between two sessions every file can be transferred: a run in which the sender reports success, with the
 * receiving session undisturbed or failed by its own send.
 */
module StreamLive {
  import opened Bytes
  import FC = FillpCore
  import opened FillpLink
  import opened FillpNet
  import FT = FillpTheorems
  import FP = FillpProgress
  import opened Vtp
  import SF = StreamFile
  import opened StreamStory
  import opened StreamRun
  import opened StreamBoth

  /** End A's session sends or has succeeded, and end B's session has queued nothing. */
  ghost predicate Going(g: Gcm, s: Both) {
    && BothInv(g, s) && !s.a.lost && s.b.story.frames == [] && s.b.tx.state in {SF.TxActive, SF.TxFailed}
    && s.a.tx.state == (if s.sys.a.completions == 0 then SF.TxActive else SF.TxDone)
  }

  predicate Open(sys: Sys) {
    sys.a.peer.state == FC.Established && sys.b.peer.state == FC.Established
  }

  /** A fill environment without errors. */
  function Quiet(read: int): SF.FillEnv {
    SF.FillEnv(Zeros(NONCE_LEN), 0, true, read)
  }

  // ---------------------------------------------------------------- one step

  /** End A hears nothing while end B has queued nothing. */
  lemma Silent(g: Gcm, d: Duo)
    requires DuoInv(g, d) && d.story.frames == []
    ensures d.sys.b.peer.rx.delivered == []
  {
    hide Follows, StoryOk, NetOk, CallbackOk;
    assert Wires(g, d.story.frames) == [];
    StreamsOf(d.sys);
    FT.LinkFaithful(d.sys.a, d.sys.b);
  }

  lemma CompletionsGrow(sys: Sys, m: Move)
    requires SysOk(sys)
    ensures Next(sys, m).a.completions >= sys.a.completions
  {
    hide FC.Tick, FC.Handle, Emit, EndOk;
  }

  /** End B completes nothing without a tick. */
  lemma OnlyTicksComplete(g: Gcm, d: Duo, s: Step)
    requires GcmOk(g) && DuoInv(g, d) && Allowed(g, d, s) && !CallsFill(d, s.move) && !(s.move.byA && s.move.act.Tock?)
    ensures SysOk(d.sys)
    ensures var t := Next2(g, d, s); t.tx == d.tx && t.story == d.story && t.lost == d.lost
  {
    hide Inv, Follows, StoryOk, Next, Receiver;
    AFacts(d, s.move);
  }

  /** A step in which only end A ticks and its fill does not fail. */
  lemma GoingStep(g: Gcm, s: Both, step: BothStep)
    requires GcmOk(g) && Going(g, s) && Permitted(g, s, step) && step.io
    requires step.move.act.Receive? || (step.move.byA && step.move.act.Tock?)
    requires var e := Sender(g, There(s), StepThere(step)); e.tx.state == s.a.tx.state && !e.lost
    ensures SysOk(s.sys)
    ensures var e := Sender(g, There(s), StepThere(step)); var t := NextBoth(g, s, step);
            && Going(g, t) && t.sys == Next(s.sys, step.move)
            && t.a.tx == e.tx.(state := t.a.tx.state) && t.b.upset == s.b.upset
  {
    hide DuoInv, Sender, Receiver, Next, Allowed, Deliver, SF.FillOnce, Upright;
    BothOk(g, s);
    BothKeeps(g, s, step);
    OnlyTicksComplete(g, Back(s), StepBack(step));
    CompletionsGrow(s.sys, step.move);
    var t := NextBoth(g, s, step);
    Silent(g, Back(s));
    Silent(g, Back(t));
  }

  // ---------------------------------------------------------------- steps that ask for nothing

  /** What such a step leaves as it was. */
  ghost predicate Steady(g: Gcm, s: Both, t: Both) {
    && Going(g, t) && t.a.tx == s.a.tx.(state := t.a.tx.state) && t.b.upset == s.b.upset
    && t.sys.a.peer.tx.fillDone == s.sys.a.peer.tx.fillDone
  }

  lemma PlainStep(g: Gcm, s: Both, m: Move)
    requires GcmOk(g) && Going(g, s) && CanMove(s.sys, m) && FP.Plain(m)
    requires m.act.Tock? ==> !FC.WantsFill(s.sys.a.peer)
    ensures SysOk(s.sys) && Permitted(g, s, BothStep(m, Quiet(0), true))
    ensures var t := NextBoth(g, s, BothStep(m, Quiet(0), true)); Steady(g, s, t) && t.sys == Next(s.sys, m)
  {
    hide DuoInv, Next, SF.FillOnce, Upright;
    var step := BothStep(m, Quiet(0), true);
    BothOk(g, s);
    TurnedNext(s.sys, m);
    hide CanMove;
    GoingStep(g, s, step);
    AFactsOf(g, There(s), m);
  }

  lemma AFactsOf(g: Gcm, d: Duo, m: Move)
    requires DuoInv(g, d) && CanMove(d.sys, m) && !(m.byA && m.act.AppSend?)
    ensures SysOk(d.sys)
    ensures Next(d.sys, m).a.peer.tx.fillDone == (d.sys.a.peer.tx.fillDone || (CallsFill(d, m) && m.act.fill.last))
  {
    hide Inv, Follows, StoryOk, Next;
    AFacts(d, m);
  }

  function AsSteps(moves: seq<Move>): seq<BothStep> {
    seq(|moves|, i requires 0 <= i < |moves| => BothStep(moves[i], Quiet(0), true))
  }

  /** The first tick does not ask, or no tick does because the last fill has been. */
  predicate NoneAsks(p: FC.Peer, moves: seq<Move>) {
    p.tx.fillDone || ((forall i | 1 <= i < |moves| :: moves[i].act.Receive?)
                      && (moves != [] && moves[0].act.Tock? ==> !FC.WantsFill(p)))
  }

  /** A run of fillp that asks for nothing is a run of the sessions. */
  lemma {:induction false} PlainRun(g: Gcm, s: Both, moves: seq<Move>)
    requires GcmOk(g) && Going(g, s) && IsRun(s.sys, moves) && NoneAsks(s.sys.a.peer, moves)
    requires forall i | 0 <= i < |moves| :: FP.Plain(moves[i])
    ensures IsBothRun(g, s, AsSteps(moves))
    ensures var t := AfterBoth(g, s, AsSteps(moves)); Steady(g, s, t) && t.sys == After(s.sys, moves)
    decreases |moves|
  {
    hide Going, NextBoth, Next, CanMove, Permitted, FP.Plain;
    if moves != [] {
      PlainStep(g, s, moves[0]);
      var t := NextBoth(g, s, AsSteps(moves)[0]);
      assert AsSteps(moves)[1..] == AsSteps(moves[1..]);
      PlainRun(g, t, moves[1..]);
    }
  }

  // ---------------------------------------------------------------- fills

  lemma {:induction false} BothRunAppend(g: Gcm, s: Both, first: seq<BothStep>, second: seq<BothStep>)
    requires GcmOk(g) && IsBothRun(g, s, first) && IsBothRun(g, AfterBoth(g, s, first), second)
    ensures IsBothRun(g, s, first + second)
    ensures AfterBoth(g, s, first + second) == AfterBoth(g, AfterBoth(g, s, first), second)
    decreases |first|
  {
    hide NextBoth, SysOk, Permitted;
    if first == [] {
      assert first + second == second;
    } else {
      BothRunAppend(g, NextBoth(g, s, first[0]), first[1..], second);
      assert (first + second)[1..] == first[1..] + second;
    }
  }

  lemma OneStep(g: Gcm, s: Both, step: BothStep)
    requires GcmOk(g) && SysOk(s.sys) && Permitted(g, s, step)
    ensures IsBothRun(g, s, [step]) && AfterBoth(g, s, [step]) == NextBoth(g, s, step)
  {
    hide NextBoth, SysOk, Permitted;
    assert [step][1..] == [];
  }

  /** A tick of an end that asks for bytes. */
  lemma AskTock(me: End, you: End, fill: FC.Fill)
    requires EndOk(me) && me.peer.state == FC.Established && FC.WantsFill(me.peer)
    ensures var r := TockAct(fill, FP.DUE, 0, me, you);
            && r.0.peer.state == FC.Established && r.0.peer.tx.fillDone == fill.last && r.1 == you
            && r.0.peer.rx.delivered == me.peer.rx.delivered
  {
    TockFacts(fill, FP.DUE, 0, me, you);
    PumpFacts(me.peer, fill, FP.DUE);
    hide FC.PumpTx, FC.PeerOk;
  }

  /** The tick in which end A's session is asked, with what it answers. */
  function AskOf(g: Gcm, tx: SF.SfTx, env: SF.FillEnv): BothStep
    requires SF.EnvOk(tx, env) && |tx.file| < 0x1_0000_0000_0000_0000
  {
    var f := SF.FillOnce(g, tx, env);
    BothStep(Move(true, Tock(FC.Fill(f.bytes, f.last), FP.DUE, 0)), env, true)
  }

  lemma FileFits(g: Gcm, s: Both)
    requires BothInv(g, s)
    ensures |s.a.tx.file| < 0x1_0000_0000_0000_0000 && s.a.tx.offset <= |s.a.tx.file|
  {
    hide Inv, Follows, NameOk;
  }

  /** A fill that works. */
  lemma AskStep(g: Gcm, s: Both, env: SF.FillEnv)
    requires GcmOk(g) && Going(g, s) && Open(s.sys) && FC.WantsFill(s.sys.a.peer) && s.a.tx.state == SF.TxActive
    requires SF.EnvOk(s.a.tx, env) && env.sealed && (s.a.tx.metaSent ==> env.read >= 0)
    requires |s.a.tx.file| < 0x1_0000_0000_0000_0000
    ensures SysOk(s.sys) && Permitted(g, s, AskOf(g, s.a.tx, env))
    ensures var f := SF.FillOnce(g, s.a.tx, env); var t := NextBoth(g, s, AskOf(g, s.a.tx, env));
            && Going(g, t) && Open(t.sys) && t.a.tx == f.tx.(state := t.a.tx.state) && t.b.upset == s.b.upset
            && t.sys.a.peer.tx.fillDone == f.last
  {
    hide DuoInv, Upright, SF.Frame, SF.Payload, TockAct;
    var step := AskOf(g, s.a.tx, env);
    BothOk(g, s);
    AskTock(s.sys.a, s.sys.b, step.move.act.fill);
    GoingStep(g, s, step);
  }

  // ---------------------------------------------------------------- the whole file

  /** What the callback reads next. */
  function NextEnv(tx: SF.SfTx): SF.FillEnv
    requires tx.offset <= |tx.file|
  {
    Quiet(if !tx.metaSent then -1 else if |tx.file| - tx.offset <= SF.CHUNK then |tx.file| - tx.offset else SF.CHUNK)
  }

  lemma NextFill(g: Gcm, tx: SF.SfTx)
    requires tx.state == SF.TxActive && tx.offset <= |tx.file| < 0x1_0000_0000_0000_0000
    ensures SF.EnvOk(tx, NextEnv(tx))
    ensures var f := SF.FillOnce(g, tx, NextEnv(tx));
            && f.tx.state == SF.TxActive && f.tx.file == tx.file
            && (f.last || Unread(f.tx) < Unread(tx))
  {
    hide SF.Frame, SF.Payload;
  }

  /** Metadata and bytes the callback has yet to queue. */
  function Unread(tx: SF.SfTx): nat {
    (if tx.metaSent then 0 else 1) + (if tx.offset <= |tx.file| then |tx.file| - tx.offset else 0)
  }

  ghost function Unacked(d: Dir): nat {
    if d.released <= |d.pkts| && FP.Unacked(d) >= 0 then FP.Unacked(d) else 0
  }

  lemma InvOf(g: Gcm, s: Both)
    requires Going(g, s)
    ensures Inv(s.sys) && (!s.sys.a.peer.tx.fillDone ==> s.a.tx.state == SF.TxActive)
    ensures s.sys.a.completions == (if s.sys.a.peer.tx.notified then 1 else 0)
  {
    hide Follows, StoryOk, Link, NetOk;
  }

  /** A full queue is worked off by one round of fillp. */
  lemma QueueRound(g: Gcm, s: Both) returns (steps: seq<BothStep>)
    requires GcmOk(g) && Going(g, s) && Open(s.sys) && !FC.WantsFill(s.sys.a.peer) && !s.sys.a.peer.tx.fillDone
    ensures IsBothRun(g, s, steps)
    ensures var t := AfterBoth(g, s, steps);
            Steady(g, s, t) && Open(t.sys) && Unacked(t.sys.a.dir) < Unacked(s.sys.a.dir)
  {
    hide Going, IsRun, After, IsBothRun, AfterBoth, Steady, Inv, FP.Plain;
    InvOf(g, s);
    var moves, t := FP.Round(s.sys);
    FP.ReceivesArePlain(moves[1]);
    FP.ReceivesArePlain(moves[2]);
    PlainRun(g, s, moves);
    steps := AsSteps(moves);
    Released(s.sys);
    Released(t);
  }

  lemma Released(s: Sys)
    requires Inv(s)
    ensures s.a.dir.released <= |s.a.dir.pkts|
  {
    hide NetOk, CallbackOk, TxRel, RxRel;
  }

  lemma {:induction false} QueueAll(g: Gcm, s: Both) returns (steps: seq<BothStep>)
    requires GcmOk(g) && Going(g, s) && Open(s.sys) && !s.sys.a.peer.tx.fillDone
    ensures IsBothRun(g, s, steps)
    ensures var t := AfterBoth(g, s, steps);
            Going(g, t) && Open(t.sys) && t.sys.a.peer.tx.fillDone && t.b.upset == s.b.upset
    decreases Unread(s.a.tx), Unacked(s.sys.a.dir)
  {
    hide Inv, BothInv, IsBothRun, AfterBoth, NextBoth, SF.FillOnce, NextEnv, SF.EnvOk, Unacked;
    InvOf(g, s);
    if !FC.WantsFill(s.sys.a.peer) {
      var first := QueueRound(g, s);
      var t := AfterBoth(g, s, first);
      var more := QueueAll(g, t);
      BothRunAppend(g, s, first, more);
      steps := first + more;
    } else {
      GoingInv(g, s);
      FileFits(g, s);
      NextFill(g, s.a.tx);
      EnvIsQuiet(s.a.tx);
      var step := AskOf(g, s.a.tx, NextEnv(s.a.tx));
      AskStep(g, s, NextEnv(s.a.tx));
      OneStep(g, s, step);
      var t := NextBoth(g, s, step);
      steps := [step];
      if !t.sys.a.peer.tx.fillDone {
        var more := QueueAll(g, t);
        BothRunAppend(g, s, [step], more);
        steps := [step] + more;
      }
    }
  }

  lemma GoingInv(g: Gcm, s: Both)
    requires Going(g, s)
    ensures BothInv(g, s)
  {
  }

  lemma EnvIsQuiet(tx: SF.SfTx)
    requires tx.offset <= |tx.file|
    ensures NextEnv(tx).sealed && (tx.metaSent ==> NextEnv(tx).read >= 0)
  {
  }

  lemma LastTock(me: End, you: End)
    requires EndOk(me) && me.peer.state == FC.Established && me.peer.tx.fillDone
    requires me.peer.tx.inflight == [] && me.peer.tx.txq == []
    requires me.completions == (if me.peer.tx.notified then 1 else 0)
    ensures TockAct(FP.NO_FILL, FP.DUE, 0, me, you).0.completions > 0
  {
    assert FC.FillStep(me.peer, FP.NO_FILL) == me.peer;
    assert FC.Packetize(me.peer.tx, FC.SEND_BUDGET) == me.peer.tx;
    hide FC.TxOk, FC.RxOk, FC.MaybePack, Emit;
  }

  /** Everything queued: deliver it, and tick once more. */
  lemma {:induction false} Settle(g: Gcm, s: Both) returns (steps: seq<BothStep>)
    requires GcmOk(g) && Going(g, s) && Open(s.sys) && s.sys.a.peer.tx.fillDone
    ensures IsBothRun(g, s, steps)
    ensures var t := AfterBoth(g, s, steps);
            Going(g, t) && t.a.tx.state == SF.TxDone && t.b.upset == s.b.upset
  {
    hide IsRun, After, IsBothRun, AfterBoth, NextBoth, Inv, BothInv, FP.Plain, TockAct, EndOk;
    InvOf(g, s);
    var moves := FP.Drain(s.sys);
    PlainRun(g, s, moves);
    var t := AfterBoth(g, s, AsSteps(moves));
    InvOf(g, t);
    GoingInv(g, t);
    BothOk(g, t);
    var m := Move(true, Tock(FP.NO_FILL, FP.DUE, 0));
    TickIsPlain(m);
    PlainStep(g, t, m);
    LastTock(t.sys.a, t.sys.b);
    TockIsAct(m.act, t.sys.a, t.sys.b);
    OneStep(g, t, BothStep(m, Quiet(0), true));
    BothRunAppend(g, s, AsSteps(moves), [BothStep(m, Quiet(0), true)]);
    steps := AsSteps(moves) + [BothStep(m, Quiet(0), true)];
  }

  lemma TickIsPlain(m: Move)
    requires m == Move(true, Tock(FP.NO_FILL, FP.DUE, 0))
    ensures FP.Plain(m)
  {
  }

  // ---------------------------------------------------------------- from the start

  lemma EstablishStep(g: Gcm, s: Both, byA: bool)
    requires GcmOk(g) && SysOk(s.sys) && BothInv(g, s)
    requires (if byA then s.sys.a else s.sys.b).peer.state == FC.Pending
    ensures var step := BothStep(Move(byA, Establish), Quiet(0), true);
            && Permitted(g, s, step)
            && var t := NextBoth(g, s, step);
               && t.a == s.a && t.b == s.b
               && t.sys == if byA then s.sys.(a := s.sys.a.(peer := s.sys.a.peer.(state := FC.Established)))
                           else s.sys.(b := s.sys.b.(peer := s.sys.b.peer.(state := FC.Established)))
  {
    hide BothInv, EndOk;
  }

  /** The session of end B cannot seal its metadata. */
  lemma FailStep(g: Gcm, s: Both)
    requires GcmOk(g) && BothInv(g, s) && Open(s.sys) && FC.WantsFill(s.sys.b.peer)
    requires s.b.tx.state == SF.TxActive && !s.b.tx.metaSent && s.b.rx == SF.FRESH_RX && !s.b.upset
    ensures SysOk(s.sys)
    ensures var env := SF.FillEnv(Zeros(NONCE_LEN), 0, false, -1);
            var step := BothStep(Move(false, Tock(FP.NO_FILL, FP.DUE, 0)), env, true);
            && Permitted(g, s, step)
            && var t := NextBoth(g, s, step);
               && BothInv(g, t) && Open(t.sys) && t.sys.a == s.sys.a && t.a == s.a
               && t.b.upset && t.b.story == s.b.story && t.b.tx.state == SF.TxFailed
  {
    hide DuoInv, Upright, TockAct;
    BothOk(g, s);
    FileFitsBack(g, s);
    var env := SF.FillEnv(Zeros(NONCE_LEN), 0, false, -1);
    var step := BothStep(Move(false, Tock(FP.NO_FILL, FP.DUE, 0)), env, true);
    AskTock(s.sys.b, s.sys.a, FP.NO_FILL);
    var f := SF.FillOnce(g, s.b.tx, env);
    assert f == SF.Filled(SF.FailTx(s.b.tx), [], false);
    BothKeeps(g, s, step);
  }

  lemma FileFitsBack(g: Gcm, s: Both)
    requires BothInv(g, s)
    ensures |s.b.tx.file| < 0x1_0000_0000_0000_0000 && s.b.tx.offset <= |s.b.tx.file|
  {
    hide Inv, Follows, NameOk;
  }

  /** Established, with the receiving session undisturbed or failed by its own first fill. */
  lemma Opening(g: Gcm, s: Both, upset: bool) returns (steps: seq<BothStep>)
    requires GcmOk(g) && BothInv(g, s) && s.sys == START && s.b.rx == SF.FRESH_RX && !s.b.upset && !s.a.lost
    requires s.a.tx.state == SF.TxActive && s.b.tx.state == SF.TxActive && !s.b.tx.metaSent && s.b.story.frames == []
    ensures IsBothRun(g, s, steps)
    ensures var t := AfterBoth(g, s, steps);
            Going(g, t) && Open(t.sys) && !t.sys.a.peer.tx.fillDone && t.b.upset == upset
  {
    hide BothInv, IsBothRun, AfterBoth, NextBoth, Permitted, EndOk;
    var s1 := BothStep(Move(true, Establish), Quiet(0), true);
    var s2 := BothStep(Move(false, Establish), Quiet(0), true);
    BothOk(g, s);
    EstablishStep(g, s, true);
    BothKeeps(g, s, s1);
    var t1 := NextBoth(g, s, s1);
    OneStep(g, s, s1);
    BothOk(g, t1);
    EstablishStep(g, t1, false);
    BothKeeps(g, t1, s2);
    var t2 := NextBoth(g, t1, s2);
    OneStep(g, t1, s2);
    BothRunAppend(g, s, [s1], [s2]);
    steps := [s1] + [s2];
    if upset {
      FailStep(g, t2);
      var s3 := BothStep(Move(false, Tock(FP.NO_FILL, FP.DUE, 0)), SF.FillEnv(Zeros(NONCE_LEN), 0, false, -1), true);
      BothOk(g, t2);
      OneStep(g, t2, s3);
      BothRunAppend(g, s, [s1] + [s2], [s3]);
      steps := [s1] + [s2] + [s3];
    }
  }

  /**
   * For every file there is a run in which the sender reports success and the other end holds exactly that
   * file, unless it is empty; and one in which the sender reports success although the other session has
   * failed, by its own send, and holds nothing it would call received.
   */
  lemma {:induction false} EveryFileTransfers(g: Gcm, fileA: seq<byte>, nameA: seq<byte>, fileB: seq<byte>,
                                              nameB: seq<byte>, upset: bool) returns (steps: seq<BothStep>)
    requires GcmOk(g) && NameOk(nameA) && NameOk(nameB)
    requires |fileA| < 0x1_0000_0000_0000_0000 && |fileB| < 0x1_0000_0000_0000_0000
    ensures IsBothRun(g, StartBoth(fileA, nameA, fileB, nameB), steps)
    ensures var s := AfterBoth(g, StartBoth(fileA, nameA, fileB, nameB), steps);
            && s.a.tx.state == SF.TxDone && !s.a.lost && s.b.upset == upset
            && (s.b.rx.state == SF.RxDone && s.b.rx.written == fileA && s.b.rx.name == nameA
                <==> fileA != [] && !upset)
  {
    hide BothInv, IsBothRun, AfterBoth, NameOk;
    var start := StartBoth(fileA, nameA, fileB, nameB);
    StartBothInv(g, fileA, nameA, fileB, nameB);
    var first := Opening(g, start, upset);
    var t1 := AfterBoth(g, start, first);
    var all := QueueAll(g, t1);
    BothRunAppend(g, start, first, all);
    var t2 := AfterBoth(g, t1, all);
    var last := Settle(g, t2);
    BothRunAppend(g, start, first + all, last);
    steps := first + all + last;
    SessionsEndToEnd(g, fileA, nameA, fileB, nameB, steps);
  }
}
