/**
 * End to end: a file sent by a StreamFile session on end A, over fillp and the network, to the session
 * on end B. End B may send whatever it likes the other way.
 */
module StreamRun {
  import opened Bytes
  import FillpFrame
  import FC = FillpCore
  import opened FillpLink
  import opened FillpNet
  import FT = FillpTheorems
  import opened Vtp
  import SF = StreamFile
  import opened StreamStory

  /** `story` records the frames the queue took; `lost` that a frame was offered when the queue took nothing. */
  datatype Duo = Duo(sys: Sys, tx: SF.SfTx, rx: SF.SfRx, story: Story, lost: bool)

  function Start(file: seq<byte>, name: seq<byte>): Duo {
    Duo(START, SF.SfTx(SF.TxActive, file, name, 0, false), SF.FRESH_RX, Story(file, name, []), false)
  }

  /** A fillp move, and what the environment does to the fill callback if the move calls it. */
  datatype Step = Step(move: Move, env: SF.FillEnv)

  predicate CallsFill(d: Duo, m: Move) {
    m.byA && m.act.Tock? && d.sys.a.peer.state in {FC.Established, FC.Closing} && FC.WantsFill(d.sys.a.peer)
  }

  /** End A queues only through its fill callback. */
  predicate Allowed(g: Gcm, d: Duo, s: Step) {
    && CanMove(d.sys, s.move) && !(s.move.byA && s.move.act.AppSend?)
    && (CallsFill(d, s.move) ==>
          && SF.EnvOk(d.tx, s.env) && |d.tx.file| < 0x1_0000_0000_0000_0000
          && var f := SF.FillOnce(g, d.tx, s.env); s.move.act.fill == FC.Fill(f.bytes, f.last))
  }

  /** The sender's session and what the queue took of it. */
  function Sender(g: Gcm, d: Duo, s: Step): Duo
    requires Allowed(g, d, s)
  {
    if !CallsFill(d, s.move) then d
    else
      var f := SF.FillOnce(g, d.tx, s.env);
      if f.bytes == [] then d.(tx := f.tx)
      else if d.sys.a.peer.state == FC.Established then
        d.(tx := f.tx, story := Told(d.story, Sent(s.env.nonce, s.env.stamp, SF.Payload(d.tx, s.env))))
      else
        d.(tx := f.tx, lost := true)
  }

  function Told(st: Story, s: Sent): Story {
    st.(frames := st.frames + [s])
  }

  /** The receiver's session gets what was newly delivered. */
  function Receiver(g: Gcm, rx: SF.SfRx, before: seq<byte>, after: seq<byte>): SF.SfRx
    requires GcmOk(g)
  {
    if |before| < |after| then SF.OnData(g, rx, after[|before|..], true) else rx
  }

  function Next2(g: Gcm, d: Duo, s: Step): Duo
    requires GcmOk(g) && SysOk(d.sys) && Allowed(g, d, s)
  {
    var e := Sender(g, d, s);
    var sys := Next(d.sys, s.move);
    Duo(sys,
        if sys.a.completions > d.sys.a.completions then SF.Completed(e.tx) else e.tx,
        Receiver(g, d.rx, d.sys.b.peer.rx.delivered, sys.b.peer.rx.delivered),
        e.story, e.lost)
  }

  // ---------------------------------------------------------------- the invariant

  ghost predicate Gone(e: End) {
    e.peer.state in {FC.Closing, FC.Closed}
  }

  /** How the frames the queue took relate to the session's progress through the file. */
  ghost predicate Progress(tx: SF.SfTx, st: Story, lost: bool) {
    && st.file == tx.file && st.name == tx.name && tx.offset <= |tx.file|
    && (!tx.metaSent ==> tx.offset == 0 && st.frames == [])
    && (!lost ==> (tx.metaSent ==> st.frames != []) && Sofar(st, |st.frames|) == tx.file[..tx.offset])
    && (lost ==> st.frames == [] || |Sofar(st, |st.frames|)| < |tx.file|)
  }

  /** What the tx-complete report can rely on. */
  ghost predicate Reports(tx: SF.SfTx, e: End) {
    && tx.state != SF.TxIdle
    && (e.peer.tx.fillDone && tx.state != SF.TxFailed ==> tx.metaSent && tx.offset == |tx.file|)
    && (tx.state == SF.TxDone ==> e.peer.tx.fillDone)
  }

  ghost predicate DuoInv(g: Gcm, d: Duo) {
    && Inv(d.sys) && StoryOk(d.story)
    && d.sys.a.dir.queued == Flat(Wires(g, d.story.frames))
    && Follows(g, d.story, d.rx, d.sys.b.peer.rx.delivered)
    && Progress(d.tx, d.story, d.lost) && (d.lost ==> Gone(d.sys.a))
    && Reports(d.tx, d.sys.a)
    && (d.tx.state == SF.TxDone ==> d.sys.b.peer.rx.delivered == d.sys.a.dir.queued)
  }

  lemma StartDuoInv(g: Gcm, file: seq<byte>, name: seq<byte>)
    requires NameOk(name) && |file| < 0x1_0000_0000_0000_0000
    ensures DuoInv(g, Start(file, name))
  {
    StartInv();
    var d := Start(file, name);
    assert At(g, d.story, [], 0, []);
    assert Received(d.story, 0).(buf := []) == SF.FRESH_RX;
    assert Follows(g, d.story, d.rx, []);
    hide Inv, NameOk;
  }

  // ---------------------------------------------------------------- one fill

  /** A fill keeps the story straight, whether the queue takes the frame or drops it. */
  lemma FillProgress(g: Gcm, d: Duo, s: Step)
    requires GcmOk(g) && Allowed(g, d, s) && CallsFill(d, s.move)
    requires StoryOk(d.story) && Progress(d.tx, d.story, d.lost) && (d.lost ==> Gone(d.sys.a))
    ensures var e := Sender(g, d, s);
            && StoryOk(e.story) && Progress(e.tx, e.story, e.lost) && (e.lost ==> Gone(d.sys.a))
  {
    var f := SF.FillOnce(g, d.tx, s.env);
    if f.bytes != [] {
      hide NameOk;
      if d.sys.a.peer.state == FC.Established {
        TellProgress(g, d.tx, d.story, s.env);
      } else {
        DropProgress(g, d.tx, d.story, d.lost, s.env);
      }
    }
  }

  lemma TellProgress(g: Gcm, tx: SF.SfTx, st: Story, env: SF.FillEnv)
    requires SF.EnvOk(tx, env) && StoryOk(st) && Progress(tx, st, false)
    requires SF.FillOnce(g, tx, env).bytes != []
    ensures var st' := Told(st, Sent(env.nonce, env.stamp, SF.Payload(tx, env)));
            StoryOk(st') && Progress(SF.FillOnce(g, tx, env).tx, st', false)
  {
    hide NameOk, SF.Frame;
    var st' := Told(st, Sent(env.nonce, env.stamp, SF.Payload(tx, env)));
    var n := |st.frames|;
    if !tx.metaSent {
      SofarOne(st');
      NameFits(st.name);
    } else {
      SofarStep(st', n);
      assert st'.frames[1..n] == st.frames[1..n];
      assert tx.file[..tx.offset + env.read] == tx.file[..tx.offset] + tx.file[tx.offset..tx.offset + env.read];
    }
  }

  lemma NameFits(name: seq<byte>)
    requires NameOk(name)
    ensures 10 + |name| <= SF.CHUNK
  {
  }

  lemma DropProgress(g: Gcm, tx: SF.SfTx, st: Story, lost: bool, env: SF.FillEnv)
    requires SF.EnvOk(tx, env) && StoryOk(st) && Progress(tx, st, lost)
    requires SF.FillOnce(g, tx, env).bytes != []
    ensures Progress(SF.FillOnce(g, tx, env).tx, st, true)
  {
    hide NameOk, SF.Frame;
  }

  // ---------------------------------------------------------------- what fillp moves do to the sender's end

  ghost predicate Live(e: End) {
    e.peer.state in {FC.Established, FC.Closing}
  }

  lemma PumpFacts(p: FC.Peer, fill: FC.Fill, clk: FC.Clock)
    requires FC.PeerOk(p)
    ensures var r := FC.Pump(p, fill, clk);
            && r.peer.tx.fillDone == (p.tx.fillDone || (FC.WantsFill(p) && fill.last))
            && (r.completed ==> r.peer.tx.fillDone) && r.peer.state == p.state
  {
    hide FC.Packetize, FC.TxOk, FC.RxOk, FC.MaybePack;
  }

  lemma TockFacts(fill: FC.Fill, clk: FC.Clock, salt: u64, me: End, you: End)
    requires EndOk(me)
    ensures var r := TockAct(fill, clk, salt, me, you).0;
            && r.dir.queued == me.dir.queued + (if Live(me) then Taken(me.peer, fill) else [])
            && r.peer.tx.fillDone == (me.peer.tx.fillDone || (Live(me) && FC.WantsFill(me.peer) && fill.last))
            && (r.completions > me.completions ==> r.peer.tx.fillDone)
            && (Gone(me) ==> Gone(r)) && TockAct(fill, clk, salt, me, you).1 == you
  {
    if Live(me) {
      PumpFacts(me.peer, fill, clk);
    }
    hide FC.Pump, FC.PeerOk, Taken, FC.WantsFill, FC.CloseDrained, Emit;
  }

  lemma OtherFacts(act: Action, me: End, you: End)
    requires EndOk(me) && !act.Tock? && !act.AppSend? && Enabled(act, me, you)
    ensures var r := Act(act, me, you).0;
            && r.dir.queued == me.dir.queued && r.peer.tx.fillDone == me.peer.tx.fillDone
            && r.completions == me.completions && (Gone(me) ==> Gone(r))
  {
    if act.Receive? {
      var m := FC.Handle(me.peer, FillpFrame.Decode(act.flight.bytes), act.clk);
      if FillpFrame.Decode(act.flight.bytes).Pack? {
        ReleaseFlags(me.peer.tx, FillpFrame.Decode(act.flight.bytes).ackPkt);
      }
      hide FillpFrame.Decode, FC.Release, FC.OnData, FC.Requested, FC.PeerOk, Emit;
      assert m.peer.tx.fillDone == me.peer.tx.fillDone;
    }
  }

  /** The other end's actions leave the sender's end alone but for what is known to have arrived. */
  lemma PeerFacts(act: Action, me: End, you: End)
    requires EndOk(me)
    ensures var r := Act(act, me, you).1;
            r.dir.queued == you.dir.queued && r.peer == you.peer && r.completions == you.completions
  {
    hide FillpFrame.Decode, FC.Handle, FC.Tick, Emit;
  }

  // ---------------------------------------------------------------- the invariant is kept

  /** What one move does to end A, given whether it called the fill callback. */
  lemma AFacts(d: Duo, m: Move)
    requires Inv(d.sys) && CanMove(d.sys, m) && !(m.byA && m.act.AppSend?)
    ensures SysOk(d.sys)
    ensures var a := Next(d.sys, m).a;
            var fill := if CallsFill(d, m) then m.act.fill else FC.Fill([], false);
            && a.dir.queued == d.sys.a.dir.queued + (if d.sys.a.peer.state == FC.Established then fill.bytes else [])
            && a.peer.tx.fillDone == (d.sys.a.peer.tx.fillDone || fill.last)
            && (a.completions > d.sys.a.completions ==> a.peer.tx.fillDone && m.byA && m.act.Tock?)
            && (Gone(d.sys.a) ==> Gone(a))
  {
    InvSys(d.sys);
    hide Inv, Act;
    assert d.sys.a.dir.queued + [] == d.sys.a.dir.queued;
    if !m.byA {
      PeerFacts(m.act, d.sys.b, d.sys.a);
    } else if m.act.Tock? {
      TockFacts(m.act.fill, m.act.clk, m.act.salt, d.sys.a, d.sys.b);
      TockIsAct(m.act, d.sys.a, d.sys.b);
    } else {
      OtherFacts(m.act, d.sys.a, d.sys.b);
    }
  }

  lemma TockIsAct(act: Action, me: End, you: End)
    requires EndOk(me) && act.Tock?
    ensures Act(act, me, you) == TockAct(act.fill, act.clk, act.salt, me, you)
  {
  }

  lemma WiresTold(g: Gcm, st: Story, s: Sent)
    ensures Flat(Wires(g, Told(st, s).frames)) == Flat(Wires(g, st.frames)) + Wire(g, s)
  {
    hide Wire;
    WiresStep(g, Told(st, s).frames, |st.frames|);
    assert Told(st, s).frames[..|st.frames|] == st.frames;
    assert Told(st, s).frames[..|st.frames| + 1] == Told(st, s).frames;
  }

  lemma SenderKeeps(g: Gcm, d: Duo, s: Step)
    requires GcmOk(g) && DuoInv(g, d) && Allowed(g, d, s)
    ensures SysOk(d.sys)
    ensures var t := Next2(g, d, s);
            && StoryOk(t.story) && t.sys.a.dir.queued == Flat(Wires(g, t.story.frames))
            && Progress(t.tx, t.story, t.lost) && (t.lost ==> Gone(t.sys.a)) && Reports(t.tx, t.sys.a)
  {
    hide Inv, Follows, StoryOk, Next, Flat, Wire, SF.Frame;
    AFacts(d, s.move);
    if CallsFill(d, s.move) {
      FillProgress(g, d, s);
      var f := SF.FillOnce(g, d.tx, s.env);
      if f.bytes != [] && d.sys.a.peer.state == FC.Established {
        var sent := Sent(s.env.nonce, s.env.stamp, SF.Payload(d.tx, s.env));
        WiresTold(g, d.story, sent);
        WireIsFrame(g, sent);
      }
    }
  }

  lemma WireIsFrame(g: Gcm, s: Sent)
    ensures Wire(g, s) == SF.Frame(g, s.nonce, s.stamp, s.data)
  {
  }

  /** What end B has delivered only grows, and stays within what was queued. */
  lemma DeliveryFacts(d: Duo, m: Move)
    requires Inv(d.sys) && CanMove(d.sys, m)
    ensures SysOk(d.sys) && Inv(Next(d.sys, m))
    ensures d.sys.b.peer.rx.delivered <= Next(d.sys, m).b.peer.rx.delivered <= Next(d.sys, m).a.dir.queued
  {
    MoveKeeps(d.sys, m);
    var t := Next(d.sys, m);
    hide Next;
    StreamsOf(d.sys);
    StreamsOf(t);
    FT.StreamGrows(d.sys.a.dir, t.a.dir);
    FT.LinkFaithful(t.a, t.b);
  }

  lemma StreamsOf(s: Sys)
    requires Inv(s)
    ensures DirOk(s.a.dir) && s.b.peer.rx.delivered == Stream(s.a.dir) && Link(s.a, s.b)
  {
  }

  /** The receiver side of a step, once the story of the frames is known. */
  lemma ReceiverStep(g: Gcm, st: Story, st': Story, rx: SF.SfRx, before: seq<byte>, after: seq<byte>)
    requires GcmOk(g) && Follows(g, st, rx, before) && StoryOk(st')
    requires st' == st || (|st'.frames| > 0 && st' == Told(st, st'.frames[|st'.frames| - 1]))
    requires before <= after <= Flat(Wires(g, st'.frames))
    ensures Follows(g, st', Receiver(g, rx, before, after), after)
  {
    hide Follows, Flat, Wire, SF.OnData, NameOk, MetaOf;
    if st' != st {
      FollowStable(g, st, rx, before, st'.frames[|st'.frames| - 1]);
    }
    if |before| < |after| {
      assert after == before + after[|before|..];
      FollowMore(g, st', rx, before, after[|before|..]);
    } else {
      assert after == before;
    }
  }

  lemma ReceiverKeeps(g: Gcm, d: Duo, s: Step)
    requires GcmOk(g) && DuoInv(g, d) && Allowed(g, d, s)
    ensures SysOk(d.sys)
    ensures var t := Next2(g, d, s); Follows(g, t.story, t.rx, t.sys.b.peer.rx.delivered)
  {
    hide Inv, Follows, Next, Flat, Wires, SF.FillOnce, Progress, Reports, StoryOk, Receiver;
    DeliveryFacts(d, s.move);
    SenderKeeps(g, d, s);
    var t := Next2(g, d, s);
    ReceiverStep(g, d.story, t.story, d.rx, d.sys.b.peer.rx.delivered, t.sys.b.peer.rx.delivered);
  }

  /** The tx-complete callback of end A finds everything delivered. */
  lemma CompletionDelivers(s: Sys, m: Move)
    requires Inv(s) && CanMove(s, m)
    ensures SysOk(s)
    ensures Next(s, m).a.completions > s.a.completions ==>
              Next(s, m).b.peer.rx.delivered == Next(s, m).a.dir.queued
  {
    InvSys(s);
    hide Act, Link, NetOk, CallbackOk, Enabled, EndOk;
    if m.byA {
      FT.EventsTruthful(m.act, s.a, s.b);
    } else {
      FT.EventsTruthful(m.act, s.b, s.a);
    }
  }

  lemma DoneKeeps(g: Gcm, d: Duo, s: Step)
    requires GcmOk(g) && DuoInv(g, d) && Allowed(g, d, s)
    ensures SysOk(d.sys)
    ensures var t := Next2(g, d, s);
            t.tx.state == SF.TxDone ==> t.sys.b.peer.rx.delivered == t.sys.a.dir.queued
  {
    hide Inv, Follows, Next, Flat, Wires, Progress, StoryOk, Receiver;
    AFacts(d, s.move);
    DeliveryFacts(d, s.move);
    CompletionDelivers(d.sys, s.move);
    var t := Next2(g, d, s);
    if t.sys.a.completions <= d.sys.a.completions && t.tx.state == SF.TxDone {
      assert d.tx.state == SF.TxDone;
      assert !CallsFill(d, s.move);
      assert d.sys.a.dir.queued + [] == d.sys.a.dir.queued;
    }
  }

  lemma {:induction false} DuoKeeps(g: Gcm, d: Duo, s: Step)
    requires GcmOk(g) && DuoInv(g, d) && Allowed(g, d, s)
    ensures SysOk(d.sys) && DuoInv(g, Next2(g, d, s))
  {
    hide Inv, Follows, StoryOk, Next, Flat, Wires, Progress, Reports, Sender, Receiver;
    SenderKeeps(g, d, s);
    ReceiverKeeps(g, d, s);
    DoneKeeps(g, d, s);
    DeliveryFacts(d, s.move);
  }

  // ---------------------------------------------------------------- runs

  ghost predicate IsStreamRun(g: Gcm, d: Duo, steps: seq<Step>)
    requires GcmOk(g)
    decreases |steps|
  {
    steps == [] || (SysOk(d.sys) && Allowed(g, d, steps[0]) && IsStreamRun(g, Next2(g, d, steps[0]), steps[1..]))
  }

  function AfterSteps(g: Gcm, d: Duo, steps: seq<Step>): Duo
    requires GcmOk(g) && IsStreamRun(g, d, steps)
    decreases |steps|
  {
    if steps == [] then d else AfterSteps(g, Next2(g, d, steps[0]), steps[1..])
  }

  lemma {:induction false} StreamRunKeeps(g: Gcm, d: Duo, steps: seq<Step>)
    requires GcmOk(g) && DuoInv(g, d) && IsStreamRun(g, d, steps)
    ensures DuoInv(g, AfterSteps(g, d, steps))
    ensures AfterSteps(g, d, steps).tx.file == d.tx.file && AfterSteps(g, d, steps).tx.name == d.tx.name
    decreases |steps|
  {
    hide DuoInv, Next2, Allowed, SysOk;
    if steps != [] {
      DuoKeeps(g, d, steps[0]);
      SameFile(g, d, steps[0]);
      StreamRunKeeps(g, Next2(g, d, steps[0]), steps[1..]);
    }
  }

  lemma SameFile(g: Gcm, d: Duo, s: Step)
    requires GcmOk(g) && SysOk(d.sys) && Allowed(g, d, s)
    ensures Next2(g, d, s).tx.file == d.tx.file && Next2(g, d, s).tx.name == d.tx.name
  {
    hide Next, Receiver, SF.Frame, SF.Payload;
  }

  ghost predicate Arrived(d: Duo) {
    d.rx.state == SF.RxDone && d.rx.written == d.tx.file && d.rx.name == d.tx.name
  }

  lemma DoneMeans(g: Gcm, d: Duo)
    requires DuoInv(g, d) && d.tx.state == SF.TxDone
    ensures Arrived(d) <==> !d.lost && d.tx.file != []
  {
    hide Inv, Flat;
    FollowedAll(g, d.story, d.rx);
    hide Follows;
    var n := |d.story.frames|;
    SofarPrefix(d.story, n);
    assert d.tx.file[..|d.tx.file|] == d.tx.file;
    if n >= 2 {
      SofarPrefix(d.story, 1);
      SofarStep(d.story, 1);
      SofarPrefix(d.story, 2);
    } else if n == 1 {
      SofarOne(d.story);
    }
  }

  /**
   * In every run over the lossy network, the received file is a prefix of the sent one at all times. When
   * the sender reports success, the receiver is done with exactly that file under that name if and only if
   * the file is not empty and the fill callback was never asked for a frame after its peer left ESTABLISHED.
   */
  lemma {:induction false} StreamFileEndToEnd(g: Gcm, file: seq<byte>, name: seq<byte>, steps: seq<Step>)
    requires GcmOk(g) && NameOk(name) && |file| < 0x1_0000_0000_0000_0000
    requires IsStreamRun(g, Start(file, name), steps)
    ensures var d := AfterSteps(g, Start(file, name), steps);
            && d.tx.file == file && d.tx.name == name
            && d.rx.written <= file
            && (d.tx.state == SF.TxDone ==> (Arrived(d) <==> !d.lost && file != []))
  {
    StartDuoInv(g, file, name);
    StreamRunKeeps(g, Start(file, name), steps);
    var d := AfterSteps(g, Start(file, name), steps);
    hide IsStreamRun, AfterSteps;
    WrittenIsPrefix(g, d.story, d.rx, d.sys.b.peer.rx.delivered);
    if d.tx.state == SF.TxDone {
      DoneMeans(g, d);
    }
  }
}
