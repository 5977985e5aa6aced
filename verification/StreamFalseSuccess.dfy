/**
 * Why the end-to-end theorem needs its condition: `fillp_peer_send` drops bytes silently outside
 * ESTABLISHED while the fill callback counts them as queued, so a session whose peer is closing reads
 * its whole file into nothing and then reports "sent and acked".
 */
module StreamFalseSuccess {
  import opened Bytes
  import FillpFrame
  import FC = FillpCore
  import opened FillpLink
  import opened FillpNet
  import opened Vtp
  import SF = StreamFile
  import opened StreamStory
  import opened StreamRun

  /** No timer has elapsed. */
  const CALM := FC.Clock(false, false, false, false, false)

  function ClosingPeer(done: bool): FC.Peer {
    FC.Peer(FC.Closing, FC.FRESH_TX.(fillDone := done, notified := done), FC.FRESH_RX, false, false)
  }

  lemma FreshOk()
    ensures FC.PeerOk(ClosingPeer(false)) && FC.PeerOk(ClosingPeer(true)) && FC.PeerOk(FC.FRESH_PEER)
    ensures FC.PeerOk(FC.FRESH_PEER.(state := FC.Established))
  {
  }

  /** A tick of a closing peer with an empty queue: what the callback offers is gone. */
  lemma CalmTick(bytes: seq<byte>, last: bool)
    ensures FC.PeerOk(ClosingPeer(false))
    ensures FC.Tick(ClosingPeer(false), FC.Fill(bytes, last), CALM) == FC.TickStep(ClosingPeer(last), [], last, false)
  {
    FreshOk();
    hide FC.TxOk, FC.RxOk;
    assert FC.Packetize(FC.FRESH_TX, FC.SEND_BUDGET) == FC.FRESH_TX;
  }

  /** End A is closing with nothing queued; end B never did anything. */
  function Shut(done: bool, completions: nat): Sys {
    Sys(FRESH_END.(peer := ClosingPeer(done), completions := completions, out := FinOnly()), FRESH_END)
  }

  function FinOnly(): set<Flight> {
    {Flight(0, FillpFrame.Encode(FillpFrame.Fin, 0))}
  }

  lemma CalmTock(bytes: seq<byte>, last: bool)
    ensures SysOk(Shut(false, 0))
    ensures Next(Shut(false, 0), Move(true, Tock(FC.Fill(bytes, last), CALM, 0))) == Shut(last, if last then 1 else 0)
  {
    CalmTick(bytes, last);
    FreshOk();
    hide FC.Tick, FC.PeerOk, FillpFrame.Encode;
    assert FRESH_DIR.queued + [] == [] && FRESH_DIR.pkts + Payloads([]) == [];
    assert Emit([], FRESH_DIR, FRESH_DIR, 0) == {};
  }

  function Env(read: int): SF.FillEnv {
    SF.FillEnv(Zeros(NONCE_LEN), 0, true, read)
  }

  /** The step of a closing sender: the session moves on, the story does not. */
  lemma ClosingStep(g: Gcm, d: Duo, read: int)
    requires GcmOk(g) && d.sys == Shut(false, 0) && d.tx.state == SF.TxActive
    requires SF.EnvOk(d.tx, Env(read)) && |d.tx.file| < 0x1_0000_0000_0000_0000
    ensures SysOk(d.sys)
    ensures var f := SF.FillOnce(g, d.tx, Env(read));
            var s := Step(Move(true, Tock(FC.Fill(f.bytes, f.last), CALM, 0)), Env(read));
            && Allowed(g, d, s)
            && Next2(g, d, s) == d.(sys := Shut(f.last, if f.last then 1 else 0),
                                    tx := if f.last then SF.Completed(f.tx) else f.tx,
                                    lost := d.lost || f.bytes != [])
  {
    var f := SF.FillOnce(g, d.tx, Env(read));
    CalmTock(f.bytes, f.last);
    hide Next, SF.FillOnce, FinOnly, SysOk;
  }

  lemma SealedIsNotEmpty(g: Gcm, tx: SF.SfTx, env: SF.FillEnv)
    requires GcmOk(g) && SF.EnvOk(tx, env) && |tx.file| < 0x1_0000_0000_0000_0000
    ensures SF.Frame(g, env.nonce, env.stamp, SF.Payload(tx, env)) != []
  {
  }

  lemma {:induction false} StreamRunAppend(g: Gcm, d: Duo, first: seq<Step>, second: seq<Step>)
    requires GcmOk(g) && IsStreamRun(g, d, first) && IsStreamRun(g, AfterSteps(g, d, first), second)
    ensures IsStreamRun(g, d, first + second)
    ensures AfterSteps(g, d, first + second) == AfterSteps(g, AfterSteps(g, d, first), second)
    decreases |first|
  {
    hide Next2, SysOk, Allowed;
    if first == [] {
      assert first + second == second;
    } else {
      StreamRunAppend(g, Next2(g, d, first[0]), first[1..], second);
      assert (first + second)[1..] == first[1..] + second;
    }
  }

  /** A run continued by one step. */
  lemma Extend(g: Gcm, d: Duo, steps: seq<Step>, s: Step)
    requires GcmOk(g) && IsStreamRun(g, d, steps)
    requires var e := AfterSteps(g, d, steps); SysOk(e.sys) && Allowed(g, e, s)
    ensures IsStreamRun(g, d, steps + [s])
    ensures AfterSteps(g, d, steps + [s]) == Next2(g, AfterSteps(g, d, steps), s)
  {
    hide Next2, SysOk, Allowed;
    var e := AfterSteps(g, d, steps);
    assert [s][0] == s && [s][1..] == [];
    EmptyRun(g, Next2(g, e, s));
    assert IsStreamRun(g, e, [s]);
    assert AfterSteps(g, e, [s]) == AfterSteps(g, Next2(g, e, s), [s][1..]);
    StreamRunAppend(g, d, steps, [s]);
  }

  /** The run up to the close: established, then closed by the application. */
  lemma Opening(g: Gcm, file: seq<byte>, name: seq<byte>) returns (steps: seq<Step>)
    requires GcmOk(g)
    ensures IsStreamRun(g, Start(file, name), steps)
    ensures AfterSteps(g, Start(file, name), steps) == Start(file, name).(sys := Shut(false, 0))
  {
    hide IsStreamRun, AfterSteps, FC.PeerOk, FillpFrame.Encode;
    var s1 := Step(Move(true, Establish), Env(0));
    var s2 := Step(Move(true, AppClose), Env(0));
    var d := Start(file, name);
    var d1 := d.(sys := Sys(FRESH_END.(peer := FC.FRESH_PEER.(state := FC.Established)), FRESH_END));
    FreshOk();
    assert Next2(g, d, s1) == d1;
    assert Emit([FillpFrame.Fin], FRESH_DIR, FRESH_DIR, 0) == FinOnly();
    assert Next2(g, d1, s2) == d.(sys := Shut(false, 0));
    EmptyRun(g, d);
    Extend(g, d, [], s1);
    Extend(g, d, [] + [s1], s2);
    steps := [] + [s1] + [s2];
  }

  lemma EmptyRun(g: Gcm, d: Duo)
    requires GcmOk(g)
    ensures IsStreamRun(g, d, []) && AfterSteps(g, d, []) == d
  {
  }

  /** One tick of the closing sender appended to a run; only the sender's session moves. */
  lemma DropOne(g: Gcm, start: Duo, steps: seq<Step>, read: int) returns (more: seq<Step>)
    requires GcmOk(g) && IsStreamRun(g, start, steps)
    requires var d := AfterSteps(g, start, steps);
             && d.sys == Shut(false, 0) && d.tx.state == SF.TxActive
             && SF.EnvOk(d.tx, Env(read)) && |d.tx.file| < 0x1_0000_0000_0000_0000
    ensures IsStreamRun(g, start, more)
    ensures var d := AfterSteps(g, start, steps);
            var f := SF.FillOnce(g, d.tx, Env(read));
            AfterSteps(g, start, more) == d.(sys := Shut(f.last, if f.last then 1 else 0),
                                             tx := if f.last then SF.Completed(f.tx) else f.tx,
                                             lost := d.lost || f.bytes != [])
  {
    hide IsStreamRun, AfterSteps, Next2, Allowed, SysOk, SF.FillOnce, Shut;
    var d := AfterSteps(g, start, steps);
    var f := SF.FillOnce(g, d.tx, Env(read));
    ClosingStep(g, d, read);
    var s := Step(Move(true, Tock(FC.Fill(f.bytes, f.last), CALM, 0)), Env(read));
    Extend(g, start, steps, s);
    more := steps + [s];
  }

  /**
   * For every name and every file of one chunk there is a run in which the sender reports success and
   * nothing at all has reached the receiver.
   */
  lemma {:induction false} SuccessWithoutDelivery(g: Gcm, file: seq<byte>, name: seq<byte>) returns (steps: seq<Step>)
    requires GcmOk(g) && NameOk(name) && 0 < |file| <= SF.CHUNK
    ensures IsStreamRun(g, Start(file, name), steps)
    ensures var d := AfterSteps(g, Start(file, name), steps);
            d.tx.state == SF.TxDone && d.lost && d.rx == SF.FRESH_RX
  {
    hide IsStreamRun, AfterSteps, Shut, SF.Frame, NameOk, SF.Meta;
    var start := Start(file, name);
    steps := Opening(g, file, name);
    SealedIsNotEmpty(g, start.tx, Env(-1));
    steps := DropOne(g, start, steps, -1);
    steps := DropOne(g, start, steps, |file|);
    steps := DropOne(g, start, steps, 0);
  }
}
