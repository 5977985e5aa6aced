/**
 * Closing a fillp connection: what a FIN does, and that an orderly close ends, with both sides finalized as
 * drained and every byte delivered, exactly when one of them has ever said FIN.
 */
module FillpClose {
  import opened Bytes
  import opened Num32
  import opened FillpFrame
  import opened FillpCore
  import opened FillpLink
  import opened FillpNet
  import opened FillpTheorems
  import opened FillpProgress
  import opened FillpRepair

  // ---------------------------------------------------------------- single events

  /**
   * A FIN finalizes nothing: both halves stay as they are, nothing is sent, and a peer that is not closed
   * starts draining and owes a FIN in return.
   */
  lemma {:induction false} FinStartsDraining(p: Peer, clk: Clock)
    requires PeerOk(p)
    ensures var r := Handle(p, Fin, clk);
            && r.out == [] && r.peer.tx == p.tx && r.peer.rx == p.rx
            && (p.state == Closed ==> r.peer == p)
            && (p.state != Closed ==> r.peer.state == Closing && r.peer.peerFin && r.peer.pendingFin)
  {
    hide TxOk, RxOk;
  }

  /** A close request of a peer that is up says FIN; it finalizes nothing either. */
  lemma {:induction false} CloseSaysFin(p: Peer)
    ensures var r := RequestClose(p);
            && (Fin in r.out <==> p.state == Established) && |r.out| <= 1
            && r.peer == p.(state := if p.state == Closed then Closed else Closing)
  {
    assert p.state == Established ==> RequestClose(p).out[0] == Fin;
  }

  /** The four things a drained close waits for, and the timeout. */
  predicate MayFinalize(p: Peer, clk: Clock) {
    || clk.closeDue
    || (p.peerFin && p.tx.fillDone && p.tx.txq == [] && p.tx.inflight == [] && p.rx.sincePack == 0)
  }

  /** What a tick leaves: the peer is closed exactly when it was draining and may be finalized after its pump. */
  lemma {:induction false} FinalizedIff(p: Peer, fill: Fill, clk: Clock)
    requires PeerOk(p) && p.state in {Established, Closing}
    ensures var q := Pump(p, fill, clk).peer; var r := Tick(p, fill, clk);
            && (r.peer.state == Closed <==> p.state == Closing && MayFinalize(q, clk))
            && (r.drained <==> r.peer.state == Closed && MayFinalize(q, clk.(closeDue := false)))
            && r.peer.tx == q.tx && r.peer.rx == q.rx && r.out == Pump(p, fill, clk).out
  {
    hide TxOk, RxOk, PumpTx, MaybePack;
  }

  /** The FIN in return goes out exactly when it is owed and everything queued is acknowledged, and only once. */
  lemma {:induction false} ReplyFin(p: Peer, fill: Fill, clk: Clock)
    requires PeerOk(p)
    ensures var r := Pump(p, fill, clk);
            && (Fin in r.out <==> p.pendingFin && Drained(r.peer.tx))
            && (r.peer.pendingFin <==> p.pendingFin && !(Fin in r.out)) && r.peer.peerFin == p.peerFin
  {
    var p1 := FillStep(p, fill);
    var pumped := PumpTx(p1.tx, clk);
    var ack := MaybePack(p1.rx, clk);
    NoFinInData(p1.tx, clk);
    hide TxOk, RxOk, PumpTx, FillStep;
    assert Fin !in pumped.1 && Fin !in ack.out;
    var fin := if p1.pendingFin && Drained(pumped.0) then [Fin] else [];
    assert Pump(p, fill, clk).out == pumped.1 + ack.out + fin;
    if fin != [] {
      assert fin[0] == Fin;
    }
    FlagsKept(p, fill);
  }

  lemma FlagsKept(p: Peer, fill: Fill)
    ensures FillStep(p, fill).pendingFin == p.pendingFin && FillStep(p, fill).peerFin == p.peerFin
  {
  }

  lemma NoFinInData(tx: Tx, clk: Clock)
    requires TxOk(tx)
    ensures Fin !in PumpTx(tx, clk).1
  {
    hide TxOk, Packetize;
  }

  // ---------------------------------------------------------------- what every run remembers

  /** This end has put a FIN on the wire at some time. */
  ghost predicate SaidFin(e: End) {
    exists f :: f in e.out && Decode(f.bytes).Fin?
  }

  ghost predicate Grows(s: Sys, t: Sys) {
    && s.a.out <= t.a.out && s.b.out <= t.b.out
    && (s.a.peer.tx.fillDone ==> t.a.peer.tx.fillDone) && (s.b.peer.tx.fillDone ==> t.b.peer.tx.fillDone)
  }

  /** Whoever heard a FIN heard one the other side sent. */
  ghost predicate FinTrue(e: End, you: End) {
    e.peer.peerFin || e.peer.pendingFin ==> SaidFin(you)
  }

  /** Reading datagrams and ticking, without a word from the application, which has queued its last byte. */
  predicate Unattended(m: Move) {
    m.act.Receive? || (m.act.Tock? && m.act.fill == NO_FILL)
  }

  lemma HandleKeeps(p: Peer, m: Msg, clk: Clock)
    requires PeerOk(p)
    ensures var r := Handle(p, m, clk);
            && r.peer.tx.fillDone == p.tx.fillDone && Fin !in r.out
            && (r.peer.peerFin ==> p.peerFin || m.Fin?) && (r.peer.pendingFin ==> p.pendingFin || m.Fin?)
            && (r.peer.state == Closed <==> p.state == Closed)
  {
    if m.Pack? {
      ReleaseFlags(p.tx, m.ackPkt);
    }
    if m.Data? && RxOk(p.rx) {
      OnDataOut(p.rx, Pkt(m.num, m.seqNum, m.data), clk);
    }
    if m.Nack? {
      RequestedInWindow(p.tx.inflight, m.begin, m.end);
    }
    hide TxOk, RxOk, Release, Requested, OnData;
  }

  lemma PumpFillDone(p: Peer, fill: Fill, clk: Clock)
    requires PeerOk(p)
    ensures p.tx.fillDone ==> Pump(p, fill, clk).peer.tx.fillDone
  {
    hide TxOk, RxOk, MaybePack;
  }

  lemma TickKeepsFlags(p: Peer, fill: Fill, clk: Clock)
    requires PeerOk(p)
    ensures var r := Tick(p, fill, clk);
            && (p.tx.fillDone ==> r.peer.tx.fillDone)
            && (r.peer.peerFin ==> p.peerFin) && (r.peer.pendingFin ==> p.pendingFin)
            && (Fin in r.out ==> p.pendingFin)
            && (r.drained ==> p.peerFin)
  {
    ReplyFin(p, fill, clk);
    PumpFillDone(p, fill, clk);
    if p.state in {Established, Closing} {
      FinalizedIff(p, fill, clk);
    }
    hide TxOk, RxOk, Pump;
  }

  /** The FINs in what is emitted are those among the messages. */
  lemma EmitFin(ms: seq<Msg>, own: Dir, peer: Dir, salt: u64)
    ensures (exists f :: f in Emit(ms, own, peer, salt) && Decode(f.bytes).Fin?) <==> Fin in ms
  {
    hide Encode, Decode;
    if Fin in ms {
      RoundTrip(Fin, salt);
      EmitHas(ms, Fin, own, peer, salt);
    }
    forall f | f in Emit(ms, own, peer, salt) && Decode(f.bytes).Fin?
      ensures Fin in ms
    {
      var m :| m in ms && Sendable(m) && f == Flight(Stamp(m, own, peer), Encode(m, salt));
      RoundTrip(m, salt);
    }
  }

  lemma SaidMore(out: set<Flight>, ms: seq<Msg>, own: Dir, peer: Dir, salt: u64, e: End, e': End)
    requires e.out == out && e'.out == out + Emit(ms, own, peer, salt)
    ensures SaidFin(e') <==> SaidFin(e) || Fin in ms
  {
    EmitFin(ms, own, peer, salt);
    hide Emit, Decode;
  }

  lemma SaidSame(e: End, e': End)
    requires e.out == e'.out
    ensures SaidFin(e) <==> SaidFin(e')
  {
    hide Decode;
  }

  /** One action: nothing is forgotten, and a FIN is said for a reason. */
  lemma ActFin(act: Action, me: End, you: End)
    requires EndOk(me) && Enabled(act, me, you) && FinTrue(me, you)
    ensures var r := Act(act, me, you);
            && me.out <= r.0.out && (me.peer.tx.fillDone ==> r.0.peer.tx.fillDone)
            && r.1.out == you.out && r.1.peer == you.peer && r.1.drains == you.drains
            && FinTrue(r.0, r.1)
            && (SaidFin(r.0) ==> SaidFin(me) || SaidFin(you) || (act.AppClose? && me.peer.state == Established))
            && (act.AppClose? && me.peer.state == Established ==> SaidFin(r.0))
            && (r.0.drains > me.drains ==> SaidFin(you))
  {
    var r := Act(act, me, you);
    match act
    case Establish =>
    case AppClose =>
      CloseSaysFin(me.peer);
      hide Emit, Decode;
      SaidMore(me.out, RequestClose(me.peer).out, me.dir, you.dir, 0, me, r.0);
    case AppSend(_) =>
      hide Decode;
    case Receive(f, clk, salt) =>
      ReceiveFin(f, clk, salt, me, you);
    case Tock(fill, clk, salt) =>
      TockFin(fill, clk, salt, me, you);
  }

  lemma ReceiveFin(f: Flight, clk: Clock, salt: u64, me: End, you: End)
    requires EndOk(me) && Enabled(Receive(f, clk, salt), me, you) && FinTrue(me, you)
    ensures var r := ReceiveAct(f, clk, salt, me, you);
            && me.out <= r.0.out && r.0.peer.tx.fillDone == me.peer.tx.fillDone
            && r.1.out == you.out && r.1.peer == you.peer && r.1.drains == you.drains && r.0.drains == me.drains
            && FinTrue(r.0, r.1) && (SaidFin(r.0) <==> SaidFin(me))
  {
    hide Decode, Emit, Handle, PeerOk;
    var r := ReceiveAct(f, clk, salt, me, you);
    var h := Handle(me.peer, Decode(f.bytes), clk);
    HandleKeeps(me.peer, Decode(f.bytes), clk);
    SaidMore(me.out, h.out, r.0.dir, r.1.dir, salt, me, r.0);
  }

  lemma TockFin(fill: Fill, clk: Clock, salt: u64, me: End, you: End)
    requires EndOk(me) && FinTrue(me, you)
    ensures var r := TockAct(fill, clk, salt, me, you);
            && me.out <= r.0.out && (me.peer.tx.fillDone ==> r.0.peer.tx.fillDone) && r.1 == you
            && FinTrue(r.0, r.1) && (SaidFin(r.0) ==> SaidFin(me) || SaidFin(you))
            && (r.0.drains > me.drains ==> SaidFin(you))
  {
    hide Decode, Emit, Tick, PeerOk;
    var r := TockAct(fill, clk, salt, me, you);
    TickKeepsFlags(me.peer, fill, clk);
    SaidMore(me.out, Tick(me.peer, fill, clk).out, r.0.dir, you.dir, salt, me, r.0);
  }

  lemma FinTrueStays(e: End, you: End, you': End)
    requires FinTrue(e, you) && you.out <= you'.out
    ensures FinTrue(e, you')
  {
    hide Decode;
  }

  ghost predicate FinsTrue(s: Sys) {
    FinTrue(s.a, s.b) && FinTrue(s.b, s.a)
  }

  /** A FIN is on record in one direction or the other. */
  ghost predicate FinSaid(s: Sys) {
    SaidFin(s.a) || SaidFin(s.b)
  }

  lemma MoveFin(s: Sys, m: Move)
    requires SysOk(s) && CanMove(s, m) && FinsTrue(s)
    ensures var t := Next(s, m);
            && Grows(s, t) && FinsTrue(t)
            && (Unattended(m) && FinSaid(t) ==> FinSaid(s))
            && (t.a.drains > s.a.drains || t.b.drains > s.b.drains ==> FinSaid(s))
  {
    hide Act, SaidFin, EndOk, Enabled;
    if m.byA {
      ActFin(m.act, s.a, s.b);
      SaidSame(s.b, Next(s, m).b);
      FinTrueStays(s.b, s.a, Next(s, m).a);
    } else {
      ActFin(m.act, s.b, s.a);
      SaidSame(s.a, Next(s, m).a);
      FinTrueStays(s.a, s.b, Next(s, m).b);
    }
  }

  lemma {:induction false} RunFin(s: Sys, moves: seq<Move>)
    requires IsRun(s, moves) && FinsTrue(s)
    ensures Grows(s, After(s, moves)) && FinsTrue(After(s, moves))
    decreases |moves|
  {
    hide Next, FinTrue, CanMove;
    if moves != [] {
      MoveFin(s, moves[0]);
      RunFin(Next(s, moves[0]), moves[1..]);
    }
  }

  /** Without a FIN on record none is ever said, and nobody is finalized as drained, unless an application closes. */
  lemma {:induction false} NoFinNoDrain(s: Sys, moves: seq<Move>)
    requires IsRun(s, moves) && FinsTrue(s) && !FinSaid(s) && forall i | 0 <= i < |moves| :: Unattended(moves[i])
    ensures After(s, moves).a.drains <= s.a.drains && After(s, moves).b.drains <= s.b.drains
    decreases |moves|
  {
    hide Next, FinTrue, CanMove, SaidFin, Unattended;
    if moves != [] {
      assert Unattended(moves[0]);
      MoveFin(s, moves[0]);
      NoFinNoDrain(Next(s, moves[0]), moves[1..]);
    }
  }

  // ---------------------------------------------------------------- the close itself

  predicate AllUnattended(moves: seq<Move>) {
    forall i | 0 <= i < |moves| :: Unattended(moves[i])
  }

  /** Nothing waits to be sent or acknowledged on either side. */
  predicate Quiet(s: Sys) {
    && s.a.peer.tx.inflight == [] && s.a.peer.tx.txq == [] && s.b.peer.tx.inflight == [] && s.b.peer.tx.txq == []
  }

  lemma QuietWhenDrained(s: Sys) returns (moves: seq<Move>, t: Sys)
    requires Inv(s) && Live(s.a) && Live(s.b)
    ensures IsRun(s, moves) && After(s, moves) == t && Inv(t) && Live(t.a) && Live(t.b) && Quiet(t)
    ensures t.a.dir.queued == s.a.dir.queued && t.b.dir.queued == s.b.dir.queued && AllUnattended(moves)
  {
    hide IsRun, After, Inv, Full;
    var first := Drain(s);
    var u := After(s, first);
    FlipInv(u);
    var back := Drain(Flip(u));
    FlipRun(u, back);
    t := After(u, FlipMoves(back));
    RunAppend(s, first, FlipMoves(back));
    FlipInv(Flip(t));
    moves := first + FlipMoves(back);
    forall i | 0 <= i < |moves|
      ensures Unattended(moves[i])
    {
      if i < |first| {
        assert Plain(first[i]);
      } else {
        assert Plain(back[i - |first|]);
      }
    }
  }

  /** A FIN arrives at a peer that is not closed. */
  lemma FinArrives(me: End, you: End, f: Flight)
    requires Inv2(me, you) && Live(me) && f in you.out && Decode(f.bytes).Fin?
    ensures EndOk(me) && Enabled(Receive(f, DUE, 0), me, you)
    ensures ReceiveAct(f, DUE, 0, me, you)
            == (me.(peer := me.peer.(state := Closing, peerFin := true, pendingFin := true)), you)
  {
    InvEnd(me, you);
    hide Link, NetOk, CallbackOk, Decode, PeerOk;
    FinStartsDraining(me.peer, DUE);
    var r := ReceiveAct(f, DUE, 0, me, you);
    SameAdvance(you.dir, me.peer.rx, r.0.peer.rx);
    assert r.0.out == me.out;
    assert r.0.dir == me.dir;
  }

  /** The tick that ends a close: the acknowledgement owed and the FIN in return go out, and the peer is finalized. */
  lemma LastTick(me: End, you: End)
    requires Inv2(me, you) && me.peer.state == Closing && me.peer.peerFin && me.peer.pendingFin && Drained(me.peer.tx)
    ensures EndOk(me)
    ensures var r := TockAct(NO_FILL, DUE, 0, me, you);
            && r.1 == you && r.0.peer.state == Closed && r.0.drains == me.drains + 1 && SaidFin(r.0)
            && Drained(r.0.peer.tx) && r.0.dir.queued == me.dir.queued
  {
    InvEnd(me, you);
    hide Link, NetOk, CallbackOk, PeerOk, Pump, Emit, SaidFin;
    var r := TockAct(NO_FILL, DUE, 0, me, you);
    DrainedPump(me.peer);
    FinalizedIff(me.peer, NO_FILL, DUE);
    ReplyFin(me.peer, NO_FILL, DUE);
    SaidMore(me.out, Tick(me.peer, NO_FILL, DUE).out, r.0.dir, you.dir, 0, me, r.0);
    assert me.dir.queued + [] == me.dir.queued;
  }

  lemma DrainedPump(p: Peer)
    requires PeerOk(p) && Drained(p.tx)
    ensures var q := Pump(p, NO_FILL, DUE).peer;
            Drained(q.tx) && q.rx.sincePack == 0 && q.state == p.state && q.peerFin == p.peerFin
  {
    hide TxOk, RxOk;
    assert Packetize(p.tx, SEND_BUDGET) == p.tx;
  }

  lemma HearFin(s: Sys, byA: bool) returns (m: Move, t: Sys)
    requires Inv(s) && Live(Snd(s, byA)) && SaidFin(Rcv(s, byA))
    ensures IsRun(s, [m]) && After(s, [m]) == t && Inv(t) && Unattended(m) && Rcv(t, byA) == Rcv(s, byA)
    ensures var e := Snd(s, byA);
            Snd(t, byA) == e.(peer := e.peer.(state := Closing, peerFin := true, pendingFin := true))
  {
    var f :| f in Rcv(s, byA).out && Decode(f.bytes).Fin?;
    hide IsRun, After, Inv2, Decode, ReceiveAct, EndOk, Enabled;
    InvBoth(s, byA);
    FinArrives(Snd(s, byA), Rcv(s, byA), f);
    t := ReceiveMove(s, byA, f, DUE, 0);
    m := Move(byA, Receive(f, DUE, 0));
  }

  /** This end is finalized as drained, for the first time, and has answered with a FIN. */
  ghost predicate Finalized(before: End, e: End) {
    && e.peer.state == Closed && e.drains == before.drains + 1 && SaidFin(e) && Drained(e.peer.tx)
    && e.dir.queued == before.dir.queued
  }

  lemma TickOnce(s: Sys, byA: bool) returns (m: Move, t: Sys)
    requires Inv(s)
    requires var p := Snd(s, byA).peer; p.state == Closing && p.peerFin && p.pendingFin && Drained(p.tx)
    ensures IsRun(s, [m]) && After(s, [m]) == t && Inv(t) && Unattended(m)
    ensures Rcv(t, byA) == Rcv(s, byA) && Finalized(Snd(s, byA), Snd(t, byA))
  {
    hide IsRun, After, Inv2, TockAct, EndOk, SaidFin;
    InvBoth(s, byA);
    LastTick(Snd(s, byA), Rcv(s, byA));
    t := TockMove(s, byA);
    m := Move(byA, Tock(NO_FILL, DUE, 0));
  }

  /** A FIN and the tick after it, as two moves: they finalize the end that hears it and answer with a FIN. */
  lemma CloseOne(s: Sys, byA: bool) returns (moves: seq<Move>, t: Sys)
    requires Inv(s) && Live(Snd(s, byA)) && Drained(Snd(s, byA).peer.tx) && SaidFin(Rcv(s, byA))
    ensures IsRun(s, moves) && After(s, moves) == t && Inv(t) && AllUnattended(moves)
    ensures Rcv(t, byA) == Rcv(s, byA) && Finalized(Snd(s, byA), Snd(t, byA))
  {
    hide IsRun, After, Inv, SaidFin, Unattended;
    var m1, u := HearFin(s, byA);
    var m2: Move;
    m2, t := TickOnce(u, byA);
    RunAppend(s, [m1], [m2]);
    moves := [m1] + [m2];
  }

  lemma TockMove(s: Sys, byA: bool) returns (t: Sys)
    requires Inv(s) && EndOk(Snd(s, byA))
    ensures var m := Move(byA, Tock(NO_FILL, DUE, 0)); IsRun(s, [m]) && After(s, [m]) == t && Inv(t)
    ensures var r := TockAct(NO_FILL, DUE, 0, Snd(s, byA), Rcv(s, byA)); Snd(t, byA) == r.0 && Rcv(t, byA) == r.1
  {
    InvSys(s);
    hide TockAct, EndOk, Inv2;
    var m := Move(byA, Tock(NO_FILL, DUE, 0));
    MoveKeeps(s, m);
    OneMove(s, m);
    t := Next(s, m);
  }

  /** Both ends are finalized as drained, once each, and have all that was queued for them. */
  ghost predicate ClosedInOrder(s: Sys, t: Sys) {
    && t.a.peer.state == Closed && t.b.peer.state == Closed && t.a.drains == 1 && t.b.drains == 1
    && t.b.peer.rx.delivered == s.a.dir.queued && t.a.peer.rx.delivered == s.b.dir.queued
  }

  /** Time and the network alone can bring the connection to an orderly end. */
  ghost predicate CanClose(s: Sys) {
    exists more :: IsRun(s, more) && AllUnattended(more) && ClosedInOrder(s, After(s, more))
  }

  lemma NoDrainYet(s: Sys, byA: bool)
    requires Inv(s) && Live(Snd(s, byA))
    ensures Snd(s, byA).drains == 0
  {
    hide Link, NetOk;
  }

  lemma QuietDelivered(s: Sys)
    requires Inv(s) && Quiet(s)
    ensures s.b.peer.rx.delivered == s.a.dir.queued && s.a.peer.rx.delivered == s.b.dir.queued
  {
    hide NetOk, CallbackOk, Inv2;
    InvBoth(s, true);
    assert Link(s.a, s.b) && Link(s.b, s.a) by {
      InvLinks(s.a, s.b);
    }
    DrainedMeansDelivered(s.a, s.b);
    DrainedMeansDelivered(s.b, s.a);
  }

  lemma InvLinks(me: End, you: End)
    requires Inv2(me, you)
    ensures Link(me, you) && Link(you, me)
  {
  }

  /** Once one end, say the one named, has said FIN: drain both, close the other, then this one. */
  lemma CloseBoth(s: Sys, byA: bool) returns (moves: seq<Move>)
    requires Inv(s) && Live(s.a) && Live(s.b) && FinsTrue(s) && SaidFin(Snd(s, byA))
    requires s.a.peer.tx.fillDone && s.b.peer.tx.fillDone
    ensures IsRun(s, moves) && AllUnattended(moves) && ClosedInOrder(s, After(s, moves))
  {
    hide IsRun, After, Inv, FinTrue, SaidFin;
    var first, u := QuietWhenDrained(s);
    RunFin(s, first);
    SaidKept(Snd(s, byA), Snd(u, byA));
    NoDrainYet(u, true);
    NoDrainYet(u, false);
    var second, v := CloseOne(u, !byA);
    var third, w := CloseOne(v, byA);
    RunAppend(s, first, second);
    RunAppend(s, first + second, third);
    QuietDelivered(w);
    moves := first + second + third;
  }

  lemma SaidKept(e: End, e': End)
    requires SaidFin(e) && e.out <= e'.out
    ensures SaidFin(e')
  {
    hide Decode;
  }

  /**
   * From every state of a run with two live peers whose fills have ended, whatever was lost so far: the
   * connection can come to an orderly end, with every byte delivered both ways and both peers finalized as
   * drained, if and only if one of the two has said FIN. No word from either application is needed.
   */
  lemma {:induction false} OrderlyCloseIff(moves: seq<Move>)
    requires IsRun(START, moves)
    requires var s := After(START, moves);
             Live(s.a) && Live(s.b) && s.a.peer.tx.fillDone && s.b.peer.tx.fillDone
    ensures var s := After(START, moves); CanClose(s) <==> FinSaid(s)
  {
    StartInv();
    RunKeeps(START, moves);
    var s := After(START, moves);
    assert FinsTrue(START);
    RunFin(START, moves);
    hide IsRun, After, Inv, FinTrue, SaidFin, AllUnattended, ClosedInOrder;
    if SaidFin(s.a) {
      var more := CloseBoth(s, true);
      assert CanClose(s);
    } else if SaidFin(s.b) {
      var more := CloseBoth(s, false);
      assert CanClose(s);
    } else {
      NoDrainYet(s, true);
      NoDrainYet(s, false);
      forall more | IsRun(s, more) && AllUnattended(more)
        ensures !ClosedInOrder(s, After(s, more))
      {
        NeverInOrder(s, more);
      }
    }
  }

  lemma NeverInOrder(s: Sys, more: seq<Move>)
    requires IsRun(s, more) && AllUnattended(more) && FinsTrue(s) && !FinSaid(s) && s.a.drains == 0
    ensures !ClosedInOrder(s, After(s, more))
  {
    hide IsRun, After, FinTrue, SaidFin;
    NoFinNoDrain(s, more);
  }

  /** Asking an established end to close while the other is live is enough. */
  lemma {:induction false} CloseCompletes(moves: seq<Move>, byA: bool)
    requires IsRun(START, moves)
    requires var s := After(START, moves);
             && Snd(s, byA).peer.state == Established && Live(Rcv(s, byA))
             && s.a.peer.tx.fillDone && s.b.peer.tx.fillDone
    ensures IsRun(START, moves + [Move(byA, AppClose)]) && CanClose(After(START, moves + [Move(byA, AppClose)]))
  {
    StartInv();
    RunKeeps(START, moves);
    var s := After(START, moves);
    assert FinsTrue(START);
    RunFin(START, moves);
    var m := Move(byA, AppClose);
    InvSys(s);
    hide IsRun, After, Inv, FinTrue, SaidFin, CanClose, EndOk;
    OneMove(s, m);
    RunAppend(START, moves, [m]);
    var t := Next(s, m);
    AskToClose(s, byA);
    OrderlyCloseIff(moves + [m]);
  }

  lemma AskToClose(s: Sys, byA: bool)
    requires SysOk(s) && FinsTrue(s) && Snd(s, byA).peer.state == Established && Live(Rcv(s, byA))
    requires s.a.peer.tx.fillDone && s.b.peer.tx.fillDone
    ensures var t := Next(s, Move(byA, AppClose));
            && Live(t.a) && Live(t.b) && t.a.peer.tx.fillDone && t.b.peer.tx.fillDone && FinSaid(t)
  {
    hide EndOk, Emit, SaidFin;
    ActFin(AppClose, Snd(s, byA), Rcv(s, byA));
    CloseSaysFin(Snd(s, byA).peer);
  }
}
