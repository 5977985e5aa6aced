/**
 * What the timers and limits of the data plane come to: exactly when a peer acknowledges, repeats, fills and
 * gives up an early packet, and the bounds this puts on every run.
 */
module FillpRules {
  import opened Bytes
  import opened Num32
  import opened FillpFrame
  import opened FillpCore
  import opened FillpLink
  import opened FillpNet
  import opened FillpTheorems
  import opened FillpProgress
  import opened FillpRepair

  // ---------------------------------------------------------------- repetition on request

  predicate Between(p: Pkt, begin: u32, end: u32) {
    IsBigger(p.num, begin) && IsBigger(end, p.num)
  }

  lemma {:induction false} RequestedAre(ps: seq<Pkt>, begin: u32, end: u32)
    ensures forall m :: m in Requested(ps, begin, end) <==>
              exists p :: p in ps && Between(p, begin, end) && m == DataOf(p)
  {
    hide IsBigger;
    if ps != [] {
      RequestedAre(ps[1..], begin, end);
      assert ps == [ps[0]] + ps[1..];
    }
  }

  /** A NACK changes nothing; an established peer, and no other, repeats what is in flight between the two numbers. */
  lemma {:induction false} NackAnswered(p: Peer, begin: u32, end: u32, recvSeq: u32, clk: Clock)
    requires PeerOk(p)
    ensures var r := Handle(p, Nack(begin, end, recvSeq), clk);
            && r.peer == p
            && (forall m :: m in r.out <==>
                  p.state == Established && exists q :: q in p.tx.inflight && Between(q, begin, end) && m == DataOf(q))
  {
    hide TxOk, RxOk, IsBigger, Requested;
    RequestedAre(p.tx.inflight, begin, end);
  }

  // ---------------------------------------------------------------- acknowledgement

  /** 64 KiB wait for an acknowledgement, or anything does and the interval is over. */
  predicate AckNow(owed: nat, due: bool) {
    owed >= PACK_FLUSH_BYTES || (owed > 0 && due)
  }

  lemma {:induction false} FlushCounts(rx: Rx)
    requires TableAhead(rx, 1) && BytesOk(rx)
    ensures rx.delivered <= Flush(rx).delivered
    ensures Flush(rx).sincePack - rx.sincePack == |Flush(rx).delivered| - |rx.delivered|
    decreases |rx.ofo|
  {
    hide Add32, TableAhead, BytesOk, Buffered;
    if Add32(rx.recvPkt, 1) in rx.ofo {
      TakeNextKeeps(rx);
      FlushCounts(TakeNext(rx));
    }
  }

  /**
   * Any DATA, honest or not: what is delivered is appended; an acknowledgement goes out exactly when the packet
   * is next and enough is owed, or when it is behind and the last one is long enough ago; it names the state
   * reached and settles what is owed.
   */
  lemma {:induction false} AckedIff(rx: Rx, p: Pkt, clk: Clock)
    requires RxOk(rx)
    ensures var r := OnData(rx, p, clk); var t := r.rx;
            && rx.delivered <= t.delivered
            && var owed := rx.sincePack + |t.delivered| - |rx.delivered|;
               var acked := if p.num == Add32(rx.recvPkt, 1) then AckNow(owed, clk.packDue)
                            else !IsBigger(p.num, rx.recvPkt) && clk.reackDue;
               && ((exists m :: m in r.out && m.Pack?) <==> acked)
               && (acked ==> r.out == [Pack(t.recvSeq, t.recvPkt, t.recvSeq, Wrap(t.ofoBytes))])
               && t.sincePack == if acked then 0 else owed
  {
    hide RxOk, Flush, Wrap;
    var r := OnData(rx, p, clk);
    NextIsAhead(rx.recvPkt);
    if p.num == Add32(rx.recvPkt, 1) {
      AcceptReady(rx, p);
      FlushCounts(Accept(rx, p));
    }
    assert r.out != [] ==> r.out[0] in r.out;
  }

  lemma NextIsAhead(n: u32)
    ensures IsBigger(Add32(n, 1), n)
  {
  }

  lemma AcceptReady(rx: Rx, p: Pkt)
    requires RxOk(rx) && p.num == Add32(rx.recvPkt, 1)
    ensures TableAhead(Accept(rx, p), 1) && BytesOk(Accept(rx, p))
  {
    hide Buffered;
  }

  /** The tick of a peer that is up acknowledges exactly when enough is owed, and delivers nothing. */
  lemma {:induction false} TickAcksIff(p: Peer, fill: Fill, clk: Clock)
    requires PeerOk(p) && p.state in {Established, Closing}
    ensures var r := Tick(p, fill, clk);
            && ((exists m :: m in r.out && m.Pack?) <==> AckNow(p.rx.sincePack, clk.packDue))
            && r.peer.rx == p.rx.(sincePack := if AckNow(p.rx.sincePack, clk.packDue) then 0 else p.rx.sincePack)
  {
    hide TxOk, RxOk, FillStep;
    var p1 := FillStep(p, fill);
    var datas := PumpTx(p1.tx, clk).1;
    var ack := MaybePack(p1.rx, clk);
    OnlyData(p1.tx, clk);
    hide PumpTx, MaybePack;
    var r := Tick(p, fill, clk);
    var tail := if p1.pendingFin && Drained(PumpTx(p1.tx, clk).0) then [Fin] else [];
    assert r.out == datas + ack.out + tail;
    if ack.out != [] {
      assert ack.out[0] in r.out && ack.out[0].Pack? by {
        AckOut(p1.rx, clk);
      }
    }
    AckOut(p1.rx, clk);
  }

  lemma AckOut(rx: Rx, clk: Clock)
    ensures var r := MaybePack(rx, clk);
            && r.out == (if AckNow(rx.sincePack, clk.packDue) then [PackOf(rx)] else [])
            && r.rx == rx.(sincePack := if AckNow(rx.sincePack, clk.packDue) then 0 else rx.sincePack)
  {
    hide RxOk;
  }

  lemma OnlyData(tx: Tx, clk: Clock)
    requires TxOk(tx)
    ensures forall m :: m in PumpTx(tx, clk).1 ==> m.Data?
  {
    hide TxOk, Packetize;
  }

  /** Of one end: less than 64 KiB waits for an acknowledgement. */
  predicate LittleOwed(e: End) {
    e.peer.rx.sincePack < PACK_FLUSH_BYTES
  }

  lemma ActOwes(act: Action, me: End, you: End)
    requires EndOk(me) && LittleOwed(me)
    ensures var r := Act(act, me, you); LittleOwed(r.0) && r.1.peer == you.peer
  {
    match act
    case Receive(f, clk, salt) =>
      var m := Decode(f.bytes);
      hide Decode, RxOk, TxOk, OnData, Emit, Release, Requested;
      if m.Data? {
        AckedIff(me.peer.rx, Pkt(m.num, m.seqNum, m.data), clk);
      }
    case Tock(fill, clk, salt) =>
      hide Tick, Emit;
      if me.peer.state in {Established, Closing} {
        TickAcksIff(me.peer, fill, clk);
      } else {
        IdleTick(me.peer, fill, clk);
      }
    case Establish =>
    case AppClose =>
      hide Emit;
    case AppSend(_) =>
  }

  lemma IdleTick(p: Peer, fill: Fill, clk: Clock)
    requires PeerOk(p) && p.state !in {Established, Closing}
    ensures Tick(p, fill, clk) == TickStep(p, [], false, false)
  {
  }

  /** In every run, at both ends, whatever the timers do: less than 64 KiB ever waits for an acknowledgement. */
  lemma {:induction false} NeverOwesMuch(moves: seq<Move>)
    requires IsRun(START, moves)
    ensures LittleOwed(After(START, moves).a) && LittleOwed(After(START, moves).b)
  {
    OwesAlong(START, moves);
  }

  lemma {:induction false} OwesAlong(s: Sys, moves: seq<Move>)
    requires IsRun(s, moves) && LittleOwed(s.a) && LittleOwed(s.b)
    ensures LittleOwed(After(s, moves).a) && LittleOwed(After(s, moves).b)
    decreases |moves|
  {
    hide Act, EndOk, CanMove;
    if moves != [] {
      if moves[0].byA {
        ActOwes(moves[0].act, s.a, s.b);
      } else {
        ActOwes(moves[0].act, s.b, s.a);
      }
      OwesAlong(Next(s, moves[0]), moves[1..]);
    }
  }

  // ---------------------------------------------------------------- the tick of the sender

  function Datas(ms: seq<Msg>): seq<Msg> {
    if ms == [] then [] else (if ms[0].Data? then [ms[0]] else []) + Datas(ms[1..])
  }

  lemma {:induction false} DatasSplit(a: seq<Msg>, b: seq<Msg>)
    requires (forall i | 0 <= i < |a| :: a[i].Data?) && (forall i | 0 <= i < |b| :: !b[i].Data?)
    ensures Datas(a + b) == a
    decreases |a| + |b|
  {
    if a != [] {
      DatasSplit(a[1..], b);
      assert (a + b)[1..] == a[1..] + b;
      assert a == [a[0]] + a[1..];
    } else if b != [] {
      DatasSplit(a, b[1..]);
      assert a + b == b && a + b[1..] == b[1..];
    }
  }

  /** What the pump of a tick puts on the wire, and the send half it leaves. */
  lemma TickParts(p: Peer, fill: Fill, clk: Clock)
    requires PeerOk(p) && p.state in {Established, Closing}
    ensures PeerOk(FillStep(p, fill))
    ensures var p1 := FillStep(p, fill); var pumped := PumpTx(p1.tx, clk); var r := Tick(p, fill, clk);
            && r.out == pumped.1 + (MaybePack(p1.rx, clk).out
                                    + if p1.pendingFin && Drained(pumped.0) then [Fin] else [])
            && r.peer.tx == pumped.0.(notified := r.peer.tx.notified)
  {
    hide TxOk, RxOk, FillStep, PumpTx, MaybePack;
    var p1 := FillStep(p, fill);
    var pumped := PumpTx(p1.tx, clk);
    var fin := if p1.pendingFin && Drained(pumped.0) then [Fin] else [];
    assert pumped.1 + MaybePack(p1.rx, clk).out + fin == pumped.1 + (MaybePack(p1.rx, clk).out + fin);
  }

  /**
   * The data a tick sends: the oldest packet in flight if and only if it is due to be repeated, then the packets
   * it cuts, at most 32. It takes nothing out of flight and asks for more bytes exactly below the watermark.
   */
  lemma {:induction false} TickSends(p: Peer, fill: Fill, clk: Clock)
    requires PeerOk(p) && p.state in {Established, Closing}
    ensures var r := Tick(p, fill, clk); var was, now := p.tx.inflight, r.peer.tx.inflight;
            && was <= now && |now| - |was| <= SEND_BUDGET
            && Datas(r.out) == (if was != [] && clk.stallDue then [DataOf(was[0])] else []) + DatasOf(now[|was|..])
            && (r.peer.tx.fillDone <==> p.tx.fillDone || (|p.tx.txq| < 65536 && fill.last))
  {
    hide TxOk, RxOk, FillStep, MaybePack, DatasOf, Tick, Drained, PumpTx, PackOf;
    var p1 := FillStep(p, fill);
    FillSame(p, fill);
    TickParts(p, fill, clk);
    PumpSends(p1.tx, clk);
    OnlyData(p1.tx, clk);
    AckOut(p1.rx, clk);
    assert PackOf(p1.rx).Pack? by {
      PackIs(p1.rx);
    }
    var datas := PumpTx(p1.tx, clk).1;
    assert forall i | 0 <= i < |datas| :: datas[i] in datas;
    DatasSplit(datas, MaybePack(p1.rx, clk).out + if p1.pendingFin && Drained(PumpTx(p1.tx, clk).0) then [Fin] else []);
  }

  lemma PackIs(rx: Rx)
    ensures PackOf(rx).Pack?
  {
  }

  lemma PumpSends(tx: Tx, clk: Clock)
    requires TxOk(tx)
    ensures var r := PumpTx(tx, clk); var was, now := tx.inflight, r.0.inflight;
            && was <= now && |now| - |was| <= SEND_BUDGET && r.0.fillDone == tx.fillDone
            && r.1 == (if was != [] && clk.stallDue then [DataOf(was[0])] else []) + DatasOf(now[|was|..])
  {
    CutSize(tx, SEND_BUDGET);
    hide TxOk, Packetize, DatasOf;
  }

  lemma FillSame(p: Peer, fill: Fill)
    ensures var q := FillStep(p, fill);
            && q.tx.inflight == p.tx.inflight && q.rx == p.rx && q.state == p.state
            && (q.tx.fillDone <==> p.tx.fillDone || (|p.tx.txq| < 65536 && fill.last))
            && |q.tx.txq| <= |p.tx.txq| + (if |p.tx.txq| < 65536 then |fill.bytes| else 0)
  {
  }

  lemma {:induction false} CutSize(tx: Tx, budget: nat)
    requires TxOk(tx)
    ensures var r := Packetize(tx, budget); |r.inflight| - |tx.inflight| <= budget && |r.txq| <= |tx.txq|
    decreases budget
  {
    hide TxOk;
    if !(budget == 0 || tx.txq == [] || tx.inflightBytes >= SEND_CACHE) {
      CutOneKeeps(tx);
      CutSize(CutOne(tx), budget - 1);
    }
  }

  /** The application only feeds the queue from the fill callback, at most `n` bytes at a time. */
  ghost predicate FillsOnly(moves: seq<Move>, n: nat) {
    forall i | 0 <= i < |moves| ::
      !moves[i].act.AppSend? && (moves[i].act.Tock? ==> |moves[i].act.fill.bytes| <= n)
  }

  predicate QueueUnder(e: End, n: nat) {
    |e.peer.tx.txq| < 65536 + n
  }

  lemma ActQueues(act: Action, me: End, you: End, n: nat)
    requires EndOk(me) && QueueUnder(me, n) && !act.AppSend? && (act.Tock? ==> |act.fill.bytes| <= n)
    ensures var r := Act(act, me, you); QueueUnder(r.0, n) && r.1.peer == you.peer
  {
    match act
    case Receive(f, clk, salt) =>
      var m := Decode(f.bytes);
      hide Decode, RxOk, TxOk, OnData, Emit, Release, Requested;
      if m.Pack? {
        ReleaseFlags(me.peer.tx, m.ackPkt);
      }
    case Tock(fill, clk, salt) =>
      if me.peer.state in {Established, Closing} {
        FillSame(me.peer, fill);
        CutSize(FillStep(me.peer, fill).tx, SEND_BUDGET);
      }
      hide TxOk, RxOk, FillStep, Packetize, DatasOf, Emit;
    case Establish =>
    case AppClose =>
      hide Emit;
  }

  /** In every run that feeds the queue from the callback alone, the queue stays below the watermark plus one fill. */
  lemma {:induction false} QueueBounded(moves: seq<Move>, n: nat)
    requires IsRun(START, moves) && FillsOnly(moves, n)
    ensures QueueUnder(After(START, moves).a, n) && QueueUnder(After(START, moves).b, n)
  {
    QueuesAlong(START, moves, n);
  }

  lemma {:induction false} QueuesAlong(s: Sys, moves: seq<Move>, n: nat)
    requires IsRun(s, moves) && FillsOnly(moves, n) && QueueUnder(s.a, n) && QueueUnder(s.b, n)
    ensures QueueUnder(After(s, moves).a, n) && QueueUnder(After(s, moves).b, n)
    decreases |moves|
  {
    hide Act, EndOk, CanMove;
    if moves != [] {
      if moves[0].byA {
        ActQueues(moves[0].act, s.a, s.b, n);
      } else {
        ActQueues(moves[0].act, s.b, s.a, n);
      }
      QueuesAlong(Next(s, moves[0]), moves[1..], n);
    }
  }

  // ---------------------------------------------------------------- a stream that is not ended

  ghost predicate NeverLast(moves: seq<Move>, byA: bool) {
    forall i | 0 <= i < |moves| :: moves[i].byA == byA && moves[i].act.Tock? ==> !moves[i].act.fill.last
  }

  /** The application has not queued its last byte, and nothing has been concluded. */
  predicate Unended(e: End) {
    !e.peer.tx.fillDone && !e.peer.tx.notified && e.completions == 0 && e.drains == 0
  }

  lemma ActUnended(act: Action, me: End, you: End)
    requires EndOk(me) && Unended(me) && (act.Tock? ==> !act.fill.last)
    ensures var r := Act(act, me, you);
            Unended(r.0) && r.1.peer == you.peer && r.1.completions == you.completions && r.1.drains == you.drains
  {
    match act
    case Receive(f, clk, salt) =>
      var m := Decode(f.bytes);
      hide Decode, RxOk, TxOk, OnData, Emit, Release, Requested;
      if m.Pack? {
        ReleaseFlags(me.peer.tx, m.ackPkt);
      }
    case Tock(fill, clk, salt) =>
      hide RxOk, TxOk, Emit, Packetize, MaybePack, Taken;
    case Establish =>
    case AppClose =>
      hide Emit;
    case AppSend(_) =>
  }

  /** Whatever else happens: an end whose callback never says -1 is never told of completion and never drains. */
  lemma {:induction false} UnendedNeverDrains(s: Sys, moves: seq<Move>, byA: bool)
    requires IsRun(s, moves) && NeverLast(moves, byA) && Unended(Snd(s, byA))
    ensures Unended(Snd(After(s, moves), byA))
    decreases |moves|
  {
    hide Act, EndOk, CanMove, Unended;
    if moves != [] {
      var m := moves[0];
      if m.byA == byA {
        ActUnended(m.act, Snd(s, byA), Rcv(s, byA));
      } else {
        OtherActs(m.act, Rcv(s, byA), Snd(s, byA));
      }
      UnendedNeverDrains(Next(s, m), moves[1..], byA);
    }
  }

  lemma OtherActs(act: Action, me: End, you: End)
    requires EndOk(me) && Unended(you)
    ensures Unended(Act(act, me, you).1)
  {
    hide Decode, RxOk, TxOk, Handle, Tick, Emit;
  }

  // ---------------------------------------------------------------- the counter of early bytes

  /** By how much the counter exceeds what is in the table. */
  ghost function Drift(rx: Rx): int {
    rx.ofoBytes - Buffered(rx.ofo)
  }

  lemma {:induction false} FlushDrift(rx: Rx)
    requires TableAhead(rx, 1) && BytesOk(rx)
    ensures Drift(Flush(rx)) == Drift(rx)
    decreases |rx.ofo|
  {
    hide Add32, TableAhead, BytesOk, Buffered;
    if Add32(rx.recvPkt, 1) in rx.ofo {
      TakeNextKeeps(rx);
      BufferedRemove(rx.ofo, Add32(rx.recvPkt, 1));
      FlushDrift(TakeNext(rx));
    }
  }

  /** An early packet that replaces its own copy. */
  predicate Replaces(rx: Rx, p: Pkt) {
    Early(rx, p) && p.num in rx.ofo && rx.ofoBytes + |p.data| <= OFO_MAX_BYTES
  }

  /** The counter never gets back the bytes of a copy that is replaced, and is exact about everything else. */
  lemma {:induction false} DriftGrows(rx: Rx, p: Pkt, clk: Clock)
    requires RxOk(rx)
    ensures Drift(OnData(rx, p, clk).rx) == Drift(rx) + if Replaces(rx, p) then |rx.ofo[p.num].data| else 0
  {
    hide Flush, IsBigger, Buffered;
    if p.num == Add32(rx.recvPkt, 1) {
      AcceptReady(rx, p);
      FlushDrift(Accept(rx, p));
    } else if Early(rx, p) && rx.ofoBytes + |p.data| <= OFO_MAX_BYTES {
      var more := rx.ofo[p.num := p];
      BufferedRemove(more, p.num);
      assert more - {p.num} == rx.ofo - {p.num};
      if p.num in rx.ofo {
        BufferedRemove(rx.ofo, p.num);
      } else {
        assert rx.ofo - {p.num} == rx.ofo;
      }
    }
    NextIsAhead(rx.recvPkt);
  }

  lemma ActDrifts(act: Action, me: End, you: End)
    requires EndOk(me)
    ensures var r := Act(act, me, you); Drift(r.0.peer.rx) >= Drift(me.peer.rx) && r.1.peer == you.peer
  {
    match act
    case Receive(f, clk, salt) =>
      var m := Decode(f.bytes);
      hide Decode, RxOk, TxOk, OnData, Emit, Release, Requested, Drift;
      if m.Data? {
        DriftGrows(me.peer.rx, Pkt(m.num, m.seqNum, m.data), clk);
      }
    case Tock(fill, clk, salt) =>
      hide Tick, Emit;
      if me.peer.state in {Established, Closing} {
        TickAcksIff(me.peer, fill, clk);
      } else {
        IdleTick(me.peer, fill, clk);
      }
    case Establish =>
    case AppClose =>
      hide Emit;
    case AppSend(_) =>
  }

  lemma {:induction false} DriftsAlong(s: Sys, moves: seq<Move>)
    requires IsRun(s, moves)
    ensures Drift(After(s, moves).a.peer.rx) >= Drift(s.a.peer.rx)
    ensures Drift(After(s, moves).b.peer.rx) >= Drift(s.b.peer.rx)
    decreases |moves|
  {
    hide Act, EndOk, CanMove, Drift;
    if moves != [] {
      if moves[0].byA {
        ActDrifts(moves[0].act, s.a, s.b);
      } else {
        ActDrifts(moves[0].act, s.b, s.a);
      }
      DriftsAlong(Next(s, moves[0]), moves[1..]);
    }
  }

  // ---------------------------------------------------------------- one early packet, again and again

  lemma EarlyAgain(snd: End, rcv: End, f: Flight)
    requires Inv2(snd, rcv) && EarlyFlight(f, snd) && Live(rcv)
    ensures EndOk(rcv) && Enabled(Receive(f, DUE, 0), rcv, snd)
    ensures var m := Decode(f.bytes); var p := Pkt(m.num, m.seqNum, m.data);
            var r := ReceiveAct(f, DUE, 0, rcv, snd);
            && Inv2(r.1, r.0) && r.1 == snd && Live(r.0) && RxOk(rcv.peer.rx) && Early(rcv.peer.rx, p)
            && r.0.peer.rx == OnData(rcv.peer.rx, p, DUE).rx
  {
    EarlyArrives(snd, rcv, f, DUE, 0);
    InvEnd(rcv, snd);
    var m := Decode(f.bytes);
    var p := Pkt(m.num, m.seqNum, m.data);
    hide TxRel, RxRel, DirOk, Decode, Encode, OnData, NetOk, CallbackOk, NackOf, Emit, TxOk;
    SentIsTrue(snd, rcv, f);
    EndsTrue(snd, rcv, f);
    FreshOrder(snd.peer.tx, rcv.peer.rx, snd.dir, m, f.at);
  }

  /** Moves of one end that read one datagram `n` times. */
  function Repeated(byA: bool, f: Flight, n: nat): seq<Move> {
    if n == 0 then [] else [Move(byA, Receive(f, DUE, 0))] + Repeated(byA, f, n - 1)
  }

  /** The packet a DATA datagram carries. */
  function PktOf(f: Flight): Pkt
    requires Decode(f.bytes).Data?
  {
    var m := Decode(f.bytes);
    Pkt(m.num, m.seqNum, m.data)
  }

  /** One copy that fits. */
  lemma OneCopy(rx: Rx, p: Pkt)
    requires RxOk(rx) && Early(rx, p) && rx.ofoBytes + |p.data| <= OFO_MAX_BYTES
    ensures var t := OnData(rx, p, DUE).rx;
            t == rx.(ofo := rx.ofo[p.num := p], ofoBytes := rx.ofoBytes + |p.data|)
  {
    hide IsBigger, Add32, Buffered;
  }

  /** What holds while the datagram is read again and again. */
  ghost predicate Arriving(s: Sys, fromA: bool, f: Flight) {
    Inv(s) && EarlyFlight(f, Snd(s, fromA)) && Live(Rcv(s, fromA))
  }

  lemma CopyOnce(s: Sys, fromA: bool, f: Flight) returns (u: Sys)
    requires Arriving(s, fromA, f) && Decode(f.bytes).Data?
    requires Rcv(s, fromA).peer.rx.ofoBytes + |PktOf(f).data| <= OFO_MAX_BYTES
    ensures var m := Move(!fromA, Receive(f, DUE, 0)); IsRun(s, [m]) && After(s, [m]) == u
    ensures Arriving(u, fromA, f) && Snd(u, fromA) == Snd(s, fromA)
    ensures var before, p := Rcv(s, fromA).peer.rx, PktOf(f);
            Rcv(u, fromA).peer.rx == Copied(before, p, 1)
  {
    hide IsRun, After, Inv2, Decode, ReceiveAct, EndOk, Enabled, OnData, RxOk, Early;
    InvBoth(s, fromA);
    EarlyAgain(Snd(s, fromA), Rcv(s, fromA), f);
    OneCopy(Rcv(s, fromA).peer.rx, PktOf(f));
    InvBoth(s, !fromA);
    u := ReceiveMove(s, !fromA, f, DUE, 0);
  }

  /** The receive half after `n` copies of an early packet. */
  function Copied(rx: Rx, p: Pkt, n: nat): Rx {
    if n == 0 then rx else rx.(ofo := rx.ofo[p.num := p], ofoBytes := rx.ofoBytes + n * |p.data|)
  }

  lemma CopiedMore(rx: Rx, p: Pkt, n: nat)
    requires n > 0
    ensures Copied(Copied(rx, p, 1), p, n - 1) == Copied(rx, p, n)
    ensures rx.ofoBytes + |p.data| == Copied(rx, p, 1).ofoBytes <= rx.ofoBytes + n * |p.data|
    ensures Copied(rx, p, 1).ofoBytes + (n - 1) * |p.data| == rx.ofoBytes + n * |p.data|
  {
    assert n * |p.data| == |p.data| + (n - 1) * |p.data|;
    assert rx.ofo[p.num := p][p.num := p] == rx.ofo[p.num := p];
  }

  /** A receiver that reads one early datagram `n` times keeps one packet and counts `n`. */
  lemma {:induction false} CopiesCount(s: Sys, fromA: bool, f: Flight, n: nat) returns (t: Sys)
    requires Arriving(s, fromA, f) && Decode(f.bytes).Data?
    requires Rcv(s, fromA).peer.rx.ofoBytes + n * |PktOf(f).data| <= OFO_MAX_BYTES
    ensures var ms := Repeated(!fromA, f, n); IsRun(s, ms) && After(s, ms) == t
    ensures Arriving(t, fromA, f) && Snd(t, fromA) == Snd(s, fromA)
    ensures Rcv(t, fromA).peer.rx == Copied(Rcv(s, fromA).peer.rx, PktOf(f), n)
    decreases n
  {
    hide IsRun, After, Decode, Arriving, PktOf, Copied, Snd, Rcv;
    if n == 0 {
      NoMoves(s);
      t := s;
      NoCopies(Rcv(s, fromA).peer.rx, PktOf(f));
    } else {
      CopiedMore(Rcv(s, fromA).peer.rx, PktOf(f), n);
      var u := CopyOnce(s, fromA, f);
      t := CopiesCount(u, fromA, f, n - 1);
      RunAppend(s, [Move(!fromA, Receive(f, DUE, 0))], Repeated(!fromA, f, n - 1));
    }
  }

  lemma NoCopies(rx: Rx, p: Pkt)
    ensures Copied(rx, p, 0) == rx
  {
  }

  lemma TableBytes(rx: Rx, p: Pkt, n: nat)
    requires p.num !in rx.ofo && n > 0 && BytesOk(rx)
    ensures Drift(rx.(ofo := rx.ofo[p.num := p], ofoBytes := rx.ofoBytes + n * |p.data|)) >= (n - 1) * |p.data|
  {
    BufferedReplace(rx.ofo, p.num, p);
    assert n * |p.data| == |p.data| + (n - 1) * |p.data|;
  }

  lemma BytesAlways(s: Sys, fromA: bool)
    requires Inv(s)
    ensures BytesOk(Rcv(s, fromA).peer.rx)
  {
    InvSys(s);
    hide TxOk, Buffered, Inv2, TableAhead;
  }

  /**
   * Every run can waste the room for early packets: where `n` copies of one that is not in the table still fit,
   * the network delivers them, and from then on, whatever follows, `n - 1` times its bytes are never available
   * again, though the table never held it more than once.
   */
  lemma {:induction false} RoomIsLost(moves: seq<Move>, fromA: bool, f: Flight, n: nat, rest: seq<Move>)
    requires IsRun(START, moves) && n > 0
    requires var s := After(START, moves);
             && EarlyFlight(f, Snd(s, fromA)) && Live(Rcv(s, fromA)) && PktOf(f).num !in Rcv(s, fromA).peer.rx.ofo
             && Rcv(s, fromA).peer.rx.ofoBytes + n * |PktOf(f).data| <= OFO_MAX_BYTES
    ensures var s := After(START, moves); var ms := Repeated(!fromA, f, n);
            && IsRun(s, ms)
            && var t := After(s, ms); var held := Rcv(t, fromA).peer.rx.ofo;
               && held == Rcv(s, fromA).peer.rx.ofo[PktOf(f).num := PktOf(f)]
               && (IsRun(t, rest) ==>
                     Buffered(Rcv(After(t, rest), fromA).peer.rx.ofo) <= OFO_MAX_BYTES - (n - 1) * |PktOf(f).data|)
  {
    hide IsRun, After, Inv, Decode, Buffered;
    StartInv();
    RunKeeps(START, moves);
    var s := After(START, moves);
    var t := CopiesCount(s, fromA, f, n);
    BytesAlways(s, fromA);
    TableBytes(Rcv(s, fromA).peer.rx, PktOf(f), n);
    if IsRun(t, rest) {
      RunKeeps(t, rest);
      DriftsAlong(t, rest);
      BytesAlways(After(t, rest), fromA);
    }
  }
}
