/**
 * Two fillp peers and the network between them. Every datagram ever emitted stays available:
 * it may be received never, once, or many times, in any order. A run is any list of actions.
 */
module FillpNet {
  import opened Bytes
  import opened Num32
  import opened FillpFrame
  import opened FillpCore
  import opened FillpLink

  /** A datagram on the wire, stamped with the packets cut in its direction when it was emitted. */
  datatype Flight = Flight(at: nat, bytes: seq<byte>)

  /** One end: the peer, all it ever emitted, the history of its outgoing stream, its callbacks. */
  datatype End = End(peer: Peer, out: set<Flight>, dir: Dir, completions: nat, drains: nat)

  datatype Sys = Sys(a: End, b: End)

  const FRESH_END := End(FRESH_PEER, {}, FRESH_DIR, 0, 0)
  const START := Sys(FRESH_END, FRESH_END)

  datatype Action =
    | Establish                                   // the handshake ends
    | AppClose
    | AppSend(bytes: seq<byte>)                   // fillp_peer_send
    | Receive(flight: Flight, clk: Clock, salt: u64)
    | Tock(fill: Fill, clk: Clock, salt: u64)     // the 1 ms tick

  /** Acknowledgements are stamped in the direction they acknowledge. */
  function Stamp(m: Msg, own: Dir, peer: Dir): nat {
    if m.Data? then |own.pkts| else |peer.pkts|
  }

  function Emit(ms: seq<Msg>, own: Dir, peer: Dir, salt: u64): set<Flight> {
    set m | m in ms && Sendable(m) :: Flight(Stamp(m, own, peer), Encode(m, salt))
  }

  predicate Enabled(act: Action, me: End, you: End) {
    match act
    case Establish => me.peer.state == Pending
    case Receive(f, _, _) =>
      && f in you.out
      && (Decode(f.bytes).Data? ==> Fresh(f.at, you.dir)) && (Decode(f.bytes).Pack? ==> Fresh(f.at, me.dir))
    case _ => true
  }

  /** What the queue takes from a fill callback: nothing outside ESTABLISHED. */
  function Taken(p: Peer, fill: Fill): seq<byte> {
    if WantsFill(p) && p.state == Established then fill.bytes else []
  }

  ghost predicate EndOk(e: End) {
    PeerOk(e.peer)
  }

  /** One action of `me`; the only thing it changes about `you` is the history of what arrived. */
  function Act(act: Action, me: End, you: End): (r: (End, End))
    requires EndOk(me)
  {
    match act
    case Establish => (me.(peer := me.peer.(state := Established)), you)
    case AppClose =>
      var r := RequestClose(me.peer);
      (me.(peer := r.peer, out := me.out + Emit(r.out, me.dir, you.dir, 0)), you)
    case AppSend(bytes) =>
      var more := if me.peer.state == Established then bytes else [];
      (me.(peer := PeerSend(me.peer, bytes), dir := me.dir.(queued := me.dir.queued + more)), you)
    case Receive(f, clk, salt) =>
      ReceiveAct(f, clk, salt, me, you)
    case Tock(fill, clk, salt) =>
      TockAct(fill, clk, salt, me, you)
  }

  function ReceiveAct(f: Flight, clk: Clock, salt: u64, me: End, you: End): (End, End)
    requires EndOk(me)
  {
    var r := Handle(me.peer, Decode(f.bytes), clk);
    var own := me.dir.(released := me.dir.released + Shrunk(me.peer.tx.inflight, r.peer.tx.inflight));
    var peer := Advanced(you.dir, me.peer.rx, r.peer.rx);
    (me.(peer := r.peer, dir := own, out := me.out + Emit(r.out, own, peer, salt)), you.(dir := peer))
  }

  function TockAct(fill: Fill, clk: Clock, salt: u64, me: End, you: End): (End, End)
    requires EndOk(me)
  {
    var r := Tick(me.peer, fill, clk);
    var own := if me.peer.state in {Established, Closing} then
                 var q := me.dir.(queued := me.dir.queued + Taken(me.peer, fill));
                 q.(pkts := q.pkts + Payloads(Grown(me.peer.tx.inflight, r.peer.tx.inflight)))
               else me.dir;
    (me.(peer := r.peer, dir := own, out := me.out + Emit(r.out, own, you.dir, salt),
         completions := me.completions + (if r.completed then 1 else 0),
         drains := me.drains + (if r.drained then 1 else 0)), you)
  }

  function Shrunk(before: seq<Pkt>, after: seq<Pkt>): nat {
    if |after| <= |before| then |before| - |after| else 0
  }

  function Grown(before: seq<Pkt>, after: seq<Pkt>): seq<Pkt> {
    if |before| <= |after| then after[|before|..] else []
  }

  /** A move: which end acts, and how. */
  datatype Move = Move(byA: bool, act: Action)

  ghost predicate SysOk(s: Sys) {
    EndOk(s.a) && EndOk(s.b)
  }

  predicate CanMove(s: Sys, m: Move) {
    if m.byA then Enabled(m.act, s.a, s.b) else Enabled(m.act, s.b, s.a)
  }

  function Next(s: Sys, m: Move): Sys
    requires SysOk(s)
  {
    if m.byA then var r := Act(m.act, s.a, s.b); Sys(r.0, r.1)
    else var r := Act(m.act, s.b, s.a); Sys(r.1, r.0)
  }

  // ---------------------------------------------------------------- the invariant

  /** A datagram in the network tells the truth about the streams. */
  ghost predicate FlightOk(f: Flight, own: Dir, peer: Dir) {
    var m := Decode(f.bytes);
    (m.Data? ==> DataOk(m, f.at, own)) && (m.Pack? ==> AckOk(m, f.at, peer))
  }

  /** The stream from `snd` to `rcv`: both 32-bit halves agree with its history. */
  ghost predicate Link(snd: End, rcv: End) {
    DirOk(snd.dir) && TxRel(snd.peer.tx, snd.dir) && RxRel(rcv.peer.rx, snd.dir)
  }

  ghost predicate NetOk(snd: End, rcv: End) {
    forall f :: f in snd.out ==> FlightOk(f, snd.dir, rcv.dir)
  }

  /** The tx-complete callback fired exactly when the flag says so. */
  ghost predicate CallbackOk(e: End) {
    && e.completions == (if e.peer.tx.notified then 1 else 0)
    && e.drains <= 1 && (e.drains == 1 ==> e.peer.state == Closed)
  }

  ghost predicate Inv2(me: End, you: End) {
    && Link(me, you) && Link(you, me) && NetOk(me, you) && NetOk(you, me)
    && CallbackOk(me) && CallbackOk(you)
  }

  ghost predicate Inv(s: Sys) {
    Inv2(s.a, s.b)
  }

  lemma InvEnd(me: End, you: End)
    requires Inv2(me, you)
    ensures EndOk(me)
  {
  }

  lemma InvSys(s: Sys)
    requires Inv(s)
    ensures SysOk(s)
  {
  }

  lemma StartInv()
    ensures Inv(START)
  {
    assert TxRel(FRESH_TX, FRESH_DIR);
    assert RxRel(FRESH_RX, FRESH_DIR);
    hide TxRel, RxRel;
  }

  lemma AckOkStable(m: Msg, at: nat, d: Dir, e: Dir)
    requires AckOk(m, at, d) && Extends(d, e)
    ensures AckOk(m, at, e)
  {
  }

  lemma NetGrows(out: set<Flight>, own: Dir, peer: Dir, own': Dir, peer': Dir)
    requires forall f :: f in out ==> FlightOk(f, own, peer)
    requires Extends(own, own') && Extends(peer, peer')
    ensures forall f :: f in out ==> FlightOk(f, own', peer')
  {
    forall f | f in out
      ensures FlightOk(f, own', peer')
    {
      var m := Decode(f.bytes);
      hide Extends, DataOk, AckOk, Decode;
      assert FlightOk(f, own, peer);
      if m.Data? {
        DataOkStable(m, f.at, own, own');
      }
      if m.Pack? {
        AckOkStable(m, f.at, peer, peer');
      }
    }
  }

  /** Which messages an end may emit. */
  ghost predicate Honest(ms: seq<Msg>, own: Dir, peer: Dir) {
    forall m :: m in ms ==>
      && (m.Data? ==> DataOk(m, |own.pkts|, own)) && (m.Pack? ==> AckOk(m, |peer.pkts|, peer))
  }

  lemma EmitHonest(ms: seq<Msg>, own: Dir, peer: Dir, salt: u64)
    requires Honest(ms, own, peer)
    ensures forall f :: f in Emit(ms, own, peer, salt) ==> FlightOk(f, own, peer)
  {
    forall f | f in Emit(ms, own, peer, salt)
      ensures FlightOk(f, own, peer)
    {
      hide DataOk, AckOk, Decode, Encode;
      var m :| m in ms && Sendable(m) && f == Flight(Stamp(m, own, peer), Encode(m, salt));
      RoundTrip(m, salt);
    }
  }

  /** The network after `own` and `peer` grew and honest messages were added. */
  lemma NetStep(out: set<Flight>, own: Dir, peer: Dir, own': Dir, peer': Dir, ms: seq<Msg>, salt: u64)
    requires forall f :: f in out ==> FlightOk(f, own, peer)
    requires Extends(own, own') && Extends(peer, peer') && Honest(ms, own', peer')
    ensures forall f :: f in out + Emit(ms, own', peer', salt) ==> FlightOk(f, own', peer')
  {
    hide Extends, FlightOk, Honest, Emit;
    NetGrows(out, own, peer, own', peer');
    EmitHonest(ms, own', peer', salt);
  }

  // ---------------------------------------------------------------- the invariant is kept

  /** The histories only grow from `me, you` to `r`. */
  ghost predicate Grew(me: End, you: End, r: (End, End)) {
    Extends(me.dir, r.0.dir) && Extends(you.dir, r.1.dir)
  }

  /** What every action has to show. */
  lemma Assemble(me: End, you: End, me': End, you': End, ms: seq<Msg>, salt: u64)
    requires NetOk(me, you) && NetOk(you, me)
    requires Extends(me.dir, me'.dir) && Extends(you.dir, you'.dir)
    requires Link(me', you') && Link(you', me')
    requires Honest(ms, me'.dir, you'.dir) && me'.out == me.out + Emit(ms, me'.dir, you'.dir, salt)
    requires you'.out == you.out && CallbackOk(me') && CallbackOk(you')
    ensures Inv2(me', you')
  {
    hide Link, CallbackOk, Extends, FlightOk, Honest, Emit;
    NetStep(me.out, me.dir, you.dir, me'.dir, you'.dir, ms, salt);
    NetGrows(you.out, you.dir, me.dir, you'.dir, me'.dir);
  }

  /** An action that leaves both streams alone. */
  lemma QuietKeeps(me: End, you: End, me': End, ms: seq<Msg>, salt: u64)
    requires Inv2(me, you)
    requires me'.peer.tx == me.peer.tx && me'.peer.rx == me.peer.rx && me'.dir == me.dir
    requires me'.completions == me.completions && me'.drains == me.drains
    requires me.peer.state == Closed ==> me'.peer.state == Closed
    requires Honest(ms, me.dir, you.dir) && me'.out == me.out + Emit(ms, me.dir, you.dir, salt)
    ensures Inv2(me', you)
  {
    hide TxRel, RxRel, DirOk, NetOk, Honest, Emit;
    Assemble(me, you, me', you, ms, salt);
  }

  lemma ReceiveKeepsData(f: Flight, clk: Clock, salt: u64, me: End, you: End)
    requires Inv2(me, you) && Enabled(Receive(f, clk, salt), me, you) && Decode(f.bytes).Data?
    requires me.peer.state in {Established, Closing}
    ensures var r := ReceiveAct(f, clk, salt, me, you); Inv2(r.0, r.1) && Grew(me, you, r)
  {
    hide Decode, TxRel, RxRel, DirOk, DataOk, AckOk, OnData, Emit, Honest, TxOk, RxOk;
    var m := Decode(f.bytes);
    RelOk(me.peer.tx, me.peer.rx, me.dir, you.dir);
    var r := ReceiveAct(f, clk, salt, me, you);
    assert FlightOk(f, you.dir, me.dir);
    OnDataRel(you.peer.tx, me.peer.rx, you.dir, m, f.at, clk);
    var s := OnData(me.peer.rx, Pkt(m.num, m.seqNum, m.data), clk);
    assert r.0.peer == me.peer.(rx := s.rx);
    assert r.1.dir == Advanced(you.dir, me.peer.rx, s.rx);
    assert r.0.dir == me.dir;
    OnDataHonest(you.peer.tx, me.peer.rx, you.dir, m, f.at, clk, me.dir);
    Assemble(me, you, r.0, r.1, s.out, salt);
  }

  /** What a receiver answers to DATA is a truthful PACK or a NACK. */
  lemma OnDataHonest(tx: Tx, rx: Rx, d: Dir, m: Msg, at: nat, clk: Clock, own: Dir)
    requires TxRel(tx, d) && RxRel(rx, d) && DirOk(d)
    requires DataOk(m, at, d) && Fresh(at, d)
    ensures var r := OnData(rx, Pkt(m.num, m.seqNum, m.data), clk);
            Honest(r.out, own, Advanced(d, rx, r.rx))
  {
    OnDataRel(tx, rx, d, m, at, clk);
    var r := OnData(rx, Pkt(m.num, m.seqNum, m.data), clk);
    var e := Advanced(d, rx, r.rx);
    OnDataOut(rx, Pkt(m.num, m.seqNum, m.data), clk);
    hide TxRel, RxRel, DirOk, DataOk, AckOk, OnData, PackOf;
    PackIsHonest(tx, r.rx, e);
  }

  lemma OnDataOut(rx: Rx, p: Pkt, clk: Clock)
    requires RxOk(rx)
    ensures forall m :: m in OnData(rx, p, clk).out ==> m.Nack? || m == PackOf(OnData(rx, p, clk).rx)
  {
    hide RxOk, Flush;
  }

  lemma ReceiveKeepsPack(f: Flight, clk: Clock, salt: u64, me: End, you: End)
    requires Inv2(me, you) && Enabled(Receive(f, clk, salt), me, you) && Decode(f.bytes).Pack?
    requires me.peer.state in {Established, Closing}
    ensures var r := ReceiveAct(f, clk, salt, me, you); Inv2(r.0, r.1) && Grew(me, you, r)
  {
    hide Decode, TxRel, RxRel, DirOk, AckOk, Emit, Release, TxOk, RxOk;
    var m := Decode(f.bytes);
    RelOk(me.peer.tx, me.peer.rx, me.dir, you.dir);
    var r := ReceiveAct(f, clk, salt, me, you);
    assert FlightOk(f, you.dir, me.dir);
    OnPackRel(me.peer.tx, me.dir, m, f.at);
    ReleaseFlags(me.peer.tx, m.ackPkt);
    RxRelStable(you.peer.rx, me.dir, r.0.dir);
    var tx := Release(me.peer.tx, m.ackPkt);
    assert r.0.peer == me.peer.(tx := tx);
    assert r.0.dir == Freed(me.dir, me.peer.tx, tx);
    assert r.1.dir == you.dir;
    Assemble(me, you, r.0, r.1, [], salt);
  }

  lemma {:induction false} ReleaseFlags(tx: Tx, ack: u32)
    requires TxOk(tx)
    ensures Release(tx, ack).notified == tx.notified && Release(tx, ack).fillDone == tx.fillDone
    ensures Release(tx, ack).txq == tx.txq
    decreases |tx.inflight|
  {
    hide IsBigger;
    if tx.inflight != [] && !IsBigger(tx.inflight[0].num, ack) {
      ReleaseFlags(DropFirst(tx), ack);
    }
  }

  lemma {:induction false} RequestedInWindow(ps: seq<Pkt>, begin: u32, end: u32)
    ensures forall m :: m in Requested(ps, begin, end) ==> exists p :: p in ps && m == DataOf(p)
  {
    hide IsBigger;
    if ps != [] {
      RequestedInWindow(ps[1..], begin, end);
    }
  }

  /** A retransmission, however stale the NACK, only repeats what is in the window. */
  lemma RequestedHonest(tx: Tx, own: Dir, peer: Dir, begin: u32, end: u32)
    requires TxRel(tx, own)
    ensures Honest(Requested(tx.inflight, begin, end), own, peer)
  {
    RequestedInWindow(tx.inflight, begin, end);
    hide Requested, TxRel, DataOk;
    forall p | p in tx.inflight
      ensures DataOk(DataOf(p), |own.pkts|, own)
    {
      WindowIsSendable(tx, own, p);
    }
  }

  lemma ReceiveKeeps(f: Flight, clk: Clock, salt: u64, me: End, you: End)
    requires Inv2(me, you) && Enabled(Receive(f, clk, salt), me, you)
    ensures var r := ReceiveAct(f, clk, salt, me, you); Inv2(r.0, r.1) && Grew(me, you, r)
  {
    var m := Decode(f.bytes);
    var live := me.peer.state in {Established, Closing};
    if m.Data? && live {
      ReceiveKeepsData(f, clk, salt, me, you);
    } else if m.Pack? && live {
      ReceiveKeepsPack(f, clk, salt, me, you);
    } else {
      if m.Nack? {
        RequestedHonest(me.peer.tx, me.dir, you.dir, m.begin, m.end);
      }
      hide Decode, TxRel, RxRel, DirOk, NetOk, Emit, Requested;
      var r := ReceiveAct(f, clk, salt, me, you);
      assert r.0.dir == me.dir && r.1 == you;
      QuietKeeps(me, you, r.0, Handle(me.peer, m, clk).out, salt);
    }
  }

  // ---------------------------------------------------------------- the tick

  lemma QueueRel(tx: Tx, d: Dir, bytes: seq<byte>)
    requires TxRel(tx, d) && DirOk(d)
    ensures var e := d.(queued := d.queued + bytes);
            TxRel(tx.(txq := tx.txq + bytes), e) && DirOk(e) && Extends(d, e)
  {
    hide Wrap, Flat;
    assert d.queued + bytes == Flat(d.pkts) + (tx.txq + bytes);
  }

  lemma FillRel(p: Peer, d: Dir, fill: Fill)
    requires TxRel(p.tx, d) && DirOk(d)
    ensures var e := d.(queued := d.queued + Taken(p, fill));
            TxRel(FillStep(p, fill).tx, e) && DirOk(e) && Extends(d, e)
  {
    QueueRel(p.tx, d, Taken(p, fill));
    hide Wrap, Flat;
    assert p.tx.txq + [] == p.tx.txq && d.queued + [] == d.queued;
  }

  lemma PumpTxRel(tx: Tx, own: Dir, peer: Dir, clk: Clock)
    requires TxRel(tx, own) && DirOk(own)
    ensures var r := PumpTx(tx, clk);
            && |tx.inflight| <= |r.0.inflight|
            && r.0.fillDone == tx.fillDone && r.0.notified == tx.notified
            && var e := Cut(own, tx, r.0);
               TxRel(r.0, e) && DirOk(e) && Extends(own, e) && Honest(r.1, e, peer)
  {
    hide TxRel, DirOk, Packetize, Cut, DataOk, Extends, TxOk;
    RelOk(tx, FRESH_RX, own, own);
    PacketizeRel(tx, own, SEND_BUDGET);
    var r := PumpTx(tx, clk);
    var e := Cut(own, tx, r.0);
    forall m | m in r.1
      ensures m.Data? && DataOk(m, |e.pkts|, e)
    {
      var p :| p in r.0.inflight && m == DataOf(p);
      WindowIsSendable(r.0, e, p);
    }
  }

  lemma TockKeeps(fill: Fill, clk: Clock, salt: u64, me: End, you: End)
    requires Inv2(me, you)
    ensures var r := TockAct(fill, clk, salt, me, you); Inv2(r.0, r.1) && Grew(me, you, r)
  {
    if me.peer.state in {Established, Closing} {
      PumpKeeps(fill, clk, salt, me, you);
    } else {
      hide Decode, TxRel, RxRel, DirOk, FlightOk, Emit;
      QuietKeeps(me, you, TockAct(fill, clk, salt, me, you).0, [], salt);
    }
  }

  lemma AckRel(tx: Tx, rx: Rx, e: Dir, own: Dir, clk: Clock)
    requires TxRel(tx, e) && RxRel(rx, e) && DirOk(e)
    ensures var r := MaybePack(rx, clk); RxRel(r.rx, e) && Honest(r.out, own, e)
  {
    PackIsHonest(tx, rx, e);
    hide AckOk, TxRel, DirOk;
    assert RxRel(rx.(sincePack := 0), e);
    hide RxRel;
  }

  lemma FlagRel(tx: Tx, d: Dir, notified: bool)
    requires TxRel(tx, d)
    ensures TxRel(tx.(notified := notified), d)
  {
    hide Wrap, Flat, SumLen;
  }

  lemma SettleHonest(p: Peer, tx: Tx, ack: RxStep, datas: seq<Msg>, own: Dir, peer: Dir)
    requires Honest(datas, own, peer) && Honest(ack.out, own, peer)
    ensures Honest(Settle(p, tx, ack, datas).out, own, peer)
  {
    hide DataOk, AckOk;
  }

  /** The send half after a pump, its history, and the datagrams the pump emits. */
  lemma PumpRel(fill: Fill, clk: Clock, p: Peer, d: Dir, tx: Tx, e: Dir)
    requires TxRel(p.tx, d) && RxRel(p.rx, e) && DirOk(d) && DirOk(e) && TxRel(tx, e)
    ensures var r := Pump(p, fill, clk);
            && |p.tx.inflight| <= |r.peer.tx.inflight|
            && RxRel(r.peer.rx, e)
            && r.completed == (Drained(r.peer.tx) && !p.tx.notified)
            && r.peer.tx.notified == (p.tx.notified || r.completed)
            && var own := Cut(d.(queued := d.queued + Taken(p, fill)), p.tx, r.peer.tx);
               TxRel(r.peer.tx, own) && DirOk(own) && Extends(d, own) && Honest(r.out, own, e)
  {
    var p1 := FillStep(p, fill);
    var q := d.(queued := d.queued + Taken(p, fill));
    assert p1.tx.notified == p.tx.notified && p1.tx.inflight == p.tx.inflight;
    FillRel(p, d, fill);
    hide TxRel, RxRel, DirOk, DataOk, AckOk, PumpTx, MaybePack, Honest, FillStep;
    PumpTxRel(p1.tx, q, e, clk);
    var pumped := PumpTx(p1.tx, clk);
    var own := Cut(q, p1.tx, pumped.0);
    AckRel(tx, p.rx, e, own, clk);
    var ack := MaybePack(p.rx, clk);
    SettleHonest(p1, pumped.0, ack, pumped.1, own, e);
    FlagRel(pumped.0, own, pumped.0.notified || (Drained(pumped.0) && !pumped.0.notified));
    assert Pump(p, fill, clk) == Settle(p1, pumped.0, ack, pumped.1);
  }

  lemma PumpLinks(fill: Fill, clk: Clock, salt: u64, me: End, you: End)
    requires Link(me, you) && Link(you, me) && me.peer.state in {Established, Closing}
    ensures var r := TockAct(fill, clk, salt, me, you).0;
            && Link(r, you) && Link(you, r) && Extends(me.dir, r.dir) && Extends(you.dir, you.dir)
            && Honest(Pump(me.peer, fill, clk).out, r.dir, you.dir)
  {
    hide Pump, TxRel, RxRel, DirOk, Emit, Honest, Taken, CloseDrained, PktAt, Flat, TxOk, RxOk, Extends;
    RelOk(me.peer.tx, me.peer.rx, me.dir, you.dir);
    var r := TockAct(fill, clk, salt, me, you).0;
    PumpRel(fill, clk, me.peer, me.dir, you.peer.tx, you.dir);
    var s := Pump(me.peer, fill, clk);
    assert r.peer.tx == s.peer.tx && r.peer.rx == s.peer.rx;
    assert r.dir == Cut(me.dir.(queued := me.dir.queued + Taken(me.peer, fill)), me.peer.tx, s.peer.tx);
    RxRelStable(you.peer.rx, me.dir, r.dir);
    ExtendsSelf(you.dir);
  }

  lemma ExtendsSelf(d: Dir)
    requires DirOk(d)
    ensures Extends(d, d)
  {
  }

  lemma PumpCallbacks(fill: Fill, clk: Clock, salt: u64, me: End, you: End)
    requires EndOk(me) && CallbackOk(me) && me.peer.state in {Established, Closing}
    ensures CallbackOk(TockAct(fill, clk, salt, me, you).0)
  {
    hide Packetize, RxOk, TxOk, Emit, Taken;
  }

  lemma PumpKeeps(fill: Fill, clk: Clock, salt: u64, me: End, you: End)
    requires Inv2(me, you) && me.peer.state in {Established, Closing}
    ensures var r := TockAct(fill, clk, salt, me, you); Inv2(r.0, r.1) && Grew(me, you, r)
  {
    hide Pump, Link, NetOk, CallbackOk, Emit, Honest, Taken, CloseDrained, TxOk, RxOk, Extends, Cut, Payloads;
    InvEnd(me, you);
    PumpLinks(fill, clk, salt, me, you);
    PumpCallbacks(fill, clk, salt, me, you);
    var r := TockAct(fill, clk, salt, me, you);
    Assemble(me, you, r.0, r.1, Pump(me.peer, fill, clk).out, salt);
  }

  lemma {:induction false} ActKeeps(act: Action, me: End, you: End)
    requires Inv2(me, you) && Enabled(act, me, you)
    ensures var r := Act(act, me, you); Inv2(r.0, r.1) && Grew(me, you, r)
  {
    match act
    case Receive(f, clk, salt) =>
      ReceiveKeeps(f, clk, salt, me, you);
    case Tock(fill, clk, salt) =>
      TockKeeps(fill, clk, salt, me, you);
    case AppSend(bytes) =>
      AppSendKeeps(bytes, me, you);
    case Establish =>
      hide TxRel, RxRel, DirOk, NetOk, Emit;
      QuietKeeps(me, you, Act(act, me, you).0, [], 0);
    case AppClose =>
      hide TxRel, RxRel, DirOk, NetOk, Emit;
      QuietKeeps(me, you, Act(act, me, you).0, RequestClose(me.peer).out, 0);
  }

  lemma AppSendKeeps(bytes: seq<byte>, me: End, you: End)
    requires Inv2(me, you)
    ensures var r := Act(AppSend(bytes), me, you); Inv2(r.0, r.1) && Grew(me, you, r)
  {
    var r := Act(AppSend(bytes), me, you);
    var more := if me.peer.state == Established then bytes else [];
    QueueRel(me.peer.tx, me.dir, more);
    RxRelStable(you.peer.rx, me.dir, r.0.dir);
    assert me.peer.tx.txq + [] == me.peer.tx.txq;
    hide TxRel, RxRel, DirOk, NetOk, Emit;
    Assemble(me, you, r.0, r.1, [], 0);
  }

  // ---------------------------------------------------------------- runs

  ghost predicate IsRun(s: Sys, moves: seq<Move>)
    decreases |moves|
  {
    moves == [] || (SysOk(s) && CanMove(s, moves[0]) && IsRun(Next(s, moves[0]), moves[1..]))
  }

  function After(s: Sys, moves: seq<Move>): Sys
    requires IsRun(s, moves)
    decreases |moves|
  {
    if moves == [] then s else After(Next(s, moves[0]), moves[1..])
  }

  lemma MoveKeeps(s: Sys, m: Move)
    requires Inv(s) && CanMove(s, m)
    ensures SysOk(s) && Inv(Next(s, m))
    ensures Extends(s.a.dir, Next(s, m).a.dir) && Extends(s.b.dir, Next(s, m).b.dir)
  {
    InvSys(s);
    if m.byA {
      ActKeeps(m.act, s.a, s.b);
    } else {
      ActKeeps(m.act, s.b, s.a);
    }
    hide Act, Link, NetOk, Extends, Enabled;
  }

  /** The invariant holds along every run, and the histories only grow. */
  lemma {:induction false} RunKeeps(s: Sys, moves: seq<Move>)
    requires Inv(s) && IsRun(s, moves)
    ensures Inv(After(s, moves))
    ensures Extends(s.a.dir, After(s, moves).a.dir) && Extends(s.b.dir, After(s, moves).b.dir)
    decreases |moves|
  {
    hide Inv, Next;
    if moves != [] {
      MoveKeeps(s, moves[0]);
      RunKeeps(Next(s, moves[0]), moves[1..]);
    }
  }

  lemma {:induction false} RunAppend(s: Sys, first: seq<Move>, second: seq<Move>)
    requires IsRun(s, first) && IsRun(After(s, first), second)
    ensures IsRun(s, first + second) && After(s, first + second) == After(After(s, first), second)
    decreases |first|
  {
    hide Next, SysOk, CanMove;
    if first == [] {
      assert first + second == second;
    } else {
      RunAppend(Next(s, first[0]), first[1..], second);
      assert (first + second)[1..] == first[1..] + second;
    }
  }
}
