/**
 * The fillp data plane (src/proto/fillp_conn.c) as functions on values: what each handler does
 * to the send half and the receive half of a peer, and which datagrams it emits.
 * Elapsed-time tests are parameters (`Clock`), so every timing is covered.
 */
module FillpCore {
  import opened Bytes
  import opened Num32
  import opened FillpFrame

  const SEND_CACHE: nat := 262144
  const OFO_MAX_BYTES: nat := 2097152
  const PACK_FLUSH_BYTES: nat := 65536
  const TXQ_WATERMARK: nat := 65536
  const SEND_BUDGET: nat := 32

  datatype Pkt = Pkt(num: u32, seqNum: u32, data: seq<byte>)

  datatype Tx = Tx(sendPkt: u32, sendSeq: u32, txq: seq<byte>, inflight: seq<Pkt>, inflightBytes: nat,
                   fillDone: bool, notified: bool)

  /** `delivered` logs the bytes handed to the application so far. */
  datatype Rx = Rx(recvPkt: u32, recvSeq: u32, ofo: map<u32, Pkt>, ofoBytes: nat, sincePack: nat,
                   delivered: seq<byte>)

  datatype State = Pending | Established | Closing | Closed

  datatype Peer = Peer(state: State, tx: Tx, rx: Rx, peerFin: bool, pendingFin: bool)

  /** Which of the elapsed-time tests succeed in this step. */
  datatype Clock = Clock(packDue: bool, reackDue: bool, nackDue: bool, stallDue: bool, closeDue: bool)

  /** What the fill callback did: the bytes it passed to `fillp_peer_send`, and whether it returned -1. */
  datatype Fill = Fill(bytes: seq<byte>, last: bool)

  const FRESH_TX := Tx(0, 0, [], [], 0, false, false)
  const FRESH_RX := Rx(0, 0, map[], 0, 0, [])
  const FRESH_PEER := Peer(Pending, FRESH_TX, FRESH_RX, false, false)

  // ---------------------------------------------------------------- the out-of-order table

  /** Bytes held in the out-of-order table. */
  ghost function Buffered(ofo: map<u32, Pkt>): nat {
    if ofo == map[] then 0 else
      var k :| k in ofo;
      |ofo[k].data| + Buffered(ofo - {k})
  }

  lemma {:induction false} BufferedRemove(ofo: map<u32, Pkt>, k: u32)
    requires k in ofo
    ensures Buffered(ofo) == |ofo[k].data| + Buffered(ofo - {k})
    decreases |ofo|
  {
    var j :| j in ofo && Buffered(ofo) == |ofo[j].data| + Buffered(ofo - {j});
    if j != k {
      BufferedRemove(ofo - {j}, k);
      BufferedRemove(ofo - {k}, j);
      assert ofo - {j} - {k} == ofo - {k} - {j};
    }
  }

  lemma BufferedReplace(ofo: map<u32, Pkt>, k: u32, p: Pkt)
    ensures Buffered(ofo[k := p]) <= Buffered(ofo) + |p.data|
  {
    BufferedRemove(ofo[k := p], k);
    assert ofo[k := p] - {k} == ofo - {k};
    if k in ofo {
      BufferedRemove(ofo, k);
    } else {
      assert ofo - {k} == ofo;
    }
  }

  /** The table only holds numbers at least `gap` and less than half a turn ahead of the last in-order one. */
  ghost predicate TableAhead(rx: Rx, gap: nat) {
    forall k :: k in rx.ofo ==> rx.ofo[k].num == k && gap <= Sub32(k, rx.recvPkt) < HALF
  }

  ghost predicate BytesOk(rx: Rx) {
    Buffered(rx.ofo) <= rx.ofoBytes <= OFO_MAX_BYTES
  }

  /** What holds between any two datagrams, whatever was received. */
  ghost predicate RxOk(rx: Rx) {
    TableAhead(rx, 2) && BytesOk(rx)
  }

  // ---------------------------------------------------------------- receive half

  /** Hand one in-order packet to the application. */
  function Accept(rx: Rx, p: Pkt): Rx {
    rx.(recvPkt := p.num, recvSeq := p.seqNum, sincePack := rx.sincePack + |p.data|, delivered := rx.delivered + p.data)
  }

  /** Take the next in-order packet out of the table. */
  function TakeNext(rx: Rx): Rx
    requires TableAhead(rx, 1) && BytesOk(rx)
    requires Add32(rx.recvPkt, 1) in rx.ofo
  {
    var k := Add32(rx.recvPkt, 1);
    BufferedRemove(rx.ofo, k);
    Accept(rx.(ofo := rx.ofo - {k}, ofoBytes := rx.ofoBytes - |rx.ofo[k].data|), rx.ofo[k])
  }

  lemma {:induction false} TakeNextKeeps(rx: Rx)
    requires TableAhead(rx, 1) && BytesOk(rx)
    requires Add32(rx.recvPkt, 1) in rx.ofo
    ensures TableAhead(TakeNext(rx), 1) && BytesOk(TakeNext(rx))
    ensures |TakeNext(rx).ofo| < |rx.ofo|
  {
    BufferedRemove(rx.ofo, Add32(rx.recvPkt, 1));
    forall k | k in TakeNext(rx).ofo
      ensures 1 <= Sub32(k, TakeNext(rx).recvPkt) < HALF
    {
      assert k in rx.ofo && k != Add32(rx.recvPkt, 1);
    }
    assert rx.ofo.Keys == TakeNext(rx).ofo.Keys + {Add32(rx.recvPkt, 1)};
  }

  /** Deliver every buffered packet that has become in-order. */
  function Flush(rx: Rx): (r: Rx)
    requires TableAhead(rx, 1) && BytesOk(rx)
    ensures RxOk(r)
    decreases |rx.ofo|
  {
    if Add32(rx.recvPkt, 1) !in rx.ofo then
      rx
    else
      TakeNextKeeps(rx);
      Flush(TakeNext(rx))
  }

  function PackOf(rx: Rx): Msg {
    Pack(rx.recvSeq, rx.recvPkt, rx.recvSeq, Wrap(rx.ofoBytes))
  }

  function NackOf(rx: Rx): Msg {
    Nack(rx.recvPkt, Add32(rx.recvPkt, 2), rx.recvSeq)
  }

  datatype RxStep = RxStep(rx: Rx, out: seq<Msg>)

  function SendPack(rx: Rx): RxStep {
    RxStep(rx.(sincePack := 0), [PackOf(rx)])
  }

  function MaybePack(rx: Rx, clk: Clock): (r: RxStep)
    ensures RxOk(rx) ==> RxOk(r.rx)
  {
    if rx.sincePack == 0 || (rx.sincePack < PACK_FLUSH_BYTES && !clk.packDue) then RxStep(rx, []) else SendPack(rx)
  }

  /** One DATA datagram, honest or not. */
  function OnData(rx: Rx, p: Pkt, clk: Clock): (r: RxStep)
    requires RxOk(rx)
    ensures RxOk(r.rx)
  {
    if !IsBigger(p.num, rx.recvPkt) then
      if clk.reackDue then SendPack(rx) else RxStep(rx, [])
    else if p.num == Add32(rx.recvPkt, 1) then
      MaybePack(Flush(Accept(rx, p)), clk)
    else
      BufferedReplace(rx.ofo, p.num, p);
      var kept := if rx.ofoBytes + |p.data| <= OFO_MAX_BYTES
                  then rx.(ofo := rx.ofo[p.num := p], ofoBytes := rx.ofoBytes + |p.data|) else rx;
      RxStep(kept, if clk.nackDue then [NackOf(rx)] else [])
  }

  // ---------------------------------------------------------------- send half

  function SumLen(ps: seq<Pkt>): nat {
    if ps == [] then 0 else |ps[0].data| + SumLen(ps[1..])
  }

  lemma {:induction false} SumLenSnoc(ps: seq<Pkt>, p: Pkt)
    ensures SumLen(ps + [p]) == SumLen(ps) + |p.data|
  {
    if ps != [] {
      SumLenSnoc(ps[1..], p);
      assert (ps + [p])[1..] == ps[1..] + [p];
    } else {
      assert ps + [p] == [p];
    }
  }

  /** The window counter is exact and one packet at most over the cap; every packet carries 1 to 1400 bytes. */
  ghost predicate TxOk(tx: Tx) {
    && tx.inflightBytes == SumLen(tx.inflight) < SEND_CACHE + PKT_DATA_MAX
    && forall p :: p in tx.inflight ==> 1 <= |p.data| <= PKT_DATA_MAX
  }

  function DataOf(p: Pkt): Msg {
    Data(p.num, p.seqNum, p.data)
  }

  function DropFirst(tx: Tx): Tx
    requires TxOk(tx) && tx.inflight != []
  {
    tx.(inflight := tx.inflight[1..], inflightBytes := tx.inflightBytes - |tx.inflight[0].data|)
  }

  /** Drop acknowledged packets from the front of the window. */
  function Release(tx: Tx, ack: u32): (r: Tx)
    requires TxOk(tx)
    ensures TxOk(r)
    decreases |tx.inflight|
  {
    if tx.inflight == [] || IsBigger(tx.inflight[0].num, ack) then
      tx
    else
      Release(DropFirst(tx), ack)
  }

  /** The packets strictly between `begin` and `end`, in window order. */
  function Requested(ps: seq<Pkt>, begin: u32, end: u32): seq<Msg> {
    if ps == [] then []
    else if IsBigger(ps[0].num, begin) && IsBigger(end, ps[0].num) then
      [DataOf(ps[0])] + Requested(ps[1..], begin, end)
    else
      Requested(ps[1..], begin, end)
  }

  /** Cut one packet off the queue. */
  function CutOne(tx: Tx): Tx
    requires tx.txq != []
  {
    var n := if |tx.txq| > PKT_DATA_MAX then PKT_DATA_MAX else |tx.txq|;
    var p := Pkt(Add32(tx.sendPkt, 1), Wrap(tx.sendSeq + n), tx.txq[..n]);
    tx.(sendPkt := p.num, sendSeq := p.seqNum, txq := tx.txq[n..], inflight := tx.inflight + [p],
        inflightBytes := tx.inflightBytes + n)
  }

  /** Packetize the queue while the budget and the window allow. */
  function Packetize(tx: Tx, budget: nat): (r: Tx)
    requires TxOk(tx)
    ensures TxOk(r)
    ensures |tx.inflight| <= |r.inflight| && r.inflight[..|tx.inflight|] == tx.inflight
    ensures r.fillDone == tx.fillDone && r.notified == tx.notified
    decreases |tx.txq|
  {
    if budget == 0 || tx.txq == [] || tx.inflightBytes >= SEND_CACHE then
      tx
    else
      CutOneKeeps(tx);
      Packetize(CutOne(tx), budget - 1)
  }

  lemma CutOneKeeps(tx: Tx)
    requires TxOk(tx) && tx.txq != [] && tx.inflightBytes < SEND_CACHE
    ensures TxOk(CutOne(tx))
  {
    var t := CutOne(tx);
    SumLenSnoc(tx.inflight, t.inflight[|tx.inflight|]);
    assert t.inflight == tx.inflight + [t.inflight[|tx.inflight|]];
  }

  function DatasOf(ps: seq<Pkt>): (ms: seq<Msg>)
    ensures |ms| == |ps|
    ensures forall i :: 0 <= i < |ps| ==> ms[i] == DataOf(ps[i])
  {
    seq(|ps|, i requires 0 <= i < |ps| => DataOf(ps[i]))
  }

  /** Everything queued has been packetized and acknowledged, and the application queued its last byte. */
  predicate Drained(tx: Tx) {
    tx.fillDone && tx.txq == [] && tx.inflight == []
  }

  // ---------------------------------------------------------------- the peer

  ghost predicate PeerOk(p: Peer) {
    TxOk(p.tx) && RxOk(p.rx)
  }

  /** `fillp_peer_send`: silently dropped unless established. */
  function PeerSend(p: Peer, bytes: seq<byte>): Peer {
    if p.state == Established then p.(tx := p.tx.(txq := p.tx.txq + bytes)) else p
  }

  /** Datagrams after the handshake; each type has its own states in which it is heard. */
  datatype PeerStep = PeerStep(peer: Peer, out: seq<Msg>)

  function Handle(p: Peer, m: Msg, clk: Clock): (r: PeerStep)
    requires PeerOk(p)
    ensures PeerOk(r.peer)
  {
    match m
    case Data(num, seqNum, data) =>
      if p.state in {Established, Closing} then
        var r := OnData(p.rx, Pkt(num, seqNum, data), clk);
        PeerStep(p.(rx := r.rx), r.out)
      else
        PeerStep(p, [])
    case Nack(begin, end, _) =>
      PeerStep(p, if p.state == Established then Requested(p.tx.inflight, begin, end) else [])
    case Pack(_, ackPkt, _, _) =>
      if p.state in {Established, Closing} then PeerStep(p.(tx := Release(p.tx, ackPkt)), []) else PeerStep(p, [])
    case Fin =>
      if p.state == Closed then PeerStep(p, [])
      else PeerStep(p.(peerFin := true, pendingFin := true, state := Closing), [])
    case _ =>
      PeerStep(p, [])
  }

  /** Application close. */
  function RequestClose(p: Peer): PeerStep {
    if p.state in {Closed, Closing} then PeerStep(p, [])
    else PeerStep(p.(state := Closing), if p.state == Established then [Fin] else [])
  }

  /** Ask the application for bytes when the queue is low. */
  predicate WantsFill(p: Peer) {
    !p.tx.fillDone && |p.tx.txq| < TXQ_WATERMARK
  }

  function FillStep(p: Peer, fill: Fill): (r: Peer)
    ensures PeerOk(p) ==> PeerOk(r)
    ensures r.rx == p.rx
  {
    if WantsFill(p) then
      var q := PeerSend(p, fill.bytes);
      if fill.last then q.(tx := q.tx.(fillDone := true)) else q
    else
      p
  }

  /** The data datagrams of one pump: the stall valve, then the new packets. */
  function PumpTx(tx: Tx, clk: Clock): (r: (Tx, seq<Msg>))
    requires TxOk(tx)
    ensures TxOk(r.0)
  {
    var valve := if tx.inflight != [] && clk.stallDue then [DataOf(tx.inflight[0])] else [];
    var cut := Packetize(tx, SEND_BUDGET);
    (cut, valve + DatasOf(cut.inflight[|tx.inflight|..]))
  }

  /** One tick: `completed` is the tx-complete callback, `drained` a finalization after a clean close. */
  datatype TickStep = TickStep(peer: Peer, out: seq<Msg>, completed: bool, drained: bool)

  /** The tx-complete callback and the reply FIN, decided on the pumped send half. */
  function Settle(p: Peer, tx: Tx, ack: RxStep, datas: seq<Msg>): TickStep {
    var completed := Drained(tx) && !tx.notified;
    var fin := p.pendingFin && Drained(tx);
    TickStep(p.(tx := tx.(notified := tx.notified || completed), rx := ack.rx, pendingFin := p.pendingFin && !fin),
             datas + ack.out + (if fin then [Fin] else []), completed, false)
  }

  function Pump(p: Peer, fill: Fill, clk: Clock): (r: TickStep)
    requires PeerOk(p)
    ensures PeerOk(r.peer)
  {
    var p1 := FillStep(p, fill);
    var pumped := PumpTx(p1.tx, clk);
    var ack := MaybePack(p1.rx, clk);
    assert RxOk(ack.rx);
    assert TxOk(pumped.0);
    Settle(p1, pumped.0, ack, pumped.1)
  }

  /** The close has drained: the other side said FIN, our bytes are acked, our acks are flushed. */
  predicate CloseDrained(p: Peer) {
    p.peerFin && Drained(p.tx) && p.rx.sincePack == 0
  }

  function Tick(p: Peer, fill: Fill, clk: Clock): (r: TickStep)
    requires PeerOk(p)
    ensures PeerOk(r.peer)
  {
    if p.state in {Established, Closing} then
      var r := Pump(p, fill, clk);
      if r.peer.state == Closing && (CloseDrained(r.peer) || clk.closeDue)
      then r.(peer := r.peer.(state := Closed), drained := CloseDrained(r.peer))
      else r
    else
      TickStep(p, [], false, false)
  }
}
