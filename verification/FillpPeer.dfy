/**
 * The peer object of src/proto/fillp_conn.c: fields updated in place by the datagram handlers and
 * the tick. Every method is proved to do to the fields exactly what the functions of `FillpCore`
 * do to the value `View()`, so every theorem about runs is a theorem about this object.
 */
module FillpPeer {
  import opened Bytes
  import opened Num32
  import opened FillpFrame
  import opened FillpCore

  lemma DatasSnoc(ps: seq<Pkt>, p: Pkt)
    ensures DatasOf(ps + [p]) == DatasOf(ps) + [DataOf(p)]
  {
  }

  lemma NoDatas()
    ensures DatasOf([]) == []
  {
  }

  class FillpPeer {
    var state: State
    // send half
    var sendPkt: u32
    var sendSeq: u32
    var txq: seq<byte>
    var inflight: seq<Pkt>
    var inflightBytes: nat
    var fillDone: bool
    var txNotified: bool
    // receive half
    var recvPkt: u32
    var recvSeq: u32
    var ofo: map<u32, Pkt>
    var ofoBytes: nat
    var sincePack: nat
    var delivered: seq<byte>
    // close coordination
    var peerFin: bool
    var pendingFin: bool

    ghost function SendHalf(): Tx
      reads this
    {
      Tx(sendPkt, sendSeq, txq, inflight, inflightBytes, fillDone, txNotified)
    }

    ghost function ReceiveHalf(): Rx
      reads this
    {
      Rx(recvPkt, recvSeq, ofo, ofoBytes, sincePack, delivered)
    }

    ghost function View(): Peer
      reads this
    {
      Peer(state, SendHalf(), ReceiveHalf(), peerFin, pendingFin)
    }

    ghost predicate Valid()
      reads this
    {
      PeerOk(View())
    }

    constructor ()
      ensures Valid() && View() == FRESH_PEER
    {
      state := Pending;
      sendPkt, sendSeq, txq, inflight, inflightBytes, fillDone, txNotified := 0, 0, [], [], 0, false, false;
      recvPkt, recvSeq, ofo, ofoBytes, sincePack, delivered := 0, 0, map[], 0, 0, [];
      peerFin, pendingFin := false, false;
    }

    /** Hand one packet to the application and advance the receive counters. */
    method Deliver(p: Pkt)
      modifies `recvPkt, `recvSeq, `sincePack, `delivered
      ensures ReceiveHalf() == Accept(old(ReceiveHalf()), p)
    {
      recvPkt, recvSeq := p.num, p.seqNum;
      sincePack := sincePack + |p.data|;
      delivered := delivered + p.data;
    }

    method SendPackNow() returns (out: seq<Msg>)
      modifies `sincePack
      ensures RxStep(ReceiveHalf(), out) == SendPack(old(ReceiveHalf()))
    {
      out := [Pack(recvSeq, recvPkt, recvSeq, Wrap(ofoBytes))];
      sincePack := 0;
    }

    method MaybeSendPack(clk: Clock) returns (out: seq<Msg>)
      modifies `sincePack
      ensures RxStep(ReceiveHalf(), out) == MaybePack(old(ReceiveHalf()), clk)
    {
      out := [];
      if sincePack == 0 {
        return;
      }
      if sincePack < PACK_FLUSH_BYTES && !clk.packDue {
        return;
      }
      out := SendPackNow();
    }

    /** Flush the out-of-order packets that are now in order; the byte counter never underflows. */
    method FlushTable()
      requires TableAhead(ReceiveHalf(), 1) && BytesOk(ReceiveHalf())
      modifies `recvPkt, `recvSeq, `sincePack, `delivered, `ofo, `ofoBytes
      ensures ReceiveHalf() == Flush(old(ReceiveHalf()))
    {
      while Add32(recvPkt, 1) in ofo
        invariant TableAhead(ReceiveHalf(), 1) && BytesOk(ReceiveHalf())
        invariant Flush(ReceiveHalf()) == Flush(old(ReceiveHalf()))
        decreases |ofo|
      {
        ghost var before := ReceiveHalf();
        TakeNextKeeps(before);
        BufferedRemove(ofo, Add32(recvPkt, 1));
        var next := ofo[Add32(recvPkt, 1)];
        ofo := ofo - {Add32(recvPkt, 1)};
        ofoBytes := ofoBytes - |next.data|;
        Deliver(next);
        assert ReceiveHalf() == TakeNext(before);
      }
    }

    method OnDataPacket(p: Pkt, clk: Clock) returns (out: seq<Msg>)
      requires RxOk(ReceiveHalf())
      modifies `recvPkt, `recvSeq, `sincePack, `delivered, `ofo, `ofoBytes
      ensures RxStep(ReceiveHalf(), out) == OnData(old(ReceiveHalf()), p, clk)
    {
      out := [];
      if !IsBigger(p.num, recvPkt) {
        if clk.reackDue {
          out := SendPackNow();
        }
        return;
      }
      if p.num == Add32(recvPkt, 1) {
        Deliver(p);
        FlushTable();
        out := MaybeSendPack(clk);
      } else {
        if ofoBytes + |p.data| <= OFO_MAX_BYTES {
          ofo := ofo[p.num := p];
          ofoBytes := ofoBytes + |p.data|;
        }
        if clk.nackDue {
          out := [Nack(recvPkt, Add32(recvPkt, 2), recvSeq)];
        }
      }
    }

    /** Retransmit what a NACK asks for; nothing changes. */
    method OnNack(begin: u32, end: u32) returns (out: seq<Msg>)
      ensures out == Requested(inflight, begin, end)
    {
      out := [];
      var i := 0;
      while i < |inflight|
        invariant 0 <= i <= |inflight|
        invariant out + Requested(inflight[i..], begin, end) == Requested(inflight, begin, end)
      {
        var p := inflight[i];
        assert inflight[i..][0] == p && inflight[i..][1..] == inflight[i + 1..];
        if IsBigger(p.num, begin) && IsBigger(end, p.num) {
          out := out + [DataOf(p)];
        }
        i := i + 1;
      }
    }

    /** Release the packets a PACK acknowledges. */
    method OnPack(ack: u32)
      requires TxOk(SendHalf())
      modifies `inflight, `inflightBytes
      ensures SendHalf() == Release(old(SendHalf()), ack)
    {
      while inflight != [] && !IsBigger(inflight[0].num, ack)
        invariant TxOk(SendHalf())
        invariant Release(SendHalf(), ack) == Release(old(SendHalf()), ack)
        decreases |inflight|
      {
        ghost var before := SendHalf();
        inflightBytes := inflightBytes - |inflight[0].data|;
        inflight := inflight[1..];
        assert SendHalf() == DropFirst(before);
      }
    }

    /** A whole datagram, as it comes from the socket. */
    method HandleDatagram(buf: seq<byte>, clk: Clock) returns (out: seq<Msg>)
      requires Valid()
      modifies this
      ensures PeerStep(View(), out) == Handle(old(View()), Decode(buf), clk)
      ensures Valid()
    {
      hide Decode, OnData, Release, Requested, TxOk, RxOk;
      out := [];
      match Decode(buf)
      case Data(num, seqNum, data) =>
        if state in {Established, Closing} {
          out := OnDataPacket(Pkt(num, seqNum, data), clk);
        }
      case Nack(begin, end, _) =>
        if state == Established {
          out := OnNack(begin, end);
        }
      case Pack(_, ackPkt, _, _) =>
        if state in {Established, Closing} {
          OnPack(ackPkt);
        }
      case Fin =>
        if state != Closed {
          peerFin, pendingFin, state := true, true, Closing;
        }
      case _ =>
    }

    /** `fillp_peer_send`. */
    method Send(bytes: seq<byte>)
      requires Valid()
      modifies `txq
      ensures Valid() && View() == PeerSend(old(View()), bytes)
    {
      if state == Established {
        txq := txq + bytes;
      }
    }

    method Close() returns (out: seq<Msg>)
      requires Valid()
      modifies `state
      ensures Valid() && PeerStep(View(), out) == RequestClose(old(View()))
    {
      out := [];
      if state == Closed || state == Closing {
        return;
      }
      if state == Established {
        out := [Fin];
      }
      state := Closing;
    }

    /** Cut one packet of at most 1400 bytes off the queue and put it in flight. */
    method CutPacket() returns (p: Pkt)
      requires txq != []
      modifies `sendPkt, `sendSeq, `txq, `inflight, `inflightBytes
      ensures SendHalf() == CutOne(old(SendHalf())) && inflight == old(inflight) + [p]
    {
      var n := |txq|;
      if n > PKT_DATA_MAX {
        n := PKT_DATA_MAX;
      }
      sendPkt := Add32(sendPkt, 1);
      sendSeq := Wrap(sendSeq + n);
      p := Pkt(sendPkt, sendSeq, txq[..n]);
      txq := txq[n..];
      inflight := inflight + [p];
      inflightBytes := inflightBytes + n;
    }

    /** Cut packets while the budget of one tick and the window allow. */
    method PacketizeQueue() returns (out: seq<Msg>)
      requires TxOk(SendHalf())
      modifies `sendPkt, `sendSeq, `txq, `inflight, `inflightBytes
      ensures SendHalf() == Packetize(old(SendHalf()), SEND_BUDGET)
      ensures out == DatasOf(inflight[|old(inflight)|..])
    {
      hide CutOne, Wrap, Add32, DatasOf;
      out := [];
      NoDatas();
      assert inflight[|old(inflight)|..] == [];
      var budget := SEND_BUDGET;
      while budget > 0 && txq != [] && inflightBytes < SEND_CACHE
        invariant TxOk(SendHalf())
        invariant Packetize(SendHalf(), budget) == Packetize(old(SendHalf()), SEND_BUDGET)
        invariant |old(inflight)| <= |inflight| && out == DatasOf(inflight[|old(inflight)|..])
        decreases budget
      {
        budget := budget - 1;
        ghost var before := SendHalf();
        CutOneKeeps(before);
        var p := CutPacket();
        out := out + [DataOf(p)];
        DatasSnoc(before.inflight[|old(inflight)|..], p);
        assert inflight[|old(inflight)|..] == before.inflight[|old(inflight)|..] + [p];
      }
    }

    /** The stall valve, then the new packets. */
    method PumpData(clk: Clock) returns (out: seq<Msg>)
      requires TxOk(SendHalf())
      modifies `sendPkt, `sendSeq, `txq, `inflight, `inflightBytes
      ensures (SendHalf(), out) == PumpTx(old(SendHalf()), clk)
    {
      hide TxOk, Packetize, DatasOf;
      out := [];
      if inflight != [] && clk.stallDue {
        out := [DataOf(inflight[0])];
      }
      var cut := PacketizeQueue();
      out := out + cut;
    }

    /** The tick: fill, stall valve, packetize, completion, PACK, reply FIN, finalization. */
    method OnTick(fill: Fill, clk: Clock) returns (out: seq<Msg>, completed: bool, drained: bool)
      requires Valid()
      modifies this
      ensures TickStep(View(), out, completed, drained) == Tick(old(View()), fill, clk)
      ensures Valid()
    {
      hide PumpTx, MaybePack, Settle, PeerOk;
      out, completed, drained := [], false, false;
      if state != Established && state != Closing {
        return;
      }
      ghost var p := View();
      if !fillDone && |txq| < TXQ_WATERMARK {
        Send(fill.bytes);
        if fill.last {
          fillDone := true;
        }
      }
      assert View() == FillStep(p, fill);
      out, completed := PumpOnce(clk);
      if state == Closing {
        var done := peerFin && fillDone && txq == [] && inflight == [] && sincePack == 0;
        if done || clk.closeDue {
          state, drained := Closed, done;
        }
      }
    }

    method PumpOnce(clk: Clock) returns (out: seq<Msg>, completed: bool)
      requires Valid()
      modifies this
      ensures var p := old(View());
              TickStep(View(), out, completed, false)
              == Settle(p, PumpTx(p.tx, clk).0, MaybePack(p.rx, clk), PumpTx(p.tx, clk).1)
    {
      hide TxOk, RxOk, PumpTx, MaybePack;
      ghost var p := View();
      var datas := PumpData(clk);
      ghost var tx := SendHalf();
      assert (tx, datas) == PumpTx(p.tx, clk) && ReceiveHalf() == p.rx;
      var drained := fillDone && txq == [] && inflight == [];
      completed := drained && !txNotified;
      if completed {
        txNotified := true;
      }
      var ack := MaybeSendPack(clk);
      out := datas + ack;
      if pendingFin && drained {
        pendingFin := false;
        out := out + [Fin];
      }
    }
  }
}
