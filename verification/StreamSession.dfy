/**
 * The session object of src/proto/stream_file.c, whose fields the fillp callbacks update. Its methods are
 * proved to do to the two halves what the functions of `StreamFile` do to the values.
 */
module StreamSession {
  import opened Bytes
  import opened Num32
  import opened Vtp
  import opened StreamFile

  /** Whether draining the buffer ends in a refused frame, which fails both directions of the session. */
  predicate Refuses(g: Gcm, rx: SfRx, io: bool)
    requires GcmOk(g)
    decreases |rx.buf|
  {
    !Finished(rx) && FrameReady(rx.buf)
    && var total := 4 + GetU32(rx.buf, 0);
       || total > |rx.buf|
       || var s := ProcessFrame(g, rx, rx.buf[..total], io);
          !s.cont || Refuses(g, s.rx.(buf := rx.buf[total..]), io)
  }

  /** With a receive directory, a refused frame and nothing else makes a delivery end in RX_FAILED. */
  lemma {:induction false} RefusesMeans(g: Gcm, rx: SfRx, io: bool)
    requires GcmOk(g) && rx.hasDir && rx.state != RxFailed
    ensures Refuses(g, rx, io) <==> Drain(g, rx, io).state == RxFailed
    decreases |rx.buf|
  {
    hide ProcessFrame, GetU32, Add32;
    if !Finished(rx) && FrameReady(rx.buf) {
      var total := 4 + GetU32(rx.buf, 0);
      if total <= |rx.buf| {
        var s := ProcessFrame(g, rx, rx.buf[..total], io);
        if s.cont {
          ContinuesWell(g, rx, rx.buf[..total], io);
          RefusesMeans(g, s.rx.(buf := rx.buf[total..]), io);
        } else {
          RefusalIsFinal(g, rx, rx.buf[..total], io);
        }
      }
    }
  }

  lemma ContinuesWell(g: Gcm, rx: SfRx, frame: seq<byte>, io: bool)
    requires GcmOk(g) && rx.hasDir && !Finished(rx) && ProcessFrame(g, rx, frame, io).cont
    ensures var s := ProcessFrame(g, rx, frame, io); s.rx.state != RxFailed && s.rx.hasDir
  {
    hide Parse, GoodName, CStr;
  }

  /** What the sender finds at a path: `stat` fails, it is no regular file, `open` fails, or the file. */
  datatype Path = Missing | NotRegular | Locked | Opens(content: seq<byte>)

  class Session {
    const g: Gcm
    var closed: bool
    var rxState: RxState
    var hasDir: bool
    var rxbuf: seq<byte>
    var rxTotal: nat
    var rxName: seq<byte>
    var written: seq<byte>
    var txState: TxState
    var file: seq<byte>
    var wireName: seq<byte>
    var txOffset: nat
    var metaSent: bool

    ghost function Tx(): SfTx
      reads this
    {
      SfTx(txState, file, wireName, txOffset, metaSent)
    }

    ghost function Rx(): SfRx
      reads this
    {
      SfRx(rxState, hasDir, rxbuf, rxTotal, rxName, written)
    }

    constructor (g: Gcm, hasDir: bool)
      ensures this.g == g && !closed && Rx() == FRESH_RX.(hasDir := hasDir)
      ensures Tx() == SfTx(TxIdle, [], [], 0, false)
    {
      this.g, this.closed, this.hasDir := g, false, hasDir;
      rxState, rxbuf, rxTotal, rxName, written := RxWait, [], 0, [], [];
      txState, file, wireName, txOffset, metaSent := TxIdle, [], [], 0, false;
    }

    /** `stream_file_start_send`: any refusal leaves the session as it was. */
    method StartSend(path: Path, name: seq<byte>) returns (ok: bool)
      modifies this
      ensures ok <==> !old(closed) && old(txState) == TxIdle && path.Opens?
      ensures Tx() == if ok then SfTx(TxActive, path.content, name, 0, false) else old(Tx())
      ensures Rx() == old(Rx()) && closed == old(closed)
    {
      ok := false;
      if closed || txState != TxIdle {
        return;
      }
      match path
      case Missing =>
      case NotRegular =>
      case Locked =>
      case Opens(content) =>
        file, wireName, txOffset, metaSent, txState := content, name, 0, false, TxActive;
        ok := true;
    }

    /** Fails every direction in progress. */
    method Fail()
      modifies `rxState, `txState
      ensures Rx() == FailRx(old(Rx())) && Tx() == FailTx(old(Tx()))
    {
      if rxState == RxWait && hasDir {
        rxState := RxFailed;
      } else if rxState == RxData {
        rxState := RxFailed;
      }
      if txState == TxActive {
        txState := TxFailed;
      }
    }

    /** The fill callback: the bytes it passes to `fillp_peer_send`, and whether it returns -1. */
    method Fill(env: FillEnv) returns (bytes: seq<byte>, last: bool)
      requires EnvOk(Tx(), env) && |file| < 0x1_0000_0000_0000_0000
      modifies `rxState, `txState, `txOffset, `metaSent
      ensures Filled(Tx(), bytes, last) == FillOnce(g, old(Tx()), env)
      ensures Rx() == if old(txState) == TxActive && txState == TxFailed then FailRx(old(Rx())) else old(Rx())
    {
      bytes, last := [], false;
      if txState != TxActive {
        last := txState == TxDone;
        return;
      }
      if !metaSent {
        if !env.sealed {
          Fail();
          return;
        }
        bytes := Frame(g, env.nonce, env.stamp, PutU64(|file|) + PutU16(|wireName| % 0x1_0000) + wireName);
        metaSent := true;
        return;
      }
      if env.read < 0 {
        Fail();
        return;
      }
      if env.read == 0 {
        last := true;
        return;
      }
      if !env.sealed {
        Fail();
        return;
      }
      bytes := Frame(g, env.nonce, env.stamp, file[txOffset..txOffset + env.read]);
      txOffset := txOffset + env.read;
    }

    method OnTxComplete()
      modifies `txState
      ensures Tx() == if closed then old(Tx()) else Completed(old(Tx()))
    {
      if closed || txState != TxActive {
        return;
      }
      txState := TxDone;
    }

    method ProcessOne(frame: seq<byte>, io: bool) returns (cont: bool)
      requires GcmOk(g)
      modifies `rxState, `txState, `rxTotal, `rxName, `written
      ensures Step(Rx(), cont) == ProcessFrame(g, old(Rx()), frame, io)
      ensures Tx() == if cont then old(Tx()) else FailTx(old(Tx()))
    {
      hide Parse, GoodName, CStr;
      cont := true;
      if rxState == RxDone || rxState == RxFailed {
        return;
      }
      match Parse(g, frame, CHUNK)
      case None =>
        cont := false;
        Fail();
      case Some(p) =>
        if rxState == RxWait {
          cont := TakeMeta(p.data, io);
        } else {
          cont := TakeChunk(p.data, io);
        }
    }

    /** Metadata: total, name length, name. */
    method TakeMeta(out: seq<byte>, io: bool) returns (cont: bool)
      modifies `rxState, `txState, `rxTotal, `rxName, `written
      ensures Step(Rx(), cont) == ReadMeta(old(Rx()), out, io)
      ensures Tx() == if cont then old(Tx()) else FailTx(old(Tx()))
    {
      hide GoodName, CStr;
      cont := false;
      if !hasDir || |out| < 10 {
        Fail();
        return;
      }
      if |out| != 10 + GetU16(out, 8) || !GoodName(out[10..]) || !io {
        Fail();
        return;
      }
      rxTotal, rxName, written, rxState := GetU64(out, 0), CStr(out[10..]), [], RxData;
      cont := true;
    }

    method TakeChunk(out: seq<byte>, io: bool) returns (cont: bool)
      modifies `rxState, `txState, `written
      ensures Step(Rx(), cont) == ReadChunk(old(Rx()), out, io)
      ensures Tx() == if cont then old(Tx()) else FailTx(old(Tx()))
    {
      cont := false;
      if |out| > 0 {
        if |written| + |out| > rxTotal || !io {
          Fail();
          return;
        }
        written := written + out;
      }
      if |written| == rxTotal {
        rxState := RxDone;
      }
      cont := true;
    }

    /** Contiguous stream bytes: append, then cut frames until none is complete or one is refused. */
    method OnStreamData(data: seq<byte>, io: bool)
      requires GcmOk(g)
      modifies `rxState, `txState, `rxbuf, `rxTotal, `rxName, `written
      ensures closed ==> Rx() == old(Rx()) && Tx() == old(Tx())
      ensures !closed ==> Rx() == OnData(g, old(Rx()), data, io)
      ensures !closed ==>
                Tx() == if Refuses(g, old(Rx()).(buf := old(rxbuf) + data), io) then FailTx(old(Tx())) else old(Tx())
    {
      hide ProcessFrame, GetU32;
      if closed {
        return;
      }
      rxbuf := rxbuf + data;
      ghost var start := Rx();
      var cont := true;
      while cont && !(rxState == RxFailed || rxState == RxDone) && FrameReady(rxbuf)
        invariant cont ==> Drain(g, Rx(), io) == Drain(g, start, io) && Refuses(g, Rx(), io) == Refuses(g, start, io)
        invariant cont ==> Tx() == old(Tx())
        invariant !cont ==> Rx() == Drain(g, start, io) && Refuses(g, start, io) && Tx() == FailTx(old(Tx()))
        decreases cont, |rxbuf|
      {
        var total := 4 + GetU32(rxbuf, 0);
        if total > |rxbuf| {
          Fail();
          cont := false;
        } else {
          ghost var before := Rx();
          cont := ProcessOne(rxbuf[..total], io);
          rxbuf := rxbuf[total..];
          assert Rx() == ProcessFrame(g, before, before.buf[..total], io).rx.(buf := before.buf[total..]);
        }
      }
    }
  }
}
