/**
 * A file sent as sealed frames over a byte stream (src/proto/stream_file.c): the fill callback of
 * the sender, and the receiver that cuts frames out of the stream and writes the file. As functions
 * on values, then as the object whose fields the callbacks update.
 */
module StreamFile {
  import opened Bytes
  import opened Num32
  import opened Vtp

  const CHUNK: nat := 32768
  const SLASH: byte := 47
  const DOT: byte := 46

  datatype TxState = TxIdle | TxActive | TxDone | TxFailed
  datatype RxState = RxWait | RxData | RxDone | RxFailed

  /** `file` is the content being read, `name` the wire name. */
  datatype SfTx = SfTx(state: TxState, file: seq<byte>, name: seq<byte>, offset: nat, metaSent: bool)

  /** `written` is the content of the received file; `hasDir` says a receive directory is set. */
  datatype SfRx = SfRx(state: RxState, hasDir: bool, buf: seq<byte>, total: nat, name: seq<byte>, written: seq<byte>)

  const FRESH_RX := SfRx(RxWait, true, [], 0, [], [])

  // ---------------------------------------------------------------- failure

  function FailTx(tx: SfTx): SfTx {
    if tx.state == TxActive then tx.(state := TxFailed) else tx
  }

  function FailRx(rx: SfRx): SfRx {
    if (rx.state == RxWait && rx.hasDir) || rx.state == RxData then rx.(state := RxFailed) else rx
  }

  // ---------------------------------------------------------------- sending

  /** What the environment contributes to one fill: nonce and clock, whether sealing worked, the read result. */
  datatype FillEnv = FillEnv(nonce: seq<byte>, stamp: u32, sealed: bool, read: int)

  /** A positive read is at most a chunk and at most what is left; 0 means end of file; negative an error. */
  predicate EnvOk(tx: SfTx, env: FillEnv) {
    && |env.nonce| == NONCE_LEN && tx.offset <= |tx.file|
    && env.read <= CHUNK && env.read <= |tx.file| - tx.offset
    && (env.read == 0 ==> tx.offset == |tx.file|)
  }

  function Frame(g: Gcm, nonce: seq<byte>, stamp: u32, data: seq<byte>): seq<byte> {
    Build(g, nonce, Fields(MODE_COMMON, 0, 0, stamp), data)
  }

  function Meta(tx: SfTx): seq<byte>
    requires |tx.file| < 0x1_0000_0000_0000_0000
  {
    PutU64(|tx.file|) + PutU16(|tx.name| % 0x1_0000) + tx.name
  }

  /** What the next frame seals: the metadata first, then the bytes just read. */
  function Payload(tx: SfTx, env: FillEnv): seq<byte>
    requires EnvOk(tx, env) && |tx.file| < 0x1_0000_0000_0000_0000
  {
    if !tx.metaSent then Meta(tx)
    else if env.read < 0 then []
    else tx.file[tx.offset..tx.offset + env.read]
  }

  /** The state after a fill, the bytes passed to `fillp_peer_send`, and whether it returned -1. */
  datatype Filled = Filled(tx: SfTx, bytes: seq<byte>, last: bool)

  function FillOnce(g: Gcm, tx: SfTx, env: FillEnv): Filled
    requires EnvOk(tx, env) && |tx.file| < 0x1_0000_0000_0000_0000
  {
    if tx.state != TxActive then Filled(tx, [], tx.state == TxDone)
    else if tx.metaSent && env.read < 0 then Filled(FailTx(tx), [], false)
    else if tx.metaSent && env.read == 0 then Filled(tx, [], true)
    else if !env.sealed then Filled(FailTx(tx), [], false)
    else Filled(if tx.metaSent then tx.(offset := tx.offset + env.read) else tx.(metaSent := true),
                Frame(g, env.nonce, env.stamp, Payload(tx, env)), false)
  }

  /** The fillp tx-complete callback: success is reported here and nowhere else. */
  function Completed(tx: SfTx): SfTx {
    if tx.state == TxActive then tx.(state := TxDone) else tx
  }

  // ---------------------------------------------------------------- receiving

  /** A received name as a C string: it ends at the first NUL. */
  function CStr(s: seq<byte>): seq<byte> {
    if s == [] || s[0] == 0 then [] else [s[0]] + CStr(s[1..])
  }

  predicate HasDotDot(s: seq<byte>) {
    |s| >= 2 && ((s[0] == DOT && s[1] == DOT) || HasDotDot(s[1..]))
  }

  predicate GoodName(raw: seq<byte>) {
    var s := CStr(raw);
    |raw| != 0 && SLASH !in s && !HasDotDot(s) && !(s != [] && s[0] == DOT)
  }

  datatype Step = Step(rx: SfRx, cont: bool)

  function ReadMeta(rx: SfRx, out: seq<byte>, io: bool): Step {
    if !rx.hasDir || |out| < 10 then Step(FailRx(rx), false)
    else if |out| != 10 + GetU16(out, 8) then Step(FailRx(rx), false)
    else if !GoodName(out[10..]) then Step(FailRx(rx), false)
    else if !io then Step(FailRx(rx), false)
    else Step(rx.(state := RxData, total := GetU64(out, 0), name := CStr(out[10..]), written := []), true)
  }

  function ReadChunk(rx: SfRx, out: seq<byte>, io: bool): Step {
    if |out| > 0 && |rx.written| + |out| > rx.total then Step(FailRx(rx), false)
    else if |out| > 0 && !io then Step(FailRx(rx), false)
    else
      var more := rx.(written := rx.written + out);
      Step(if |more.written| == more.total then more.(state := RxDone) else more, true)
  }

  /** One complete frame; `io` says whether opening and writing the file works. */
  function ProcessFrame(g: Gcm, rx: SfRx, frame: seq<byte>, io: bool): Step
    requires GcmOk(g)
  {
    if rx.state == RxDone || rx.state == RxFailed then Step(rx, true)
    else match Parse(g, frame, CHUNK)
      case None => Step(FailRx(rx), false)
      case Some(p) => if rx.state == RxWait then ReadMeta(rx, p.data, io) else ReadChunk(rx, p.data, io)
  }

  predicate Finished(rx: SfRx) {
    rx.state == RxDone || rx.state == RxFailed
  }

  /** The length test of the loop, in 32-bit arithmetic. */
  predicate FrameReady(buf: seq<byte>) {
    4 <= |buf| && Add32(4, GetU32(buf, 0)) <= |buf|
  }

  /** Cut and process frames until none is complete or one is refused. */
  function Drain(g: Gcm, rx: SfRx, io: bool): (r: SfRx)
    requires GcmOk(g)
    decreases |rx.buf|
  {
    if Finished(rx) || !FrameReady(rx.buf) then rx
    else
      var total := 4 + GetU32(rx.buf, 0);
      if total > |rx.buf| then FailRx(rx) // the 32-bit test wrapped: the frame cannot be parsed
      else
        var s := ProcessFrame(g, rx, rx.buf[..total], io);
        var next := s.rx.(buf := rx.buf[total..]);
        if s.cont then Drain(g, next, io) else next
  }

  function OnData(g: Gcm, rx: SfRx, data: seq<byte>, io: bool): SfRx
    requires GcmOk(g)
  {
    Drain(g, rx.(buf := rx.buf + data), io)
  }

  // ---------------------------------------------------------------- chunking does not matter

  /** A receiver that refuses a frame has failed, so the loop's early exit is never seen again. */
  lemma {:induction false} RefusalIsFinal(g: Gcm, rx: SfRx, frame: seq<byte>, io: bool)
    requires GcmOk(g) && (rx.hasDir || rx.state == RxData) && !ProcessFrame(g, rx, frame, io).cont
    ensures ProcessFrame(g, rx, frame, io).rx == rx.(state := RxFailed)
  {
  }

  lemma ProcessFrameBuf(g: Gcm, rx: SfRx, frame: seq<byte>, io: bool, buf: seq<byte>)
    requires GcmOk(g)
    ensures ProcessFrame(g, rx.(buf := buf), frame, io)
            == Step(ProcessFrame(g, rx, frame, io).rx.(buf := buf), ProcessFrame(g, rx, frame, io).cont)
    ensures rx.hasDir ==> ProcessFrame(g, rx, frame, io).rx.hasDir
  {
    hide Parse, GoodName, CStr;
  }

  /** Appending to a buffer does not change the frame at its head. */
  lemma HeadStable(buf: seq<byte>, more: seq<byte>)
    requires 4 <= |buf|
    ensures GetU32(buf + more, 0) == GetU32(buf, 0)
  {
  }

  /**
   * With a receive directory set, how the stream is cut into deliveries is invisible: draining after
   * every delivery ends in the same state as draining once. (A GByteArray holds less than 2^32 bytes.)
   */
  lemma {:induction false} DrainThenAppend(g: Gcm, rx: SfRx, more: seq<byte>, io: bool)
    requires GcmOk(g) && rx.hasDir && |rx.buf| + |more| < MOD
    ensures var d := Drain(g, rx, io); Drain(g, d.(buf := d.buf + more), io) == Drain(g, rx.(buf := rx.buf + more), io)
    decreases |rx.buf|
  {
    var joined := rx.(buf := rx.buf + more);
    if !Finished(rx) && FrameReady(rx.buf) {
      HeadStable(rx.buf, more);
      var total := 4 + GetU32(rx.buf, 0);
      if total <= |rx.buf| {
        var frame := rx.buf[..total];
        assert joined.buf[..total] == frame && joined.buf[total..] == rx.buf[total..] + more;
        ProcessFrameBuf(g, rx, frame, io, joined.buf);
        ProcessFrameBuf(g, rx, frame, io, rx.buf);
        var s := ProcessFrame(g, rx, frame, io);
        var next := s.rx.(buf := rx.buf[total..]);
        hide ProcessFrame, GetU32, Add32;
        if s.cont {
          DrainThenAppend(g, next, more, io);
        } else {
          RefusalIsFinal(g, rx, frame, io);
        }
      }
    }
  }

  /**
   * Without a receive directory the refusal of a frame leaves the session waiting, so the early exit of
   * the loop shows: the second of two refused frames is dropped or kept depending on how they were cut.
   */
  lemma {:induction false} ChunkingShowsWithoutDirectory(g: Gcm)
    requires GcmOk(g)
    ensures var rx := FRESH_RX.(hasDir := false);
            && OnData(g, OnData(g, rx, Zeros(4), true), Zeros(4), true).buf == []
            && OnData(g, rx, Zeros(8), true).buf == Zeros(4)
  {
    var rx := FRESH_RX.(hasDir := false);
    ShortFrameRefused(g, rx, Zeros(4));
    ShortFrameRefused(g, rx, Zeros(8));
  }

  lemma ShortFrameRefused(g: Gcm, rx: SfRx, data: seq<byte>)
    requires GcmOk(g) && rx.state == RxWait && !rx.hasDir && rx.buf == [] && 4 <= |data| && data[..4] == Zeros(4)
    ensures OnData(g, rx, data, true) == rx.(buf := data[4..])
  {
    var full := rx.(buf := rx.buf + data);
    assert full.buf == data;
    assert forall i :: 0 <= i < 4 ==> data[i] == data[..4][i];
    assert GetU32(full.buf, 0) == 0;
    assert Parse(g, full.buf[..4], CHUNK) == None;
    hide Parse, GetU32;
  }
}
