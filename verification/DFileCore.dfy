/**
 * One DFile connection (src/proto/dfile_conn.c) as functions on values: a send transfer and a receive
 * transfer multiplexed on one ordered link, driven by frames, the 1 ms tick and the application.
 */
module DFileCore {
  import opened Bytes

  const BLOCK: nat := 1472
  const MAX_FILES: nat := 500
  const MAX_ACKS: nat := 39
  const SEND_BUDGET: nat := 64
  const MAX_RETRIES: nat := 3
  const MAX_SIZE: nat := 0x7F_FFFF_FFFF
  const NO_SEQ: u32 := 0xFFFF_FFFF
  const HEADER_CAP: nat := 14720 + 16

  const FLAG_CONTINUE: byte := 1
  const FLAG_END: byte := 2
  const FLAG_RETRAN: byte := 4

  const RST_WITHOUT_SETTING: u16 := 201
  const RST_WRITE_ERROR: u16 := 202
  const RST_NO_STORAGE: u16 := 204
  const RST_INTERNAL: u16 := 209
  const RST_CANCEL: u16 := 210

  // ---------------------------------------------------------------- frames

  datatype Entry = Entry(id: u16, size: u64, name: seq<byte>)
  datatype AckEntry = AckEntry(id: u16, last: u32)

  /** A decoded frame; `Bad` carries the type of one whose body cannot be decoded. */
  datatype Frame =
    | Setting(mtu: u16, frameSize: u32)
    | FileHeader(trans: u16, node: u16, entries: seq<Entry>)
    | Confirm(trans: u16, ids: seq<u16>)
    | Request(trans: u16, ids: seq<u16>)
    | Data(trans: u16, flag: byte, id: u16, num: u32, payload: seq<byte>)
    | Ack(trans: u16, acks: seq<AckEntry>)
    | Done(trans: u16, ids: seq<u16>)
    | DoneAck(trans: u16, ids: seq<u16>)
    | Rst(trans: u16, code: u16)
    | Bad(kind: byte)
    | Ignored

  // ---------------------------------------------------------------- state

  datatype Phase =
    | Idle | TxWaitConfirm | TxSending | TxWaitDone | TxDone | RxWaitData | RxWaitDoneAck | RxDone | Failed

  predicate Terminal(p: Phase) {
    p == TxDone || p == RxDone || p == Failed
  }

  /** `lastAcked` is -1 until something is acked. */
  datatype TxFile = TxFile(id: u16, name: seq<byte>, content: seq<byte>, total: nat, next: nat, retrans: seq<nat>,
                           lastAcked: int, ackedAll: bool, confirmed: bool)

  datatype Tx = Tx(trans: u16, phase: Phase, files: seq<TxFile>, retries: nat, requested: bool, allConfirmed: bool,
                   doneReceived: bool, doneAckSent: bool)

  /** `disk` is the destination file, created at its full size. */
  datatype RxFile = RxFile(id: u16, size: nat, total: nat, expected: nat, complete: bool, disk: seq<byte>)

  datatype Rx = Rx(trans: u16, phase: Phase, node: u16, hdr: seq<Entry>, files: seq<RxFile>, ackPending: bool,
                   doneSent: bool)

  datatype ConnState = Negotiating | Ready | Closing

  /**
   * `link` foretells which sends succeed (none beyond its end) and `tries` counts them, `out` is every frame
   * sent so far, `txResults` and `rxResults` the outcomes reported to the application, `closed` the number of
   * times it was told that the connection is closed.
   */
  datatype Conn = Conn(state: ConnState, tx: Option<Tx>, rx: Option<Rx>, nextTrans: u16, hasDir: bool,
                       link: seq<bool>, tries: nat, out: seq<Frame>, txResults: seq<bool>, rxResults: seq<bool>,
                       closed: nat)

  function NewConn(hasDir: bool, link: seq<bool>): Conn {
    Conn(Negotiating, None, None, 1, hasDir, link, 0, [], [], [], 0)
  }

  // ---------------------------------------------------------------- blocks

  function Blocks(size: nat, block: nat): nat
    requires block > 0
  {
    (size + block - 1) / block
  }

  function Min(a: nat, b: nat): nat {
    if a < b then a else b
  }

  /** How many bytes block `num` of a file holds. */
  function BlockLen(size: nat, num: nat): nat
    requires num * BLOCK <= size
  {
    Min(size - num * BLOCK, BLOCK)
  }

  lemma BlockInside(size: nat, num: nat)
    requires num < Blocks(size, BLOCK)
    ensures num * BLOCK < size && num * BLOCK + BlockLen(size, num) == Min((num + 1) * BLOCK, size)
  {
  }

  function Block(content: seq<byte>, num: nat): seq<byte>
    requires num < Blocks(|content|, BLOCK)
  {
    BlockInside(|content|, num);
    content[num * BLOCK..num * BLOCK + BlockLen(|content|, num)]
  }

  // ---------------------------------------------------------------- the link

  predicate Works(c: Conn) {
    c.tries < |c.link| && c.link[c.tries]
  }

  /** `dc_send`: the frame goes out, or the send fails. */
  function TrySend(c: Conn, f: Frame): Conn {
    c.(out := if Works(c) then c.out + [f] else c.out, tries := c.tries + 1)
  }

  datatype Sent = Sent(conn: Conn, ok: bool)

  /** Send in order, stopping at the first failure. */
  function SendAll(c: Conn, frames: seq<Frame>): Sent
    decreases |frames|
  {
    if frames == [] then Sent(c, true)
    else if !Works(c) then Sent(TrySend(c, frames[0]), false)
    else SendAll(TrySend(c, frames[0]), frames[1..])
  }

  // ---------------------------------------------------------------- failure and shutdown

  function MaybeRst(c: Conn, trans: u16, rst: bool): Conn {
    if rst then TrySend(c, Rst(trans, RST_CANCEL)) else c
  }

  function FailTx(c: Conn, rst: bool): Conn {
    if c.tx.None? || Terminal(c.tx.value.phase) then c
    else
      var t := c.tx.value;
      MaybeRst(c.(tx := Some(t.(phase := Failed)), txResults := c.txResults + [false]), t.trans, rst)
  }

  function FailRx(c: Conn, rst: bool): Conn {
    if c.rx.None? || Terminal(c.rx.value.phase) then c
    else
      var t := c.rx.value;
      MaybeRst(c.(rx := Some(t.(phase := Failed)), rxResults := c.rxResults + [false]), t.trans, rst)
  }

  function Shutdown(c: Conn): Conn {
    if c.state == Closing then c
    else
      var d := FailRx(FailTx(c.(state := Closing), false), false);
      d.(closed := d.closed + 1)
  }

  function Reset(c: Conn, trans: u16, code: u16): Conn {
    Shutdown(TrySend(c, Rst(trans, code)))
  }

  // ---------------------------------------------------------------- sender: starting a transfer

  datatype Item = Item(name: seq<byte>, content: seq<byte>)

  function EntrySize(e: Entry): nat {
    12 + |e.name|
  }

  /** How many entries fit in `room` bytes. */
  function Fitting(es: seq<Entry>, room: int): (n: nat)
    ensures n <= |es|
  {
    if es == [] || EntrySize(es[0]) > room then 0 else 1 + Fitting(es[1..], room - EntrySize(es[0]))
  }

  /** The FILE_HEADER frames of a list, each as full as it can be; [] once an entry fits no frame. */
  function HeaderFrames(trans: u16, node: u16, es: seq<Entry>): seq<Frame>
    decreases |es|
  {
    var n := Fitting(es, HEADER_CAP - 10);
    if n == 0 then [] else [FileHeader(trans, node, es[..n])] + HeaderFrames(trans, node, es[n..])
  }

  function NewTxFile(index: nat, item: Item): TxFile
    requires index < MAX_FILES
  {
    var total := Blocks(|item.content|, BLOCK);
    TxFile(index + 1, item.name, item.content, total, 0, [], -1, total == 0, false)
  }

  function EntriesOf(files: seq<TxFile>): seq<Entry>
    requires forall i | 0 <= i < |files| :: |files[i].content| <= MAX_SIZE
  {
    seq(|files|, i requires 0 <= i < |files| => Entry(files[i].id, |files[i].content|, files[i].name))
  }

  function Ids(files: seq<TxFile>): seq<u16> {
    seq(|files|, i requires 0 <= i < |files| => files[i].id)
  }

  /** A C string of 1 to 255 bytes. */
  predicate NameOk(name: seq<byte>) {
    1 <= |name| <= 255 && 0 !in name
  }

  predicate ItemsOk(items: seq<Item>) {
    forall i | 0 <= i < |items| :: NameOk(items[i].name)
  }

  function Next16(n: u16): u16 {
    if n == 0xFFFF then 0 else n + 1
  }

  function NewTx(trans: u16, items: seq<Item>): Tx
    requires |items| <= MAX_FILES
  {
    Tx(trans, TxWaitConfirm, seq(|items|, i requires 0 <= i < |items| => NewTxFile(i, items[i])),
       0, false, false, false, false)
  }

  /** Start a transfer; `canOpen` says that every file could be opened. */
  function SendFiles(c: Conn, items: seq<Item>, canOpen: bool): Sent {
    if c.state != Ready || c.tx.Some? || |items| == 0 || |items| > MAX_FILES then Sent(c, false)
    else
      var d := c.(nextTrans := Next16(c.nextTrans));
      if !canOpen || (exists it | it in items :: |it.content| > MAX_SIZE) then Sent(d, false)
      else
        var t := NewTx(c.nextTrans, items);
        var sent := SendAll(d, HeaderFrames(t.trans, |items|, EntriesOf(t.files)));
        if sent.ok then Sent(sent.conn.(tx := Some(t)), true) else sent
  }

  // ---------------------------------------------------------------- sender: pump

  predicate Wants(f: TxFile, due: bool) {
    f.next < f.total || (due && f.retrans != [])
  }

  /** The first file with something to send. */
  function Pick(files: seq<TxFile>, due: bool): (i: nat)
    ensures i <= |files| && (i < |files| ==> Wants(files[i], due)) && forall k | 0 <= k < i :: !Wants(files[k], due)
  {
    if files == [] || Wants(files[0], due) then 0 else 1 + Pick(files[1..], due)
  }

  predicate TxFileOk(f: TxFile) {
    && NameOk(f.name) && |f.content| <= MAX_SIZE && f.total == Blocks(|f.content|, BLOCK) && f.next <= f.total
    && |f.retrans| <= f.next && f.retrans == seq(|f.retrans|, i => f.next - |f.retrans| + i)
    && -1 <= f.lastAcked
  }

  predicate TxFilesOk(files: seq<TxFile>) {
    && 0 < |files| <= MAX_FILES
    && (forall i | 0 <= i < |files| :: TxFileOk(files[i]) && files[i].id == i + 1)
  }

  predicate TxOk(t: Tx) {
    TxFilesOk(t.files)
  }

  /** New blocks first, then the oldest pending block. */
  function NextBlock(f: TxFile): nat
    requires Wants(f, true)
  {
    if f.next < f.total then f.next else f.retrans[0]
  }

  function FlagOf(f: TxFile): byte {
    if f.next < f.total then
      (if f.next != 0 then FLAG_CONTINUE else 0) + (if f.next + 1 == f.total then FLAG_END else 0)
    else FLAG_RETRAN + FLAG_CONTINUE
  }

  lemma TotalFits(f: TxFile)
    requires TxFileOk(f)
    ensures f.total < 0x1_0000_0000
  {
  }

  lemma NextBlockInFile(f: TxFile)
    requires TxFileOk(f) && Wants(f, true)
    ensures NextBlock(f) < f.total
  {
    if f.next == f.total {
      assert f.retrans[0] == f.next - |f.retrans|;
    }
  }

  function DataFrame(trans: u16, f: TxFile): Frame
    requires TxFileOk(f) && Wants(f, true)
  {
    NextBlockInFile(f);
    TotalFits(f);
    Data(trans, FlagOf(f), f.id, NextBlock(f), Block(f.content, NextBlock(f)))
  }

  function Advance(f: TxFile): TxFile
    requires Wants(f, true)
  {
    if f.next < f.total then f.(next := f.next + 1, retrans := f.retrans + [f.next])
    else f.(retrans := f.retrans[1..])
  }

  lemma AdvanceKeeps(f: TxFile)
    requires TxFileOk(f) && Wants(f, true)
    ensures TxFileOk(Advance(f))
  {
  }

  function SetFile(t: Tx, i: nat, f: TxFile): Tx
    requires i < |t.files|
  {
    t.(files := t.files[i := f])
  }

  /** Send the next block of file `i`. */
  function SendBlock(c: Conn, i: nat): (r: Conn)
    requires c.tx.Some? && TxOk(c.tx.value) && i < |c.tx.value.files| && Wants(c.tx.value.files[i], true)
    ensures r.tx.Some? && TxOk(r.tx.value)
  {
    var t := c.tx.value;
    AdvanceKeeps(t.files[i]);
    TrySend(c, DataFrame(t.trans, t.files[i])).(tx := Some(SetFile(t, i, Advance(t.files[i]))))
  }

  /** One pump: at most `budget` frames, of which at most one retransmission; `readable` counts the reads that work. */
  function Pump(c: Conn, due: bool, budget: nat, readable: nat): (r: Conn)
    requires c.tx.Some? && TxOk(c.tx.value)
    ensures r.tx.Some? && TxOk(r.tx.value)
    decreases budget
  {
    var t := c.tx.value;
    var i := Pick(t.files, due);
    if budget == 0 || i == |t.files| then c
    else if readable == 0 then FailTx(c, true)
    else
      var f := t.files[i];
      if !Works(c) then FailTx(TrySend(c, DataFrame(t.trans, f)), false)
      else Pump(SendBlock(c, i), due && f.next < f.total, budget - 1, readable - 1)
  }

  predicate AllSent(t: Tx) {
    forall i | 0 <= i < |t.files| :: t.files[i].next >= t.files[i].total && t.files[i].retrans == []
  }

  predicate AllAcked(t: Tx) {
    forall i | 0 <= i < |t.files| :: t.files[i].ackedAll
  }

  // ---------------------------------------------------------------- sender: control frames

  function Finish(c: Conn): (r: Conn)
    requires c.tx.Some?
    ensures r.tx.Some? && r.tx.value.files == c.tx.value.files
  {
    var t := c.tx.value;
    if t.doneAckSent || t.phase == TxDone || t.phase == Failed then c
    else
      var d := TrySend(c, DoneAck(t.trans, Ids(t.files)));
      if !Works(c) then FailTx(d, false)
      else d.(tx := Some(t.(doneAckSent := true, phase := TxDone)), txResults := d.txResults + [true])
  }

  function FindTx(files: seq<TxFile>, id: u16): (i: nat)
    ensures i <= |files| && (i < |files| ==> files[i].id == id) && forall k | 0 <= k < i :: files[k].id != id
  {
    if files == [] || files[0].id == id then 0 else 1 + FindTx(files[1..], id)
  }

  function ConfirmIds(files: seq<TxFile>, ids: seq<u16>): seq<TxFile>
    decreases |ids|
  {
    if ids == [] then files
    else
      var i := FindTx(files, ids[0]);
      ConfirmIds(if i < |files| then files[i := files[i].(confirmed := true)] else files, ids[1..])
  }

  /** Both gates passed. */
  function Armed(t: Tx): Tx {
    if t.allConfirmed && t.requested then t.(phase := TxSending) else t
  }

  function OnConfirm(c: Conn, trans: u16, ids: seq<u16>): Conn {
    if c.tx.None? || c.tx.value.phase != TxWaitConfirm then c
    else if trans != c.tx.value.trans then Shutdown(c)
    else
      var files := ConfirmIds(c.tx.value.files, ids);
      c.(tx := Some(Armed(c.tx.value.(files := files,
                                      allConfirmed := forall i | 0 <= i < |files| :: files[i].confirmed))))
  }

  function OnRequest(c: Conn, trans: u16): Conn {
    if c.tx.None? || c.tx.value.phase != TxWaitConfirm then c
    else if trans != c.tx.value.trans then Shutdown(c)
    else c.(tx := Some(Armed(c.tx.value.(requested := true))))
  }

  function DropAcked(retrans: seq<nat>, last: nat): seq<nat> {
    if retrans == [] || retrans[0] > last then retrans else DropAcked(retrans[1..], last)
  }

  function AckFile(f: TxFile, last: u32): TxFile {
    if f.lastAcked == -1 || last > f.lastAcked then
      f.(lastAcked := last, retrans := DropAcked(f.retrans, last),
         ackedAll := f.ackedAll || f.total == 0 || last + 1 >= f.total)
    else f
  }

  function AckOne(files: seq<TxFile>, e: AckEntry): seq<TxFile> {
    var i := FindTx(files, e.id);
    if i == |files| || e.last == NO_SEQ then files else files[i := AckFile(files[i], e.last)]
  }

  function AckEach(files: seq<TxFile>, acks: seq<AckEntry>): seq<TxFile>
    decreases |acks|
  {
    if acks == [] then files else AckEach(AckOne(files, acks[0]), acks[1..])
  }

  function OnAck(c: Conn, trans: u16, acks: seq<AckEntry>): Conn {
    if c.tx.None? || (c.tx.value.phase != TxSending && c.tx.value.phase != TxWaitDone) then c
    else if trans != c.tx.value.trans then Shutdown(c)
    else
      var t := c.tx.value.(files := AckEach(c.tx.value.files, acks));
      MaybeFinish(c.(tx := Some(t)))
  }

  function MaybeFinish(c: Conn): (r: Conn)
    requires c.tx.Some?
    ensures r.tx.Some? && r.tx.value.files == c.tx.value.files
  {
    if c.tx.value.doneReceived && AllAcked(c.tx.value) then Finish(c) else c
  }

  function OnDone(c: Conn, trans: u16): Conn {
    if c.tx.None? || c.tx.value.phase == Failed || c.tx.value.phase == TxDone then c
    else if trans != c.tx.value.trans then Shutdown(c)
    else
      var t := c.tx.value;
      var phase := if t.phase == TxSending then TxWaitDone else t.phase;
      MaybeFinish(c.(tx := Some(t.(doneReceived := true, phase := phase))))
  }

  // ---------------------------------------------------------------- receiver

  predicate RxFileOk(f: RxFile) {
    && f.size <= MAX_SIZE && f.total == Blocks(f.size, BLOCK) && f.expected <= f.total && |f.disk| == f.size
    && (f.complete <==> f.expected == f.total)
  }

  predicate RxFilesOk(files: seq<RxFile>) {
    forall i | 0 <= i < |files| :: RxFileOk(files[i])
  }

  predicate RxOk(t: Rx) {
    RxFilesOk(t.files)
  }

  function AckOf(f: RxFile): AckEntry
    requires RxFileOk(f) && f.expected > 0
  {
    AckEntry(f.id, f.expected - 1)
  }

  /** The acks of one flush: always the first 39 files that have received anything. */
  function AckList(files: seq<RxFile>, room: nat): seq<AckEntry>
    requires RxFilesOk(files)
  {
    if files == [] || room == 0 then []
    else if files[0].expected > 0 then [AckOf(files[0])] + AckList(files[1..], room - 1)
    else AckList(files[1..], room)
  }

  function FlushAck(c: Conn): Conn
    requires c.rx.Some? && RxOk(c.rx.value)
  {
    var t := c.rx.value.(ackPending := false);
    var d := c.(rx := Some(t));
    var acks := AckList(t.files, MAX_ACKS);
    if acks == [] then d
    else
      var e := TrySend(d, Ack(t.trans, acks));
      if Works(d) then e else FailRx(e, false)
  }

  predicate AllComplete(files: seq<RxFile>) {
    forall i | 0 <= i < |files| :: files[i].complete
  }

  function RxIds(files: seq<RxFile>): seq<u16> {
    seq(|files|, i requires 0 <= i < |files| => files[i].id)
  }

  /** `shaOk` says that every checksum named by a file name matches. */
  function SendDone(c: Conn, shaOk: bool): Conn
    requires c.rx.Some?
  {
    var t := c.rx.value;
    if t.doneSent then c
    else if !shaOk then FailRx(TrySend(c, Rst(t.trans, RST_INTERNAL)), false)
    else
      var d := TrySend(c, Done(t.trans, RxIds(t.files)));
      if !Works(c) then FailRx(d, false)
      else d.(rx := Some(t.(doneSent := true, phase := RxWaitDoneAck)))
  }

  function OnDoneAck(c: Conn, trans: u16): Conn {
    if c.rx.None? || c.rx.value.phase != RxWaitDoneAck then c
    else if trans != c.rx.value.trans then Shutdown(c)
    else c.(rx := Some(c.rx.value.(phase := RxDone)), rxResults := c.rxResults + [true])
  }

  function NewRxFile(e: Entry): RxFile {
    var total := Blocks(e.size, BLOCK);
    RxFile(e.id, e.size, total, 0, total == 0, Zeros(e.size))
  }

  /** Open destinations in order; `opens` counts the ones that can be created. */
  function OpenFiles(hdr: seq<Entry>, opens: nat): seq<RxFile> {
    if hdr == [] || opens == 0 || hdr[0].size > MAX_SIZE then []
    else [NewRxFile(hdr[0])] + OpenFiles(hdr[1..], opens - 1)
  }

  function EntryIds(hdr: seq<Entry>): seq<u16> {
    seq(|hdr|, i requires 0 <= i < |hdr| => hdr[i].id)
  }

  function HeaderComplete(c: Conn, opens: nat): Conn
    requires c.rx.Some?
  {
    var t := c.rx.value;
    if t.phase != Idle then c
    else if !c.hasDir then FailRx(c, false)
    else
      var files := OpenFiles(t.hdr, opens);
      var d := c.(rx := Some(t.(files := files)));
      if |files| < |t.hdr| then FailRx(TrySend(d, Rst(t.trans, RST_NO_STORAGE)), false)
      else if |t.hdr| > MAX_FILES then FailRx(d, false) // the id list cannot be encoded
      else
        var sent := SendAll(d, [Confirm(t.trans, EntryIds(t.hdr)), Request(t.trans, EntryIds(t.hdr))]);
        if !sent.ok then FailRx(sent.conn, false)
        else sent.conn.(rx := Some(t.(files := files, phase := RxWaitData)))
  }

  predicate HasId(hdr: seq<Entry>, id: u16) {
    exists e | e in hdr :: e.id == id
  }

  /** Append the entries not seen before; the flag says that they did not overflow the announced number. */
  function Accumulate(hdr: seq<Entry>, es: seq<Entry>, node: u16): (seq<Entry>, bool)
    decreases |es|
  {
    if es == [] then (hdr, true)
    else if HasId(hdr, es[0].id) then Accumulate(hdr, es[1..], node)
    else if |hdr| + 1 > node then (hdr, false)
    else Accumulate(hdr + [es[0]], es[1..], node)
  }

  function FreshRx(trans: u16, node: u16): Rx {
    Rx(trans, Idle, node, [], [], false, false)
  }

  function OnHeader(c: Conn, trans: u16, node: u16, es: seq<Entry>, opens: nat): Conn {
    if c.rx.Some? && (c.rx.value.phase == Failed || c.rx.value.phase == RxDone) then c
    else if node == 0 then Shutdown(c)
    else
      var t := if c.rx.None? then FreshRx(trans, node) else c.rx.value;
      if t.trans != trans || t.node != node then Shutdown(c)
      else
        var (hdr, fits) := Accumulate(t.hdr, es, node);
        var d := c.(rx := Some(t.(hdr := hdr)));
        if !fits then Shutdown(d)
        else if |hdr| >= node then HeaderComplete(d, opens)
        else d
  }

  function FindRx(files: seq<RxFile>, id: u16): (i: nat)
    ensures i <= |files| && (i < |files| ==> files[i].id == id) && forall k | 0 <= k < i :: files[k].id != id
  {
    if files == [] || files[0].id == id then 0 else 1 + FindRx(files[1..], id)
  }

  /** The block is the next one and has the right size. */
  function WriteBlock(f: RxFile, payload: seq<byte>): RxFile
    requires RxFileOk(f) && f.expected < f.total && |payload| == BlockLen(f.size, f.expected)
  {
    BlockInside(f.size, f.expected);
    var off := f.expected * BLOCK;
    f.(disk := f.disk[..off] + payload + f.disk[off + |payload|..], expected := f.expected + 1,
       complete := f.expected + 1 >= f.total)
  }

  function OnData(c: Conn, trans: u16, id: u16, num: u32, payload: seq<byte>, writes: bool): Conn
    requires c.rx.Some? ==> RxOk(c.rx.value)
  {
    if c.rx.None? || c.rx.value.phase != RxWaitData || trans != c.rx.value.trans then Reset(c, trans, RST_INTERNAL)
    else
      var t := c.rx.value;
      var i := FindRx(t.files, id);
      if i == |t.files| then Reset(c, trans, RST_INTERNAL)
      else
        var f := t.files[i];
        assert RxFileOk(f);
        if num >= f.total then Reset(c, trans, RST_INTERNAL)
        else if num < f.expected then c
        else if num > f.expected then Reset(c, trans, RST_INTERNAL)
        else
          BlockInside(f.size, num);
          if |payload| != BlockLen(f.size, num) then Reset(c, trans, RST_INTERNAL)
          else if !writes then Reset(c, trans, RST_WRITE_ERROR)
          else c.(rx := Some(t.(files := t.files[i := WriteBlock(f, payload)], ackPending := true)))
  }

  // ---------------------------------------------------------------- dispatch

  /** The block size a SETTING leads to. */
  function BlockSize(frameSize: u32): nat {
    if 64 <= frameSize <= 14706 then frameSize else BLOCK
  }

  function OnSetting(c: Conn, mtu: u16): Conn {
    if c.state != Negotiating then c
    else if mtu == 0 then Reset(c, 0, RST_WITHOUT_SETTING)
    else c.(state := Ready)
  }

  function OnRst(c: Conn, trans: u16): Conn {
    if c.tx.Some? && c.tx.value.trans == trans then FailTx(c, false)
    else if c.rx.Some? && c.rx.value.trans == trans then FailRx(c, false)
    else c
  }

  /** Whether a frame of this type that cannot be decoded is looked at in the current state. */
  predicate Looks(c: Conn, kind: byte) {
    match kind
    case 1 => !(c.rx.Some? && (c.rx.value.phase == Failed || c.rx.value.phase == RxDone))
    case 2 => c.tx.Some? && c.tx.value.phase == TxWaitConfirm
    case 3 => c.tx.Some? && c.tx.value.phase == TxWaitConfirm
    case 5 => c.tx.Some? && (c.tx.value.phase == TxSending || c.tx.value.phase == TxWaitDone)
    case 6 => c.tx.Some? && c.tx.value.phase != Failed && c.tx.value.phase != TxDone
    case 7 => c.rx.Some? && c.rx.value.phase == RxWaitDoneAck
    case 8 => c.state == Negotiating
    case _ => true
  }

  /** What the file system does while a frame is handled. */
  datatype Disk = Disk(opens: nat, writes: bool)

  ghost predicate ConnOk(c: Conn) {
    && (c.tx.Some? ==> TxOk(c.tx.value) && c.tx.value.phase in {TxWaitConfirm, TxSending, TxWaitDone, TxDone, Failed})
    && (c.rx.Some? ==> RxOk(c.rx.value) && c.rx.value.phase in {Idle, RxWaitData, RxWaitDoneAck, RxDone, Failed})
    && (c.rx.Some? && c.rx.value.phase == RxWaitData ==> |c.rx.value.files| <= MAX_FILES)
  }

  function Handle(c: Conn, f: Frame, disk: Disk): Conn
    requires ConnOk(c)
  {
    if c.state == Closing then c
    else match f
      case Setting(mtu, _) => OnSetting(c, mtu)
      case FileHeader(trans, node, es) => OnHeader(c, trans, node, es, disk.opens)
      case Confirm(trans, ids) => OnConfirm(c, trans, ids)
      case Request(trans, _) => OnRequest(c, trans)
      case Data(trans, _, id, num, payload) => OnData(c, trans, id, num, payload, disk.writes)
      case Ack(trans, acks) => OnAck(c, trans, acks)
      case Done(trans, _) => OnDone(c, trans)
      case DoneAck(trans, _) => OnDoneAck(c, trans)
      case Rst(trans, _) => OnRst(c, trans)
      case Bad(kind) => if Looks(c, kind) then Shutdown(c) else c
      case Ignored => c
  }

  // ---------------------------------------------------------------- tick

  /** Which timers have elapsed, how many reads work, whether the checksums match. */
  datatype Env = Env(negotiation: bool, txTimeout: bool, rxTimeout: bool, retranDue: bool, retryDue: bool,
                     readable: nat, shaOk: bool)

  function TickRx(c: Conn, shaOk: bool): (r: Conn)
    requires c.rx.Some? ==> RxOk(c.rx.value)
    ensures r.tx == c.tx
  {
    if c.rx.None? || c.rx.value.phase != RxWaitData then c
    else
      var d := if c.rx.value.ackPending then FlushAck(c) else c;
      var t := d.rx.value;
      if !t.doneSent && t.files != [] && AllComplete(t.files) then SendDone(d, shaOk) else d
  }

  function AfterPump(c: Conn): (r: Conn)
    requires c.tx.Some?
    ensures r.tx.Some? && r.tx.value.files == c.tx.value.files
  {
    var t := c.tx.value;
    MaybeFinish(c.(tx := Some(if t.phase == TxSending && AllSent(t) then t.(phase := TxWaitDone) else t)))
  }

  function TickTx(c: Conn, due: bool, readable: nat): (r: Conn)
    requires c.tx.Some? ==> TxOk(c.tx.value)
    ensures r.tx.Some? ==> TxOk(r.tx.value)
  {
    if c.tx.None? || (c.tx.value.phase != TxSending && c.tx.value.phase != TxWaitDone) then c
    else AfterPump(Pump(c, due, SEND_BUDGET, readable))
  }

  /** Repeat the whole file list while the peer has not confirmed it. */
  function TickRetry(c: Conn, due: bool): Conn
    requires c.tx.Some? ==> TxOk(c.tx.value)
  {
    if c.tx.None? || c.tx.value.phase != TxWaitConfirm || !due then c
    else
      var t := c.tx.value.(retries := c.tx.value.retries + 1);
      var d := c.(tx := Some(t));
      if t.retries > MAX_RETRIES then FailTx(d, true)
      else
        var sent := SendAll(d, HeaderFrames(t.trans, |t.files|, EntriesOf(t.files)));
        if sent.ok then sent.conn else FailTx(sent.conn, false)
  }

  function Timeouts(c: Conn, env: Env): (r: Conn)
    requires ConnOk(c)
    ensures (r.tx.Some? ==> TxOk(r.tx.value)) && (r.rx.Some? ==> RxOk(r.rx.value))
  {
    var d := if env.txTimeout then FailTx(c, true) else c;
    if env.rxTimeout then FailRx(d, true) else d
  }

  function Tick(c: Conn, env: Env): Conn
    requires ConnOk(c)
  {
    if c.state == Closing then c
    else if c.state == Negotiating && env.negotiation then Shutdown(c)
    else
      var d := TickRx(Timeouts(c, env), env.shaOk);
      var e := TickTx(d, env.retranDue, env.readable);
      TickRetry(e, env.retryDue)
  }
}
