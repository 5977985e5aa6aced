/**
 * What ties a DFile sender to its receiver: the blocks of all files form one numbered stream, every frame
 * on the way tells the truth about it, and the frames on the way leave no gap.
 */
module DFileLink {
  import opened Bytes
  import opened DFileCore

  /** The one transfer a connection offers. */
  datatype Offered = Offered(trans: u16, items: seq<Item>)

  ghost predicate OfferOk(o: Offered) {
    && 0 < |o.items| <= MAX_FILES && ItemsOk(o.items)
    && (forall i | 0 <= i < |o.items| :: |o.items[i].content| <= MAX_SIZE)
  }

  function EntryAt(o: Offered, i: nat): Entry
    requires OfferOk(o) && i < |o.items|
  {
    Entry(i + 1, |o.items[i].content|, o.items[i].name)
  }

  function Entries(o: Offered): seq<Entry>
    requires OfferOk(o)
  {
    seq(|o.items|, i requires 0 <= i < |o.items| => EntryAt(o, i))
  }

  // ---------------------------------------------------------------- one stream of blocks

  function Total(o: Offered, i: nat): nat
    requires i < |o.items|
  {
    Blocks(|o.items[i].content|, BLOCK)
  }

  /** The number of the first block of file `i` in the stream. */
  function Base(o: Offered, i: nat): nat
    requires i <= |o.items|
  {
    if i == 0 then 0 else Base(o, i - 1) + Total(o, i - 1)
  }

  /** How many of the first `m` blocks of the stream belong to file `i`. */
  function Share(o: Offered, i: nat, m: nat): nat
    requires i < |o.items|
  {
    if m < Base(o, i) then 0 else if m > Base(o, i) + Total(o, i) then Total(o, i) else m - Base(o, i)
  }

  lemma {:induction false} BaseMono(o: Offered, i: nat, j: nat)
    requires i <= j <= |o.items|
    ensures Base(o, i) <= Base(o, j)
    ensures i < j ==> Base(o, i) + Total(o, i) <= Base(o, j)
    decreases j
  {
    if i < j {
      BaseMono(o, i, j - 1);
    }
  }

  /** The stream position of a block; taking it raises the share of its own file and of no other. */
  lemma ShareStep(o: Offered, i: nat, j: nat, m: nat)
    requires i < |o.items| && j < |o.items| && Base(o, i) <= m < Base(o, i) + Total(o, i)
    ensures Share(o, j, m + 1) == if i == j then Share(o, j, m) + 1 else Share(o, j, m)
    ensures m < Base(o, |o.items|)
  {
    BaseMono(o, i, |o.items|);
    if i < j {
      BaseMono(o, i, j);
    } else if j < i {
      BaseMono(o, j, i);
    }
  }

  /** When file `j` has a share, every earlier file has its whole share. */
  lemma ShareOrder(o: Offered, i: nat, j: nat, m: nat)
    requires i < j < |o.items| && Share(o, j, m) > 0
    ensures Share(o, i, m) == Total(o, i)
  {
    BaseMono(o, i, j);
  }

  // ---------------------------------------------------------------- gap-free sequences

  /** The stream interval a frame covers. */
  datatype Span = Span(lo: nat, hi: nat)

  const NOTHING := Span(0, 0)

  /** How far a receiver that has reached `e` gets. */
  function Reach(spans: seq<Span>, e: nat): nat {
    if spans == [] then e
    else
      var r := Reach(spans[..|spans| - 1], e);
      if spans[|spans| - 1].hi > r then spans[|spans| - 1].hi else r
  }

  /** Every interval starts inside what has been reached. */
  predicate NoGap(spans: seq<Span>, e: nat) {
    spans == [] || (NoGap(spans[..|spans| - 1], e) && spans[|spans| - 1].lo <= Reach(spans[..|spans| - 1], e))
  }

  lemma GapAppend(spans: seq<Span>, e: nat, s: Span)
    ensures NoGap(spans + [s], e) <==> NoGap(spans, e) && s.lo <= Reach(spans, e)
    ensures Reach(spans + [s], e) == if s.hi > Reach(spans, e) then s.hi else Reach(spans, e)
  {
    assert (spans + [s])[..|spans|] == spans;
  }

  function Bump(e: nat, s: Span): nat {
    if s.hi > e then s.hi else e
  }

  /** Taking the first frame. */
  lemma {:induction false} GapPop(spans: seq<Span>, e: nat)
    requires spans != [] && NoGap(spans, e)
    ensures spans[0].lo <= e && NoGap(spans[1..], Bump(e, spans[0]))
    ensures Reach(spans, e) == Reach(spans[1..], Bump(e, spans[0]))
    decreases |spans|
  {
    var k := |spans| - 1;
    if k == 0 {
      assert spans[..0] == [] && spans[1..] == [];
    } else {
      GapPop(spans[..k], e);
      assert spans[..k][1..] == spans[1..][..k - 1];
      assert spans[..k][0] == spans[0];
    }
  }

  function HeaderSpan(f: Frame): Span {
    if f.FileHeader? && f.entries != [] && f.entries[0].id > 0 then
      Span(f.entries[0].id - 1, f.entries[0].id - 1 + |f.entries|)
    else NOTHING
  }

  function DataSpan(o: Offered, f: Frame): Span {
    if f.Data? && 1 <= f.id <= |o.items| then Span(Base(o, f.id - 1) + f.num, Base(o, f.id - 1) + f.num + 1)
    else NOTHING
  }

  function HeaderSpans(fs: seq<Frame>): seq<Span> {
    seq(|fs|, i requires 0 <= i < |fs| => HeaderSpan(fs[i]))
  }

  function DataSpans(o: Offered, fs: seq<Frame>): seq<Span> {
    seq(|fs|, i requires 0 <= i < |fs| => DataSpan(o, fs[i]))
  }

  lemma SpansAppend(o: Offered, fs: seq<Frame>, f: Frame)
    ensures HeaderSpans(fs + [f]) == HeaderSpans(fs) + [HeaderSpan(f)]
    ensures DataSpans(o, fs + [f]) == DataSpans(o, fs) + [DataSpan(o, f)]
  {
  }

  lemma SpansPop(o: Offered, fs: seq<Frame>)
    requires fs != []
    ensures HeaderSpans(fs)[1..] == HeaderSpans(fs[1..]) && HeaderSpans(fs)[0] == HeaderSpan(fs[0])
    ensures DataSpans(o, fs)[1..] == DataSpans(o, fs[1..]) && DataSpans(o, fs)[0] == DataSpan(o, fs[0])
  {
  }

  // ---------------------------------------------------------------- the frames on the way

  predicate Forward(f: Frame) {
    f.FileHeader? || f.Data? || f.DoneAck?
  }

  predicate Backward(f: Frame) {
    f.Confirm? || f.Request? || f.Ack? || f.Done?
  }

  /** How many of the first `i` files are not empty. */
  function Rank(o: Offered, i: nat): nat
    requires i <= |o.items|
  {
    if i == 0 then 0 else Rank(o, i - 1) + (if Total(o, i - 1) > 0 then 1 else 0)
  }

  predicate Opened(o: Offered, files: seq<RxFile>) {
    |files| == |o.items|
  }

  /** The receiver has written everything. */
  predicate Written(o: Offered, files: seq<RxFile>) {
    Opened(o, files) && AllComplete(files)
  }

  ghost predicate HeaderOk(o: Offered, f: Frame)
    requires OfferOk(o) && f.FileHeader?
  {
    && f.node == |o.items| && f.entries != [] && 1 <= f.entries[0].id <= |o.items|
    && f.entries[0].id - 1 + |f.entries| <= |o.items|
    && f.entries == Entries(o)[f.entries[0].id - 1..f.entries[0].id - 1 + |f.entries|]
  }

  ghost predicate DataOk(o: Offered, f: Frame)
    requires f.Data?
  {
    && 1 <= f.id <= |o.items| && f.num < Total(o, f.id - 1)
    && f.payload == Block(o.items[f.id - 1].content, f.num)
  }

  ghost predicate FwdOk(o: Offered, done: bool, listening: bool, f: Frame)
    requires OfferOk(o)
  {
    && (Forward(f) ==> f.trans == o.trans)
    && (f.FileHeader? ==> HeaderOk(o, f))
    && (f.Data? ==> DataOk(o, f) && listening)
    && (f.DoneAck? ==> done)
  }

  ghost predicate AckOk(o: Offered, files: seq<RxFile>, e: AckEntry) {
    && 1 <= e.id <= |o.items| && Opened(o, files) && e.last < files[e.id - 1].expected
    && Rank(o, e.id - 1) < MAX_ACKS
  }

  ghost predicate BackOk(o: Offered, files: seq<RxFile>, f: Frame) {
    && (Backward(f) ==> f.trans == o.trans && Opened(o, files))
    && (f.Ack? ==> forall k | 0 <= k < |f.acks| :: AckOk(o, files, f.acks[k]))
    && (f.Done? ==> Written(o, files))
  }

  // ---------------------------------------------------------------- the two ends

  function FilesOf(rx: Option<Rx>): seq<RxFile> {
    if rx.None? then [] else rx.value.files
  }

  predicate IsPhase(tx: Option<Tx>, p: Phase) {
    tx.Some? && tx.value.phase == p
  }

  predicate RxPhase(rx: Option<Rx>, p: Phase) {
    rx.Some? && rx.value.phase == p
  }

  function HeaderCount(rx: Option<Rx>): nat {
    if rx.None? then 0 else |rx.value.hdr|
  }

  ghost predicate TxFileFor(o: Offered, i: nat, f: TxFile, m: nat)
    requires i < |o.items|
  {
    && TxFileOk(f) && f.id == i + 1 && f.name == o.items[i].name && f.content == o.items[i].content
    && f.next == Share(o, i, m)
  }

  ghost predicate TxFilesFor(o: Offered, files: seq<TxFile>, m: nat) {
    && |files| == |o.items| && m <= Base(o, |o.items|)
    && (forall i | 0 <= i < |files| :: TxFileFor(o, i, files[i], m))
  }

  ghost predicate TxPart(o: Offered, tx: Option<Tx>, m: nat) {
    tx.Some? ==> tx.value.trans == o.trans && TxFilesFor(o, tx.value.files, m)
  }

  /** What is written so far is the beginning of the source. */
  ghost predicate Faithful(content: seq<byte>, f: RxFile) {
    && |content| == f.size && RxFileOk(f)
    && f.disk[..Min(f.expected * BLOCK, f.size)] == content[..Min(f.expected * BLOCK, f.size)]
  }

  ghost predicate RxFileFor(o: Offered, i: nat, f: RxFile, e: nat)
    requires i < |o.items|
  {
    f.id == i + 1 && Faithful(o.items[i].content, f) && f.expected == Share(o, i, e)
  }

  ghost predicate RxFilesFor(o: Offered, files: seq<RxFile>, e: nat) {
    && |files| <= |o.items| && (|files| < |o.items| ==> e == 0) && e <= Base(o, |o.items|)
    && (forall i | 0 <= i < |files| :: RxFileFor(o, i, files[i], e))
  }

  ghost predicate RxHead(o: Offered, t: Rx)
    requires OfferOk(o)
  {
    && t.trans == o.trans && t.node == |o.items| && |t.hdr| <= |o.items| && t.hdr == Entries(o)[..|t.hdr|]
    && (t.phase == Idle ==> t.files == [])
    && (t.phase in {RxWaitData, RxWaitDoneAck, RxDone} ==> Opened(o, t.files) && |t.hdr| == |o.items|)
    && (t.phase in {RxWaitDoneAck, RxDone} ==> AllComplete(t.files))
    && t.phase in {Idle, RxWaitData, RxWaitDoneAck, RxDone, Failed}
  }

  ghost predicate RxPart(o: Offered, rx: Option<Rx>, e: nat)
    requires OfferOk(o)
  {
    (rx.Some? ==> RxHead(o, rx.value)) && RxFilesFor(o, FilesOf(rx), e)
  }

  /** What the sender knows about one file of the receiver. */
  ghost predicate AckedFor(o: Offered, i: nat, f: TxFile, files: seq<RxFile>)
    requires i < |o.items|
  {
    && (f.lastAcked >= 0 ==> Opened(o, files) && f.lastAcked < files[i].expected)
    && (f.ackedAll ==> Total(o, i) == 0 || (Opened(o, files) && Rank(o, i) < MAX_ACKS))
  }

  ghost predicate Cross(o: Offered, tx: Option<Tx>, files: seq<RxFile>, rxDone: bool) {
    && (tx.Some? ==>
          && tx.value.phase in {TxWaitConfirm, TxSending, TxWaitDone, TxDone, Failed}
          && (tx.value.phase in {TxSending, TxWaitDone, TxDone} ==> Opened(o, files))
          && (tx.value.doneReceived ==> Written(o, files))
          && (tx.value.phase == TxDone ==> tx.value.doneReceived && AllAcked(tx.value))
          && |tx.value.files| == |o.items|
          && (forall i | 0 <= i < |o.items| :: AckedFor(o, i, tx.value.files[i], files)))
    && (rxDone ==> IsPhase(tx, TxDone))
  }

  /** One direction of a connection: the sender, the frames on the way in both directions, the receiver. */
  datatype Wire = Wire(o: Option<Offered>, tx: Option<Tx>, fwd: seq<Frame>, rx: Option<Rx>, open: bool,
                       back: seq<Frame>)

  ghost predicate Fwd(o: Offered, done: bool, listening: bool, fwd: seq<Frame>)
    requires OfferOk(o)
  {
    forall i | 0 <= i < |fwd| :: FwdOk(o, done, listening, fwd[i])
  }

  ghost predicate Back(o: Offered, files: seq<RxFile>, back: seq<Frame>) {
    forall i | 0 <= i < |back| :: BackOk(o, files, back[i])
  }

  /** As long as the receiver reads, what is on the way continues what it has. */
  ghost predicate Flow(o: Offered, tx: Option<Tx>, fwd: seq<Frame>, rx: Option<Rx>, open: bool, e: nat, m: nat) {
    && (tx.None? ==> m == 0 && forall i | 0 <= i < |fwd| :: !fwd[i].Data?)
    && (open ==> NoGap(DataSpans(o, fwd), e) && Reach(DataSpans(o, fwd), e) == m)
    && (open && !RxPhase(rx, Failed) ==> NoGap(HeaderSpans(fwd), HeaderCount(rx)))
  }

  ghost predicate AgreeAt(w: Wire, e: nat, m: nat)
    requires w.o.Some? && OfferOk(w.o.value)
  {
    && TxPart(w.o.value, w.tx, m) && RxPart(w.o.value, w.rx, e)
    && Fwd(w.o.value, IsPhase(w.tx, TxDone), Opened(w.o.value, FilesOf(w.rx)), w.fwd)
    && Back(w.o.value, FilesOf(w.rx), w.back)
    && Cross(w.o.value, w.tx, FilesOf(w.rx), RxPhase(w.rx, RxDone))
    && Flow(w.o.value, w.tx, w.fwd, w.rx, w.open, e, m)
  }

  ghost predicate Silent(w: Wire) {
    && w.tx.None? && w.rx.None?
    && (forall i | 0 <= i < |w.fwd| :: !Forward(w.fwd[i])) && (forall i | 0 <= i < |w.back| :: !Backward(w.back[i]))
  }

  ghost predicate Agree(w: Wire) {
    if w.o.None? then Silent(w) else OfferOk(w.o.value) && exists e: nat, m: nat :: AgreeAt(w, e, m)
  }

  // ---------------------------------------------------------------- steps that concern neither end much

  /** A frame is appended: it starts inside what the frames before it reach. */
  lemma FlowSend(w: Wire, e: nat, m: nat, f: Frame)
    requires w.o.Some? && Flow(w.o.value, w.tx, w.fwd, w.rx, w.open, e, m)
    requires w.tx.None? ==> !f.Data?
    requires w.open ==> DataSpan(w.o.value, f).lo <= m
    requires w.open && !RxPhase(w.rx, Failed) ==> HeaderSpan(f).lo <= Reach(HeaderSpans(w.fwd), HeaderCount(w.rx))
    ensures Flow(w.o.value, w.tx, w.fwd + [f], w.rx, w.open, e, Bump(m, DataSpan(w.o.value, f)))
  {
    hide HeaderSpan, DataSpans, HeaderSpans;
    SpansAppend(w.o.value, w.fwd, f);
    GapAppend(DataSpans(w.o.value, w.fwd), e, DataSpan(w.o.value, f));
    GapAppend(HeaderSpans(w.fwd), HeaderCount(w.rx), HeaderSpan(f));
    hide Reach, NoGap, Base;
  }

  /** A frame of no concern to this direction is sent. */
  lemma SendNeutral(w: Wire, f: Frame)
    requires Agree(w) && !Forward(f)
    ensures Agree(w.(fwd := w.fwd + [f]))
  {
    hide TxPart, RxPart, Cross, Flow, Back;
    if w.o.Some? {
      var e: nat, m: nat :| AgreeAt(w, e, m);
      FlowSend(w, e, m, f);
      assert AgreeAt(w.(fwd := w.fwd + [f]), e, m);
    }
  }

  lemma ReplyNeutral(w: Wire, f: Frame)
    requires Agree(w) && !Backward(f)
    ensures Agree(w.(back := w.back + [f]))
  {
    hide TxPart, RxPart, Cross, Flow, Fwd;
    if w.o.Some? {
      var e: nat, m: nat :| AgreeAt(w, e, m);
      assert AgreeAt(w.(back := w.back + [f]), e, m);
    }
  }

  /** A frame of no concern to this direction is taken, or any backward frame. */
  lemma TakeNeutral(w: Wire)
    requires Agree(w)
    ensures w.back != [] ==> Agree(w.(back := w.back[1..]))
    ensures w.fwd != [] && !Forward(w.fwd[0]) ==> Agree(w.(fwd := w.fwd[1..]))
  {
    if w.o.Some? {
      var e: nat, m: nat :| AgreeAt(w, e, m);
      if w.back != [] {
        BackPop(w, e, m);
      }
      if w.fwd != [] && !Forward(w.fwd[0]) {
        PopFwd(w, e, m);
      }
    }
  }

  lemma BackPop(w: Wire, e: nat, m: nat)
    requires w.o.Some? && OfferOk(w.o.value) && AgreeAt(w, e, m) && w.back != []
    ensures AgreeAt(w.(back := w.back[1..]), e, m)
  {
    hide TxPart, RxPart, Cross, Reach, NoGap, Fwd;
  }

  lemma PopFwd(w: Wire, e: nat, m: nat)
    requires w.o.Some? && OfferOk(w.o.value) && AgreeAt(w, e, m) && w.fwd != [] && !Forward(w.fwd[0])
    ensures AgreeAt(w.(fwd := w.fwd[1..]), e, m)
  {
    hide TxPart, RxPart, Cross, Back, Flow;
    FlowPop(w.o.value, w.tx, w.fwd, w.rx, w.open, e, m);
  }

  lemma FlowPop(o: Offered, tx: Option<Tx>, fwd: seq<Frame>, rx: Option<Rx>, open: bool, e: nat, m: nat)
    requires Flow(o, tx, fwd, rx, open, e, m) && fwd != [] && !Forward(fwd[0])
    ensures Flow(o, tx, fwd[1..], rx, open, e, m)
  {
    SpansPop(o, fwd);
    if open {
      GapPop(DataSpans(o, fwd), e);
      if !RxPhase(rx, Failed) {
        GapPop(HeaderSpans(fwd), HeaderCount(rx));
      }
    }
    hide Reach, NoGap, HeaderSpans, DataSpans;
  }

  /** The receiving connection stops reading; what it took last does not matter. */
  lemma StopReading(w: Wire)
    requires Agree(w)
    ensures Agree(w.(open := false))
    ensures w.fwd != [] ==> Agree(w.(open := false, fwd := w.fwd[1..]))
  {
    if w.o.Some? {
      var e: nat, m: nat :| AgreeAt(w, e, m);
      hide TxPart, RxPart, Cross, Reach, NoGap, DataSpans, HeaderSpans;
      assert AgreeAt(w.(open := false), e, m);
      if w.fwd != [] {
        assert AgreeAt(w.(open := false, fwd := w.fwd[1..]), e, m);
      }
    }
  }

  lemma TxFails(w: Wire)
    requires Agree(w) && w.tx.Some? && !Terminal(w.tx.value.phase)
    ensures Agree(w.(tx := Some(w.tx.value.(phase := Failed))))
  {
    var e: nat, m: nat :| AgreeAt(w, e, m);
    hide TxFilesFor, RxPart, Reach, NoGap, DataSpans, HeaderSpans, AckedFor, FwdOk, BackOk;
    assert AgreeAt(w.(tx := Some(w.tx.value.(phase := Failed))), e, m);
  }

  lemma RxFails(w: Wire)
    requires Agree(w) && w.rx.Some? && !Terminal(w.rx.value.phase)
    ensures Agree(w.(rx := Some(w.rx.value.(phase := Failed))))
  {
    var e: nat, m: nat :| AgreeAt(w, e, m);
    hide TxPart, RxFilesFor, Reach, NoGap, DataSpans, HeaderSpans, AckedFor, FwdOk, BackOk;
    assert AgreeAt(w.(rx := Some(w.rx.value.(phase := Failed))), e, m);
  }

  // ---------------------------------------------------------------- the sender

  lemma {:induction false} QuietSpans(spans: seq<Span>)
    requires forall i | 0 <= i < |spans| :: spans[i] == NOTHING
    ensures NoGap(spans, 0) && Reach(spans, 0) == 0
    decreases |spans|
  {
    if spans != [] {
      QuietSpans(spans[..|spans| - 1]);
    }
  }

  /** The application offers files. */
  lemma OfferMade(w: Wire, o: Offered)
    requires Agree(w) && w.o.None? && OfferOk(o)
    ensures Agree(w.(o := Some(o)))
  {
    QuietSpans(DataSpans(o, w.fwd));
    QuietSpans(HeaderSpans(w.fwd));
    hide Reach, NoGap, DataSpans, HeaderSpans;
    assert AgreeAt(w.(o := Some(o)), 0, 0);
  }

  lemma TransferStarts(w: Wire, t: Tx)
    requires Agree(w) && w.o.Some? && w.tx.None?
    requires t == NewTx(w.o.value.trans, w.o.value.items)
    ensures Agree(w.(tx := Some(t)))
  {
    var e: nat, m: nat :| AgreeAt(w, e, m);
    forall i | 0 <= i < |t.files|
      ensures TxFileFor(w.o.value, i, t.files[i], m) && AckedFor(w.o.value, i, t.files[i], FilesOf(w.rx))
    {
    }
    hide Reach, NoGap, DataSpans, HeaderSpans, RxPart, FwdOk, BackOk, TxFileFor, AckedFor;
    assert AgreeAt(w.(tx := Some(t)), e, m);
  }

  /** The header frames on the way cover the first `k` entries. */
  ghost predicate Covered(w: Wire, k: nat) {
    w.open && !RxPhase(w.rx, Failed) ==> k <= Reach(HeaderSpans(w.fwd), HeaderCount(w.rx))
  }

  lemma HeaderSent(w: Wire, k: nat, n: nat)
    requires Agree(w) && w.o.Some? && Covered(w, k) && 0 < n && k + n <= |w.o.value.items|
    ensures var f := FileHeader(w.o.value.trans, |w.o.value.items|, Entries(w.o.value)[k..k + n]);
            Agree(w.(fwd := w.fwd + [f])) && Covered(w.(fwd := w.fwd + [f]), k + n)
  {
    var e: nat, m: nat :| AgreeAt(w, e, m);
    hide AgreeAt, Covered;
    HeaderFits(w, e, m, k, n);
    HeaderCovers(w, k, n);
  }

  lemma HeaderFits(w: Wire, e: nat, m: nat, k: nat, n: nat)
    requires w.o.Some? && OfferOk(w.o.value) && AgreeAt(w, e, m) && Covered(w, k)
    requires 0 < n && k + n <= |w.o.value.items|
    ensures var f := FileHeader(w.o.value.trans, |w.o.value.items|, Entries(w.o.value)[k..k + n]);
            AgreeAt(w.(fwd := w.fwd + [f]), e, m)
  {
    hide TxPart, RxPart, Cross, Back, Flow;
    var f := FileHeader(w.o.value.trans, |w.o.value.items|, Entries(w.o.value)[k..k + n]);
    assert f.entries[0] == EntryAt(w.o.value, k);
    FlowSend(w, e, m, f);
    assert HeaderOk(w.o.value, f);
  }

  lemma HeaderCovers(w: Wire, k: nat, n: nat)
    requires w.o.Some? && OfferOk(w.o.value) && Covered(w, k) && 0 < n && k + n <= |w.o.value.items|
    ensures var f := FileHeader(w.o.value.trans, |w.o.value.items|, Entries(w.o.value)[k..k + n]);
            Covered(w.(fwd := w.fwd + [f]), k + n)
  {
    var f := FileHeader(w.o.value.trans, |w.o.value.items|, Entries(w.o.value)[k..k + n]);
    assert f.entries[0] == EntryAt(w.o.value, k);
    SpansAppend(w.o.value, w.fwd, f);
    GapAppend(HeaderSpans(w.fwd), HeaderCount(w.rx), HeaderSpan(f));
    hide Reach, NoGap, HeaderSpans, DataSpans;
  }

  /** Any number of the frames of the list, in order. */
  lemma {:induction false} HeadersSent(w: Wire, k: nat, j: nat)
    requires Agree(w) && w.o.Some? && k <= |w.o.value.items| && Covered(w, k)
    requires j <= |HeaderFrames(w.o.value.trans, |w.o.value.items|, Entries(w.o.value)[k..])|
    ensures Agree(w.(fwd := w.fwd + HeaderFrames(w.o.value.trans, |w.o.value.items|, Entries(w.o.value)[k..])[..j]))
    decreases j
  {
    hide Agree, Covered, OfferOk, EntryAt, Fitting;
    AgreeOffer(w);
    var o := w.o.value;
    var rest := Entries(o)[k..];
    var frames := HeaderFrames(o.trans, |o.items|, rest);
    if j == 0 {
      assert w.fwd + frames[..0] == w.fwd;
    } else {
      var n := Fitting(rest, HEADER_CAP - 10);
      assert rest[..n] == Entries(o)[k..k + n] && rest[n..] == Entries(o)[k + n..];
      HeaderSent(w, k, n);
      var w' := w.(fwd := w.fwd + [frames[0]]);
      var more := HeaderFrames(o.trans, |o.items|, Entries(o)[k + n..]);
      HeadersSent(w', k + n, j - 1);
      assert w'.fwd + more[..j - 1] == w.fwd + frames[..j];
    }
  }

  lemma AgreeOffer(w: Wire)
    requires Agree(w) && w.o.Some?
    ensures OfferOk(w.o.value)
  {
  }

  lemma {:induction false} AllTaken(o: Offered, i: nat, m: nat)
    requires i <= |o.items| && forall k | 0 <= k < i :: Share(o, k, m) == Total(o, k)
    ensures Base(o, i) <= m
  {
    hide Total;
    if i > 0 {
      AllTaken(o, i - 1, m);
    }
  }

  /** Where in the stream the next block of the picked file lies. */
  lemma {:induction false} PickedBlock(o: Offered, files: seq<TxFile>, m: nat, due: bool)
    requires TxFilesFor(o, files, m) && Pick(files, due) < |files|
    ensures var i := Pick(files, due); var f := files[i];
            && TxFileOk(f) && Wants(f, true)
            && DataSpan(o, DataFrame(o.trans, f)).lo <= m
            && Bump(m, DataSpan(o, DataFrame(o.trans, f))) == (if f.next < f.total then m + 1 else m)
            && (f.next < f.total ==> Base(o, i) <= m < Base(o, i) + Total(o, i))
  {
    hide Total, Blocks, Block, TxFileOk, Base, TxFileFor;
    var i := Pick(files, due);
    var f := files[i];
    PlaceOf(o, i, f, m);
    NextBlockInFile(f);
    if f.next < f.total {
      forall k | 0 <= k < i
        ensures Share(o, k, m) == Total(o, k)
      {
        assert !Wants(files[k], due);
        PlaceOf(o, k, files[k], m);
      }
      AllTaken(o, i, m);
    }
  }

  lemma PlaceOf(o: Offered, i: nat, f: TxFile, m: nat)
    requires i < |o.items| && TxFileFor(o, i, f, m)
    ensures TxFileOk(f) && f.id == i + 1 && f.total == Total(o, i) && f.next == Share(o, i, m) && f.next <= f.total
    ensures f.retrans != [] ==> f.retrans[0] < f.next
  {
  }

  lemma AdvancedFiles(o: Offered, files: seq<TxFile>, m: nat, i: nat)
    requires TxFilesFor(o, files, m) && i < |files| && Wants(files[i], true)
    requires files[i].next < files[i].total ==> Base(o, i) <= m < Base(o, i) + Total(o, i)
    ensures TxFilesFor(o, files[i := Advance(files[i])], if files[i].next < files[i].total then m + 1 else m)
  {
    var f := files[i];
    assert TxFileFor(o, i, f, m);
    AdvanceKeeps(f);
    var files' := files[i := Advance(f)];
    var m' := if f.next < f.total then m + 1 else m;
    forall k | 0 <= k < |files'|
      ensures TxFileFor(o, k, files'[k], m')
    {
      assert TxFileFor(o, k, files[k], m);
      if f.next < f.total {
        ShareStep(o, i, k, m);
      }
    }
    if f.next < f.total {
      ShareStep(o, i, i, m);
    }
  }

  /** The pump sends one block. */
  lemma {:induction false} DataSent(w: Wire, due: bool)
    requires Agree(w) && w.tx.Some? && w.tx.value.phase in {TxSending, TxWaitDone}
    requires Pick(w.tx.value.files, due) < |w.tx.value.files|
    ensures var t := w.tx.value; var i := Pick(t.files, due);
            && TxFileOk(t.files[i]) && Wants(t.files[i], true)
            && Agree(w.(tx := Some(SetFile(t, i, Advance(t.files[i]))),
                        fwd := w.fwd + [DataFrame(t.trans, t.files[i])]))
  {
    var e: nat, m: nat :| AgreeAt(w, e, m);
    hide TxFilesFor, AckedFor, TxFileOk, Advance, Wants, DataSpan, TxFileFor, HeaderSpan, DataFrame, Agree, AgreeAt;
    var o := w.o.value;
    var t := w.tx.value;
    var i := Pick(t.files, due);
    var f := t.files[i];
    PartsAt(w, e, m, i);
    PickedBlock(o, t.files, m, due);
    AdvancedFiles(o, t.files, m, i);
    DataFrameOk(o, i, f, t.trans, m);
    FlowSend(w, e, m, DataFrame(t.trans, f));
    AdvanceAcked(f);
    AckedSame(o, i, f, Advance(f), FilesOf(w.rx));
    DataAssemble(w, e, m, if f.next < f.total then m + 1 else m, i, Advance(f), DataFrame(t.trans, f));
  }

  lemma PartsAt(w: Wire, e: nat, m: nat, i: nat)
    requires w.o.Some? && OfferOk(w.o.value) && AgreeAt(w, e, m) && w.tx.Some? && i < |w.tx.value.files|
    ensures TxFilesFor(w.o.value, w.tx.value.files, m) && Flow(w.o.value, w.tx, w.fwd, w.rx, w.open, e, m)
    ensures w.tx.value.trans == w.o.value.trans && i < |w.o.value.items|
    ensures TxFileFor(w.o.value, i, w.tx.value.files[i], m)
    ensures AckedFor(w.o.value, i, w.tx.value.files[i], FilesOf(w.rx))
  {
    hide RxPart, Fwd, Back, Flow, TxFileFor, AckedFor;
  }

  lemma DataAssemble(w: Wire, e: nat, m: nat, m': nat, i: nat, g: TxFile, f: Frame)
    requires w.o.Some? && OfferOk(w.o.value) && AgreeAt(w, e, m)
    requires w.tx.Some? && w.tx.value.phase in {TxSending, TxWaitDone} && i < |w.tx.value.files|
    requires TxFilesFor(w.o.value, w.tx.value.files[i := g], m') && i < |w.o.value.items|
    requires Flow(w.o.value, w.tx, w.fwd + [f], w.rx, w.open, e, m') && FwdOk(w.o.value, false, true, f)
    requires AckedFor(w.o.value, i, g, FilesOf(w.rx))
    ensures Agree(w.(tx := Some(SetFile(w.tx.value, i, g)), fwd := w.fwd + [f]))
  {
    hide RxPart, Back, Flow, TxFilesFor, AckedFor, FwdOk;
    var w' := w.(tx := Some(SetFile(w.tx.value, i, g)), fwd := w.fwd + [f]);
    FlowTx(w.o.value, w.tx, w'.tx, w'.fwd, w.rx, w.open, e, m');
    assert AgreeAt(w', e, m');
  }

  lemma FlowTx(o: Offered, tx: Option<Tx>, tx': Option<Tx>, fwd: seq<Frame>, rx: Option<Rx>, open: bool, e: nat, m: nat)
    requires Flow(o, tx, fwd, rx, open, e, m) && tx'.Some?
    ensures Flow(o, tx', fwd, rx, open, e, m)
  {
  }

  lemma DataFrameOk(o: Offered, i: nat, f: TxFile, trans: u16, m: nat)
    requires OfferOk(o) && i < |o.items| && TxFileFor(o, i, f, m) && Wants(f, true) && trans == o.trans
    ensures FwdOk(o, false, true, DataFrame(trans, f)) && HeaderSpan(DataFrame(trans, f)) == NOTHING
  {
    NextBlockInFile(f);
  }

  lemma AdvanceAcked(f: TxFile)
    requires Wants(f, true)
    ensures Advance(f).lastAcked == f.lastAcked && Advance(f).ackedAll == f.ackedAll
  {
  }

  lemma AckedSame(o: Offered, i: nat, f: TxFile, g: TxFile, files: seq<RxFile>)
    requires i < |o.items| && AckedFor(o, i, f, files) && g.lastAcked == f.lastAcked && g.ackedAll == f.ackedAll
    ensures AckedFor(o, i, g, files)
  {
  }
}
